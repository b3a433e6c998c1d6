/** The flex scanner of fipa_acl.l: its rules as regular languages, flex's way of
    choosing among them (longest match, then the earlier rule), and the scanner
    that decides by the first character. */
module AclLexer {
  import opened Options
  import opened AclMessages

  /** The tokens whose rule is a fixed text. */
  datatype Literal =
    | LParen | RParen
    | PSender | PReceiver | PContent | PReplyWith | PInReplyTo | PReplyBy
    | PLanguage | PEncoding | POntology | PProtocol | PConversationId
    | PName | PAddresses | PResolvers
    | KPerformative(p: Performative)
    | KAgentIdentifier | KSet | KSequence

  datatype Token = Lit(lit: Literal) | Word(word: string) | Str(value: string)

  /** One rule of the rules section. */
  datatype Rule = Blank | Newline | Fixed(lit: Literal) | Quoted | Name | AnyChar

  // ----- the rules -----

  predicate IsBlank(c: char) {
    c == ' ' || c == '\t' || c == '\r'
  }

  predicate IsNewline(c: char) {
    c == '\n'
  }

  predicate IsAlnum(c: char) {
    'a' <= c <= 'z' || 'A' <= c <= 'Z' || '0' <= c <= '9'
  }

  predicate IsWordChar(c: char) {
    IsAlnum(c) || c == '_' || c == '-' || c == '.' || c == '@' || c == ':' || c == '/'
  }

  /** The text of a fixed rule, as written in the rules section. */
  function KeywordText(p: Performative): string {
    match p
    case AcceptProposal => "accept-proposal"
    case Agree => "agree"
    case Cancel => "cancel"
    case Cfp => "cfp"
    case Confirm => "confirm"
    case Disconfirm => "disconfirm"
    case Failure => "failure"
    case InformIf => "inform-if"
    case InformRef => "inform-ref"
    case Inform => "inform"
    case NotUnderstood => "not-understood"
    case Propagate => "propagate"
    case Propose => "propose"
    case Proxy => "proxy"
    case QueryRef => "query-ref"
    case Refuse => "refuse"
    case RejectProposal => "reject-proposal"
    case RequestWhen => "request-when"
    case RequestWhenever => "request-whenever"
    case Request => "request"
    case Subscribe => "subscribe"
    case Unknown => ""
  }

  function Text(lit: Literal): string {
    match lit
    case LParen => "("
    case RParen => ")"
    case PSender => ":sender"
    case PReceiver => ":receiver"
    case PContent => ":content"
    case PReplyWith => ":reply-with"
    case PInReplyTo => ":in-reply-to"
    case PReplyBy => ":reply-by"
    case PLanguage => ":language"
    case PEncoding => ":encoding"
    case POntology => ":ontology"
    case PProtocol => ":protocol"
    case PConversationId => ":conversation-id"
    case PName => ":name"
    case PAddresses => ":addresses"
    case PResolvers => ":resolvers"
    case KPerformative(p) => KeywordText(p)
    case KAgentIdentifier => "agent-identifier"
    case KSet => "set"
    case KSequence => "sequence"
  }

  /** The position of a performative's rule in the rules section. */
  function KeywordLine(p: Performative): nat {
    match p
    case AcceptProposal => 44
    case Agree => 45
    case Cancel => 46
    case Cfp => 47
    case Confirm => 48
    case Disconfirm => 49
    case Failure => 50
    case InformIf => 51
    case InformRef => 52
    case Inform => 53
    case NotUnderstood => 54
    case Propagate => 55
    case Propose => 56
    case Proxy => 57
    case QueryRef => 58
    case Refuse => 59
    case RejectProposal => 60
    case RequestWhen => 61
    case RequestWhenever => 62
    case Request => 63
    case Subscribe => 64
    case Unknown => 65
  }

  /** The position of a rule in the rules section: the smaller one wins a tie. */
  function RuleLine(r: Rule): nat {
    match r
    case Blank => 23
    case Newline => 24
    case Fixed(LParen) => 26
    case Fixed(RParen) => 27
    case Fixed(PSender) => 29
    case Fixed(PReceiver) => 30
    case Fixed(PContent) => 31
    case Fixed(PReplyWith) => 32
    case Fixed(PInReplyTo) => 33
    case Fixed(PReplyBy) => 34
    case Fixed(PLanguage) => 35
    case Fixed(PEncoding) => 36
    case Fixed(POntology) => 37
    case Fixed(PProtocol) => 38
    case Fixed(PConversationId) => 39
    case Fixed(PName) => 40
    case Fixed(PAddresses) => 41
    case Fixed(PResolvers) => 42
    case Fixed(KPerformative(p)) => KeywordLine(p)
    case Fixed(KAgentIdentifier) => 66
    case Fixed(KSet) => 67
    case Fixed(KSequence) => 68
    case Quoted => 70
    case Name => 91
    case AnyChar => 95
  }

  ghost predicate All(s: string, p: char -> bool) {
    forall i :: 0 <= i < |s| ==> p(s[i])
  }

  /** The body of a quoted string: any run of escapes and plain characters. */
  predicate Items(b: string) {
    if b == "" then true
    else if b[0] == '\\' then |b| >= 2 && b[1] != '\n' && Items(b[2..])
    else b[0] != '\"' && Items(b[1..])
  }

  /** t is in the language of the rule's regular expression. */
  ghost predicate Matches(r: Rule, t: string) {
    match r
    case Blank => t != "" && All(t, IsBlank)
    case Newline => t != "" && All(t, IsNewline)
    case Fixed(lit) => t != "" && t == Text(lit)
    case Quoted => |t| >= 2 && t[0] == '\"' && t[|t| - 1] == '\"' && Items(t[1..|t| - 1])
    case Name => t != "" && IsAlnum(t[0]) && All(t, IsWordChar)
    case AnyChar => |t| == 1 && t[0] != '\n'
  }

  /** Rule r' with n' characters does not win over rule r with n characters. */
  ghost predicate NotBeaten(s: string, r: Rule, n: nat, r': Rule, n': nat) {
    0 < n' <= |s| && Matches(r', s[..n']) ==>
      n' < n || (n' == n && RuleLine(r) <= RuleLine(r'))
  }

  /** Rule r with n characters is what flex chooses at the head of s: nothing matches
      more characters, and no earlier rule matches as many. */
  ghost predicate Chosen(s: string, r: Rule, n: nat) {
    && 0 < n <= |s|
    && Matches(r, s[..n])
    && forall r', n': nat :: NotBeaten(s, r, n, r', n')
  }

  // ----- the scanner -----

  /** The length of the longest prefix all of whose characters satisfy p. */
  function Span(s: string, p: char -> bool): (n: nat)
    ensures n <= |s|
    ensures forall i :: 0 <= i < n ==> p(s[i])
    ensures n < |s| ==> !p(s[n])
  {
    if s == "" || !p(s[0]) then 0 else 1 + Span(s[1..], p)
  }

  /** The position of the quote that closes the string whose body starts b. */
  function Close(b: string): (r: Option<nat>)
    ensures r.Some? ==> r.value < |b| && b[r.value] == '\"' && Items(b[..r.value])
  {
    if b == "" then None
    else if b[0] == '\"' then Some(0)
    else if b[0] == '\\' then
      if |b| < 2 || b[1] == '\n' then None
      else
        var rest := Close(b[2..]);
        if rest.None? then None
        else
          assert b[..2 + rest.value][2..] == b[2..][..rest.value];
          Some(2 + rest.value)
    else
      var rest := Close(b[1..]);
      if rest.None? then None
      else
        assert b[..1 + rest.value][1..] == b[1..][..rest.value];
        Some(1 + rest.value)
  }

  function KeywordAToI(w: string): Option<Literal> {
    if w == "accept-proposal" then Some(KPerformative(AcceptProposal))
    else if w == "agree" then Some(KPerformative(Agree))
    else if w == "cancel" then Some(KPerformative(Cancel))
    else if w == "cfp" then Some(KPerformative(Cfp))
    else if w == "confirm" then Some(KPerformative(Confirm))
    else if w == "disconfirm" then Some(KPerformative(Disconfirm))
    else if w == "failure" then Some(KPerformative(Failure))
    else if w == "inform-if" then Some(KPerformative(InformIf))
    else if w == "inform-ref" then Some(KPerformative(InformRef))
    else if w == "inform" then Some(KPerformative(Inform))
    else None
  }

  function KeywordNToS(w: string): Option<Literal> {
    if w == "not-understood" then Some(KPerformative(NotUnderstood))
    else if w == "propagate" then Some(KPerformative(Propagate))
    else if w == "propose" then Some(KPerformative(Propose))
    else if w == "proxy" then Some(KPerformative(Proxy))
    else if w == "query-ref" then Some(KPerformative(QueryRef))
    else if w == "refuse" then Some(KPerformative(Refuse))
    else if w == "reject-proposal" then Some(KPerformative(RejectProposal))
    else if w == "request-when" then Some(KPerformative(RequestWhen))
    else if w == "request-whenever" then Some(KPerformative(RequestWhenever))
    else if w == "request" then Some(KPerformative(Request))
    else if w == "subscribe" then Some(KPerformative(Subscribe))
    else None
  }

  function PerformativeKeyword(w: string): Option<Literal> {
    if KeywordAToI(w).Some? then KeywordAToI(w) else KeywordNToS(w)
  }

  /** The fixed rule for a word, if the word is a keyword. */
  function KeywordOf(w: string): Option<Literal> {
    if w == "agent-identifier" then Some(KAgentIdentifier)
    else if w == "set" then Some(KSet)
    else if w == "sequence" then Some(KSequence)
    else PerformativeKeyword(w)
  }

  /** The only parameter keyword that s can begin with. */
  function ParamGuess(s: string): Option<Literal> {
    if |s| < 5 then None
    else match s[1]
      case 's' => Some(PSender)
      case 'i' => Some(PInReplyTo)
      case 'l' => Some(PLanguage)
      case 'e' => Some(PEncoding)
      case 'o' => Some(POntology)
      case 'p' => Some(PProtocol)
      case 'n' => Some(PName)
      case 'a' => Some(PAddresses)
      case 'c' => Some(if s[4] == 't' then PContent else PConversationId)
      case 'r' =>
        if s[3] == 'c' then Some(PReceiver)
        else if s[3] == 's' then Some(PResolvers)
        else if |s| > 7 && s[7] == 'w' then Some(PReplyWith)
        else Some(PReplyBy)
      case _ => None
  }

  /** The parameter keyword at the head of s. */
  function ParamAt(s: string): (r: Option<Literal>)
    ensures r.Some? ==> Text(r.value) <= s
  {
    var guess := ParamGuess(s);
    if guess.Some? && Text(guess.value) <= s then guess else None
  }

  datatype Scanned = Scanned(rule: Rule, len: nat)

  /** The next lexeme of a non-empty input. */
  function Scan(s: string): Scanned
    requires s != ""
  {
    var c := s[0];
    if IsBlank(c) then Scanned(Blank, Span(s, IsBlank))
    else if c == '\n' then Scanned(Newline, Span(s, IsNewline))
    else if c == '(' then Scanned(Fixed(LParen), 1)
    else if c == ')' then Scanned(Fixed(RParen), 1)
    else if c == ':' then
      var param := ParamAt(s);
      if param.Some? then Scanned(Fixed(param.value), |Text(param.value)|) else Scanned(AnyChar, 1)
    else if c == '\"' then
      var close := Close(s[1..]);
      if close.Some? then Scanned(Quoted, close.value + 2) else Scanned(AnyChar, 1)
    else if IsAlnum(c) then
      var n := Span(s, IsWordChar);
      var keyword := KeywordOf(s[..n]);
      if keyword.Some? then Scanned(Fixed(keyword.value), n) else Scanned(Name, n)
    else Scanned(AnyChar, 1)
  }

  // ----- the scanner chooses as flex does -----

  predicate IsParam(lit: Literal) {
    match lit
    case PSender | PReceiver | PContent | PReplyWith | PInReplyTo | PReplyBy
       | PLanguage | PEncoding | POntology | PProtocol | PConversationId
       | PName | PAddresses | PResolvers => true
    case _ => false
  }

  predicate IsKeyword(lit: Literal) {
    match lit
    case KPerformative(p) => p != Unknown
    case KAgentIdentifier | KSet | KSequence => true
    case _ => false
  }

  /** Every performative's rule is the text the printer writes. */
  lemma KeywordTextIsPrinted(p: Performative)
    requires p != Unknown
    ensures KeywordText(p) == PerformativeToString(p)
  {
  }

  lemma KeywordTextIsWord(p: Performative)
    requires p != Unknown
    ensures var t := KeywordText(p); t != "" && IsAlnum(t[0])
    ensures forall c :: c in KeywordText(p) ==> 'a' <= c <= 'z' || c == '-'
  {
  }

  lemma KeywordCharsAreWordChars(t: string)
    requires forall c :: c in t ==> 'a' <= c <= 'z' || c == '-'
    ensures All(t, IsWordChar)
  {
    forall i | 0 <= i < |t| ensures IsWordChar(t[i]) {
      assert t[i] in t;
    }
  }

  lemma TextIsWord(lit: Literal)
    requires IsKeyword(lit)
    ensures Text(lit) != "" && IsAlnum(Text(lit)[0]) && All(Text(lit), IsWordChar)
  {
    if lit.KPerformative? {
      KeywordTextIsWord(lit.p);
      KeywordCharsAreWordChars(KeywordText(lit.p));
    } else {
      match lit {
        case KAgentIdentifier => KeywordCharsAreWordChars("agent-identifier");
        case KSet => KeywordCharsAreWordChars("set");
        case KSequence => KeywordCharsAreWordChars("sequence");
      }
    }
  }

  predicate FromAToI(p: Performative) {
    || p.AcceptProposal? || p.Agree? || p.Cancel? || p.Cfp? || p.Confirm?
    || p.Disconfirm? || p.Failure? || p.InformIf? || p.InformRef? || p.Inform?
  }

  lemma KeywordOfAToI(p: Performative)
    requires FromAToI(p)
    ensures KeywordAToI(KeywordText(p)) == Some(KPerformative(p))
  {
    match p {
      case AcceptProposal =>
      case Agree =>
      case Cancel =>
      case Cfp =>
      case Confirm =>
      case Disconfirm =>
      case Failure =>
      case InformIf =>
      case InformRef =>
      case Inform =>
      case _ =>
    }
  }

  lemma KeywordOfNToS(p: Performative)
    requires !FromAToI(p) && p != Unknown
    ensures KeywordAToI(KeywordText(p)) == None && KeywordNToS(KeywordText(p)) == Some(KPerformative(p))
  {
    match p {
      case NotUnderstood =>
      case Propagate =>
      case Propose =>
      case Proxy =>
      case QueryRef =>
      case Refuse =>
      case RejectProposal =>
      case RequestWhen =>
      case RequestWhenever =>
      case Request =>
      case Subscribe =>
      case _ =>
    }
  }

  lemma PerformativeKeywordOfText(p: Performative)
    requires p != Unknown
    ensures PerformativeKeyword(KeywordText(p)) == Some(KPerformative(p))
  {
    hide KeywordAToI, KeywordNToS, KeywordText;
    if FromAToI(p) {
      KeywordOfAToI(p);
    } else {
      KeywordOfNToS(p);
    }
  }

  lemma PerformativeIsNoStructure(p: Performative)
    requires p != Unknown
    ensures KeywordText(p) != "agent-identifier" && KeywordText(p) != "set" && KeywordText(p) != "sequence"
  {
    match p {
      case _ =>
    }
  }

  lemma KeywordOfText(lit: Literal)
    requires IsKeyword(lit)
    ensures KeywordOf(Text(lit)) == Some(lit)
  {
    if lit.KPerformative? {
      PerformativeKeywordOfText(lit.p);
      PerformativeIsNoStructure(lit.p);
    }
  }

  predicate Writes(keyword: Option<Literal>, w: string) {
    keyword.Some? ==>
      keyword.value.KPerformative? && keyword.value.p != Unknown && KeywordText(keyword.value.p) == w
  }

  lemma AToISound(w: string)
    ensures Writes(KeywordAToI(w), w)
  {
  }

  lemma NToSSound(w: string)
    ensures Writes(KeywordNToS(w), w)
  {
  }

  lemma PerformativeKeywordSound(w: string)
    ensures Writes(PerformativeKeyword(w), w)
  {
    hide KeywordAToI, KeywordNToS, Writes;
    AToISound(w);
    NToSSound(w);
  }

  lemma KeywordOfSound(w: string)
    requires KeywordOf(w).Some?
    ensures IsKeyword(KeywordOf(w).value) && Text(KeywordOf(w).value) == w
  {
    if w != "agent-identifier" && w != "set" && w != "sequence" {
      PerformativeKeywordSound(w);
    }
  }

  lemma ParamTextGuess(lit: Literal, s: string)
    requires IsParam(lit) && Text(lit) <= s
    ensures ParamAt(s) == Some(lit) && s[0] == ':'
  {
    var t := Text(lit);
    assert |t| >= 5;
    assert s[0] == t[0] && s[1] == t[1] && s[3] == t[3] && s[4] == t[4];
    if |t| > 7 { assert s[7] == t[7]; }
  }

  lemma CloseComplete(b: string, n: nat)
    requires n < |b| && b[n] == '\"' && Items(b[..n])
    ensures Close(b) == Some(n)
  {
    var t := b[..n];
    if n == 0 {
    } else if b[0] == '\\' {
      assert t[2..] == b[2..][..n - 2];
      CloseComplete(b[2..], n - 2);
    } else {
      assert t[1..] == b[1..][..n - 1];
      CloseComplete(b[1..], n - 1);
    }
  }

  /** What the first character says about the rules that can match. */
  lemma FirstCharacter(r: Rule, t: string)
    requires Matches(r, t)
    ensures match r
      case Blank => IsBlank(t[0])
      case Newline => t[0] == '\n'
      case Fixed(LParen) => t == "("
      case Fixed(RParen) => t == ")"
      case Fixed(lit) => if IsParam(lit) then t[0] == ':' else IsAlnum(t[0])
      case Quoted => t[0] == '\"'
      case Name => IsAlnum(t[0])
      case AnyChar => t[0] != '\n'
  {
    if r.Fixed? && IsParam(r.lit) {
      ParamTextGuess(r.lit, t);
    } else if r.Fixed? && IsKeyword(r.lit) {
      TextIsWord(r.lit);
    }
  }

  lemma SpanMaximal(s: string, p: char -> bool, n: nat)
    requires n <= |s| && All(s[..n], p)
    ensures n <= Span(s, p)
  {
    assert forall i :: 0 <= i < n ==> s[..n][i] == s[i];
  }

  /** No rule beats the one the scanner takes. */
  lemma Outdone(s: string, r: Rule, n: nat)
    requires 0 < n <= |s| && Matches(r, s[..n])
    ensures var best := Scan(s); n < best.len || (n == best.len && RuleLine(best.rule) <= RuleLine(r))
  {
    var t := s[..n];
    assert t[0] == s[0];
    FirstCharacter(r, t);
    match r {
      case Blank => SpanMaximal(s, IsBlank, n);
      case Newline => SpanMaximal(s, IsNewline, n);
      case Fixed(lit) => FixedOutdone(s, lit, n);
      case Quoted =>
        assert t[1..n - 1] == s[1..][..n - 2];
        CloseComplete(s[1..], n - 2);
      case Name => WordOutdone(s, r, n);
      case AnyChar =>
        hide KeywordOf, Text;
    }
  }

  lemma FixedOutdone(s: string, lit: Literal, n: nat)
    requires 0 < n <= |s| && Matches(Fixed(lit), s[..n])
    ensures var best := Scan(s); n < best.len || (n == best.len && RuleLine(best.rule) <= RuleLine(Fixed(lit)))
  {
    FirstCharacter(Fixed(lit), s[..n]);
    if IsParam(lit) {
      ParamTextGuess(lit, s);
    } else if IsKeyword(lit) {
      TextIsWord(lit);
      WordOutdone(s, Fixed(lit), n);
    }
  }

  lemma ScanWord(s: string)
    requires s != "" && IsAlnum(s[0])
    ensures var n := Span(s, IsWordChar);
      var keyword := KeywordOf(s[..n]);
      Scan(s) == Scanned(if keyword.Some? then Fixed(keyword.value) else Name, n)
  {
    hide KeywordOf, Span, Close, ParamAt;
  }

  lemma KeywordsBeforeName(lit: Literal)
    requires IsKeyword(lit)
    ensures RuleLine(Fixed(lit)) <= RuleLine(Name)
  {
  }

  lemma WordOutdone(s: string, r: Rule, n: nat)
    requires 0 < n <= |s| && Matches(r, s[..n]) && IsAlnum(s[0]) && All(s[..n], IsWordChar)
    requires r == Name || (r.Fixed? && IsKeyword(r.lit))
    ensures var best := Scan(s); n < best.len || (n == best.len && RuleLine(best.rule) <= RuleLine(r))
  {
    assert r.Fixed? ==> s[..n] == Text(r.lit);
    hide Scan, KeywordOf, RuleLine, Text, Span, All, IsKeyword;
    ScanWord(s);
    SpanMaximal(s, IsWordChar, n);
    var k := Span(s, IsWordChar);
    if n == k {
      if r.Fixed? {
        KeywordOfText(r.lit);
      } else if KeywordOf(s[..k]).Some? {
        KeywordOfSound(s[..k]);
        KeywordsBeforeName(KeywordOf(s[..k]).value);
      }
    }
  }

  lemma WordScanMatches(s: string)
    requires s != "" && IsAlnum(s[0])
    ensures 0 < Scan(s).len <= |s| && Matches(Scan(s).rule, s[..Scan(s).len])
  {
    var n := Span(s, IsWordChar);
    if KeywordOf(s[..n]).Some? {
      KeywordOfSound(s[..n]);
    }
  }

  lemma QuotedScanMatches(s: string)
    requires s != "" && s[0] == '\"'
    ensures 0 < Scan(s).len <= |s| && Matches(Scan(s).rule, s[..Scan(s).len])
  {
    if Close(s[1..]).Some? {
      var n := Close(s[1..]).value;
      assert s[..n + 2][1..n + 1] == s[1..][..n];
    }
  }

  lemma ParamScanMatches(s: string)
    requires s != "" && s[0] == ':'
    ensures 0 < Scan(s).len <= |s| && Matches(Scan(s).rule, s[..Scan(s).len])
  {
    if ParamAt(s).Some? {
      var t := Text(ParamAt(s).value);
      assert t == s[..|t|];
    }
  }

  /** The scanner's lexeme belongs to its rule. */
  lemma ScanMatches(s: string)
    requires s != ""
    ensures 0 < Scan(s).len <= |s| && Matches(Scan(s).rule, s[..Scan(s).len])
  {
    var c := s[0];
    if c == ':' {
      ParamScanMatches(s);
    } else if c == '\"' {
      QuotedScanMatches(s);
    } else if IsAlnum(c) {
      WordScanMatches(s);
    }
  }

  /** The rule on a given line, to see that no two rules share one. */
  function KeywordOnLine(line: nat): Performative {
    match line
    case 44 => AcceptProposal
    case 45 => Agree
    case 46 => Cancel
    case 47 => Cfp
    case 48 => Confirm
    case 49 => Disconfirm
    case 50 => Failure
    case 51 => InformIf
    case 52 => InformRef
    case 53 => Inform
    case 54 => NotUnderstood
    case 55 => Propagate
    case 56 => Propose
    case 57 => Proxy
    case 58 => QueryRef
    case 59 => Refuse
    case 60 => RejectProposal
    case 61 => RequestWhen
    case 62 => RequestWhenever
    case 63 => Request
    case 64 => Subscribe
    case _ => Unknown
  }

  function RuleOnLine(line: nat): Rule {
    match line
    case 23 => Blank
    case 24 => Newline
    case 26 => Fixed(LParen)
    case 27 => Fixed(RParen)
    case 29 => Fixed(PSender)
    case 30 => Fixed(PReceiver)
    case 31 => Fixed(PContent)
    case 32 => Fixed(PReplyWith)
    case 33 => Fixed(PInReplyTo)
    case 34 => Fixed(PReplyBy)
    case 35 => Fixed(PLanguage)
    case 36 => Fixed(PEncoding)
    case 37 => Fixed(POntology)
    case 38 => Fixed(PProtocol)
    case 39 => Fixed(PConversationId)
    case 40 => Fixed(PName)
    case 41 => Fixed(PAddresses)
    case 42 => Fixed(PResolvers)
    case 66 => Fixed(KAgentIdentifier)
    case 67 => Fixed(KSet)
    case 68 => Fixed(KSequence)
    case 70 => Quoted
    case 91 => Name
    case 95 => AnyChar
    case _ => Fixed(KPerformative(KeywordOnLine(line)))
  }

  lemma KeywordLineInjective(p: Performative)
    ensures 44 <= KeywordLine(p) <= 65 && KeywordOnLine(KeywordLine(p)) == p
  {
  }

  lemma RuleLineInjective(r: Rule)
    ensures RuleOnLine(RuleLine(r)) == r
  {
    if r.Fixed? && r.lit.KPerformative? {
      KeywordLineInjective(r.lit.p);
    }
  }

  /** The scanner takes exactly the rule and the length that flex takes. */
  lemma ScanIsFlex(s: string, r: Rule, n: nat)
    requires s != ""
    ensures Chosen(s, r, n) <==> Scan(s) == Scanned(r, n)
  {
    var best := Scan(s);
    ScanMatches(s);
    forall r', n': nat
      ensures NotBeaten(s, best.rule, best.len, r', n')
    {
      if 0 < n' <= |s| && Matches(r', s[..n']) {
        Outdone(s, r', n');
      }
    }
    assert Chosen(s, best.rule, best.len);
    if Chosen(s, r, n) {
      assert NotBeaten(s, best.rule, best.len, r, n);
      assert NotBeaten(s, r, n, best.rule, best.len);
      RuleLineInjective(best.rule);
      RuleLineInjective(r);
    }
  }
}
