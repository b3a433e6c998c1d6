/** From characters to tokens: the scanner applied until the input ends, the values
    its actions give, and which texts stand for which tokens wherever they occur. */
module AclTokens {
  import opened Options
  import opened AclMessages
  import opened AclLexer

  // ----- the action of the quoted-string rule -----

  function Unescaped(c: char): char {
    match c
    case 'n' => '\n'
    case 't' => '\t'
    case _ => c
  }

  /** The value of a string token, from the text between its quotes. */
  function Unescape(raw: string): string {
    if raw == "" then ""
    else if raw[0] == '\\' && |raw| > 1 then [Unescaped(raw[1])] + Unescape(raw[2..])
    else [raw[0]] + Unescape(raw[1..])
  }

  lemma UnescapeAt(raw: string, i: nat, result: string)
    requires i < |raw|
    ensures raw[i] == '\\' && i + 1 < |raw| ==>
      result + Unescape(raw[i..]) == result + [Unescaped(raw[i + 1])] + Unescape(raw[i + 2..])
    ensures !(raw[i] == '\\' && i + 1 < |raw|) ==>
      result + Unescape(raw[i..]) == result + [raw[i]] + Unescape(raw[i + 1..])
  {
    var rest := raw[i..];
    assert rest[0] == raw[i];
    assert rest[1..] == raw[i + 1..];
    if i + 1 < |raw| {
      assert rest[2..] == raw[i + 2..] && rest[1] == raw[i + 1];
    }
  }

  method UnescapeString(raw: string) returns (result: string)
    ensures result == Unescape(raw)
  {
    result := "";
    var i := 0;
    while i < |raw|
      invariant 0 <= i <= |raw|
      invariant result + Unescape(raw[i..]) == Unescape(raw)
    {
      UnescapeAt(raw, i, result);
      if raw[i] == '\\' && i + 1 < |raw| {
        i := i + 1;
        match raw[i] {
          case 'n' => result := result + ['\n'];
          case 't' => result := result + ['\t'];
          case '\"' => result := result + ['\"'];
          case '\\' => result := result + ['\\'];
          case _ => result := result + [raw[i]];
        }
      } else {
        result := result + [raw[i]];
      }
      i := i + 1;
    }
  }

  /** raw is a way of writing s between quotes: each character as itself, unless it is a
      backslash or a quote; or behind a backslash, unless it is n or t; or as \\n or \\t. */
  predicate Spells(raw: string, s: string) {
    if s == "" then raw == ""
    else
      || (raw != "" && raw[0] == s[0] && s[0] != '\\' && s[0] != '\"' && Spells(raw[1..], s[1..]))
      || (|raw| > 1 && raw[0] == '\\' && raw[1] == s[0] && s[0] != 'n' && s[0] != 't' && Spells(raw[2..], s[1..]))
      || (|raw| > 1 && raw[..2] == "\\n" && s[0] == '\n' && Spells(raw[2..], s[1..]))
      || (|raw| > 1 && raw[..2] == "\\t" && s[0] == '\t' && Spells(raw[2..], s[1..]))
  }

  /** The string action gives s exactly for the ways of writing s. */
  lemma {:induction false} UnescapeReads(raw: string, s: string)
    requires Items(raw)
    ensures Unescape(raw) == s <==> Spells(raw, s)
  {
    if raw != "" && s != "" {
      if raw[0] == '\\' {
        UnescapeReads(raw[2..], s[1..]);
      } else {
        UnescapeReads(raw[1..], s[1..]);
      }
      assert s == [s[0]] + s[1..];
    }
  }

  lemma EscapedHead(c: char, tail: string)
    ensures var t := EscapeChar(c) + tail;
      Unescape(t) == [c] + Unescape(tail) && (Items(tail) ==> Items(t))
  {
    var t := EscapeChar(c) + tail;
    assert t[|EscapeChar(c)|..] == tail;
  }

  lemma UnescapeEscape(s: string)
    ensures Unescape(EscapeBody(s)) == s
    ensures Items(EscapeBody(s))
  {
    if s != "" {
      UnescapeEscape(s[1..]);
      EscapedHead(s[0], EscapeBody(s[1..]));
    }
  }

  /** String token exactness: a quoted text followed by anything is one string lexeme
      that ends at its closing quote and whose value is the text. */
  lemma QuotedIsOneToken(s: string, rest: string)
    ensures Scan(Quote(s) + rest) == Scanned(Quoted, |Quote(s)|)
    ensures Unescape((Quote(s) + rest)[1..|Quote(s)| - 1]) == s
  {
    var body := EscapeBody(s);
    UnescapeEscape(s);
    var text := Quote(s) + rest;
    assert text[1..][..|body|] == body;
    CloseComplete(text[1..], |body|);
    assert text[1..|Quote(s)| - 1] == body;
  }

  // ----- the token stream -----

  /** What the action of a rule returns for a lexeme, if it returns a token. */
  function TokenOf(r: Rule, lexeme: string): Option<Token> {
    match r
    case Fixed(lit) => Some(Lit(lit))
    case Quoted => Some(Str(Unescape(if |lexeme| < 2 then "" else lexeme[1..|lexeme| - 1])))
    case Name => Some(Word(lexeme))
    case _ => None
  }

  function Prepend(ts: seq<Token>, r: Option<seq<Token>>): Option<seq<Token>> {
    if r.None? then None else Some(ts + r.value)
  }

  /** All tokens of the input, or None where a character fits no rule but the last. */
  function Lex(s: string): Option<seq<Token>>
    decreases |s|
  {
    if s == "" then Some([])
    else
      ScanMatches(s);
      var best := Scan(s);
      var rest := s[best.len..];
      match best.rule
      case AnyChar => None
      case Blank | Newline => Lex(rest)
      case _ => Prepend([TokenOf(best.rule, s[..best.len]).value], Lex(rest))
  }

  lemma LexUnfold(s: string)
    requires s != ""
    ensures 0 < Scan(s).len <= |s|
    ensures Lex(s) == match Scan(s).rule
      case AnyChar => None
      case Blank | Newline => Lex(s[Scan(s).len..])
      case _ => Prepend([TokenOf(Scan(s).rule, s[..Scan(s).len]).value], Lex(s[Scan(s).len..]))
  {
    ScanMatches(s);
  }

  /** A lexeme and the rule it was matched by. */
  datatype Cut = Cut(rule: Rule, lexeme: string)

  /** The text cut into lexemes, each chosen by flex at its place. */
  ghost predicate Flexed(s: string, cuts: seq<Cut>)
    decreases |cuts|
  {
    if cuts == [] then s == ""
    else
      var n := |cuts[0].lexeme|;
      s != "" && n <= |s| && s[..n] == cuts[0].lexeme && Chosen(s, cuts[0].rule, n) && Flexed(s[n..], cuts[1..])
  }

  /** The tokens that the actions return, one after the other. */
  function Returned(cuts: seq<Cut>): seq<Token> {
    if cuts == [] then []
    else
      var token := TokenOf(cuts[0].rule, cuts[0].lexeme);
      (if token.Some? then [token.value] else []) + Returned(cuts[1..])
  }

  predicate Expected(cuts: seq<Cut>) {
    forall c :: c in cuts ==> c.rule != AnyChar
  }

  lemma {:induction false} LexCuts(s: string) returns (cuts: seq<Cut>)
    requires Lex(s).Some?
    ensures Flexed(s, cuts) && Expected(cuts) && Returned(cuts) == Lex(s).value
    decreases |s|
  {
    if s == "" {
      cuts := [];
    } else {
      hide Lex, Scan, Chosen;
      LexUnfold(s);
      var best := Scan(s);
      var first := Cut(best.rule, s[..best.len]);
      ScanIsFlex(s, best.rule, best.len);
      var rest := LexCuts(s[best.len..]);
      cuts := [first] + rest;
      assert cuts[1..] == rest;
    }
  }

  lemma ExpectedFirst(cuts: seq<Cut>)
    requires cuts != []
    ensures Expected(cuts) <==> cuts[0].rule != AnyChar && Expected(cuts[1..])
  {
    assert cuts == [cuts[0]] + cuts[1..];
  }

  /** What one lexeme contributes. */
  lemma OneCut(s: string, c: Cut)
    requires s != "" && |c.lexeme| <= |s| && s[..|c.lexeme|] == c.lexeme && Chosen(s, c.rule, |c.lexeme|)
    ensures Lex(s) ==
      if c.rule == AnyChar then None
      else Prepend(if TokenOf(c.rule, c.lexeme).Some? then [TokenOf(c.rule, c.lexeme).value] else [], Lex(s[|c.lexeme|..]))
  {
    ScanIsFlex(s, c.rule, |c.lexeme|);
    hide Chosen, Scan, Unescape;
    LexUnfold(s);
    hide Lex;
    PrependTwice([], [], Lex(s[|c.lexeme|..]));
  }

  lemma {:induction false} CutsLex(s: string, cuts: seq<Cut>)
    requires Flexed(s, cuts)
    ensures Lex(s) == if Expected(cuts) then Some(Returned(cuts)) else None
    decreases |cuts|
  {
    hide Chosen, Expected, TokenOf;
    if cuts == [] {
      assert Expected(cuts) by { NoCuts(); }
    } else {
      hide Lex;
      OneCut(s, cuts[0]);
      CutsLex(s[|cuts[0].lexeme|..], cuts[1..]);
      ExpectedFirst(cuts);
    }
  }

  lemma NoCuts()
    ensures Expected([])
  {
  }

  /** The token stream, exactly: the text is cut into lexemes as flex cuts it, blanks and
      newlines return nothing, and one character that only the last rule matches makes it
      fail. */
  lemma LexIsFlex(s: string, ts: seq<Token>)
    ensures Lex(s) == Some(ts) <==> exists cuts :: Flexed(s, cuts) && Expected(cuts) && Returned(cuts) == ts
  {
    hide Lex, Flexed, Expected, Returned;
    if Lex(s).Some? {
      var cuts := LexCuts(s);
    }
    forall cuts | Flexed(s, cuts) && Expected(cuts) && Returned(cuts) == ts ensures Lex(s) == Some(ts) {
      CutsLex(s, cuts);
    }
  }

  /** The scanner is given a C string: it sees nothing from the first NUL on. */
  function UpToNul(s: string): (r: string)
    ensures '\0' !in r
    ensures r <= s && (|r| < |s| ==> s[|r|] == '\0')
    ensures '\0' !in s ==> r == s
  {
    if s == "" || s[0] == '\0' then "" else [s[0]] + UpToNul(s[1..])
  }

  // ----- texts that stand for tokens -----

  /** A word that is no keyword. */
  predicate PlainWord(w: string) {
    w != "" && IsAlnum(w[0]) && (forall c :: c in w ==> IsWordChar(c)) && KeywordOf(w).None?
  }

  /** The next character cannot continue a word. */
  predicate Delimited(rest: string) {
    rest == "" || !IsWordChar(rest[0])
  }

  /** Wherever text occurs (before a delimiter, if tight), it scans to ts. */
  ghost predicate Emits(text: string, ts: seq<Token>, tight: bool) {
    '\0' !in text
    && forall rest :: !tight || Delimited(rest) ==> Lex(text + rest) == Prepend(ts, Lex(rest))
  }

  lemma PrependTwice(ta: seq<Token>, tb: seq<Token>, r: Option<seq<Token>>)
    ensures Prepend(ta, Prepend(tb, r)) == Prepend(ta + tb, r)
    ensures Prepend([], r) == r
  {
    if r.Some? {
      assert ta + tb + r.value == ta + (tb + r.value);
      assert [] + r.value == r.value;
    }
  }

  lemma EmitsBoth(a: string, ta: seq<Token>, x: bool, b: string, tb: seq<Token>, y: bool)
    requires Emits(a, ta, x) && Emits(b, tb, y)
    requires x ==> Delimited(b) && (b == "" ==> y)
    ensures Emits(a + b, ta + tb, y)
  {
    hide Lex;
    forall rest | !y || Delimited(rest)
      ensures Lex(a + b + rest) == Prepend(ta + tb, Lex(rest))
    {
      assert a + b + rest == a + (b + rest);
      PrependTwice(ta, tb, Lex(rest));
    }
  }

  lemma EmitsNothing()
    ensures Emits("", [], false)
  {
    hide Lex;
    forall rest ensures Lex("" + rest) == Prepend([], Lex(rest)) {
      assert "" + rest == rest;
      PrependTwice([], [], Lex(rest));
    }
  }

  lemma BlankSkipped(c: char, rest: string)
    requires IsBlank(c) || IsNewline(c)
    ensures Lex([c] + rest) == Lex(rest)
  {
    var s := [c] + rest;
    var p := if IsBlank(c) then IsBlank else IsNewline;
    assert s[1..] == rest;
    var k := Span(rest, p);
    assert Span(s, p) == 1 + k;
    assert s[1 + k..] == rest[k..];
    if rest != "" && p(rest[0]) {
      assert k > 0;
    } else {
      assert rest[0..] == rest;
    }
  }

  lemma EmitsBlank(c: char)
    requires IsBlank(c) || IsNewline(c)
    ensures Emits([c], [], false)
  {
    forall rest ensures Lex([c] + rest) == Prepend([], Lex(rest)) {
      BlankSkipped(c, rest);
      PrependTwice([], [], Lex(rest));
    }
  }

  lemma LexStep(text: string, rest: string, r: Rule)
    requires text != "" && Scan(text + rest) == Scanned(r, |text|)
    requires r.Fixed? || r.Quoted? || r.Name?
    ensures Lex(text + rest) == Prepend([TokenOf(r, text).value], Lex(rest))
  {
    assert (text + rest)[..|text|] == text;
    assert (text + rest)[|text|..] == rest;
  }

  lemma EmitsParen(lit: Literal)
    requires lit == LParen || lit == RParen
    ensures Emits(Text(lit), [Lit(lit)], false)
  {
    forall rest ensures Lex(Text(lit) + rest) == Prepend([Lit(lit)], Lex(rest)) {
      LexStep(Text(lit), rest, Fixed(lit));
    }
  }

  lemma EmitsParam(lit: Literal)
    requires IsParam(lit)
    ensures Emits(Text(lit), [Lit(lit)], false)
  {
    hide Lex;
    forall rest ensures Lex(Text(lit) + rest) == Prepend([Lit(lit)], Lex(rest)) {
      ParamTextGuess(lit, Text(lit) + rest);
      LexStep(Text(lit), rest, Fixed(lit));
    }
  }

  lemma EscapeBodyNulFree(s: string)
    requires '\0' !in s
    ensures '\0' !in EscapeBody(s)
  {
  }

  lemma EmitsQuoted(s: string)
    requires '\0' !in s
    ensures Emits(Quote(s), [Str(s)], false)
  {
    EscapeBodyNulFree(s);
    forall rest ensures Lex(Quote(s) + rest) == Prepend([Str(s)], Lex(rest)) {
      QuotedIsOneToken(s, rest);
      assert (Quote(s) + rest)[1..|Quote(s)| - 1] == Quote(s)[1..|Quote(s)| - 1];
      LexStep(Quote(s), rest, Quoted);
    }
  }

  lemma WordSpan(w: string, rest: string)
    requires w != "" && All(w, IsWordChar) && Delimited(rest)
    ensures Span(w + rest, IsWordChar) == |w|
  {
    var s := w + rest;
    assert s[..|w|] == w;
    SpanMaximal(s, IsWordChar, |w|);
    assert rest != "" ==> s[|w|] == rest[0];
  }

  lemma WordIsScanned(w: string, rest: string)
    requires w != "" && IsAlnum(w[0]) && All(w, IsWordChar) && Delimited(rest)
    ensures Scan(w + rest) ==
      Scanned(match KeywordOf(w) case Some(lit) => Fixed(lit) case None => Name, |w|)
  {
    hide KeywordOf;
    WordSpan(w, rest);
    assert (w + rest)[..|w|] == w;
  }

  lemma EmitsWordLike(w: string, token: Token, r: Rule)
    requires w != "" && IsAlnum(w[0]) && All(w, IsWordChar)
    requires r == match KeywordOf(w) case Some(lit) => Fixed(lit) case None => Name
    requires token == TokenOf(r, w).value
    ensures Emits(w, [token], true)
  {
    hide Lex, Scan, KeywordOf;
    forall rest | Delimited(rest) ensures Lex(w + rest) == Prepend([token], Lex(rest)) {
      WordIsScanned(w, rest);
      LexStep(w, rest, r);
    }
  }

  lemma EmitsWord(w: string)
    requires PlainWord(w)
    ensures Emits(w, [Word(w)], true)
  {
    EmitsWordLike(w, Word(w), Name);
  }

  lemma EmitsKeyword(lit: Literal)
    requires IsKeyword(lit)
    ensures Emits(Text(lit), [Lit(lit)], true)
  {
    TextIsWord(lit);
    KeywordOfText(lit);
    EmitsWordLike(Text(lit), Lit(lit), Fixed(lit));
  }

  // ----- what a token list can hold -----

  /** Words are never keywords; strings never hold a NUL. */
  predicate Clean(t: Token) {
    match t
    case Lit(_) => true
    case Word(w) => PlainWord(w)
    case Str(v) => '\0' !in v
  }

  lemma UnescapeNulFree(raw: string)
    requires '\0' !in raw
    ensures '\0' !in Unescape(raw)
  {
  }

  lemma TokenIsClean(s: string)
    requires s != "" && '\0' !in s
    ensures Scan(s).len <= |s|
    ensures TokenOf(Scan(s).rule, s[..Scan(s).len]).Some? ==> Clean(TokenOf(Scan(s).rule, s[..Scan(s).len]).value)
  {
    ScanMatches(s);
    var best := Scan(s);
    var lexeme := s[..best.len];
    match best.rule {
      case Quoted => UnescapeNulFree(lexeme[1..|lexeme| - 1]);
      case _ =>
    }
  }

  lemma LexIsClean(s: string)
    requires '\0' !in s
    ensures Lex(s).Some? ==> forall t :: t in Lex(s).value ==> Clean(t)
    decreases |s|
  {
    if s != "" {
      ScanMatches(s);
      TokenIsClean(s);
      LexIsClean(s[Scan(s).len..]);
    }
  }

  /** The scanner as the parser drives it: one lexeme after another. */
  method Tokenize(s: string) returns (tokens: Option<seq<Token>>)
    ensures tokens == Lex(s)
  {
    hide Scan;
    var found: seq<Token> := [];
    var i := 0;
    PrependTwice([], [], Lex(s));
    assert s[0..] == s;
    while i < |s|
      invariant 0 <= i <= |s|
      invariant Prepend(found, Lex(s[i..])) == Lex(s)
    {
      hide Lex;
      var rest := s[i..];
      LexUnfold(rest);
      var best := Scan(rest);
      if best.rule == AnyChar {
        return None;
      }
      assert rest[best.len..] == s[i + best.len..];
      var token := TokenOf(best.rule, rest[..best.len]);
      if token.Some? {
        PrependTwice(found, [token.value], Lex(s[i + best.len..]));
        found := found + [token.value];
      }
      i := i + best.len;
    }
    PrependTwice(found, [], Some([]));
    assert s[i..] == "" && found + [] == found;
    return Some(found);
  }
}
