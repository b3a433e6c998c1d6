/** The grammar of fipa_acl.y: its derivation trees, the token string each tree
    derives, a parser that finds the tree, and the semantic actions. */
module AclGrammar {
  import opened Options
  import opened AclMessages
  import opened AclLexer

  // ----- derivation trees, one constructor a production -----

  datatype Expr = EWord(word: string) | EStr(value: string) | EList(items: seq<Expr>)

  datatype Url = UWord(word: string) | UStr(value: string)

  datatype AgentId = AgentId(name: string, extras: seq<Extra>)

  datatype Extra = Addresses(urls: seq<Url>) | Resolvers(ids: seq<AgentId>)

  datatype ReceiverSpec = One(id: AgentId) | Many(ids: seq<AgentId>)

  datatype Field =
    Content | Language | Encoding | Ontology | ConversationId | ReplyWith | InReplyTo | ReplyBy

  datatype Param =
    | Sender(id: AgentId)
    | Receiver(spec: ReceiverSpec)
    | Protocol(word: string)
    | Value(field: Field, expr: Expr)

  datatype Tree = Tree(performative: Performative, params: seq<Param>)

  function FieldKeyword(f: Field): Literal {
    match f
    case Content => PContent
    case Language => PLanguage
    case Encoding => PEncoding
    case Ontology => POntology
    case ConversationId => PConversationId
    case ReplyWith => PReplyWith
    case InReplyTo => PInReplyTo
    case ReplyBy => PReplyBy
  }

  function KeywordField(lit: Literal): (r: Option<Field>)
    ensures r.Some? ==> FieldKeyword(r.value) == lit
  {
    match lit
    case PContent => Some(Content)
    case PLanguage => Some(Language)
    case PEncoding => Some(Encoding)
    case POntology => Some(Ontology)
    case PConversationId => Some(ConversationId)
    case PReplyWith => Some(ReplyWith)
    case PInReplyTo => Some(InReplyTo)
    case PReplyBy => Some(ReplyBy)
    case _ => None
  }

  // ----- the tokens a tree derives -----

  function ExprTokens(e: Expr): (ts: seq<Token>)
    ensures ts != [] && StartsExpr(ts[0])
    decreases e, 1
  {
    match e
    case EWord(w) => [Word(w)]
    case EStr(v) => [Str(v)]
    case EList(items) => [Lit(LParen)] + ExprsTokens(items) + [Lit(RParen)]
  }

  function ExprsTokens(es: seq<Expr>): seq<Token>
    decreases es, 0
  {
    if es == [] then [] else ExprTokens(es[0]) + ExprsTokens(es[1..])
  }

  function UrlToken(url: Url): Token {
    match url
    case UWord(w) => Word(w)
    case UStr(v) => Str(v)
  }

  function UrlTokens(urls: seq<Url>): seq<Token> {
    if urls == [] then []
    else [UrlToken(urls[0])] + UrlTokens(urls[1..])
  }

  function AgentTokens(id: AgentId): (ts: seq<Token>)
    ensures ts != [] && ts[0] == Lit(LParen)
    decreases id, 1
  {
    [Lit(LParen), Lit(KAgentIdentifier), Lit(PName), Word(id.name)] + ExtrasTokens(id.extras) + [Lit(RParen)]
  }

  function AgentsTokens(ids: seq<AgentId>): seq<Token>
    decreases ids, 0
  {
    if ids == [] then [] else AgentTokens(ids[0]) + AgentsTokens(ids[1..])
  }

  function ExtraTokens(x: Extra): (ts: seq<Token>)
    ensures ts != [] && StartsExtra(ts[0])
    decreases x, 1
  {
    match x
    case Addresses(urls) => [Lit(PAddresses), Lit(LParen), Lit(KSequence)] + UrlTokens(urls) + [Lit(RParen)]
    case Resolvers(ids) => [Lit(PResolvers), Lit(LParen), Lit(KSequence)] + AgentsTokens(ids) + [Lit(RParen)]
  }

  function ExtrasTokens(xs: seq<Extra>): seq<Token>
    decreases xs, 0
  {
    if xs == [] then [] else ExtraTokens(xs[0]) + ExtrasTokens(xs[1..])
  }

  function SpecTokens(spec: ReceiverSpec): seq<Token> {
    match spec
    case One(id) => AgentTokens(id)
    case Many(ids) => [Lit(LParen), Lit(KSet)] + AgentsTokens(ids) + [Lit(RParen)]
  }

  function ParamTokens(p: Param): (ts: seq<Token>)
    ensures ts != [] && StartsParam(ts[0])
  {
    match p
    case Sender(id) => [Lit(PSender)] + AgentTokens(id)
    case Receiver(spec) => [Lit(PReceiver)] + SpecTokens(spec)
    case Protocol(w) => [Lit(PProtocol), Word(w)]
    case Value(f, e) => [Lit(FieldKeyword(f))] + ExprTokens(e)
  }

  function ParamsTokens(ps: seq<Param>): seq<Token> {
    if ps == [] then [] else ParamTokens(ps[0]) + ParamsTokens(ps[1..])
  }

  function TreeTokens(t: Tree): seq<Token> {
    [Lit(LParen), Lit(KPerformative(t.performative))] + ParamsTokens(t.params) + [Lit(RParen)]
  }

  predicate Inhabited(spec: ReceiverSpec) {
    spec.Many? ==> spec.ids != []
  }

  predicate AllInhabited(ps: seq<Param>) {
    ps == [] || ((ps[0].Receiver? ==> Inhabited(ps[0].spec)) && AllInhabited(ps[1..]))
  }

  /** The grammar has no tree for an empty receiver set or the unknown performative. */
  predicate Derivable(t: Tree) {
    t.performative != Unknown && AllInhabited(t.params)
  }

  // ----- the parser -----

  predicate StartsExpr(t: Token) {
    t.Word? || t.Str? || t == Lit(LParen)
  }

  predicate StartsExtra(t: Token) {
    t == Lit(PAddresses) || t == Lit(PResolvers)
  }

  predicate StartsParam(t: Token) {
    t.Lit? && (t.lit == PSender || t.lit == PReceiver || t.lit == PProtocol || KeywordField(t.lit).Some?)
  }

  /** What a parser found at the head of the tokens, and the tokens after it. */
  datatype Found<+T> = Missing | Found(tree: T, rest: seq<Token>)

  function ParseExpr(ts: seq<Token>): (r: Found<Expr>)
    ensures r.Found? ==> ts == ExprTokens(r.tree) + r.rest
    decreases |ts|, 0
  {
    if ts == [] then Missing
    else match ts[0]
      case Word(w) => Found(EWord(w), ts[1..])
      case Str(v) => Found(EStr(v), ts[1..])
      case Lit(LParen) =>
        var items := ParseExprs(ts[1..]);
        if items.Found? && items.rest != [] && items.rest[0] == Lit(RParen)
        then Found(EList(items.tree), items.rest[1..])
        else Missing
      case _ => Missing
  }

  function ParseExprs(ts: seq<Token>): (r: Found<seq<Expr>>)
    ensures r.Found? ==> ts == ExprsTokens(r.tree) + r.rest
    decreases |ts|, 1
  {
    if ts == [] || !StartsExpr(ts[0]) then Found([], ts)
    else
      var first := ParseExpr(ts);
      if first.Missing? then Missing
      else
        var others := ParseExprs(first.rest);
        if others.Missing? then Missing
        else
          assert ([first.tree] + others.tree)[1..] == others.tree;
          Found([first.tree] + others.tree, others.rest)
  }

  function ParseUrls(ts: seq<Token>): (r: Found<seq<Url>>)
    ensures r.Found? && ts == UrlTokens(r.tree) + r.rest
  {
    if ts == [] || ts[0].Lit? then Found([], ts)
    else
      var url := if ts[0].Word? then UWord(ts[0].word) else UStr(ts[0].value);
      var others := ParseUrls(ts[1..]);
      assert ([url] + others.tree)[1..] == others.tree;
      Found([url] + others.tree, others.rest)
  }

  function ParseAgent(ts: seq<Token>): (r: Found<AgentId>)
    ensures r.Found? ==> ts == AgentTokens(r.tree) + r.rest
    decreases |ts|, 0
  {
    if |ts| > 4 && ts[0] == Lit(LParen) && ts[1] == Lit(KAgentIdentifier) && ts[2] == Lit(PName) && ts[3].Word? then
      var extras := ParseExtras(ts[4..]);
      if extras.Found? && extras.rest != [] && extras.rest[0] == Lit(RParen)
      then Found(AgentId(ts[3].word, extras.tree), extras.rest[1..])
      else Missing
    else Missing
  }

  function ParseAgents(ts: seq<Token>): (r: Found<seq<AgentId>>)
    ensures r.Found? ==> ts == AgentsTokens(r.tree) + r.rest
    decreases |ts|, 1
  {
    if ts == [] || ts[0] != Lit(LParen) then Found([], ts)
    else
      var first := ParseAgent(ts);
      if first.Missing? then Missing
      else
        var others := ParseAgents(first.rest);
        if others.Missing? then Missing
        else
          assert ([first.tree] + others.tree)[1..] == others.tree;
          Found([first.tree] + others.tree, others.rest)
  }

  function ParseExtra(ts: seq<Token>): (r: Found<Extra>)
    ensures r.Found? ==> ts == ExtraTokens(r.tree) + r.rest
    decreases |ts|, 0
  {
    if |ts| > 3 && StartsExtra(ts[0]) && ts[1] == Lit(LParen) && ts[2] == Lit(KSequence) then
      if ts[0] == Lit(PAddresses) then
        var urls := ParseUrls(ts[3..]);
        if urls.rest != [] && urls.rest[0] == Lit(RParen)
        then Found(Addresses(urls.tree), urls.rest[1..])
        else Missing
      else
        var ids := ParseAgents(ts[3..]);
        if ids.Found? && ids.rest != [] && ids.rest[0] == Lit(RParen)
        then Found(Resolvers(ids.tree), ids.rest[1..])
        else Missing
    else Missing
  }

  function ParseExtras(ts: seq<Token>): (r: Found<seq<Extra>>)
    ensures r.Found? ==> ts == ExtrasTokens(r.tree) + r.rest
    decreases |ts|, 1
  {
    if ts == [] || !StartsExtra(ts[0]) then Found([], ts)
    else
      var first := ParseExtra(ts);
      if first.Missing? then Missing
      else
        var others := ParseExtras(first.rest);
        if others.Missing? then Missing
        else
          assert ([first.tree] + others.tree)[1..] == others.tree;
          Found([first.tree] + others.tree, others.rest)
  }

  function ParseSpec(ts: seq<Token>): (r: Found<ReceiverSpec>)
    ensures r.Found? ==> ts == SpecTokens(r.tree) + r.rest && Inhabited(r.tree)
  {
    if |ts| > 1 && ts[0] == Lit(LParen) && ts[1] == Lit(KSet) then
      var ids := ParseAgents(ts[2..]);
      if ids.Found? && ids.tree != [] && ids.rest != [] && ids.rest[0] == Lit(RParen)
      then Found(Many(ids.tree), ids.rest[1..])
      else Missing
    else
      var id := ParseAgent(ts);
      if id.Found? then Found(One(id.tree), id.rest) else Missing
  }

  /** One parameter: its keyword, then what the keyword asks for. */
  function ParseParam(ts: seq<Token>): (r: Found<Param>)
    ensures r.Found? ==> ts == ParamTokens(r.tree) + r.rest
    ensures r.Found? && r.tree.Receiver? ==> Inhabited(r.tree.spec)
  {
    hide ParseAgent, ParseSpec, ParseExpr, AgentTokens, SpecTokens, ExprTokens, Inhabited, KeywordField, FieldKeyword;
    if ts == [] || !StartsParam(ts[0]) then Missing
    else if ts[0].lit == PSender then
      var id := ParseAgent(ts[1..]);
      if id.Found? then Found(Sender(id.tree), id.rest) else Missing
    else if ts[0].lit == PReceiver then
      var spec := ParseSpec(ts[1..]);
      if spec.Found? then Found(Receiver(spec.tree), spec.rest) else Missing
    else if ts[0].lit == PProtocol then
      if |ts| > 1 && ts[1].Word? then Found(Protocol(ts[1].word), ts[2..]) else Missing
    else
      var expr := ParseExpr(ts[1..]);
      if expr.Found? then Found(Value(KeywordField(ts[0].lit).value, expr.tree), expr.rest) else Missing
  }

  lemma ParamsCons(p: Param, ps: seq<Param>, rest: seq<Token>)
    ensures ParamsTokens([p] + ps) + rest == ParamTokens(p) + (ParamsTokens(ps) + rest)
    ensures AllInhabited([p] + ps) <==> (p.Receiver? ==> Inhabited(p.spec)) && AllInhabited(ps)
  {
    assert ([p] + ps)[1..] == ps;
  }

  function ParseParams(ts: seq<Token>): (r: Found<seq<Param>>)
    ensures r.Found? ==> ts == ParamsTokens(r.tree) + r.rest && AllInhabited(r.tree)
    decreases |ts|
  {
    hide ParseParam, ParamTokens, StartsParam;
    if ts == [] || !StartsParam(ts[0]) then Found([], ts)
    else
      var first := ParseParam(ts);
      if first.Missing? then Missing
      else
        var others := ParseParams(first.rest);
        if others.Missing? then Missing
        else
          ParamsCons(first.tree, others.tree, others.rest);
          Found([first.tree] + others.tree, others.rest)
  }

  function ParseTree(ts: seq<Token>): (r: Option<Tree>)
    ensures r.Some? ==> Derivable(r.value) && ts == TreeTokens(r.value)
  {
    if |ts| > 2 && ts[0] == Lit(LParen) && ts[1].Lit? && ts[1].lit.KPerformative? && ts[1].lit.p != Unknown then
      var params := ParseParams(ts[2..]);
      if params.Found? && params.rest == [Lit(RParen)]
      then Some(Tree(ts[1].lit.p, params.tree))
      else None
    else None
  }

  // ----- the parser finds every tree -----

  lemma Split<T>(a: seq<T>, b: seq<T>, c: seq<T>)
    ensures a + b + c == a + (b + c)
    ensures (a + b)[|a|..] == b
  {
  }

  lemma {:induction false} FindsExpr(e: Expr, rest: seq<Token>)
    ensures ParseExpr(ExprTokens(e) + rest) == Found(e, rest)
    decreases e, 1
  {
    if e.EList? {
      FindsList(e.items, rest);
    } else {
      Split(ExprTokens(e), rest, []);
    }
  }

  lemma {:induction false} FindsList(items: seq<Expr>, rest: seq<Token>)
    ensures ParseExpr(ExprTokens(EList(items)) + rest) == Found(EList(items), rest)
    decreases items, 1
  {
    hide ParseExprs, ExprsTokens;
    var open, inner, close := [Lit(LParen)], ExprsTokens(items), [Lit(RParen)];
    FindsExprs(items, close + rest);
    Split(open, inner, close);
    Split(open, inner + close, rest);
    Split(inner, close, rest);
    Split(open, inner + (close + rest), []);
    Split(close, rest, []);
  }

  lemma {:induction false} FindsExprs(es: seq<Expr>, rest: seq<Token>)
    requires rest == [] || !StartsExpr(rest[0])
    ensures ParseExprs(ExprsTokens(es) + rest) == Found(es, rest)
    decreases es, 0
  {
    hide ParseExpr, ExprTokens;
    if es == [] {
      Split([], rest, []);
    } else {
      FindsExpr(es[0], ExprsTokens(es[1..]) + rest);
      FindsExprs(es[1..], rest);
      Split(ExprTokens(es[0]), ExprsTokens(es[1..]), rest);
      assert [es[0]] + es[1..] == es;
    }
  }

  lemma {:induction false} FindsUrls(urls: seq<Url>, rest: seq<Token>)
    requires rest != [] && rest[0].Lit?
    ensures ParseUrls(UrlTokens(urls) + rest) == Found(urls, rest)
  {
    if urls == [] {
      Split([], rest, []);
    } else {
      FindsUrls(urls[1..], rest);
      Split([UrlToken(urls[0])], UrlTokens(urls[1..]), rest);
      Split([UrlToken(urls[0])], UrlTokens(urls[1..]) + rest, []);
      assert [urls[0]] + urls[1..] == urls;
    }
  }

  lemma {:induction false} FindsAgent(id: AgentId, rest: seq<Token>)
    ensures ParseAgent(AgentTokens(id) + rest) == Found(id, rest)
    decreases id, 1
  {
    hide ParseExtras, ExtrasTokens;
    var open := [Lit(LParen), Lit(KAgentIdentifier), Lit(PName), Word(id.name)];
    var inner, close := ExtrasTokens(id.extras), [Lit(RParen)];
    FindsExtras(id.extras, close + rest);
    Split(open, inner, close);
    Split(open, inner + close, rest);
    Split(inner, close, rest);
    Split(open, inner + (close + rest), []);
    Split(close, rest, []);
  }

  lemma {:induction false} FindsAgents(ids: seq<AgentId>, rest: seq<Token>)
    requires rest != [] && rest[0] != Lit(LParen)
    ensures ParseAgents(AgentsTokens(ids) + rest) == Found(ids, rest)
    decreases ids, 0
  {
    hide ParseAgent, AgentTokens;
    if ids == [] {
      Split([], rest, []);
    } else {
      FindsAgent(ids[0], AgentsTokens(ids[1..]) + rest);
      FindsAgents(ids[1..], rest);
      Split(AgentTokens(ids[0]), AgentsTokens(ids[1..]), rest);
      assert [ids[0]] + ids[1..] == ids;
    }
  }

  lemma {:induction false} FindsExtra(x: Extra, rest: seq<Token>)
    ensures ParseExtra(ExtraTokens(x) + rest) == Found(x, rest)
    decreases x, 1
  {
    hide ParseAgents, AgentsTokens, ParseUrls, UrlTokens;
    var open := [Lit(if x.Addresses? then PAddresses else PResolvers), Lit(LParen), Lit(KSequence)];
    var close := [Lit(RParen)];
    var inner := match x case Addresses(urls) => UrlTokens(urls) case Resolvers(ids) => AgentsTokens(ids);
    match x {
      case Addresses(urls) => FindsUrls(urls, close + rest);
      case Resolvers(ids) => FindsAgents(ids, close + rest);
    }
    Split(open, inner, close);
    Split(open, inner + close, rest);
    Split(inner, close, rest);
    Split(open, inner + (close + rest), []);
    Split(close, rest, []);
  }

  lemma {:induction false} FindsExtras(xs: seq<Extra>, rest: seq<Token>)
    requires rest != [] && !StartsExtra(rest[0])
    ensures ParseExtras(ExtrasTokens(xs) + rest) == Found(xs, rest)
    decreases xs, 0
  {
    hide ParseExtra, ExtraTokens;
    if xs == [] {
      Split([], rest, []);
    } else {
      FindsExtra(xs[0], ExtrasTokens(xs[1..]) + rest);
      FindsExtras(xs[1..], rest);
      Split(ExtraTokens(xs[0]), ExtrasTokens(xs[1..]), rest);
      assert [xs[0]] + xs[1..] == xs;
    }
  }

  lemma FindsSpec(spec: ReceiverSpec, rest: seq<Token>)
    requires Inhabited(spec)
    ensures ParseSpec(SpecTokens(spec) + rest) == Found(spec, rest)
  {
    hide ParseAgent, ParseAgents, AgentsTokens;
    match spec {
      case One(id) =>
        FindsAgent(id, rest);
        assert (AgentTokens(id) + rest)[1] == Lit(KAgentIdentifier);
      case Many(ids) =>
        var open, inner, close := [Lit(LParen), Lit(KSet)], AgentsTokens(ids), [Lit(RParen)];
        FindsAgents(ids, close + rest);
        Split(open, inner, close);
        Split(open, inner + close, rest);
        Split(inner, close, rest);
        Split(open, inner + (close + rest), []);
        Split(close, rest, []);
    }
  }

  lemma FindsParam(p: Param, rest: seq<Token>)
    requires p.Receiver? ==> Inhabited(p.spec)
    ensures ParseParam(ParamTokens(p) + rest) == Found(p, rest)
  {
    hide ParseAgent, AgentTokens, ParseSpec, SpecTokens, ParseExpr, ExprTokens;
    match p {
      case Sender(id) =>
        FindsAgent(id, rest);
        Split([Lit(PSender)], AgentTokens(id), rest);
        Split([Lit(PSender)], AgentTokens(id) + rest, []);
      case Receiver(spec) =>
        FindsSpec(spec, rest);
        Split([Lit(PReceiver)], SpecTokens(spec), rest);
        Split([Lit(PReceiver)], SpecTokens(spec) + rest, []);
      case Protocol(w) =>
        Split([Lit(PProtocol), Word(w)], rest, []);
      case Value(f, e) =>
        FindsExpr(e, rest);
        Split([Lit(FieldKeyword(f))], ExprTokens(e), rest);
        Split([Lit(FieldKeyword(f))], ExprTokens(e) + rest, []);
    }
  }

  lemma {:induction false} FindsParams(ps: seq<Param>, rest: seq<Token>)
    requires AllInhabited(ps)
    requires rest != [] && !StartsParam(rest[0])
    ensures ParseParams(ParamsTokens(ps) + rest) == Found(ps, rest)
  {
    hide ParseParam, ParamTokens, StartsParam;
    if ps == [] {
      Split([], rest, []);
    } else {
      FindsParam(ps[0], ParamsTokens(ps[1..]) + rest);
      FindsParams(ps[1..], rest);
      Split(ParamTokens(ps[0]), ParamsTokens(ps[1..]), rest);
      assert [ps[0]] + ps[1..] == ps;
    }
  }

  /** The parser accepts exactly the token strings the grammar derives, each with its
      one derivation tree. */
  lemma ParserIsGrammar(ts: seq<Token>, t: Tree)
    ensures ParseTree(ts) == Some(t) <==> Derivable(t) && ts == TreeTokens(t)
  {
    hide ParseParams, ParamsTokens;
    if Derivable(t) && ts == TreeTokens(t) {
      FindsParams(t.params, [Lit(RParen)]);
      assert ts[2..] == ParamsTokens(t.params) + [Lit(RParen)];
    }
  }

  // ----- the semantic actions -----

  function Eval(e: Expr): string
    decreases e, 1
  {
    match e
    case EWord(w) => w
    case EStr(v) => v
    case EList(items) => "(" + Join("", items) + ")"
  }

  /** The value of nested_exprs, one expression appended at a time. */
  function Join(acc: string, es: seq<Expr>): string
    decreases es, 0
  {
    if es == [] then acc
    else Join(if acc == "" then Eval(es[0]) else acc + " " + Eval(es[0]), es[1..])
  }

  /** The identifiers of a receiver list: the name is kept, the rest dropped. */
  function Identifiers(ids: seq<AgentId>): seq<AgentIdentifier> {
    if ids == [] then [] else [Named(ids[0].name)] + Identifiers(ids[1..])
  }

  function SetField(m: Message, f: Field, v: string): Message {
    match f
    case Content => m.(content := v)
    case Language => m.(language := v)
    case Encoding => m.(encoding := v)
    case Ontology => m.(ontology := v)
    case ConversationId => m.(conversationId := v)
    case ReplyWith => m.(replyWith := v)
    case InReplyTo => m.(inReplyTo := v)
    case ReplyBy => m
  }

  /** The action of one parameter on the message under construction. */
  function Apply(m: Message, p: Param): Message {
    match p
    case Sender(id) => m.(sender := Named(id.name))
    case Receiver(One(id)) => m.(receivers := m.receivers + [Named(id.name)])
    case Receiver(Many(ids)) => m.(receivers := m.receivers + Identifiers(ids))
    case Protocol(w) => m.(protocol := w)
    case Value(f, e) => SetField(m, f, Eval(e))
  }

  function ApplyAll(m: Message, ps: seq<Param>): Message
    decreases |ps|
  {
    if ps == [] then m else ApplyAll(Apply(m, ps[0]), ps[1..])
  }

  function Meaning(t: Tree): Message {
    ApplyAll(BLANK, t.params).(performative := t.performative)
  }

  lemma ApplyAllAppend(m: Message, ps: seq<Param>, qs: seq<Param>)
    ensures ApplyAll(m, ps + qs) == ApplyAll(ApplyAll(m, ps), qs)
    decreases |ps|
  {
    hide Apply;
    if ps == [] {
      assert ps + qs == qs;
    } else {
      assert (ps + qs)[1..] == ps[1..] + qs;
      ApplyAllAppend(Apply(m, ps[0]), ps[1..], qs);
    }
  }
}
