/** The laws that tie the printer and the parser: what is printed is read back, what
    was read prints to a text that is read back the same, and when not. */
module AclRoundTrip {
  import opened Options
  import opened AclMessages
  import opened AclLexer
  import opened AclTokens
  import opened AclCodec
  import G = AclGrammar

  // ----- the meaning of a printed message -----

  lemma NamesAppend(ids: seq<AgentIdentifier>, id: AgentIdentifier)
    ensures Names(ids + [id]) == Names(ids) + [Named(id.name)]
  {
  }

  lemma ApplyReceivers(m: Message, ids: seq<AgentIdentifier>)
    ensures G.ApplyAll(m, ReceiverParams(ids)) == m.(receivers := m.receivers + Names(ids))
  {
    if ids == [] {
      assert m.receivers + [] == m.receivers;
    } else {
      var n := |ids| - 1;
      var p := G.Receiver(G.One(IdTree(ids[n])));
      ApplyReceivers(m, ids[..n]);
      G.ApplyAllAppend(m, ReceiverParams(ids[..n]), [p]);
      NamesAppend(ids[..n], ids[n]);
      assert ids[..n] + [ids[n]] == ids;
      assert [p][1..] == [];
    }
  }

  lemma ApplyOne(m: Message, p: G.Param)
    ensures G.ApplyAll(m, [p]) == G.Apply(m, p)
  {
    assert [p][1..] == [];
  }

  lemma ApplyField(m: Message, f: G.Field, v: string)
    requires Canonical(v) && G.SetField(m, f, "") == m
    ensures G.ApplyAll(m, FieldParams(f, v)) == G.SetField(m, f, v)
  {
    hide Canonical;
    if v != "" {
      ApplyOne(m, G.Value(f, ExprOf(v)));
    }
  }

  /** The parameters of the plain lines, on a message in which those are still empty. */
  lemma ApplyPlain(m: Message, x: Message)
    requires Orderly(m)
    requires x.language == x.encoding == x.ontology == x.protocol == ""
    requires x.conversationId == x.replyWith == x.inReplyTo == ""
    ensures G.ApplyAll(x, PlainParams(m)) == x.(language := m.language, encoding := m.encoding,
      ontology := m.ontology, protocol := m.protocol, conversationId := m.conversationId,
      replyWith := m.replyWith, inReplyTo := m.inReplyTo)
  {
    hide Canonical, FieldParams, G.ApplyAll;
    var ps := FieldParams(G.Language, m.language);
    ApplyField(x, G.Language, m.language);
    var x1 := x.(language := m.language);
    G.ApplyAllAppend(x, ps, FieldParams(G.Encoding, m.encoding));
    ApplyField(x1, G.Encoding, m.encoding);
    ps := ps + FieldParams(G.Encoding, m.encoding);
    var x2 := x1.(encoding := m.encoding);
    G.ApplyAllAppend(x, ps, FieldParams(G.Ontology, m.ontology));
    ApplyField(x2, G.Ontology, m.ontology);
    ps := ps + FieldParams(G.Ontology, m.ontology);
    var x3 := x2.(ontology := m.ontology);
    G.ApplyAllAppend(x, ps, ProtocolParams(m.protocol));
    ApplyProtocol(x3, m.protocol);
    ps := ps + ProtocolParams(m.protocol);
    var x4 := x3.(protocol := m.protocol);
    G.ApplyAllAppend(x, ps, FieldParams(G.ConversationId, m.conversationId));
    ApplyField(x4, G.ConversationId, m.conversationId);
    ps := ps + FieldParams(G.ConversationId, m.conversationId);
    var x5 := x4.(conversationId := m.conversationId);
    G.ApplyAllAppend(x, ps, FieldParams(G.ReplyWith, m.replyWith));
    ApplyField(x5, G.ReplyWith, m.replyWith);
    ps := ps + FieldParams(G.ReplyWith, m.replyWith);
    var x6 := x5.(replyWith := m.replyWith);
    G.ApplyAllAppend(x, ps, FieldParams(G.InReplyTo, m.inReplyTo));
    ApplyField(x6, G.InReplyTo, m.inReplyTo);
  }

  lemma ApplyProtocol(m: Message, protocol: string)
    requires m.protocol == ""
    ensures G.ApplyAll(m, ProtocolParams(protocol)) == m.(protocol := protocol)
  {
    if protocol != "" {
      ApplyOne(m, G.Protocol(protocol));
    }
  }

  lemma TreeMeansMessage(m: Message)
    requires Orderly(m)
    ensures G.Meaning(TreeOf(m)) == EraseAddresses(m)
  {
    hide Orderly, PlainParams, ReceiverParams, G.ApplyAll;
    var s, r, c, p := SenderParams(m.sender), ReceiverParams(m.receivers), ContentParams(m.content), PlainParams(m);
    G.ApplyAllAppend(BLANK, s, r + (c + p));
    var x := BLANK.(sender := Named(m.sender.name));
    assert G.ApplyAll(BLANK, s) == x by { ApplySender(m.sender); }
    G.ApplyAllAppend(x, r, c + p);
    ApplyReceivers(x, m.receivers);
    assert [] + Names(m.receivers) == Names(m.receivers);
    var y := x.(receivers := Names(m.receivers));
    G.ApplyAllAppend(y, c, p);
    ApplyContent(y, m.content);
    ApplyPlain(m, y.(content := m.content));
  }

  lemma ApplySender(id: AgentIdentifier)
    ensures G.ApplyAll(BLANK, SenderParams(id)) == BLANK.(sender := Named(id.name))
  {
    if id.name != "" {
      ApplyOne(BLANK, G.Sender(IdTree(id)));
    }
  }

  lemma ApplyContent(m: Message, content: string)
    requires m.content == ""
    ensures G.ApplyAll(m, ContentParams(content)) == m.(content := content)
  {
    if content != "" {
      ApplyOne(m, G.Value(G.Content, G.EStr(content)));
    }
  }

  lemma OneInhabited(p: G.Param)
    requires p.Receiver? ==> G.Inhabited(p.spec)
    ensures G.AllInhabited([p]) && G.AllInhabited([])
  {
    assert [p][1..] == [];
  }

  lemma ReceiversInhabited(ids: seq<AgentIdentifier>)
    ensures G.AllInhabited(ReceiverParams(ids))
  {
    if ids != [] {
      var n := |ids| - 1;
      ReceiversInhabited(ids[..n]);
      OneInhabited(G.Receiver(G.One(IdTree(ids[n]))));
      ParamsAppend(ReceiverParams(ids[..n]), [G.Receiver(G.One(IdTree(ids[n])))]);
    }
  }

  lemma FieldInhabited(f: G.Field, v: string)
    requires Canonical(v)
    ensures G.AllInhabited(FieldParams(f, v))
  {
    hide Canonical;
    if v != "" {
      OneInhabited(G.Value(f, ExprOf(v)));
    }
  }

  lemma PlainInhabited(m: Message)
    requires Orderly(m)
    ensures G.AllInhabited(PlainParams(m))
  {
    hide Canonical, FieldParams, G.AllInhabited, G.ParamsTokens;
    FieldInhabited(G.Language, m.language);
    FieldInhabited(G.Encoding, m.encoding);
    FieldInhabited(G.Ontology, m.ontology);
    FieldInhabited(G.ConversationId, m.conversationId);
    FieldInhabited(G.ReplyWith, m.replyWith);
    FieldInhabited(G.InReplyTo, m.inReplyTo);
    OneInhabited(G.Protocol(m.protocol));
    var a, b := FieldParams(G.Language, m.language), FieldParams(G.Encoding, m.encoding);
    ParamsAppend(a, b);
    a, b := a + b, FieldParams(G.Ontology, m.ontology);
    ParamsAppend(a, b);
    a, b := a + b, ProtocolParams(m.protocol);
    ParamsAppend(a, b);
    a, b := a + b, FieldParams(G.ConversationId, m.conversationId);
    ParamsAppend(a, b);
    a, b := a + b, FieldParams(G.ReplyWith, m.replyWith);
    ParamsAppend(a, b);
    a, b := a + b, FieldParams(G.InReplyTo, m.inReplyTo);
    ParamsAppend(a, b);
  }

  lemma TreeDerivable(m: Message)
    requires Orderly(m) && m.performative != Unknown
    ensures G.Derivable(TreeOf(m))
  {
    hide Orderly, PlainParams, ReceiverParams;
    var s, r, c, p := SenderParams(m.sender), ReceiverParams(m.receivers), ContentParams(m.content), PlainParams(m);
    ReceiversInhabited(m.receivers);
    PlainInhabited(m);
    ParamsAppend(c, p);
    ParamsAppend(r, c + p);
    ParamsAppend(s, r + (c + p));
  }

  /** A printable message is read back from its text, with the addresses gone. */
  lemma PrintThenParse(m: Message)
    requires Printable(m)
    ensures ParseText(Print(m)) == Some(EraseAddresses(m))
  {
    hide Printable, Orderly, Print, TreeOf, Lex, G.TreeTokens, G.ParseTree;
    PrintableParts(m);
    EmitsMessage(m);
    assert Print(m) + "" == Print(m);
    EmitsWhole(Print(m), G.TreeTokens(TreeOf(m)));
    TreeDerivable(m);
    G.ParserIsGrammar(G.TreeTokens(TreeOf(m)), TreeOf(m));
    TreeMeansMessage(m);
  }

  lemma EmitsWhole(text: string, ts: seq<Token>)
    requires Emits(text, ts, false)
    ensures UpToNul(text) == text && Lex(text) == Some(ts)
  {
    assert text + "" == text;
    assert Lex("") == Some([]);
    assert ts + [] == ts;
  }

  // ----- what any accepted text yields -----

  predicate CleanTokens(ts: seq<Token>) {
    forall t :: t in ts ==> Clean(t)
  }

  /** What a parameter contributes when its tokens are clean. */
  predicate CleanParam(p: G.Param) {
    match p
    case Sender(id) => PlainWord(id.name)
    case Receiver(One(id)) => PlainWord(id.name)
    case Receiver(Many(ids)) => forall i :: 0 <= i < |ids| ==> PlainWord(ids[i].name)
    case Protocol(w) => PlainWord(w)
    case Value(_, e) => '\0' !in G.Eval(e)
  }

  lemma CleanWord(w: string)
    ensures Clean(Word(w)) <==> PlainWord(w)
  {
  }

  lemma CleanAgent(id: G.AgentId)
    requires CleanTokens(G.AgentTokens(id))
    ensures PlainWord(id.name)
  {
    assert G.AgentTokens(id)[3] == Word(id.name);
    assert Word(id.name) in G.AgentTokens(id);
  }

  lemma {:induction false} CleanAgents(ids: seq<G.AgentId>)
    requires CleanTokens(G.AgentsTokens(ids))
    ensures forall i :: 0 <= i < |ids| ==> PlainWord(ids[i].name)
    decreases |ids|
  {
    hide G.AgentTokens, Clean, PlainWord;
    if ids != [] {
      hide CleanTokens;
      CleanParts(G.AgentTokens(ids[0]), G.AgentsTokens(ids[1..]));
      CleanAgent(ids[0]);
      CleanAgents(ids[1..]);
      forall i | 1 <= i < |ids| ensures PlainWord(ids[i].name) {
        assert ids[i] == ids[1..][i - 1];
      }
    }
  }

  lemma CleanParts(a: seq<Token>, b: seq<Token>)
    ensures CleanTokens(a + b) <==> CleanTokens(a) && CleanTokens(b)
  {
    hide Clean;
    assert forall t :: t in a + b <==> t in a || t in b;
  }

  lemma {:induction false} CleanExpr(e: G.Expr)
    requires CleanTokens(G.ExprTokens(e))
    ensures '\0' !in G.Eval(e)
    decreases e, 1
  {
    match e {
      case EWord(w) =>
        assert Word(w) in G.ExprTokens(e);
        assert forall c :: c in w ==> IsWordChar(c);
      case EStr(v) =>
        assert Str(v) in G.ExprTokens(e);
      case EList(items) =>
        var ts := G.ExprsTokens(items);
        CleanParts([Lit(LParen)] + ts, [Lit(RParen)]);
        CleanParts([Lit(LParen)], ts);
        CleanExprs("", items);
    }
  }

  lemma {:induction false} CleanExprs(acc: string, es: seq<G.Expr>)
    requires CleanTokens(G.ExprsTokens(es)) && '\0' !in acc
    ensures '\0' !in G.Join(acc, es)
    decreases es, 0
  {
    if es != [] {
      hide Clean, G.Eval, G.ExprTokens;
      CleanParts(G.ExprTokens(es[0]), G.ExprsTokens(es[1..]));
      CleanExpr(es[0]);
      CleanExprs(if acc == "" then G.Eval(es[0]) else acc + " " + G.Eval(es[0]), es[1..]);
    }
  }

  lemma ParamIsClean(p: G.Param)
    requires CleanTokens(G.ParamTokens(p))
    ensures CleanParam(p)
  {
    hide Clean, G.AgentTokens, G.AgentsTokens, G.ExprTokens, G.Eval, PlainWord;
    match p {
      case Sender(id) =>
        CleanParts([Lit(PSender)], G.AgentTokens(id));
        CleanAgent(id);
      case Receiver(One(id)) =>
        CleanParts([Lit(PReceiver)], G.AgentTokens(id));
        CleanAgent(id);
      case Receiver(Many(ids)) =>
        CleanParts([Lit(PReceiver)], [Lit(LParen), Lit(KSet)] + G.AgentsTokens(ids) + [Lit(RParen)]);
        CleanParts([Lit(LParen), Lit(KSet)] + G.AgentsTokens(ids), [Lit(RParen)]);
        CleanParts([Lit(LParen), Lit(KSet)], G.AgentsTokens(ids));
        CleanAgents(ids);
      case Protocol(w) =>
        assert G.ParamTokens(p)[1] == Word(w);
        CleanWord(w);
      case Value(f, e) =>
        CleanParts([Lit(G.FieldKeyword(f))], G.ExprTokens(e));
        CleanExpr(e);
    }
  }

  /** What is known of the message under construction, whatever has been read. */
  predicate Partial(m: Message) {
    && (m.sender.name == "" || PlainWord(m.sender.name))
    && PlainNames(m.receivers)
    && '\0' !in m.content
    && (m.protocol == "" || PlainWord(m.protocol))
    && EraseAddresses(m) == m
  }

  lemma NamesErased(ids: seq<AgentIdentifier>)
    ensures Names(ids) == ids <==> forall i :: 0 <= i < |ids| ==> ids[i].addresses == []
  {
  }

  lemma IdentifiersNamed(ids: seq<G.AgentId>)
    ensures |G.Identifiers(ids)| == |ids|
    ensures forall i :: 0 <= i < |ids| ==> G.Identifiers(ids)[i] == Named(ids[i].name)
  {
  }

  predicate PlainNames(ids: seq<AgentIdentifier>) {
    forall i :: 0 <= i < |ids| ==> PlainWord(ids[i].name)
  }

  lemma PlainConcat(a: seq<AgentIdentifier>, b: seq<AgentIdentifier>)
    requires PlainNames(a) && PlainNames(b)
    ensures PlainNames(a + b)
  {
    hide PlainWord;
  }

  lemma Erased(m: Message)
    ensures EraseAddresses(m) == m <==> m.sender.addresses == [] && Names(m.receivers) == m.receivers
  {
    hide Names;
  }

  lemma NamesConcat(a: seq<AgentIdentifier>, b: seq<AgentIdentifier>)
    requires Names(a) == a && Names(b) == b
    ensures Names(a + b) == a + b
  {
    NamesErased(a);
    NamesErased(b);
    hide Names;
    NamesErased(a + b);
  }

  lemma ReceiversKeepPartial(m: Message, ids: seq<AgentIdentifier>)
    requires Partial(m) && Names(ids) == ids && PlainNames(ids)
    ensures Partial(m.(receivers := m.receivers + ids))
  {
    hide PlainWord, EraseAddresses, Names, PlainNames;
    var m' := m.(receivers := m.receivers + ids);
    Erased(m);
    NamesConcat(m.receivers, ids);
    Erased(m');
    PlainConcat(m.receivers, ids);
  }

  lemma ApplyKeepsPartial(m: Message, p: G.Param)
    requires Partial(m) && CleanParam(p)
    ensures Partial(G.Apply(m, p))
  {
    hide PlainWord, G.Eval, Names;
    match p {
      case Receiver(One(id)) =>
        NamesErased([Named(id.name)]);
        ReceiversKeepPartial(m, [Named(id.name)]);
      case Receiver(Many(ids)) =>
        IdentifiersNamed(ids);
        NamesErased(G.Identifiers(ids));
        ReceiversKeepPartial(m, G.Identifiers(ids));
      case _ =>
    }
  }

  /** Fields that the action of a word or a list of words left canonical. */
  ghost predicate Fields(m: Message) {
    && Canonical(m.language) && Canonical(m.encoding) && Canonical(m.ontology)
    && Canonical(m.conversationId) && Canonical(m.replyWith) && Canonical(m.inReplyTo)
  }

  /** No quoted string anywhere in the expression. */
  predicate NoStrings(e: G.Expr)
    decreases e, 1
  {
    match e
    case EWord(_) => true
    case EStr(_) => false
    case EList(items) => NoStringsIn(items)
  }

  predicate NoStringsIn(es: seq<G.Expr>)
    decreases es, 0
  {
    es == [] || (NoStrings(es[0]) && NoStringsIn(es[1..]))
  }

  /** Quoted strings stand only where they are kept as text or ignored. */
  predicate WordParam(p: G.Param) {
    p.Value? && p.field != G.Content && p.field != G.ReplyBy ==> NoStrings(p.expr)
  }

  predicate WordParams(ps: seq<G.Param>) {
    forall i :: 0 <= i < |ps| ==> WordParam(ps[i])
  }

  lemma {:induction false} NoStringsPlain(e: G.Expr)
    requires NoStrings(e) && CleanTokens(G.ExprTokens(e))
    ensures PlainExpr(e)
    decreases e, 1
  {
    match e {
      case EWord(w) =>
        assert Word(w) in G.ExprTokens(e);
      case EList(items) =>
        var ts := G.ExprsTokens(items);
        CleanParts([Lit(LParen)] + ts, [Lit(RParen)]);
        CleanParts([Lit(LParen)], ts);
        NoStringsInPlain(items);
    }
  }

  lemma {:induction false} NoStringsInPlain(es: seq<G.Expr>)
    requires NoStringsIn(es) && CleanTokens(G.ExprsTokens(es))
    ensures PlainExprs(es)
    decreases es, 0
  {
    if es != [] {
      hide Clean, NoStrings, PlainExpr, G.ExprTokens;
      CleanParts(G.ExprTokens(es[0]), G.ExprsTokens(es[1..]));
      NoStringsPlain(es[0]);
      NoStringsInPlain(es[1..]);
    }
  }

  lemma ApplyKeepsFields(m: Message, p: G.Param)
    requires Fields(m) && WordParam(p) && CleanTokens(G.ParamTokens(p))
    ensures Fields(G.Apply(m, p))
  {
    if p.Value? && p.field != G.Content && p.field != G.ReplyBy {
      hide Clean, G.ExprTokens, G.Eval, PlainExpr, NoStrings;
      CleanParts([Lit(G.FieldKeyword(p.field))], G.ExprTokens(p.expr));
      NoStringsPlain(p.expr);
      assert Canonical(G.Eval(p.expr));
    }
  }

  lemma {:induction false} ApplyAllKeeps(m: Message, ps: seq<G.Param>)
    requires Partial(m) && CleanTokens(G.ParamsTokens(ps))
    ensures Partial(G.ApplyAll(m, ps))
    ensures Fields(m) && WordParams(ps) ==> Fields(G.ApplyAll(m, ps))
    decreases |ps|
  {
    hide Partial, Fields, Clean, CleanParam, WordParam, G.ParamTokens, G.Apply;
    if ps != [] {
      CleanParts(G.ParamTokens(ps[0]), G.ParamsTokens(ps[1..]));
      ParamIsClean(ps[0]);
      ApplyKeepsPartial(m, ps[0]);
      if Fields(m) && WordParams(ps) {
        ApplyKeepsFields(m, ps[0]);
        assert forall i :: 0 <= i < |ps| - 1 ==> ps[1..][i] == ps[i + 1];
      }
      ApplyAllKeeps(G.Apply(m, ps[0]), ps[1..]);
    }
  }

  lemma TextTreeIsClean(input: string)
    requires TreeOfText(input).Some?
    ensures TreeOfText(input).value.performative != Unknown
    ensures CleanTokens(G.ParamsTokens(TreeOfText(input).value.params))
  {
    hide Clean, Lex, G.ParseTree, G.ParamsTokens;
    LexIsClean(UpToNul(input));
    var t := TreeOfText(input).value;
    var ts := [Lit(LParen), Lit(KPerformative(t.performative))];
    CleanParts(ts + G.ParamsTokens(t.params), [Lit(RParen)]);
    CleanParts(ts, G.ParamsTokens(t.params));
  }

  lemma BlankIsPartial()
    ensures Partial(BLANK) && Fields(BLANK)
  {
  }

  /** Every message the parser returns has nameable names, a NUL-free content and no
      addresses; its other fields are canonical if the text quotes none of them. */
  lemma ParsedIsNameable(input: string)
    requires ParseText(input).Some?
    ensures Nameable(ParseText(input).value)
    ensures EraseAddresses(ParseText(input).value) == ParseText(input).value
    ensures WordParams(TreeOfText(input).value.params) ==> Fields(ParseText(input).value)
  {
    hide PlainWord, Canonical, G.ApplyAll, TreeOfText;
    TextTreeIsClean(input);
    var t := TreeOfText(input).value;
    BlankIsPartial();
    ApplyAllKeeps(BLANK, t.params);
    PartialMeaning(G.ApplyAll(BLANK, t.params), t.performative);
  }

  lemma PartialMeaning(m: Message, p: Performative)
    requires Partial(m) && p != Unknown
    ensures Nameable(m.(performative := p)) && EraseAddresses(m.(performative := p)) == m.(performative := p)
    ensures Fields(m) ==> Fields(m.(performative := p))
  {
    hide PlainWord, Canonical;
  }

  // ----- the laws -----

  /** The round trip, and exactly when: a message whose unquoted fields are orderly is
      read back from its text (addresses aside) if and only if its performative is
      known, its names and its protocol are words but no keywords, and its content
      has no NUL. */
  lemma RoundTrip(m: Message)
    requires Orderly(m)
    ensures ParseText(Print(m)) == Some(EraseAddresses(m)) <==> Nameable(m)
  {
    hide Print, Orderly, ParseText;
    if Nameable(m) {
      PrintThenParse(m);
    }
    if ParseText(Print(m)) == Some(EraseAddresses(m)) {
      ParsedIsNameable(Print(m));
      ErasedNameable(m);
    }
  }

  lemma ErasedNameable(m: Message)
    ensures Nameable(EraseAddresses(m)) <==> Nameable(m)
  {
    hide PlainWord;
    assert forall i :: 0 <= i < |m.receivers| ==> Names(m.receivers)[i].name == m.receivers[i].name;
  }

  lemma ErasedOrderly(m: Message)
    requires Fields(m) && EraseAddresses(m) == m
    ensures Orderly(m)
  {
    hide PlainWord, Canonical;
    NamesErased(m.receivers);
  }

  /** Printing is a retraction of parsing: whatever an accepted text means, in any
      order, with receiver sets and repeated parameters, prints to a text that means
      the same, provided the fields that are printed without quotes, however they were
      written, came to be empty, a word or a list of words. ParsedIsNameable says when
      that is sure to be so. */
  lemma PrintRetracts(input: string)
    requires ParseText(input).Some? && Fields(ParseText(input).value)
    ensures Printable(ParseText(input).value)
    ensures ParseText(Print(ParseText(input).value)) == ParseText(input)
  {
    hide Print, ParseText, Fields, Nameable, Orderly;
    ParsedIsNameable(input);
    var m := ParseText(input).value;
    ErasedOrderly(m);
    PrintThenParse(m);
  }

  // ----- a field that was quoted -----

  /** A message with two words as its language. */
  function TwoWords(a: string, b: string): Message {
    Fresh(Inform).(language := a + (" " + b))
  }

  lemma OneLine(m: Message)
    requires m.sender.name == "" && m.receivers == [] && m.content == m.encoding == m.ontology == m.protocol == ""
    requires m.conversationId == m.replyWith == m.inReplyTo == ""
    ensures Print(m) == Framed(m.performative, Line(" :language ", m.language))
  {
    var line := Line(" :language ", m.language);
    PrintRegrouped(m);
    hide Line;
    assert PlainLines(m) == line by {
      assert Line("", "") == "" && PlainLines(m) == line + "" + "" + "" + "" + "" + "" by { NoLine(); }
    }
    assert "" + ("" + ("" + line)) == line;
  }

  lemma NoLine()
    ensures forall prefix :: Line(prefix, "") == ""
  {
  }

  lemma EmitsTwoWords(a: string, b: string)
    requires PlainWord(a) && PlainWord(b)
    ensures Emits(a + (" " + b), [Word(a), Word(b)], true)
  {
    hide Emits, Lex, PlainWord;
    EmitsWord(a);
    EmitsWord(b);
    EmitsBlank(' ');
    EmitsBoth(" ", [], false, b, [Word(b)], true);
    EmitsBoth(a, [Word(a)], true, " " + b, [] + [Word(b)], true);
    assert [Word(a)] + ([] + [Word(b)]) == [Word(a), Word(b)];
  }

  /** Two words where one is expected. */
  lemma NoSecondWord(a: string, b: string)
    ensures G.ParseTree([Lit(LParen), Lit(KPerformative(Inform)), Lit(PLanguage)] + [Word(a), Word(b)] + [Lit(RParen)]) == None
  {
    var ts := [Lit(LParen), Lit(KPerformative(Inform)), Lit(PLanguage)] + [Word(a), Word(b)] + [Lit(RParen)];
    assert ts[2..] == [Lit(PLanguage), Word(a), Word(b), Lit(RParen)];
    assert ts[2..][1..] == [Word(a), Word(b), Lit(RParen)];
    assert G.ParseExpr(ts[2..][1..]) == G.Found(G.EWord(a), [Word(b), Lit(RParen)]);
    assert G.ParseParams([Word(b), Lit(RParen)]) == G.Found([], [Word(b), Lit(RParen)]);
  }

  /** What the scanner makes of a message that only has a language. */
  lemma LanguageScanned(v: string, ts: seq<Token>)
    requires v != "" && Emits(v, ts, true)
    ensures var text := Framed(Inform, Line(" :language ", v));
      UpToNul(text) == text && Lex(text) == Some([Lit(LParen), Lit(KPerformative(Inform)), Lit(PLanguage)] + ts + [Lit(RParen)])
  {
    hide Emits, Lex, Framed;
    FieldPrefixes();
    EmitsLine(" :language ", PLanguage, v, ts);
    EmitsFramed(Inform, Line(" :language ", v), [Lit(PLanguage)] + ts);
    assert [Lit(LParen), Lit(KPerformative(Inform))] + ([Lit(PLanguage)] + ts) + [Lit(RParen)]
        == [Lit(LParen), Lit(KPerformative(Inform)), Lit(PLanguage)] + ts + [Lit(RParen)];
    EmitsWhole(Framed(Inform, Line(" :language ", v)), [Lit(LParen), Lit(KPerformative(Inform)), Lit(PLanguage)] + ts + [Lit(RParen)]);
  }

  lemma OnlyLanguage(v: string)
    ensures G.ParseTree([Lit(LParen), Lit(KPerformative(Inform)), Lit(PLanguage)] + [Str(v)] + [Lit(RParen)])
      == Some(G.Tree(Inform, [G.Value(G.Language, G.EStr(v))]))
    ensures G.Meaning(G.Tree(Inform, [G.Value(G.Language, G.EStr(v))])) == Fresh(Inform).(language := v)
  {
    var p := G.Value(G.Language, G.EStr(v));
    var tree := G.Tree(Inform, [p]);
    hide G.ParseTree;
    OneParam(p);
    OneInhabited(p);
    assert G.TreeTokens(tree) == [Lit(LParen), Lit(KPerformative(Inform)), Lit(PLanguage)] + [Str(v)] + [Lit(RParen)];
    G.ParserIsGrammar(G.TreeTokens(tree), tree);
    ApplyOne(BLANK, p);
  }

  lemma QuotedPair(a: string, b: string)
    requires PlainWord(a) && PlainWord(b)
    ensures var v := a + (" " + b);
      '\0' !in v && v != "" && Quote(v) != ""
  {
  }

  /** Where printing is no retraction: a language that was written as a quoted pair of
      words is read, but it is printed without its quotes, and that text is refused. */
  lemma QuotesAreLost(a: string, b: string)
    requires PlainWord(a) && PlainWord(b)
    ensures ParseText(Framed(Inform, Line(" :language ", Quote(a + (" " + b))))) == Some(TwoWords(a, b))
    ensures ParseText(Print(TwoWords(a, b))) == None
  {
    hide PlainWord, Emits, Lex, UpToNul, Framed, Line, Quote, Print, G.ParseTree, G.Meaning;
    var v := a + (" " + b);
    QuotedPair(a, b);
    EmitsQuoted(v);
    EmitsLoose(Quote(v), [Str(v)]);
    LanguageScanned(Quote(v), [Str(v)]);
    OnlyLanguage(v);
    EmitsTwoWords(a, b);
    LanguageScanned(v, [Word(a), Word(b)]);
    OneLine(TwoWords(a, b));
    NoSecondWord(a, b);
  }
}
