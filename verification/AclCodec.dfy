/** Printing and parsing together: ACLMessage::toString against ACLMessage::parse. */
module AclCodec {
  import opened Options
  import opened AclMessages
  import opened AclLexer
  import opened AclTokens
  import G = AclGrammar

  /** The derivation tree of a text, if it is a message. */
  function TreeOfText(input: string): Option<G.Tree> {
    var tokens := Lex(UpToNul(input));
    if tokens.None? then None else G.ParseTree(tokens.value)
  }

  /** ACLMessage::parse as a function of its input. */
  function ParseText(input: string): Option<Message> {
    var tree := TreeOfText(input);
    if tree.None? then None else Some(G.Meaning(tree.value))
  }

  /** Reading all from the message m comes to the same as reading left from m'. */
  predicate Continues(all: G.Found<seq<G.Param>>, m: Message, left: G.Found<seq<G.Param>>, m': Message) {
    && (all.Found? <==> left.Found?)
    && (all.Found? ==> all.rest == left.rest)
    && (all.Found? ==> G.ApplyAll(m, all.tree) == G.ApplyAll(m', left.tree))
  }

  /** The parser object: it builds its result one parameter at a time. */
  class FipaAclDriver {
    var result: Message

    constructor ()
      ensures result == BLANK
    {
      result := BLANK;
    }

    method Parse(input: string) returns (r: Option<Message>)
      modifies this
      ensures r == ParseText(input)
      ensures r.Some? ==> result == r.value
    {
      result := BLANK;
      var tokens := Tokenize(UpToNul(input));
      if tokens.None? {
        return None;
      }
      var ts := tokens.value;
      if |ts| <= 2 || ts[0] != Lit(LParen) || !ts[1].Lit? || !ts[1].lit.KPerformative? || ts[1].lit.p == Unknown {
        return None;
      }
      var rest, failed := ParseParameters(ts[2..]);
      if failed || rest != [Lit(RParen)] {
        return None;
      }
      result := result.(performative := ts[1].lit.p);
      return Some(result);
    }

    /** The params production: applies each parameter's action as it is read. */
    method ParseParameters(ts: seq<Token>) returns (rest: seq<Token>, failed: bool)
      modifies this
      ensures failed <==> G.ParseParams(ts).Missing?
      ensures !failed ==> rest == G.ParseParams(ts).rest
      ensures !failed ==> result == G.ApplyAll(old(result), G.ParseParams(ts).tree)
    {
      hide G.ParseParam, G.Apply, G.ParamTokens;
      rest := ts;
      while rest != [] && G.StartsParam(rest[0])
        invariant Continues(G.ParseParams(ts), old(result), G.ParseParams(rest), result)
        decreases |rest|
      {
        var first := G.ParseParam(rest);
        if first.Missing? {
          return rest, true;
        }
        ghost var others := G.ParseParams(first.rest);
        if others.Found? {
          assert ([first.tree] + others.tree)[1..] == others.tree;
        }
        assert |rest| == |G.ParamTokens(first.tree)| + |first.rest|;
        result := G.Apply(result, first.tree);
        rest := first.rest;
      }
      failed := false;
    }
  }

  // ----- messages whose text can be read back -----

  predicate PlainId(id: AgentIdentifier) {
    PlainWord(id.name) && PlainAddresses(id)
  }

  predicate PlainAddresses(id: AgentIdentifier) {
    forall a :: a in id.addresses ==> PlainWord(a)
  }

  /** Words and parenthesised lists of them, to any depth: no quoted strings. */
  predicate PlainExpr(e: G.Expr)
    decreases e, 1
  {
    match e
    case EWord(w) => PlainWord(w)
    case EStr(_) => false
    case EList(items) => PlainExprs(items)
  }

  predicate PlainExprs(es: seq<G.Expr>)
    decreases es, 0
  {
    es == [] || (PlainExpr(es[0]) && PlainExprs(es[1..]))
  }

  /** Empty, or the single-blank text of a word or of a nested list of words. */
  ghost predicate Canonical(v: string) {
    v == "" || exists e :: PlainExpr(e) && G.Eval(e) == v
  }

  ghost function ExprOf(v: string): (e: G.Expr)
    requires v != "" && Canonical(v)
    ensures PlainExpr(e) && G.Eval(e) == v
  {
    var e :| PlainExpr(e) && G.Eval(e) == v;
    e
  }

  /** The part of printability a caller settles by choosing names and content. */
  predicate Nameable(m: Message) {
    && m.performative != Unknown
    && (m.sender.name == "" || PlainWord(m.sender.name))
    && (forall i :: 0 <= i < |m.receivers| ==> PlainWord(m.receivers[i].name))
    && '\0' !in m.content
    && (m.protocol == "" || PlainWord(m.protocol))
  }

  /** The rest: addresses, and the fields printed without quotes. */
  ghost predicate Orderly(m: Message) {
    && (m.sender.name != "" ==> PlainAddresses(m.sender))
    && (forall i :: 0 <= i < |m.receivers| ==> PlainAddresses(m.receivers[i]))
    && Canonical(m.language) && Canonical(m.encoding) && Canonical(m.ontology)
    && Canonical(m.conversationId) && Canonical(m.replyWith) && Canonical(m.inReplyTo)
  }

  ghost predicate Printable(m: Message) {
    Nameable(m) && Orderly(m)
  }

  // ----- the tree of a printed message -----

  function WordUrls(addresses: seq<string>): seq<G.Url> {
    if addresses == [] then []
    else WordUrls(addresses[..|addresses| - 1]) + [G.UWord(addresses[|addresses| - 1])]
  }

  function IdTree(id: AgentIdentifier): G.AgentId {
    G.AgentId(id.name, if id.addresses == [] then [] else [G.Addresses(WordUrls(id.addresses))])
  }

  function SenderParams(id: AgentIdentifier): seq<G.Param> {
    if id.name == "" then [] else [G.Sender(IdTree(id))]
  }

  function ReceiverParams(ids: seq<AgentIdentifier>): seq<G.Param> {
    if ids == [] then []
    else ReceiverParams(ids[..|ids| - 1]) + [G.Receiver(G.One(IdTree(ids[|ids| - 1])))]
  }

  function ContentParams(content: string): seq<G.Param> {
    if content == "" then [] else [G.Value(G.Content, G.EStr(content))]
  }

  function ProtocolParams(protocol: string): seq<G.Param> {
    if protocol == "" then [] else [G.Protocol(protocol)]
  }

  ghost function FieldParams(f: G.Field, v: string): seq<G.Param>
    requires Canonical(v)
  {
    if v == "" then [] else [G.Value(f, ExprOf(v))]
  }

  ghost function PlainParams(m: Message): seq<G.Param>
    requires Orderly(m)
  {
    FieldParams(G.Language, m.language)
    + FieldParams(G.Encoding, m.encoding)
    + FieldParams(G.Ontology, m.ontology)
    + ProtocolParams(m.protocol)
    + FieldParams(G.ConversationId, m.conversationId)
    + FieldParams(G.ReplyWith, m.replyWith)
    + FieldParams(G.InReplyTo, m.inReplyTo)
  }

  ghost function AllParams(m: Message): seq<G.Param>
    requires Orderly(m)
  {
    SenderParams(m.sender) + (ReceiverParams(m.receivers) + (ContentParams(m.content) + PlainParams(m)))
  }

  ghost function TreeOf(m: Message): G.Tree
    requires Orderly(m)
  {
    G.Tree(m.performative, AllParams(m))
  }

  // ----- the printed text scans to the tokens of the tree -----

  lemma EmitsLoose(text: string, ts: seq<Token>)
    requires Emits(text, ts, false)
    ensures Emits(text, ts, true)
  {
    hide Lex;
  }

  /** Every element after a blank. */
  function Tail(es: seq<G.Expr>): string {
    if es == [] then "" else " " + G.Eval(es[0]) + Tail(es[1..])
  }

  lemma {:induction false} JoinIsTail(acc: string, es: seq<G.Expr>)
    requires acc != ""
    ensures G.Join(acc, es) == acc + Tail(es)
    decreases |es|
  {
    if es != [] {
      hide G.Eval;
      JoinIsTail(acc + " " + G.Eval(es[0]), es[1..]);
      assert acc + " " + G.Eval(es[0]) + Tail(es[1..]) == acc + (" " + G.Eval(es[0]) + Tail(es[1..]));
    }
  }

  lemma PlainValue(e: G.Expr)
    requires PlainExpr(e)
    ensures G.Eval(e) != ""
  {
  }

  lemma {:induction false} EmitsExpr(e: G.Expr)
    requires PlainExpr(e)
    ensures Emits(G.Eval(e), G.ExprTokens(e), true)
    decreases e, 1
  {
    match e {
      case EWord(w) => EmitsWord(w);
      case EList(items) =>
        hide Emits, Lex;
        EmitsItems(items);
        EmitsParen(LParen);
        EmitsParen(RParen);
        var inner := G.Join("", items);
        EmitsBoth(inner, G.ExprsTokens(items), true, ")", [Lit(RParen)], false);
        EmitsBoth("(", [Lit(LParen)], false, inner + ")", G.ExprsTokens(items) + [Lit(RParen)], false);
        assert "(" + inner + ")" == "(" + (inner + ")");
        G.Split([Lit(LParen)], G.ExprsTokens(items), [Lit(RParen)]);
        EmitsLoose(G.Eval(e), G.ExprTokens(e));
    }
  }

  lemma {:induction false} EmitsItems(es: seq<G.Expr>)
    requires PlainExprs(es)
    ensures Emits(G.Join("", es), G.ExprsTokens(es), true)
    decreases es, 0
  {
    if es == [] {
      EmitsNothing();
      EmitsLoose("", []);
    } else {
      hide Emits, Lex, G.Eval, PlainExpr;
      EmitsExpr(es[0]);
      PlainValue(es[0]);
      EmitsTail(es[1..]);
      JoinIsTail(G.Eval(es[0]), es[1..]);
      EmitsBoth(G.Eval(es[0]), G.ExprTokens(es[0]), true, Tail(es[1..]), G.ExprsTokens(es[1..]), true);
    }
  }

  lemma {:induction false} EmitsTail(es: seq<G.Expr>)
    requires PlainExprs(es)
    ensures Emits(Tail(es), G.ExprsTokens(es), true) && Delimited(Tail(es))
    decreases es, 0
  {
    if es == [] {
      EmitsNothing();
      EmitsLoose("", []);
    } else {
      hide Emits, Lex, G.Eval, PlainExpr;
      EmitsExpr(es[0]);
      EmitsTail(es[1..]);
      EmitsBoth(G.Eval(es[0]), G.ExprTokens(es[0]), true, Tail(es[1..]), G.ExprsTokens(es[1..]), true);
      EmitsBlank(' ');
      EmitsBoth(" ", [], false, G.Eval(es[0]) + Tail(es[1..]), G.ExprsTokens(es), true);
      assert " " + G.Eval(es[0]) + Tail(es[1..]) == " " + (G.Eval(es[0]) + Tail(es[1..]));
      assert [] + G.ExprsTokens(es) == G.ExprsTokens(es);
    }
  }

  /** A blank and a parameter keyword and a blank before a text. */
  lemma EmitsAfterKeyword(lit: Literal, v: string, ts: seq<Token>, tight: bool)
    requires IsParam(lit) && Emits(v, ts, tight)
    ensures Emits(" " + Text(lit) + " " + v, [Lit(lit)] + ts, tight)
  {
    hide Emits, Lex, Text;
    EmitsBlank(' ');
    EmitsParam(lit);
    EmitsBoth(" ", [], false, v, ts, tight);
    EmitsBoth(Text(lit), [Lit(lit)], false, " " + v, [] + ts, tight);
    EmitsBoth(" ", [], false, Text(lit) + (" " + v), [Lit(lit)] + ([] + ts), tight);
    assert [] + ([Lit(lit)] + ([] + ts)) == [Lit(lit)] + ts;
    assert " " + (Text(lit) + (" " + v)) == " " + Text(lit) + " " + v;
  }

  /** One line of a printed message. */
  lemma EmitsLine(prefix: string, lit: Literal, v: string, ts: seq<Token>)
    requires IsParam(lit) && prefix == " " + Text(lit) + " " && Emits(v, ts, true)
    ensures Emits(prefix + v + "\n", [Lit(lit)] + ts, false)
  {
    hide Emits, Lex, Text;
    EmitsAfterKeyword(lit, v, ts, true);
    EmitsBlank('\n');
    EmitsBoth(prefix + v, [Lit(lit)] + ts, true, "\n", [], false);
    assert [Lit(lit)] + ts + [] == [Lit(lit)] + ts;
  }

  lemma UrlsAppend(us: seq<G.Url>, u: G.Url)
    ensures G.UrlTokens(us + [u]) == G.UrlTokens(us) + [G.UrlToken(u)]
  {
    if us == [] {
      assert us + [u] == [u];
    } else {
      assert (us + [u])[1..] == us[1..] + [u];
      UrlsAppend(us[1..], u);
      G.Split([G.UrlToken(us[0])], G.UrlTokens(us[1..]), [G.UrlToken(u)]);
    }
  }

  lemma EmitsAddresses(addresses: seq<string>)
    requires forall a :: a in addresses ==> PlainWord(a)
    ensures Emits(AddressText(addresses), G.UrlTokens(WordUrls(addresses)), true)
    ensures Delimited(AddressText(addresses))
  {
    if addresses == [] {
      EmitsNothing();
      EmitsLoose("", []);
    } else {
      hide Emits, Lex;
      var n := |addresses| - 1;
      var a := addresses[n];
      EmitsAddresses(addresses[..n]);
      EmitsWord(a);
      EmitsBlank(' ');
      EmitsBoth(" ", [], false, a, [Word(a)], true);
      assert [] + [Word(a)] == [Word(a)];
      var before, tokens := AddressText(addresses[..n]), G.UrlTokens(WordUrls(addresses[..n]));
      EmitsBoth(before, tokens, true, " " + a, [Word(a)], true);
      assert before + " " + a == before + (" " + a);
      UrlsAppend(WordUrls(addresses[..n]), G.UWord(a));
    }
  }

  /** The address list of an identifier that has one. */
  lemma EmitsSequence(addresses: seq<string>)
    requires forall a :: a in addresses ==> PlainWord(a)
    ensures Emits(" :addresses (sequence" + AddressText(addresses) + ")",
                  G.ExtraTokens(G.Addresses(WordUrls(addresses))), false)
  {
    hide Emits, Lex;
    var list, tokens := AddressText(addresses), G.UrlTokens(WordUrls(addresses));
    EmitsAddresses(addresses);
    EmitsParen(RParen);
    EmitsBoth(list, tokens, true, ")", [Lit(RParen)], false);
    EmitsKeyword(KSequence);
    assert Delimited(list + ")");
    EmitsBoth("sequence", [Lit(KSequence)], true, list + ")", tokens + [Lit(RParen)], false);
    EmitsParen(LParen);
    EmitsBoth("(", [Lit(LParen)], false, "sequence" + (list + ")"), [Lit(KSequence)] + (tokens + [Lit(RParen)]), false);
    var text := "(" + ("sequence" + (list + ")"));
    EmitsAfterKeyword(PAddresses, text, [Lit(LParen)] + ([Lit(KSequence)] + (tokens + [Lit(RParen)])), false);
    SequenceText(list);
    SequenceTokens(addresses);
  }

  lemma SequenceText(list: string)
    ensures " :addresses (sequence" + list + ")" == " " + ":addresses" + " " + ("(" + ("sequence" + (list + ")")))
  {
    assert " :addresses (sequence" == " " + ":addresses" + " " + "(" + "sequence";
  }

  lemma SequenceTokens(addresses: seq<string>)
    ensures [Lit(PAddresses)] + ([Lit(LParen)] + ([Lit(KSequence)] + (G.UrlTokens(WordUrls(addresses)) + [Lit(RParen)])))
      == G.ExtraTokens(G.Addresses(WordUrls(addresses)))
  {
  }

  /** The address part of an identifier's text. */
  function AddressPart(id: AgentIdentifier): string {
    if id.addresses == [] then "" else " :addresses (sequence" + AddressText(id.addresses) + ")"
  }

  lemma EmitsIdRest(id: AgentIdentifier)
    requires PlainAddresses(id)
    ensures Emits(AddressPart(id) + ")", G.ExtrasTokens(IdTree(id).extras) + [Lit(RParen)], false)
    ensures Delimited(AddressPart(id) + ")")
  {
    EmitsParen(RParen);
    if id.addresses == [] {
      assert "" + ")" == ")" && G.ExtrasTokens([]) + [Lit(RParen)] == [Lit(RParen)];
    } else {
      hide Emits, Lex;
      var extra := G.Addresses(WordUrls(id.addresses));
      EmitsSequence(id.addresses);
      assert G.ExtrasTokens([extra]) == G.ExtraTokens(extra);
      EmitsBoth(AddressPart(id), G.ExtraTokens(extra), false, ")", [Lit(RParen)], false);
    }
  }

  lemma IdTextParts(name: string, part: string)
    ensures "(agent-identifier :name " + name + part + ")"
         == "(" + ("agent-identifier" + (" " + ":name" + " " + (name + (part + ")"))))
  {
    assert "(agent-identifier :name " == "(" + "agent-identifier" + (" " + ":name" + " ");
  }

  lemma EmitsId(id: AgentIdentifier)
    requires PlainId(id)
    ensures Emits(AgentIdText(id), G.AgentTokens(IdTree(id)), false)
  {
    hide Emits, Lex, AddressPart, G.ExtrasTokens;
    var rest := AddressPart(id) + ")";
    var tokens := G.ExtrasTokens(IdTree(id).extras) + [Lit(RParen)];
    EmitsIdRest(id);
    EmitsNamed(id.name, rest, tokens);
    IdTextParts(id.name, AddressPart(id));
    assert AgentIdText(id) == "(agent-identifier :name " + id.name + AddressPart(id) + ")" by {
      IdTextUnfold(id);
    }
    assert [Lit(LParen)] + ([Lit(KAgentIdentifier)] + ([Lit(PName)] + ([Word(id.name)] + tokens)))
      == G.AgentTokens(IdTree(id));
  }

  lemma IdTextUnfold(id: AgentIdentifier)
    ensures AgentIdText(id) == "(agent-identifier :name " + id.name + AddressPart(id) + ")"
  {
  }

  lemma EmitsNamed(name: string, rest: string, tokens: seq<Token>)
    requires PlainWord(name) && Emits(rest, tokens, false) && Delimited(rest) && rest != ""
    ensures Emits("(" + ("agent-identifier" + (" " + ":name" + " " + (name + rest))),
      [Lit(LParen)] + ([Lit(KAgentIdentifier)] + ([Lit(PName)] + ([Word(name)] + tokens))), false)
  {
    hide Emits, Lex;
    EmitsWord(name);
    EmitsBoth(name, [Word(name)], true, rest, tokens, false);
    EmitsAfterKeyword(PName, name + rest, [Word(name)] + tokens, false);
    EmitsKeyword(KAgentIdentifier);
    var named := " " + ":name" + " " + (name + rest);
    EmitsBoth("agent-identifier", [Lit(KAgentIdentifier)], true, named, [Lit(PName)] + ([Word(name)] + tokens), false);
    EmitsParen(LParen);
    EmitsBoth("(", [Lit(LParen)], false, "agent-identifier" + named,
              [Lit(KAgentIdentifier)] + ([Lit(PName)] + ([Word(name)] + tokens)), false);
  }

  // ----- the sections of a printed message -----

  lemma ParamsAppend(ps: seq<G.Param>, qs: seq<G.Param>)
    ensures G.ParamsTokens(ps + qs) == G.ParamsTokens(ps) + G.ParamsTokens(qs)
    ensures G.AllInhabited(ps) && G.AllInhabited(qs) ==> G.AllInhabited(ps + qs)
  {
    hide G.ParamTokens;
    if ps == [] {
      assert ps + qs == qs;
    } else {
      assert (ps + qs)[1..] == ps[1..] + qs;
      ParamsAppend(ps[1..], qs);
      G.Split(G.ParamTokens(ps[0]), G.ParamsTokens(ps[1..]), G.ParamsTokens(qs));
    }
  }

  lemma OneParam(p: G.Param)
    ensures G.ParamsTokens([p]) == G.ParamTokens(p)
  {
    hide G.ParamTokens;
    assert [p][1..] == [];
  }

  /** Two adjacent sections make one. */
  lemma EmitsSections(a: string, ps: seq<G.Param>, b: string, qs: seq<G.Param>)
    requires Emits(a, G.ParamsTokens(ps), false) && Emits(b, G.ParamsTokens(qs), false)
    ensures Emits(a + b, G.ParamsTokens(ps + qs), false)
  {
    hide Emits, Lex;
    ParamsAppend(ps, qs);
    EmitsBoth(a, G.ParamsTokens(ps), false, b, G.ParamsTokens(qs), false);
  }

  lemma EmitsSender(id: AgentIdentifier)
    requires id.name != "" ==> PlainId(id)
    ensures Emits(SenderLine(id), G.ParamsTokens(SenderParams(id)), false)
  {
    if id.name == "" {
      EmitsNothing();
    } else {
      hide Emits, Lex, AgentIdText, IdTree, G.AgentTokens;
      EmitsId(id);
      EmitsLoose(AgentIdText(id), G.AgentTokens(IdTree(id)));
      EmitsLine(" :sender ", PSender, AgentIdText(id), G.AgentTokens(IdTree(id)));
      OneParam(G.Sender(IdTree(id)));
      IdTextUnfold(id);
    }
  }

  lemma EmitsReceiver(id: AgentIdentifier)
    requires PlainId(id)
    ensures Emits(Line(" :receiver ", AgentIdText(id)), G.ParamsTokens([G.Receiver(G.One(IdTree(id)))]), false)
  {
    hide Emits, Lex, AgentIdText, IdTree, G.AgentTokens;
    EmitsId(id);
    EmitsLoose(AgentIdText(id), G.AgentTokens(IdTree(id)));
    EmitsLine(" :receiver ", PReceiver, AgentIdText(id), G.AgentTokens(IdTree(id)));
    OneParam(G.Receiver(G.One(IdTree(id))));
    IdTextUnfold(id);
  }

  lemma EmitsReceivers(ids: seq<AgentIdentifier>)
    requires forall i :: 0 <= i < |ids| ==> PlainId(ids[i])
    ensures Emits(ReceiverLines(ids), G.ParamsTokens(ReceiverParams(ids)), false)
  {
    if ids == [] {
      EmitsNothing();
    } else {
      hide Emits, Lex, AgentIdText, Line, IdTree, G.AgentTokens, G.ParamsTokens, PlainId;
      var n := |ids| - 1;
      EmitsReceivers(ids[..n]);
      EmitsReceiver(ids[n]);
      EmitsSections(ReceiverLines(ids[..n]), ReceiverParams(ids[..n]),
                    Line(" :receiver ", AgentIdText(ids[n])), [G.Receiver(G.One(IdTree(ids[n])))]);
    }
  }

  lemma EmitsContent(content: string)
    requires '\0' !in content
    ensures Emits(ContentLine(content), G.ParamsTokens(ContentParams(content)), false)
  {
    if content == "" {
      EmitsNothing();
    } else {
      hide Emits, Lex;
      EmitsQuoted(content);
      EmitsLoose(Quote(content), [Str(content)]);
      EmitsLine(" :content ", PContent, Quote(content), [Str(content)]);
      OneParam(G.Value(G.Content, G.EStr(content)));
    }
  }

  lemma EmitsProtocol(protocol: string)
    requires protocol == "" || PlainWord(protocol)
    ensures Emits(Line(" :protocol ", protocol), G.ParamsTokens(ProtocolParams(protocol)), false)
  {
    if protocol == "" {
      EmitsNothing();
    } else {
      hide Emits, Lex;
      EmitsWord(protocol);
      EmitsLine(" :protocol ", PProtocol, protocol, [Word(protocol)]);
      OneParam(G.Protocol(protocol));
      assert [Lit(PProtocol)] + [Word(protocol)] == [Lit(PProtocol), Word(protocol)];
    }
  }

  lemma EmitsField(prefix: string, f: G.Field, v: string)
    requires Canonical(v) && prefix == " " + Text(G.FieldKeyword(f)) + " "
    ensures Emits(Line(prefix, v), G.ParamsTokens(FieldParams(f, v)), false)
  {
    if v == "" {
      EmitsNothing();
    } else {
      hide Emits, Lex, Text, Canonical, G.ExprTokens;
      var e := ExprOf(v);
      EmitsExpr(e);
      EmitsLine(prefix, G.FieldKeyword(f), v, G.ExprTokens(e));
      OneParam(G.Value(f, e));
    }
  }

  lemma EmitsPlainLines(m: Message)
    requires Orderly(m) && (m.protocol == "" || PlainWord(m.protocol))
    ensures Emits(PlainLines(m), G.ParamsTokens(PlainParams(m)), false)
  {
    hide Emits, Lex, Line, FieldParams, ProtocolParams, G.ParamsTokens, Text;
    FieldPrefixes();
    EmitsField(" :language ", G.Language, m.language);
    EmitsField(" :encoding ", G.Encoding, m.encoding);
    EmitsField(" :ontology ", G.Ontology, m.ontology);
    EmitsProtocol(m.protocol);
    EmitsField(" :conversation-id ", G.ConversationId, m.conversationId);
    EmitsField(" :reply-with ", G.ReplyWith, m.replyWith);
    EmitsField(" :in-reply-to ", G.InReplyTo, m.inReplyTo);
    EmitsSeven(
      Line(" :language ", m.language), FieldParams(G.Language, m.language),
      Line(" :encoding ", m.encoding), FieldParams(G.Encoding, m.encoding),
      Line(" :ontology ", m.ontology), FieldParams(G.Ontology, m.ontology),
      Line(" :protocol ", m.protocol), ProtocolParams(m.protocol),
      Line(" :conversation-id ", m.conversationId), FieldParams(G.ConversationId, m.conversationId),
      Line(" :reply-with ", m.replyWith), FieldParams(G.ReplyWith, m.replyWith),
      Line(" :in-reply-to ", m.inReplyTo), FieldParams(G.InReplyTo, m.inReplyTo));
  }

  lemma FieldPrefixes()
    ensures " :language " == " " + Text(PLanguage) + " "
    ensures " :encoding " == " " + Text(PEncoding) + " "
    ensures " :ontology " == " " + Text(POntology) + " "
    ensures " :conversation-id " == " " + Text(PConversationId) + " "
    ensures " :reply-with " == " " + Text(PReplyWith) + " "
    ensures " :in-reply-to " == " " + Text(PInReplyTo) + " "
  {
  }

  lemma EmitsSeven(a: string, as': seq<G.Param>, b: string, bs: seq<G.Param>, c: string, cs: seq<G.Param>,
                   d: string, ds: seq<G.Param>, e: string, es: seq<G.Param>, f: string, fs: seq<G.Param>,
                   g: string, gs: seq<G.Param>)
    requires Emits(a, G.ParamsTokens(as'), false) && Emits(b, G.ParamsTokens(bs), false)
    requires Emits(c, G.ParamsTokens(cs), false) && Emits(d, G.ParamsTokens(ds), false)
    requires Emits(e, G.ParamsTokens(es), false) && Emits(f, G.ParamsTokens(fs), false)
    requires Emits(g, G.ParamsTokens(gs), false)
    ensures Emits(a + b + c + d + e + f + g, G.ParamsTokens(as' + bs + cs + ds + es + fs + gs), false)
  {
    hide Emits, Lex, G.ParamsTokens;
    EmitsSections(a, as', b, bs);
    EmitsSections(a + b, as' + bs, c, cs);
    EmitsSections(a + b + c, as' + bs + cs, d, ds);
    EmitsSections(a + b + c + d, as' + bs + cs + ds, e, es);
    EmitsSections(a + b + c + d + e, as' + bs + cs + ds + es, f, fs);
    EmitsSections(a + b + c + d + e + f, as' + bs + cs + ds + es + fs, g, gs);
  }

  lemma EmitsBody(m: Message)
    requires Printable(m)
    ensures Emits(SenderLine(m.sender) + (ReceiverLines(m.receivers) + (ContentLine(m.content) + PlainLines(m))),
                  G.ParamsTokens(AllParams(m)), false)
  {
    hide Emits, Lex, SenderLine, ReceiverLines, ContentLine, PlainLines, G.ParamsTokens;
    hide SenderParams, ReceiverParams, ContentParams, PlainParams;
    EmitsSender(m.sender);
    EmitsReceivers(m.receivers);
    EmitsContent(m.content);
    EmitsPlainLines(m);
    var c, p := ContentLine(m.content), PlainLines(m);
    EmitsSections(c, ContentParams(m.content), p, PlainParams(m));
    EmitsSections(ReceiverLines(m.receivers), ReceiverParams(m.receivers), c + p, ContentParams(m.content) + PlainParams(m));
    EmitsSections(SenderLine(m.sender), SenderParams(m.sender), ReceiverLines(m.receivers) + (c + p),
                  ReceiverParams(m.receivers) + (ContentParams(m.content) + PlainParams(m)));
  }

  lemma PrintRegrouped(m: Message)
    ensures Print(m) == "(" + (PerformativeToString(m.performative) + ("\n"
      + ((SenderLine(m.sender) + (ReceiverLines(m.receivers) + (ContentLine(m.content) + PlainLines(m)))) + ")")))
  {
    hide PerformativeToString, SenderLine, ReceiverLines, ContentLine, PlainLines;
    var s, r, c, p := SenderLine(m.sender), ReceiverLines(m.receivers), ContentLine(m.content), PlainLines(m);
    assert (s + (r + (c + p))) + ")" == s + (r + (c + (p + ")"))) by {
      assert s + (r + (c + p)) + ")" == s + ((r + (c + p)) + ")");
      assert (r + (c + p)) + ")" == r + ((c + p) + ")");
      assert (c + p) + ")" == c + (p + ")");
    }
  }

  /** The text of a message around its parameters. */
  function Framed(p: Performative, body: string): string {
    "(" + (PerformativeToString(p) + ("\n" + (body + ")")))
  }

  lemma EmitsFramed(p: Performative, body: string, tokens: seq<Token>)
    requires p != Unknown && Emits(body, tokens, false)
    ensures Emits(Framed(p, body), [Lit(LParen), Lit(KPerformative(p))] + tokens + [Lit(RParen)], false)
  {
    hide Emits, Lex, PerformativeToString, KeywordText;
    var perf, keyword := PerformativeToString(p), KPerformative(p);
    EmitsParen(RParen);
    EmitsBoth(body, tokens, false, ")", [Lit(RParen)], false);
    EmitsBlank('\n');
    EmitsBoth("\n", [], false, body + ")", tokens + [Lit(RParen)], false);
    EmitsKeyword(keyword);
    KeywordTextIsPrinted(p);
    EmitsBoth(perf, [Lit(keyword)], true, "\n" + (body + ")"), [] + (tokens + [Lit(RParen)]), false);
    EmitsParen(LParen);
    EmitsBoth("(", [Lit(LParen)], false, perf + ("\n" + (body + ")")), [Lit(keyword)] + ([] + (tokens + [Lit(RParen)])), false);
    assert [Lit(LParen)] + ([Lit(keyword)] + ([] + (tokens + [Lit(RParen)])))
        == [Lit(LParen), Lit(keyword)] + tokens + [Lit(RParen)];
  }

  /** The printed text of a message scans to the tokens of its tree. */
  lemma EmitsMessage(m: Message)
    requires Printable(m)
    ensures Emits(Print(m), G.TreeTokens(TreeOf(m)), false)
  {
    hide Emits, Lex, Print, G.ParamsTokens, AllParams, Printable;
    hide PerformativeToString, SenderLine, ReceiverLines, ContentLine, PlainLines;
    PrintableParts(m);
    EmitsBody(m);
    EmitsFramed(m.performative, SenderLine(m.sender) + (ReceiverLines(m.receivers) + (ContentLine(m.content) + PlainLines(m))),
                G.ParamsTokens(AllParams(m)));
    PrintRegrouped(m);
  }

  lemma PrintableParts(m: Message)
    requires Printable(m)
    ensures m.performative != Unknown && Orderly(m)
  {
  }
}
