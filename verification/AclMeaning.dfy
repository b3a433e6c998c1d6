/** What an accepted text means, said about its derivation tree as a whole: which
    parameters reach which field of the message. */
module AclMeaning {
  import opened Options
  import opened AclMessages
  import opened AclLexer
  import opened AclTokens
  import opened AclCodec
  import opened AclRoundTrip
  import G = AclGrammar

  // ----- the tree read as a whole -----

  /** The names under a receiver parameter, in the order they are written. */
  function SpecNames(spec: G.ReceiverSpec): (r: seq<string>)
    ensures spec.One? ==> r == [spec.id.name]
    ensures spec.Many? ==> |r| == |spec.ids| && forall i :: 0 <= i < |r| ==> r[i] == spec.ids[i].name
  {
    match spec
    case One(id) => [id.name]
    case Many(ids) => seq(|ids|, i requires 0 <= i < |ids| => ids[i].name)
  }

  /** The names under all receiver parameters. */
  function ReceiverNames(ps: seq<G.Param>): seq<string> {
    if ps == [] then []
    else
      var p := ps[|ps| - 1];
      ReceiverNames(ps[..|ps| - 1]) + (if p.Receiver? then SpecNames(p.spec) else [])
  }

  /** The last parameter that gives the sender, the protocol, and a field. */
  function LastSender(ps: seq<G.Param>): string {
    if ps == [] then ""
    else if ps[|ps| - 1].Sender? then ps[|ps| - 1].id.name
    else LastSender(ps[..|ps| - 1])
  }

  function LastProtocol(ps: seq<G.Param>): string {
    if ps == [] then ""
    else if ps[|ps| - 1].Protocol? then ps[|ps| - 1].word
    else LastProtocol(ps[..|ps| - 1])
  }

  function LastValue(ps: seq<G.Param>, f: G.Field): string {
    if ps == [] then ""
    else if ps[|ps| - 1].Value? && ps[|ps| - 1].field == f then G.Eval(ps[|ps| - 1].expr)
    else LastValue(ps[..|ps| - 1], f)
  }

  /** The message m is what the parameters say. */
  predicate Says(ps: seq<G.Param>, m: Message) {
    && |m.receivers| == |ReceiverNames(ps)|
    && (forall i :: 0 <= i < |m.receivers| ==> m.receivers[i] == AgentIdentifier(ReceiverNames(ps)[i], []))
    && m.sender == AgentIdentifier(LastSender(ps), [])
    && m.protocol == LastProtocol(ps)
    && m.content == LastValue(ps, G.Content)
    && m.language == LastValue(ps, G.Language)
    && m.encoding == LastValue(ps, G.Encoding)
    && m.ontology == LastValue(ps, G.Ontology)
    && m.conversationId == LastValue(ps, G.ConversationId)
    && m.replyWith == LastValue(ps, G.ReplyWith)
    && m.inReplyTo == LastValue(ps, G.InReplyTo)
  }

  // ----- the semantic actions do just that -----

  lemma IdentifierNames(ids: seq<G.AgentId>)
    ensures |G.Identifiers(ids)| == |ids|
    ensures forall i :: 0 <= i < |ids| ==> G.Identifiers(ids)[i] == AgentIdentifier(ids[i].name, [])
  {
  }

  lemma OneMore(ps: seq<G.Param>, p: G.Param, m: Message)
    requires Says(ps, m)
    ensures Says(ps + [p], G.Apply(m, p))
  {
    var qs := ps + [p];
    assert qs[..|qs| - 1] == ps && qs[|qs| - 1] == p;
    hide G.Eval, G.Identifiers;
    if p.Receiver? && p.spec.Many? {
      IdentifierNames(p.spec.ids);
    }
  }

  lemma {:induction false} ActionsSay(ps: seq<G.Param>)
    ensures Says(ps, G.ApplyAll(BLANK, ps))
  {
    if ps == [] {
      assert Says([], BLANK);
    } else {
      hide Says, G.Apply;
      var n := |ps| - 1;
      ActionsSay(ps[..n]);
      OneMore(ps[..n], ps[n], G.ApplyAll(BLANK, ps[..n]));
      G.ApplyAllAppend(BLANK, ps[..n], [ps[n]]);
      ApplyOne(G.ApplyAll(BLANK, ps[..n]), ps[n]);
      assert ps[..n] + [ps[n]] == ps;
    }
  }

  /** The meaning of a tree, exactly: the receivers are the names under all its receiver
      parameters, sets included, in order; the sender, the protocol and each field is
      what its last parameter gives, and empty without one; addresses, resolvers and
      reply-by dates leave no trace. */
  lemma MeaningIsWhatIsSaid(t: G.Tree, m: Message)
    ensures m == G.Meaning(t) <==> m.performative == t.performative && Says(t.params, m)
  {
    hide G.ApplyAll, G.Eval, LastValue, ReceiverNames, LastSender, LastProtocol;
    ActionsSay(t.params);
    var w := G.Meaning(t);
    assert Says(t.params, w);
    if m.performative == t.performative && Says(t.params, m) {
      assert m.receivers == w.receivers;
    }
  }

  /** The tokens of the text are ts, t derives them, and says m. */
  ghost predicate Means(input: string, ts: seq<Token>, t: G.Tree, m: Message) {
    Lex(UpToNul(input)) == Some(ts) && G.Derivable(t) && ts == G.TreeTokens(t)
    && m.performative == t.performative && Says(t.params, m)
  }

  /** The same for a text: a text means m if and only if it has a derivation tree that
      says m. */
  lemma TextMeans(input: string, m: Message)
    ensures ParseText(input) == Some(m) <==> exists t: G.Tree, ts: seq<Token> :: Means(input, ts, t, m)
  {
    hide Lex, UpToNul, G.Derivable, G.TreeTokens, G.ParseTree, G.Meaning, Says;
    var tokens := Lex(UpToNul(input));
    if ParseText(input) == Some(m) {
      var t := G.ParseTree(tokens.value).value;
      G.ParserIsGrammar(tokens.value, t);
      MeaningIsWhatIsSaid(t, m);
      assert Means(input, tokens.value, t, m);
    }
    forall t: G.Tree, ts: seq<Token> | Means(input, ts, t, m) ensures ParseText(input) == Some(m) {
      G.ParserIsGrammar(ts, t);
      MeaningIsWhatIsSaid(t, m);
    }
  }

  /** In the words of the two ways a receiver can be written: a set means what its
      members mean one by one, in their place. */
  function OneByOne(ids: seq<G.AgentId>): seq<G.Param> {
    seq(|ids|, i requires 0 <= i < |ids| => G.Receiver(G.One(ids[i])))
  }

  lemma {:induction false} MembersApplied(m: Message, ids: seq<G.AgentId>)
    ensures G.ApplyAll(m, OneByOne(ids)) == G.Apply(m, G.Receiver(G.Many(ids)))
    decreases |ids|
  {
    if ids == [] {
      assert m.receivers + [] == m.receivers;
    } else {
      var one := OneByOne(ids);
      assert one[0] == G.Receiver(G.One(ids[0])) && one[1..] == OneByOne(ids[1..]);
      MembersApplied(G.Apply(m, one[0]), ids[1..]);
      assert m.receivers + [Named(ids[0].name)] + G.Identifiers(ids[1..]) == m.receivers + G.Identifiers(ids);
    }
  }

  lemma SetIsItsMembers(p: Performative, a: seq<G.Param>, ids: seq<G.AgentId>, b: seq<G.Param>)
    ensures G.Meaning(G.Tree(p, a + [G.Receiver(G.Many(ids))] + b)) == G.Meaning(G.Tree(p, a + OneByOne(ids) + b))
  {
    hide G.Apply;
    var whole := [G.Receiver(G.Many(ids))];
    G.ApplyAllAppend(BLANK, a + whole, b);
    G.ApplyAllAppend(BLANK, a, whole);
    ApplyOne(G.ApplyAll(BLANK, a), whole[0]);
    MembersApplied(G.ApplyAll(BLANK, a), ids);
    G.ApplyAllAppend(BLANK, a, OneByOne(ids));
    G.ApplyAllAppend(BLANK, a + OneByOne(ids), b);
  }

  // ----- the value of a nested expression -----

  function Values(es: seq<G.Expr>): (r: seq<string>)
    ensures |r| == |es| && forall i :: 0 <= i < |r| ==> r[i] == G.Eval(es[i])
  {
    seq(|es|, i requires 0 <= i < |es| => G.Eval(es[i]))
  }

  /** All from the first that is not empty. */
  function FromFirst(vs: seq<string>): seq<string> {
    if vs != [] && vs[0] == "" then FromFirst(vs[1..]) else vs
  }

  /** With one blank between each two. */
  function Spaced(vs: seq<string>): string {
    if vs == [] then "" else if |vs| == 1 then vs[0] else Spaced(vs[..|vs| - 1]) + " " + vs[|vs| - 1]
  }

  lemma {:induction false} SpacedHead(v: string, w: string, vs: seq<string>)
    ensures Spaced([v, w] + vs) == Spaced([v + " " + w] + vs)
  {
    if vs == [] {
      assert [v, w] + vs == [v, w] && [v, w][..1] == [v] && [v + " " + w] + vs == [v + " " + w];
    } else {
      var n := |vs| - 1;
      assert ([v, w] + vs)[..|vs| + 1] == [v, w] + vs[..n] && ([v + " " + w] + vs)[..|vs|] == [v + " " + w] + vs[..n];
      SpacedHead(v, w, vs[..n]);
    }
  }

  lemma ValuesFirst(es: seq<G.Expr>)
    requires es != []
    ensures Values(es) == [G.Eval(es[0])] + Values(es[1..])
    ensures FromFirst(Values(es)) == if G.Eval(es[0]) == "" then FromFirst(Values(es[1..])) else Values(es)
  {
    hide G.Eval;
    assert Values(es)[1..] == Values(es[1..]);
  }

  lemma {:induction false} JoinIsSpaced(acc: string, es: seq<G.Expr>)
    ensures G.Join(acc, es) == if acc == "" then Spaced(FromFirst(Values(es))) else Spaced([acc] + Values(es))
    decreases |es|
  {
    hide G.Eval, Values, FromFirst, Spaced;
    if es == [] {
      NothingJoined(acc);
    } else {
      var v := G.Eval(es[0]);
      ValuesFirst(es);
      if acc == "" {
        JoinIsSpaced(v, es[1..]);
      } else {
        JoinIsSpaced(acc + " " + v, es[1..]);
        SpacedHead(acc, v, Values(es[1..]));
        assert [acc] + ([v] + Values(es[1..])) == [acc, v] + Values(es[1..]);
      }
    }
  }

  lemma NothingJoined(acc: string)
    ensures Values([]) == [] && FromFirst([]) == [] && Spaced([]) == "" && Spaced([acc] + []) == acc
  {
  }

  /** A parenthesised expression is the values of its parts with one blank between them,
      in parentheses; parts that are empty are skipped in front, and only there. */
  lemma ListIsSpaced(es: seq<G.Expr>)
    ensures G.Eval(G.EList(es)) == "(" + Spaced(FromFirst(Values(es))) + ")"
  {
    JoinIsSpaced("", es);
  }

  // ----- the addresses -----

  function UrlText(url: G.Url): string {
    match url
    case UWord(w) => w
    case UStr(v) => v
  }

  /** The addresses that stand in an identifier. */
  function AddressesIn(xs: seq<G.Extra>): seq<string> {
    if xs == [] then []
    else (if xs[0].Addresses? then UrlTexts(xs[0].urls) else []) + AddressesIn(xs[1..])
  }

  function UrlTexts(urls: seq<G.Url>): seq<string> {
    seq(|urls|, i requires 0 <= i < |urls| => UrlText(urls[i]))
  }

  lemma {:induction false} WordUrlsText(addresses: seq<string>)
    ensures UrlTexts(WordUrls(addresses)) == addresses
  {
    if addresses != [] {
      var n := |addresses| - 1;
      WordUrlsText(addresses[..n]);
      assert UrlTexts(WordUrls(addresses)) == UrlTexts(WordUrls(addresses[..n])) + [addresses[n]];
    }
  }

  lemma AddressesOfId(id: AgentIdentifier)
    ensures IdTree(id).name == id.name && AddressesIn(IdTree(id).extras) == id.addresses
  {
    WordUrlsText(id.addresses);
    if id.addresses != [] {
      var xs := IdTree(id).extras;
      assert xs == [G.Addresses(WordUrls(id.addresses))] && xs[1..] == [];
    }
  }

  /** The identifiers under the sender and the receiver parameters. */
  function Ids(ps: seq<G.Param>): seq<G.AgentId> {
    if ps == [] then []
    else
      Ids(ps[..|ps| - 1]) +
        match ps[|ps| - 1]
        case Sender(id) => [id]
        case Receiver(One(id)) => [id]
        case Receiver(Many(ids)) => ids
        case _ => []
  }

  function IdTrees(ids: seq<AgentIdentifier>): seq<G.AgentId> {
    seq(|ids|, i requires 0 <= i < |ids| => IdTree(ids[i]))
  }

  lemma IdsAppend(a: seq<G.Param>, b: seq<G.Param>)
    ensures Ids(a + b) == Ids(a) + Ids(b)
  {
    if b == [] {
      assert a + b == a;
    } else {
      assert (a + b)[..|a + b| - 1] == a + b[..|b| - 1];
      IdsAppend(a, b[..|b| - 1]);
    }
  }

  lemma {:induction false} IdsOfReceivers(ids: seq<AgentIdentifier>)
    ensures Ids(ReceiverParams(ids)) == IdTrees(ids)
  {
    hide Ids, IdTree;
    if ids == [] {
      NoIds([]);
    } else {
      var n := |ids| - 1;
      IdsOfReceivers(ids[..n]);
      IdsAppend(ReceiverParams(ids[..n]), [G.Receiver(G.One(IdTree(ids[n])))]);
      OneId(IdTree(ids[n]));
      assert IdTrees(ids) == IdTrees(ids[..n]) + [IdTree(ids[n])];
    }
  }

  lemma OneId(id: G.AgentId)
    ensures Ids([G.Receiver(G.One(id))]) == [id]
  {
    assert [G.Receiver(G.One(id))][..0] == [];
  }

  /** No agent is named in these parameters. */
  predicate Agentless(ps: seq<G.Param>) {
    forall i :: 0 <= i < |ps| ==> ps[i].Value? || ps[i].Protocol?
  }

  lemma NoIds(ps: seq<G.Param>)
    requires Agentless(ps)
    ensures Ids(ps) == []
  {
  }

  lemma AgentlessBoth(a: seq<G.Param>, b: seq<G.Param>)
    requires Agentless(a) && Agentless(b)
    ensures Agentless(a + b)
  {
  }

  lemma FieldAgentless(f: G.Field, v: string)
    requires Canonical(v)
    ensures Agentless(FieldParams(f, v))
  {
    hide Canonical;
  }

  /** The agents that a message names: its sender, if it has a name, and its receivers. */
  function Agents(m: Message): seq<AgentIdentifier> {
    (if m.sender.name == "" then [] else [m.sender]) + m.receivers
  }

  lemma IdsOfTree(m: Message)
    requires Orderly(m)
    ensures Ids(TreeOf(m).params) == IdTrees(Agents(m))
  {
    hide Orderly, Ids, PlainParams, ContentParams, SenderParams, ReceiverParams, IdTree;
    var s, r, c, p := SenderParams(m.sender), ReceiverParams(m.receivers), ContentParams(m.content), PlainParams(m);
    IdsAppend(s, r + (c + p));
    IdsAppend(r, c + p);
    IdsOfReceivers(m.receivers);
    IdsAppend(c, p);
    FieldsHaveNoIds(m);
    IdsOfSender(m.sender);
    assert Ids(r) + ([] + []) == Ids(r);
    if m.sender.name != "" {
      assert IdTrees(Agents(m)) == [IdTree(m.sender)] + IdTrees(m.receivers);
    } else {
      assert Agents(m) == m.receivers;
    }
  }

  lemma FieldsHaveNoIds(m: Message)
    requires Orderly(m)
    ensures Ids(ContentParams(m.content)) == [] && Ids(PlainParams(m)) == []
  {
    hide Ids, Canonical, FieldParams, Agentless;
    assert Agentless(ContentParams(m.content)) && Agentless(ProtocolParams(m.protocol)) by { LineAgentless(m); }
    NoIds(ContentParams(m.content));
    FieldAgentless(G.Language, m.language);
    FieldAgentless(G.Encoding, m.encoding);
    FieldAgentless(G.Ontology, m.ontology);
    FieldAgentless(G.ConversationId, m.conversationId);
    FieldAgentless(G.ReplyWith, m.replyWith);
    FieldAgentless(G.InReplyTo, m.inReplyTo);
    var ps := FieldParams(G.Language, m.language);
    AgentlessBoth(ps, FieldParams(G.Encoding, m.encoding));
    ps := ps + FieldParams(G.Encoding, m.encoding);
    AgentlessBoth(ps, FieldParams(G.Ontology, m.ontology));
    ps := ps + FieldParams(G.Ontology, m.ontology);
    AgentlessBoth(ps, ProtocolParams(m.protocol));
    ps := ps + ProtocolParams(m.protocol);
    AgentlessBoth(ps, FieldParams(G.ConversationId, m.conversationId));
    ps := ps + FieldParams(G.ConversationId, m.conversationId);
    AgentlessBoth(ps, FieldParams(G.ReplyWith, m.replyWith));
    ps := ps + FieldParams(G.ReplyWith, m.replyWith);
    AgentlessBoth(ps, FieldParams(G.InReplyTo, m.inReplyTo));
    NoIds(PlainParams(m));
  }

  lemma LineAgentless(m: Message)
    ensures Agentless(ContentParams(m.content)) && Agentless(ProtocolParams(m.protocol))
  {
  }

  lemma IdsOfSender(id: AgentIdentifier)
    ensures Ids(SenderParams(id)) == if id.name == "" then [] else [IdTree(id)]
  {
    if id.name != "" {
      assert SenderParams(id)[..0] == [];
    }
  }

  /** The actions drop the addresses, but they are in the text: a printed message parses
      into a tree that names its sender and its receivers, in order, each with all of its
      addresses, in order. */
  lemma AddressesAreWritten(m: Message)
    requires Printable(m)
    ensures var t := TreeOfText(Print(m));
      && t.Some?
      && var ids := Ids(t.value.params);
         |ids| == |Agents(m)|
         && forall i :: 0 <= i < |ids| ==> ids[i].name == Agents(m)[i].name && AddressesIn(ids[i].extras) == Agents(m)[i].addresses
  {
    hide Printable, Orderly, Print, TreeOf, Lex, G.TreeTokens, G.ParseTree, Ids, IdTree, AddressesIn;
    PrintableParts(m);
    EmitsMessage(m);
    EmitsWhole(Print(m), G.TreeTokens(TreeOf(m)));
    TreeDerivable(m);
    G.ParserIsGrammar(G.TreeTokens(TreeOf(m)), TreeOf(m));
    IdsOfTree(m);
    forall i | 0 <= i < |Agents(m)|
      ensures IdTree(Agents(m)[i]).name == Agents(m)[i].name && AddressesIn(IdTree(Agents(m)[i]).extras) == Agents(m)[i].addresses
    {
      AddressesOfId(Agents(m)[i]);
    }
  }
}
