/** The messages that the three protocols make can be printed and read back, when the
    names are words and what the callbacks say is printable. */
module SpokenMessages {
  import opened Options
  import opened AclMessages
  import opened AclLexer
  import opened AclTokens
  import G = AclGrammar
  import opened AclCodec
  import opened Transport
  import CN = ContractNet
  import CNS = ContractNetSystem
  import SN = SubscribeNotify
  import RQ = RequestProtocol

  // ----- words -----

  /** What may follow the first character of a word. */
  predicate Suffix(w: string) {
    forall c :: c in w ==> IsWordChar(c)
  }

  /** The prefixes of conversation identifiers and of reply-with fields. */
  predicate IsPrefix(p: string) {
    p == "cnp-" || p == "cfp-" || p == "snp-" || p == "sub-" || p == "req-"
  }

  lemma FirstHalf(w: string)
    requires |w| > 3 && w[3] == '-' && (w[0] == 'c' || w[0] == 's' || w[0] == 'r')
    ensures KeywordAToI(w) == None
  {
  }

  lemma SecondHalf(w: string)
    requires |w| > 3 && w[3] == '-' && (w[0] == 'c' || w[0] == 's' || w[0] == 'r')
    ensures KeywordNToS(w) == None
  {
  }

  /** No keyword has a dash in fourth place. */
  lemma NoKeyword(w: string)
    requires |w| > 3 && w[3] == '-' && (w[0] == 'c' || w[0] == 's' || w[0] == 'r')
    ensures KeywordOf(w).None?
  {
    FirstHalf(w);
    SecondHalf(w);
    hide KeywordAToI, KeywordNToS;
    assert w != "agent-identifier" && w != "set" && w != "sequence" by {
      assert "sequence"[3] == 'u';
    }
  }

  lemma WordIsCanonical(w: string)
    requires PlainWord(w)
    ensures Canonical(w)
  {
    assert PlainExpr(G.EWord(w)) && G.Eval(G.EWord(w)) == w;
  }

  /** A prefix makes a word, and no keyword, of whatever characters follow. */
  lemma MadeWord(prefix: string, w: string)
    requires IsPrefix(prefix) && Suffix(w)
    ensures PlainWord(prefix + w) && Canonical(prefix + w)
  {
    var t := prefix + w;
    assert t[0] == prefix[0] && t[3] == prefix[3];
    NoKeyword(t);
    forall c | c in t ensures IsWordChar(c) {
      assert c in prefix || c in w;
    }
    WordIsCanonical(t);
  }

  lemma SuffixParts(name: string, stamp: string)
    requires PlainWord(name) && Suffix(stamp)
    ensures Suffix(name + "-" + stamp)
  {
  }

  lemma NamedIsPlain(name: string)
    requires PlainWord(name)
    ensures name != "" && PlainAddresses(Named(name))
  {
  }

  lemma ContractNetIsWord()
    ensures PlainWord("fipa-contract-net")
  {
  }

  lemma SubscribeIsWord()
    ensures PlainWord("fipa-subscribe")
  {
  }

  lemma RequestIsWord()
    ensures PlainWord("fipa-request")
  {
  }

  lemma ProtocolsAreWords()
    ensures PlainWord("fipa-contract-net") && PlainWord("fipa-subscribe") && PlainWord("fipa-request")
  {
    hide PlainWord;
    ContractNetIsWord();
    SubscribeIsWord();
    RequestIsWord();
  }

  // ----- messages that can travel -----

  /** A message that can be printed and answered. */
  ghost predicate Ready(m: Message) {
    Printable(m) && m.sender.name != ""
  }

  lemma ReplyReady(m: Message, p: Performative, name: string)
    requires Ready(m) && PlainWord(name) && p != Unknown
    ensures Ready(CreateReply(m, p).(sender := Named(name)))
  {
    hide Canonical, PlainWord;
    NamedIsPlain(name);
    EmptyIsCanonical();
  }

  // ----- Contract Net -----

  lemma ConvIsWord(i: CN.Initiator, at: CN.Moment)
    requires PlainWord(i.name) && Suffix(at.stamp)
    ensures Canonical(CN.ConvId(i, at)) && Canonical("cfp-" + CN.ConvId(i, at))
  {
    var w := i.name + "-" + at.stamp;
    SuffixParts(i.name, at.stamp);
    MadeWord("cnp-", w);
    assert CN.ConvId(i, at) == "cnp-" + w;
    MadeWord("cfp-", CN.ConvId(i, at));
  }

  lemma CfpReady(i: CN.Initiator, at: CN.Moment)
    requires Printable(i.cfp) && PlainWord(i.name) && Suffix(at.stamp)
    ensures Ready(CN.CfpToSend(i, at)) && Canonical(CN.ConvId(i, at))
  {
    hide Canonical, PlainWord, CN.ConvId;
    ConvIsWord(i, at);
    ProtocolsAreWords();
    NamedIsPlain(i.name);
  }

  lemma CfpsReady(cfp: Message, ps: seq<string>)
    requires Ready(cfp)
    ensures forall e :: e in CN.Cfps(cfp, ps) ==> Ready(e.msg)
  {
    hide Ready;
    CNS.CfpsAsked(cfp, ps);
  }

  lemma {:induction false} VerdictsReady(name: string, selected: seq<string>, proposals: seq<Message>)
    requires PlainWord(name) && forall m :: m in proposals ==> Ready(m)
    ensures forall e :: e in CN.Verdicts(name, selected, proposals) ==> Ready(e.msg)
  {
    if proposals != [] {
      hide Ready, PlainWord;
      var last := proposals[|proposals| - 1];
      assert last in proposals;
      ReplyReady(last, if last.sender.name in selected then AcceptProposal else RejectProposal, name);
      VerdictsReady(name, selected, proposals[..|proposals| - 1]);
    }
  }

  lemma AnswerReady(p: CN.Participant, got: Message, reply: Message)
    requires Ready(got) && Printable(reply) && PlainWord(p.name) && Canonical(p.convId)
    ensures Ready(CN.Answer(p, got, reply))
  {
    hide Canonical, PlainWord;
    NamedIsPlain(p.name);
  }

  // ----- Subscribe -----

  lemma SubscribeReady(s: SN.Subscriber, at: SN.Moment)
    requires PlainWord(s.name) && Suffix(at.stamp) && '\0' !in s.topic && Canonical(s.ontology)
    ensures Ready(SN.SubscribeMessage(s, at)) && Canonical(SN.ConvId(s, at))
  {
    var w := s.name + "-" + at.stamp;
    SuffixParts(s.name, at.stamp);
    MadeWord("snp-", w);
    assert SN.ConvId(s, at) == "snp-" + w;
    MadeWord("sub-", SN.ConvId(s, at));
    ProtocolsAreWords();
    NamedIsPlain(s.name);
    EmptyIsCanonical();
    hide Canonical, PlainWord, SN.ConvId;
  }

  lemma CancelReady(s: SN.Subscriber)
    requires PlainWord(s.name) && Canonical(s.convId)
    ensures Ready(SN.CancelMessage(s))
  {
    ProtocolsAreWords();
    NamedIsPlain(s.name);
    EmptyIsCanonical();
    hide Canonical, PlainWord;
  }

  lemma NoticeReady(from: string, conv: string, content: string, ontology: string)
    requires PlainWord(from) && Canonical(conv) && '\0' !in content && Canonical(ontology)
    ensures Ready(SN.Notice(from, conv, content, ontology))
  {
    ProtocolsAreWords();
    NamedIsPlain(from);
    EmptyIsCanonical();
    hide Canonical, PlainWord;
  }

  lemma SubscribeReplyReady(p: SN.Publisher, m: Message, kind: Performative)
    requires Ready(m) && PlainWord(p.name) && kind != Unknown
    ensures Ready(SN.ReplyTo(p, m, kind))
  {
    ProtocolsAreWords();
    hide Canonical, PlainWord;
    ReplyReady(m, kind, p.name);
  }

  // ----- Request -----

  lemma RequestReady(r: RQ.Requester)
    requires PlainWord(r.name) && PlainWord(r.target) && '\0' !in r.content && Canonical(r.ontology) && Canonical(r.convId)
    ensures Ready(RQ.RequestMessage(r))
  {
    ProtocolsAreWords();
    NamedIsPlain(r.name);
    NamedIsPlain(r.target);
    EmptyIsCanonical();
    hide Canonical, PlainWord;
  }

  lemma RequestConv(name: string, target: string, content: string, ontology: string, pid: string)
    requires PlainWord(name) && Suffix(pid)
    ensures Canonical(RQ.NewRequester(name, target, content, ontology, pid).convId)
  {
    SuffixParts(name, pid);
    MadeWord("req-", name + "-" + pid);
    assert "req-" + name + "-" + pid == "req-" + (name + "-" + pid);
  }

  lemma CompletedReady(name: string, request: Message, response: Message)
    requires Ready(request) && Printable(response) && PlainWord(name) && RQ.MayReturn(request, response)
    ensures Ready(RQ.Completed(name, request, response))
  {
    hide Canonical, PlainWord;
    NamedIsPlain(name);
  }
}
