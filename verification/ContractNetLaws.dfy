/** What holds in every state of every run of the Contract Net: conservation of
    messages, safety of the awards, a bound on the traffic, termination, progress. */
module ContractNetLaws {
  import opened AclMessages
  import opened MessageBus
  import opened Counting
  import opened ContractNet
  import opened ContractNetSystem

  /** A legal start: distinct participants, none of them the initiator. */
  predicate Legal(name: string, cfp: Message, participants: seq<string>) {
    Distinct(participants) && name !in participants && cfp.performative == Cfp
  }

  lemma RunIsSound(name: string, cfp: Message, participants: seq<string>, moves: seq<Move>)
    requires Legal(name, cfp, participants)
    ensures Sound(Play(Start(name, cfp, participants), moves))
    ensures Play(Start(name, cfp, participants), moves).ini.participants == participants
    ensures Play(Start(name, cfp, participants), moves).ini.name == name
  {
    hide Sound, Start;
    StartInv(name, cfp, participants);
    PlayKeepsSound(Start(name, cfp, participants), moves);
    NamesStay(Start(name, cfp, participants), moves);
    assert Start(name, cfp, participants).ini.participants == participants by { StartNames(name, cfp, participants); }
    StartNames(name, cfp, participants);
  }

  lemma StartNames(name: string, cfp: Message, participants: seq<string>)
    ensures Start(name, cfp, participants).ini.participants == participants
    ensures Start(name, cfp, participants).ini.name == name
  {
  }

  lemma NamesStay(s: System, moves: seq<Move>)
    ensures Play(s, moves).ini.participants == s.ini.participants && Play(s, moves).ini.name == s.ini.name
  {
    if moves != [] {
      NamesStay(s, moves[..|moves| - 1]);
    }
  }

  // ----- the numbers of one conversation, read from its mail -----

  /** The messages of one kind queued for a participant. */
  function MailFn(s: System, kind: Performative): string -> int {
    p => Count(Queue(s.bus, p), s.ini.name, {kind})
  }

  lemma MailCount(q: seq<Message>, name: string, kind: Performative)
    requires forall m :: m in q ==> m.sender.name == name
    requires |q| <= 1
    ensures Count(q, name, {kind}) == if Performatives(q) == [kind] then 1 else 0
  {
    if q != [] {
      assert q[0] in q;
      assert q[1..] == [];
    }
  }

  lemma CountSplit(q: seq<Message>, p: string)
    ensures Count(q, p, ANSWERS) == Count(q, p, PROPOSALS) + Count(q, p, REFUSALS)
  {
  }

  lemma ShortMail(t: Talk)
    requires Fits(t)
    ensures |t.mail| <= 1
  {
  }

  /** The mail of one participant in terms of its conversation. */
  lemma MailOfTalk(s: System, p: string, kind: Performative)
    requires Inv(s) && p in s.parts
    ensures Fits(TalkOf(s, p))
    ensures MailFn(s, kind)(p) == if TalkOf(s, p).mail == [kind] then 1 else 0
  {
    hide Inv, Fits, Performatives, Count, CountTo;
    ConversationParts(s, p);
    ShortMail(TalkOf(s, p));
    MailCount(Queue(s.bus, p), s.ini.name, kind);
  }

  // ----- conservation -----

  lemma FirstRound(t: Talk)
    requires Fits(t) && t.phase != SendingCfp
    ensures (if t.mail == [Cfp] then 1 else 0) + t.proposes + t.refuses + t.recorded + t.refused + t.late == 1
  {
  }

  lemma SecondRound(t: Talk)
    requires Fits(t)
    ensures t.won == (if t.mail == [AcceptProposal] then 1 else 0) + t.outcomes + t.handled
  {
  }

  function AnsweredFn(s: System): string -> int {
    p => Count(Queue(s.bus, s.ini.name), p, ANSWERS) + Count(s.ini.proposals, p, PROPOSALS)
       + Count(s.log.refusals, p, REFUSALS) + Count(s.log.late, p, ANSWERS)
  }

  lemma AnswersAddUp(s: System)
    requires Inv(s)
    ensures Total(s.ini.participants, AnsweredFn(s))
         == CountAny(Queue(s.bus, s.ini.name), ANSWERS) + s.ini.responded + |s.log.late|
  {
    hide Inv, Count, CountAny, Total;
    InvGlobal(s);
    var ps, inbox := s.ini.participants, Queue(s.bus, s.ini.name);
    CountsAddUp(ps, inbox, ANSWERS);
    CountsAddUp(ps, s.ini.proposals, PROPOSALS);
    CountsAddUp(ps, s.log.refusals, REFUSALS);
    CountsAddUp(ps, s.log.late, ANSWERS);
    CountAnyAll(s.ini.proposals, PROPOSALS);
    CountAnyAll(s.log.refusals, REFUSALS);
    CountAnyAll(s.log.late, ANSWERS);
    var a, b := CountFn(inbox, ANSWERS), CountFn(s.ini.proposals, PROPOSALS);
    var c, d := CountFn(s.log.refusals, REFUSALS), CountFn(s.log.late, ANSWERS);
    var ab := (p: string) => a(p) + b(p);
    var abc := (p: string) => ab(p) + c(p);
    TotalPlus(ps, a, b, ab);
    TotalPlus(ps, ab, c, abc);
    TotalPlus(ps, abc, d, AnsweredFn(s));
  }

  /** Conservation of the first round: once the CFPs are out, each participant is
      accounted for exactly once, as a CFP still queued, an answer still queued, an
      answer counted, or an answer that came too late. */
  lemma CfpConservation(s: System)
    requires Inv(s) && s.ini.phase != SendingCfp
    ensures |s.ini.participants| ==
      Total(s.ini.participants, MailFn(s, Cfp))
      + CountAny(Queue(s.bus, s.ini.name), ANSWERS) + s.ini.responded + |s.log.late|
  {
    hide Inv, Count, CountAny, Total, CountTo, Fits, Performatives;
    InvGlobal(s);
    var ps := s.ini.participants;
    AnswersAddUp(s);
    var one := (p: string) => 1;
    forall p | p in ps ensures one(p) == MailFn(s, Cfp)(p) + AnsweredFn(s)(p) {
      assert p in s.parts;
      MailOfTalk(s, p, Cfp);
      FirstRound(TalkOf(s, p));
      CountSplit(Queue(s.bus, s.ini.name), p);
    }
    TotalPlus(ps, MailFn(s, Cfp), AnsweredFn(s), one);
    TotalConst(ps, one, 1);
  }

  /** Conservation of the second round: the results still owed are exactly the
      acceptances and the results still queued. */
  lemma ResultConservation(s: System)
    requires Inv(s) && Decided(s.ini.phase)
    ensures s.ini.pending ==
      Total(s.ini.participants, MailFn(s, AcceptProposal)) + CountAny(Queue(s.bus, s.ini.name), RESULTS)
    ensures |s.ini.accepted| == s.ini.pending + |s.log.results|
  {
    hide Inv, Count, CountAny, Total, CountTo, Fits, Performatives;
    InvGlobal(s);
    var ps, inbox := s.ini.participants, Queue(s.bus, s.ini.name);
    NamesAddUp(ps, s.ini.accepted);
    CountsAddUp(ps, inbox, RESULTS);
    CountsAddUp(ps, s.log.results, RESULTS);
    CountAnyAll(s.log.results, RESULTS);
    var mailed := MailFn(s, AcceptProposal);
    var queued, handled := CountFn(inbox, RESULTS), CountFn(s.log.results, RESULTS);
    var known := (p: string) => queued(p) + handled(p);
    TotalPlus(ps, queued, handled, known);
    forall p | p in ps ensures MemberFn(s.ini.accepted)(p) == mailed(p) + known(p) {
      assert p in s.parts;
      MailOfTalk(s, p, AcceptProposal);
      SecondRound(TalkOf(s, p));
    }
    TotalPlus(ps, mailed, known, MemberFn(s.ini.accepted));
  }

  lemma AllHandled(t: Talk)
    requires Fits(t) && t.mail != [AcceptProposal] && t.outcomes == 0 && t.won > 0
    ensures t.executed == 1 && t.handled == 1
  {
  }

  /** When the initiator has finished and owes nothing, every participant it accepted
      has run its task once and its result has been handled once. */
  lemma FinishedMeansHandled(s: System, p: string)
    requires Inv(s) && s.ini.phase == Finished && s.ini.pending == 0 && p in s.ini.accepted
    ensures Count(s.log.executed, p, RESULTS) == 1 && Count(s.log.results, p, RESULTS) == 1
  {
    hide Inv, Count, CountAny, CountTo, Fits, Performatives;
    InvGlobal(s);
    assert p in s.parts;
    ResultConservation(s);
    var ps := s.ini.participants;
    MailOfTalk(s, p, AcceptProposal);
    CountsAddUp(ps, Queue(s.bus, s.ini.name), RESULTS);
    TotalBounds(ps, MailFn(s, AcceptProposal), p);
    TotalBounds(ps, CountFn(Queue(s.bus, s.ini.name), RESULTS), p);
    AllHandled(TalkOf(s, p));
  }

  lemma TotalBounds(ps: seq<string>, f: string -> int, p: string)
    requires (forall q :: q in ps ==> f(q) >= 0) && p in ps
    ensures Total(ps, f) >= f(p)
  {
    if ps[0] == p {
      TotalAtLeast(ps[1..], f);
    } else {
      TotalBounds(ps[1..], f, p);
    }
  }

  lemma TotalAtLeast(ps: seq<string>, f: string -> int)
    requires forall q :: q in ps ==> f(q) >= 0
    ensures Total(ps, f) >= 0
  {
  }

  // ----- the laws of every run -----

  /** Both conservation laws, in every state of every run. */
  lemma Conservation(name: string, cfp: Message, participants: seq<string>, moves: seq<Move>)
    requires Legal(name, cfp, participants)
    ensures var s := Play(Start(name, cfp, participants), moves);
      s.ini.phase != SendingCfp ==>
        |participants| == Total(participants, MailFn(s, Cfp))
          + CountAny(Queue(s.bus, name), ANSWERS) + s.ini.responded + |s.log.late|
    ensures var s := Play(Start(name, cfp, participants), moves);
      s.ini.phase == WaitingResults || s.ini.phase == Finished ==>
        s.ini.pending == Total(participants, MailFn(s, AcceptProposal)) + CountAny(Queue(s.bus, name), RESULTS)
        && |s.ini.accepted| == s.ini.pending + |s.log.results|
    ensures var s := Play(Start(name, cfp, participants), moves);
      s.ini.phase == Finished && s.ini.pending == 0 ==>
        forall p :: p in s.ini.accepted ==>
          Count(s.log.executed, p, RESULTS) == 1 && Count(s.log.results, p, RESULTS) == 1
  {
    hide Start, Play, Inv, Trail, Legal, Total, Count, CountAny;
    RunIsSound(name, cfp, participants, moves);
    var s := Play(Start(name, cfp, participants), moves);
    if s.ini.phase != SendingCfp {
      CfpConservation(s);
    }
    if Decided(s.ini.phase) {
      ResultConservation(s);
    }
    if s.ini.phase == Finished && s.ini.pending == 0 {
      forall p | p in s.ini.accepted ensures
        Count(s.log.executed, p, RESULTS) == 1 && Count(s.log.results, p, RESULTS) == 1
      {
        FinishedMeansHandled(s, p);
      }
    }
  }

  lemma LocalAward(t: Talk)
    requires Fits(t)
    ensures t.recorded <= 1 && t.executed <= t.accepts <= 1 && t.won == t.accepts
    ensures t.executed == 1 ==> t.recorded == 1
    ensures Decided(t.phase) ==> t.accepts + t.rejects == t.recorded
    ensures t.recorded == 0 || !Decided(t.phase) ==> t.accepts == 0 && t.rejects == 0 && t.executed == 0
    ensures t.late > 0 ==> t.recorded == 0
  {
  }

  /** Award safety, in every state of every run, for every participant: a task is
      executed at most once, and only for a recorded proposal whose proposer
      selectProposals named; once the initiator has decided, a recorded proposal has
      had exactly one verdict, ACCEPT just when its proposer was named; a proposal that
      was not recorded, a late one among them, has had neither and is never executed. */
  lemma AwardSafety(name: string, cfp: Message, participants: seq<string>, moves: seq<Move>, p: string)
    requires Legal(name, cfp, participants) && p in participants
    ensures var s := Play(Start(name, cfp, participants), moves);
      var recorded, executed := Count(s.ini.proposals, p, PROPOSALS), Count(s.log.executed, p, RESULTS);
      var accepts, rejects := CountTo(s.log.asked, p, {AcceptProposal}), CountTo(s.log.asked, p, {RejectProposal});
      && recorded <= 1 && executed <= accepts <= 1
      && (executed == 1 ==> recorded == 1 && p in s.log.selected)
      && (Decided(s.ini.phase) ==> accepts + rejects == recorded)
      && (Decided(s.ini.phase) && recorded == 1 ==> (accepts == 1 <==> p in s.log.selected))
      && (recorded == 0 || !Decided(s.ini.phase) ==> accepts == rejects == executed == 0)
      && (Count(s.log.late, p, ANSWERS) > 0 ==> recorded == 0)
  {
    hide Start, Play, Inv, Fits, Count, CountTo, Performatives, Winners;
    RunIsSound(name, cfp, participants, moves);
    var s := Play(Start(name, cfp, participants), moves);
    InvGlobal(s);
    assert p in s.parts;
    ConversationParts(s, p);
    LocalAward(TalkOf(s, p));
    VerdictMail(s.ini.name, s.log.selected, s.ini.proposals, p, s.ini.convId);
  }

  lemma LocalTraffic(t: Talk)
    requires Fits(t)
    ensures t.cfps + t.accepts + t.rejects <= 2 && t.answers + t.reports <= 2
  {
  }

  lemma CountToSplit(es: seq<Envelope>, p: string)
    ensures CountTo(es, p, QUESTIONS) ==
      CountTo(es, p, {Cfp}) + CountTo(es, p, {AcceptProposal}) + CountTo(es, p, {RejectProposal})
  {
  }

  lemma CountBoth(q: seq<Message>, p: string)
    ensures Count(q, p, ANSWERS + RESULTS) == Count(q, p, ANSWERS) + Count(q, p, RESULTS)
  {
  }

  /** No run sends more than four messages a participant. */
  lemma TrafficBound(name: string, cfp: Message, participants: seq<string>, moves: seq<Move>)
    requires Legal(name, cfp, participants)
    ensures var s := Play(Start(name, cfp, participants), moves);
      |s.log.asked| + |s.log.answered| <= 4 * |participants|
  {
    hide Start, Play, Inv, Fits, Count, CountTo, CountAny, Total, Performatives;
    RunIsSound(name, cfp, participants, moves);
    var s := Play(Start(name, cfp, participants), moves);
    InvGlobal(s);
    EnvelopesAddUp(participants, s.log.asked, QUESTIONS);
    CountsAddUp(participants, s.log.answered, ANSWERS + RESULTS);
    CountAnyAll(s.log.answered, ANSWERS + RESULTS);
    forall p | p in participants
      ensures CountToFn(s.log.asked, QUESTIONS)(p) <= 2 && CountFn(s.log.answered, ANSWERS + RESULTS)(p) <= 2
    {
      assert p in s.parts;
      ConversationParts(s, p);
      LocalTraffic(TalkOf(s, p));
      CountToSplit(s.log.asked, p);
      CountBoth(s.log.answered, p);
    }
    TotalAtMost(participants, CountToFn(s.log.asked, QUESTIONS), 2);
    TotalAtMost(participants, CountFn(s.log.answered, ANSWERS + RESULTS), 2);
  }
}
