/** The Contract Net ends: every run changes its state a bounded number of times, and
    as long as no timeout fires the initiator can always get on. */
module ContractNetProgress {
  import opened Options
  import opened AclMessages
  import opened MessageBus
  import opened Counting
  import opened ContractNet
  import opened ContractNetSystem
  import opened ContractNetLaws

  // ----- the measure -----

  /** How many more steps a conversation can take. */
  function Weight(t: Talk): nat {
    (if t.done then 0 else 1)
    + (if t.phase == SendingCfp then 4
       else
         (if t.mail == [Cfp] then 4 else 0) + 3 * (t.proposes + t.refuses)
         + (if Decided(t.phase) then 0 else 2 * t.recorded)
         + (if t.mail == [AcceptProposal] then 2 else if t.mail == [RejectProposal] then 1 else 0)
         + t.outcomes)
  }

  function PhaseRank(i: Initiator): nat {
    match i.phase
    case SendingCfp => 5
    case WaitingProposals => 4
    case HandlingProposals => 3
    case WaitingResults => 2
    case Finished => if i.done then 0 else 1
  }

  function WeightFn(s: System): string -> int {
    p => if p in s.parts then Weight(TalkOf(s, p)) else 0
  }

  function Rank(s: System): int {
    PhaseRank(s.ini) + Total(s.ini.participants, WeightFn(s))
  }

  /** A participant that has ended has nothing left to read or to answer for. */
  predicate Settled(t: Talk) {
    t.done ==> t.phase != SendingCfp && t.mail == [] && t.proposes == 0 && !ProposalRecorded(t)
  }

  ghost predicate AllSettled(s: System) {
    forall p :: p in s.parts ==> Settled(TalkOf(s, p))
  }

  // ----- one conversation -----

  /** Where a conversation stands whose participant has mail. */
  lemma MailStage(t: Talk)
    requires Fits(t) && t.mail != []
    ensures CfpQueued(t) || AcceptQueued(t) || RejectQueued(t)
  {
  }

  lemma LocalOwn(t: Talk, t': Talk, k: Performative)
    requires Fits(t) && !t.done && ParticipantMoves(t, t', k)
    ensures Weight(t') < Weight(t)
    ensures t.mail != [] ==> Settled(t')
  {
    if t.mail == [] {
      LocalGivesUp(t);
    } else {
      MailStage(t);
      hide Fits;
      if CfpQueued(t) {
        LocalAnswers(t, t', k);
      } else {
        LocalObeys(t, t', k);
      }
    }
  }

  lemma LocalGivesUp(t: Talk)
    requires !t.done
    ensures Weight(t.(done := true)) < Weight(t)
  {
  }

  lemma LocalAnswers(t: Talk, t': Talk, k: Performative)
    requires CfpQueued(t) && !t.done && ParticipantMoves(t, t', k)
    ensures Weight(t') < Weight(t) && Settled(t')
  {
    assert t.mail[1..] == [];
  }

  lemma LocalObeys(t: Talk, t': Talk, k: Performative)
    requires (AcceptQueued(t) || RejectQueued(t)) && !t.done && ParticipantMoves(t, t', k)
    ensures Weight(t') < Weight(t) && Settled(t')
  {
    assert t.mail[1..] == [];
  }

  lemma LocalCfpOut(t: Talk)
    requires Fits(t) && t.phase == SendingCfp
    ensures var t' := t.(phase := WaitingProposals, mail := [Cfp], cfps := t.cfps + 1);
      Weight(t') <= Weight(t) && (Settled(t) ==> Settled(t'))
  {
  }

  lemma LocalPhase(t: Talk, phase: Phase)
    requires Fits(t) && Advances(t.phase, phase)
    ensures Weight(t.(phase := phase)) <= Weight(t)
    ensures Settled(t) ==> Settled(t.(phase := phase))
  {
  }

  lemma LocalTaken(t: Talk, t': Talk, k: Performative)
    requires Fits(t) && (t.phase == WaitingProposals || t.phase == WaitingResults) && Takes(t, t', k)
    ensures Weight(t') < Weight(t)
    ensures Settled(t) ==> Settled(t')
  {
  }

  lemma LocalVerdict(t: Talk, t': Talk, phase: Phase, k: Performative)
    requires Fits(t) && t.phase == HandlingProposals && Decided(phase) && Judged(t, t', phase, k)
    requires k == AcceptProposal || k == RejectProposal
    ensures Weight(t') <= Weight(t)
    ensures Settled(t) ==> Settled(t')
  {
    if t.recorded == 0 {
      LocalUnjudged(t, phase);
    } else {
      OnceRecorded(t);
      hide Fits;
      LocalAwarded(t, t', phase, k);
    }
  }

  lemma LocalUnjudged(t: Talk, phase: Phase)
    requires t.phase == HandlingProposals && Decided(phase) && t.recorded == 0
    ensures Weight(t.(phase := phase)) <= Weight(t)
    ensures Settled(t) ==> Settled(t.(phase := phase))
  {
  }

  lemma LocalAwarded(t: Talk, t': Talk, phase: Phase, k: Performative)
    requires ProposalRecorded(t) && t.phase == HandlingProposals && Decided(phase) && Judged(t, t', phase, k)
    requires k == AcceptProposal || k == RejectProposal
    ensures Weight(t') <= Weight(t)
    ensures Settled(t) ==> Settled(t')
  {
    assert [] + [k] == [k];
  }

  // ----- every conversation, in every step -----

  /** What a step does to one conversation: it loses weight or keeps it, and stays
      settled unless a participant gave up waiting. */
  predicate Eases(s: System, s': System, p: string) {
    && p in s.parts && p in s'.parts
    && Weight(TalkOf(s', p)) <= Weight(TalkOf(s, p))
    && (Settled(TalkOf(s, p)) ==> Settled(TalkOf(s', p)))
  }

  lemma CfpEases(s: System, at: Moment, p: string)
    requires Inv(s) && s.ini.phase == SendingCfp && !s.ini.done && p in s.parts
    ensures Eases(s, Next(s, Initiate(at)), p)
  {
    hide Inv, Next, Fits, Weight, Settled, TalkOf;
    ConversationParts(s, p);
    TalkPhase(s, p);
    CfpTalk(s, at, p);
    LocalCfpOut(TalkOf(s, p));
  }

  lemma PhaseEases(s: System, s': System, p: string)
    requires p in s.parts && Fits(TalkOf(s, p)) && Advances(s.ini.phase, s'.ini.phase)
    requires s'.ini == s.ini.(phase := s'.ini.phase, done := s'.ini.done) && s' == s.(ini := s'.ini)
    ensures Eases(s, s', p)
  {
    hide Fits, Weight, Settled, Performatives, Count, CountTo;
    LocalPhase(TalkOf(s, p), s'.ini.phase);
    assert TalkOf(s', p) == TalkOf(s, p).(phase := s'.ini.phase);
  }

  lemma DecideEases(s: System, at: Moment, p: string)
    requires Inv(s) && s.ini.phase == HandlingProposals && !s.ini.done && p in s.parts
    ensures Eases(s, Next(s, Initiate(at)), p)
  {
    hide Inv, Next, Fits, Weight, Settled, TalkOf, Judged, VerdictKind;
    ConversationParts(s, p);
    TalkPhase(s, p);
    DecideState(s, at, p);
    DecideTalk(s, at, p);
    VerdictKinds(p, at.selected);
    LocalVerdict(TalkOf(s, p), TalkOf(Next(s, Initiate(at)), p), Next(s, Initiate(at)).ini.phase, VerdictKind(p, at.selected));
  }

  lemma TakenEases(s: System, m: Message, p: string)
    requires Inv(s) && Front(s.bus, s.ini.name) == Some(m) && p in s.parts
    requires s.ini.phase == WaitingProposals || s.ini.phase == WaitingResults
    ensures Eases(s, Taken(s, m), p)
    ensures p == m.sender.name ==> Weight(TalkOf(Taken(s, m), p)) < Weight(TalkOf(s, p))
  {
    hide Inv, Fits, Weight, Settled, TalkOf, Takes, NoteOf, Noted;
    Heads(s);
    ConversationParts(s, p);
    SetupParts(s, p);
    TalkPhase(s, p);
    if p == m.sender.name {
      TakenTalk(s, m);
      LocalTaken(TalkOf(s, p), TalkOf(Taken(s, m), p), m.performative);
    } else {
      TakenOther(s, m, p);
    }
  }

  // ----- every step -----

  lemma RankDrops(s: System, s': System)
    requires s'.ini.participants == s.ini.participants
    requires (forall p :: p in s.ini.participants <==> p in s.parts)
    requires (forall p :: p in s.parts ==> Eases(s, s', p))
    requires PhaseRank(s'.ini) <= PhaseRank(s.ini)
    requires PhaseRank(s'.ini) < PhaseRank(s.ini)
      || exists p :: p in s.ini.participants && WeightFn(s')(p) < WeightFn(s)(p)
    ensures Rank(s') < Rank(s)
  {
    hide Weight, TalkOf, Settled, PhaseRank, Total;
    var f, g := WeightFn(s'), WeightFn(s);
    forall p | p in s.ini.participants ensures f(p) <= g(p) {
      assert Eases(s, s', p);
    }
    TotalLess(s.ini.participants, f, g);
  }

  lemma SettledKept(s: System, s': System)
    requires AllSettled(s) && s'.parts.Keys == s.parts.Keys
    requires forall p :: p in s.parts ==> Eases(s, s', p)
    ensures AllSettled(s')
  {
    hide Weight, TalkOf, Settled;
    forall p | p in s'.parts ensures Settled(TalkOf(s', p)) {
      assert p in s.parts.Keys;
      assert Eases(s, s', p);
    }
  }

  /** A step of the initiator that lowers the measure and keeps everyone settled. */
  ghost predicate Lowers(s: System, s': System) {
    Rank(s') < Rank(s) && (AllSettled(s) ==> AllSettled(s'))
  }

  lemma PhaseLowers(s: System, s': System)
    requires s'.ini.participants == s.ini.participants && s'.parts.Keys == s.parts.Keys
    requires Setup(s) && forall p :: p in s.parts ==> Eases(s, s', p)
    requires PhaseRank(s'.ini) < PhaseRank(s.ini)
    ensures Lowers(s, s')
  {
    hide Eases, Rank, AllSettled, PhaseRank;
    RankDrops(s, s');
    if AllSettled(s) {
      SettledKept(s, s');
    }
  }

  lemma CfpLowers(s: System, at: Moment)
    requires Inv(s) && s.ini.phase == SendingCfp && !s.ini.done
    ensures Lowers(s, Next(s, Initiate(at)))
  {
    hide Inv, Eases, Lowers, Cfps, CfpToSend, InitiatorBus, Setup;
    var s' := Next(s, Initiate(at));
    forall p | p in s.parts ensures Eases(s, s', p) {
      CfpEases(s, at, p);
    }
    InvGlobal(s);
    PhaseLowers(s, s');
  }

  lemma DecideLowers(s: System, at: Moment)
    requires Inv(s) && s.ini.phase == HandlingProposals && !s.ini.done
    ensures Lowers(s, Next(s, Initiate(at)))
  {
    hide Inv, Eases, Lowers, Verdicts, Winners, InitiatorBus, Setup;
    var s' := Next(s, Initiate(at));
    forall p | p in s.parts ensures Eases(s, s', p) {
      DecideEases(s, at, p);
    }
    InvGlobal(s);
    PhaseLowers(s, s');
  }

  lemma IdleLowers(s: System, at: Moment)
    requires Inv(s) && !s.ini.done && !Polls(s.ini, at)
    requires s.ini.phase == WaitingProposals || s.ini.phase == WaitingResults || s.ini.phase == Finished
    ensures Lowers(s, Next(s, Initiate(at)))
  {
    hide Inv, Eases, Lowers, Setup, Fits, TalkOf;
    var s' := Next(s, Initiate(at));
    assert s.log.asked + [] == s.log.asked;
    forall p | p in s.parts ensures Eases(s, s', p) {
      ConversationParts(s, p);
      PhaseEases(s, s', p);
    }
    InvGlobal(s);
    PhaseLowers(s, s');
  }

  lemma TakenLowers(s: System, m: Message)
    requires Inv(s) && Front(s.bus, s.ini.name) == Some(m)
    requires s.ini.phase == WaitingProposals || s.ini.phase == WaitingResults
    ensures Lowers(s, Taken(s, m))
  {
    hide Inv, Rank, Eases, Weight, Settled, TalkOf, AllSettled, PhaseRank, Setup;
    var u := Taken(s, m);
    Heads(s);
    forall p | p in s.parts ensures Eases(s, u, p) {
      TakenEases(s, m, p);
    }
    TakenEases(s, m, m.sender.name);
    InvGlobal(s);
    SameRank(s.ini, u.ini);
    SetupParts(s, m.sender.name);
    assert WeightFn(u)(m.sender.name) < WeightFn(s)(m.sender.name);
    SetupEveryone(s);
    RankDrops(s, u);
    if AllSettled(s) {
      SettledKept(s, u);
    }
  }

  lemma SetupEveryone(s: System)
    requires Setup(s)
    ensures forall p :: p in s.ini.participants <==> p in s.parts
  {
  }

  lemma SameRank(a: Initiator, b: Initiator)
    requires a.phase == b.phase && a.done == b.done
    ensures PhaseRank(a) == PhaseRank(b)
  {
  }

  lemma AdvanceNoWorse(s: System, s': System)
    requires Inv(s) && Advances(s.ini.phase, s'.ini.phase)
    requires s'.ini == s.ini.(phase := s'.ini.phase) && s' == s.(ini := s'.ini) && !s.ini.done
    ensures s' == s || Lowers(s, s')
  {
    hide Inv, Eases, Lowers, Setup, Fits, TalkOf;
    if s'.ini.phase != s.ini.phase {
      forall p | p in s.parts ensures Eases(s, s', p) {
        ConversationParts(s, p);
        PhaseEases(s, s', p);
      }
      InvGlobal(s);
      PhaseLowers(s, s');
    }
  }

  lemma PollLowers(s: System, at: Moment)
    requires Inv(s) && !s.ini.done && Polls(s.ini, at)
    ensures Front(s.bus, s.ini.name).None? ==> Next(s, Initiate(at)) == s
    ensures Front(s.bus, s.ini.name).Some? ==> Lowers(s, Next(s, Initiate(at)))
  {
    hide Inv, Rank, AllSettled;
    var got := Front(s.bus, s.ini.name);
    if got.None? {
      assert s.log.asked + [] == s.log.asked;
    } else {
      hide Next;
      TakenKeepsInv(s, got.value);
      TakenThenAdvance(s, at);
      TakenLowers(s, got.value);
      AdvanceNoWorse(Taken(s, got.value), Next(s, Initiate(at)));
    }
  }

  lemma ParticipantLowers(s: System, who: string, reply: Message)
    requires Inv(s) && Enabled(s, Participate(who, reply))
    ensures Rank(Next(s, Participate(who, reply))) < Rank(s)
    ensures AllSettled(s) && Queue(s.bus, who) != [] ==> AllSettled(Next(s, Participate(who, reply)))
  {
    hide Inv, Next, Fits, TalkOf, ParticipantMoves, Weight, Settled, PhaseRank, Total;
    var s' := Next(s, Participate(who, reply));
    var sent := MoveState(s, who, reply);
    ConversationParts(s, who);
    OwnTalk(s, who, reply);
    LocalOwn(TalkOf(s, who), TalkOf(s', who), reply.performative);
    TalkMail(s, who);
    forall p | p in s.parts && p != who ensures TalkOf(s', p) == TalkOf(s, p) {
      OtherTalks(s, who, reply, p);
    }
    SetupParts(s, who);
    InvGlobal(s);
    assert WeightFn(s')(who) < WeightFn(s)(who);
    TotalLess(s.ini.participants, WeightFn(s'), WeightFn(s));
  }

  lemma TalkMail(s: System, p: string)
    requires p in s.parts
    ensures |TalkOf(s, p).mail| == |Queue(s.bus, p)|
  {
  }

  /** A timeout: the initiator's deadline has passed, or a participant's receive
      returned nothing. */
  predicate TimesOut(s: System, move: Move) {
    match move
    case Initiate(at) => at.expired && (s.ini.phase == WaitingProposals || s.ini.phase == WaitingResults)
    case Participate(who, _) => Queue(s.bus, who) == []
  }

  /** Every step of every run, timeouts included, changes nothing or lowers the measure. */
  lemma StepLowersRank(s: System, move: Move)
    requires Inv(s)
    ensures Next(s, move) == s || Rank(Next(s, move)) < Rank(s)
    ensures AllSettled(s) && !TimesOut(s, move) ==> AllSettled(Next(s, move))
  {
    hide Inv, Rank, AllSettled, Polls;
    if Enabled(s, move) {
      hide Next;
      match move {
        case Participate(who, reply) => ParticipantLowers(s, who, reply);
        case Initiate(at) =>
          if s.ini.phase == SendingCfp {
            CfpLowers(s, at);
          } else if s.ini.phase == HandlingProposals {
            DecideLowers(s, at);
          } else if Polls(s.ini, at) {
            PollLowers(s, at);
          } else {
            IdleLowers(s, at);
          }
      }
    }
  }

  // ----- termination -----

  /** How many moves of a run change the state. */
  function Changes(s: System, moves: seq<Move>): nat {
    if moves == [] then 0
    else
      var before := Play(s, moves[..|moves| - 1]);
      Changes(s, moves[..|moves| - 1]) + (if Next(before, moves[|moves| - 1]) == before then 0 else 1)
  }

  lemma {:induction false} ChangesCostRank(s: System, moves: seq<Move>)
    requires Sound(s)
    ensures Changes(s, moves) + Rank(Play(s, moves)) <= Rank(s)
  {
    hide Next, Rank, Inv, Trail;
    if moves != [] {
      ChangesCostRank(s, moves[..|moves| - 1]);
      PlayKeepsSound(s, moves[..|moves| - 1]);
      StepLowersRank(Play(s, moves[..|moves| - 1]), moves[|moves| - 1]);
    }
  }

  lemma RankPositive(s: System)
    ensures Rank(s) >= 0
  {
    hide Weight, TalkOf;
    TotalAtLeast(s.ini.participants, WeightFn(s));
  }

  lemma StartRank(name: string, cfp: Message, participants: seq<string>)
    ensures Rank(Start(name, cfp, participants)) == 5 + 5 * |participants|
  {
    var s := Start(name, cfp, participants);
    forall p | p in participants ensures WeightFn(s)(p) == 5 {
      assert Before(TalkOf(s, p));
    }
    TotalConst(participants, WeightFn(s), 5);
  }

  /** Whatever the schedule, the callbacks and the timeouts, at most five moves for
      each agent change anything. */
  lemma Termination(name: string, cfp: Message, participants: seq<string>, moves: seq<Move>)
    requires Legal(name, cfp, participants)
    ensures Changes(Start(name, cfp, participants), moves) <= 5 * (|participants| + 1)
  {
    hide Rank, Inv, Trail, Start, Next;
    StartInv(name, cfp, participants);
    ChangesCostRank(Start(name, cfp, participants), moves);
    RankPositive(Play(Start(name, cfp, participants), moves));
    StartRank(name, cfp, participants);
  }

  // ----- progress -----

  /** A run in which no timeout fires. */
  predicate Timely(s: System, moves: seq<Move>) {
    moves == [] || (Timely(s, moves[..|moves| - 1]) && !TimesOut(Play(s, moves[..|moves| - 1]), moves[|moves| - 1]))
  }

  lemma {:induction false} TimelySettled(s: System, moves: seq<Move>)
    requires Sound(s) && AllSettled(s) && Timely(s, moves)
    ensures Sound(Play(s, moves)) && AllSettled(Play(s, moves))
  {
    hide Next, Rank, Inv, Trail, AllSettled;
    if moves != [] {
      TimelySettled(s, moves[..|moves| - 1]);
      NextKeepsSound(Play(s, moves[..|moves| - 1]), moves[|moves| - 1]);
      StepLowersRank(Play(s, moves[..|moves| - 1]), moves[|moves| - 1]);
    }
  }

  /** Mail of this kind for a settled participant means that it can act on it. */
  lemma Reader(s: System, p: string, kind: Performative)
    requires Inv(s) && AllSettled(s) && p in s.ini.participants
    requires MailFn(s, kind)(p) > 0 && (kind == Cfp || kind == AcceptProposal)
    ensures p in s.parts && !s.parts[p].done && Queue(s.bus, p) != [] && s.parts[p].deciding == (kind == AcceptProposal)
  {
    hide Inv, Fits, Performatives, Count, CountTo;
    InvGlobal(s);
    MailOfTalk(s, p, kind);
    DecidingFits(TalkOf(s, p), kind);
  }

  lemma DecidingFits(t: Talk, kind: Performative)
    requires Fits(t) && t.mail == [kind]
    ensures kind == Cfp || kind == AcceptProposal ==> t.deciding == (kind == AcceptProposal)
  {
  }

  lemma EmptyCounts(q: seq<Message>)
    requires q == []
    ensures CountAny(q, ANSWERS) == 0 && CountAny(q, RESULTS) == 0
  {
  }

  /** Would the initiator, whose deadline has not passed, take a message? */
  predicate Waits(i: Initiator) {
    (i.phase == WaitingProposals && i.responded < |i.participants|) || (i.phase == WaitingResults && i.pending > 0)
  }

  /** Nothing is queued for the initiator, so somebody still has a message to read. */
  lemma SomebodyReads(s: System) returns (p: string, kind: Performative)
    requires Inv(s) && Waits(s.ini) && Queue(s.bus, s.ini.name) == []
    ensures p in s.ini.participants && MailFn(s, kind)(p) > 0 && (kind == Cfp || kind == AcceptProposal)
  {
    hide Inv, Total, CountAny, Count;
    InvGlobal(s);
    EmptyCounts(Queue(s.bus, s.ini.name));
    if s.ini.phase == WaitingProposals {
      CfpConservation(s);
      kind := Cfp;
    } else {
      ResultConservation(s);
      kind := AcceptProposal;
    }
    p := TotalPositive(s.ini.participants, MailFn(s, kind));
  }

  /** The initiator gets on, whatever the clock and selectProposals say. */
  lemma InitiatorCan(s: System, at: Moment)
    requires Inv(s) && !s.ini.done && !at.expired && !(Waits(s.ini) && Queue(s.bus, s.ini.name) == [])
    ensures !TimesOut(s, Initiate(at)) && Rank(Next(s, Initiate(at))) < Rank(s)
  {
    hide Inv, Rank, AllSettled, Next;
    if s.ini.phase == SendingCfp {
      CfpLowers(s, at);
    } else if s.ini.phase == HandlingProposals {
      DecideLowers(s, at);
    } else if Polls(s.ini, at) {
      PollLowers(s, at);
    } else {
      IdleLowers(s, at);
    }
  }

  /** A participant with mail gets on, whatever its callback returns. */
  lemma ParticipantCan(s: System, p: string, reply: Message)
    requires Inv(s) && p in s.parts && !s.parts[p].done && Queue(s.bus, p) != [] && MayReturn(s.parts[p], reply)
    ensures Enabled(s, Participate(p, reply)) && !TimesOut(s, Participate(p, reply))
    ensures Rank(Next(s, Participate(p, reply))) < Rank(s)
  {
    hide Inv, Rank, AllSettled, Next;
    ParticipantLowers(s, p, reply);
  }

  /** The initiator, or the participant of a name. */
  type Agent = Option<string>

  /** Every step that the agent can take without a timeout, whatever the clock says and
      its callbacks answer, lowers the measure. */
  ghost predicate GetsOn(s: System, agent: Agent) {
    match agent
    case None => !s.ini.done && forall at: Moment :: !at.expired ==>
      !TimesOut(s, Initiate(at)) && Rank(Next(s, Initiate(at))) < Rank(s)
    case Some(p) =>
      && p in s.parts && !s.parts[p].done && Queue(s.bus, p) != []
      && forall reply: Message :: MayReturn(s.parts[p], reply) ==>
           Enabled(s, Participate(p, reply)) && Rank(Next(s, Participate(p, reply))) < Rank(s)
  }

  /** While the initiator has not ended, one of the agents gets on. */
  lemma Progress(s: System) returns (agent: Agent)
    requires Inv(s) && AllSettled(s) && !s.ini.done
    ensures GetsOn(s, agent)
  {
    hide Inv, Rank, Next, Settled, MailFn, TimesOut, Enabled, MayReturn;
    if Waits(s.ini) && Queue(s.bus, s.ini.name) == [] {
      var p, kind := SomebodyReads(s);
      Reader(s, p, kind);
      agent := Some(p);
      forall reply: Message | MayReturn(s.parts[p], reply)
        ensures Enabled(s, Participate(p, reply)) && Rank(Next(s, Participate(p, reply))) < Rank(s)
      {
        ParticipantCan(s, p, reply);
      }
    } else {
      agent := None;
      forall at: Moment | !at.expired ensures !TimesOut(s, Initiate(at)) && Rank(Next(s, Initiate(at))) < Rank(s) {
        InitiatorCan(s, at);
      }
    }
  }

  lemma StartSettled(name: string, cfp: Message, participants: seq<string>)
    ensures AllSettled(Start(name, cfp, participants))
  {
  }

  /** While no timeout fires the initiator is never stuck: after any run in which it has
      not ended there is an agent each of whose steps, whatever its callbacks answer,
      lowers the measure. */
  lemma ProgressWithoutTimeouts(name: string, cfp: Message, participants: seq<string>, moves: seq<Move>)
    returns (agent: Agent)
    requires Legal(name, cfp, participants) && Timely(Start(name, cfp, participants), moves)
    ensures var s := Play(Start(name, cfp, participants), moves);
      !s.ini.done ==> GetsOn(s, agent)
  {
    hide Rank, Inv, Trail, Start, Next, AllSettled, TimesOut, Timely, Play, GetsOn;
    var start := Start(name, cfp, participants);
    StartInv(name, cfp, participants);
    StartSettled(name, cfp, participants);
    TimelySettled(start, moves);
    agent := None;
    if !Play(start, moves).ini.done {
      agent := Progress(Play(start, moves));
    }
  }

  // ----- every fair run ends, whatever the callbacks -----

  /** The callbacks of all agents: selectProposals, and prepareProposal and executeTask as
      functions of the participant and the message; stamp is what the clock shows. */
  datatype Callbacks = Callbacks(
    stamp: string,
    select: seq<Message> -> seq<string>,
    reply: (Participant, Message) -> Message)

  /** They return what their header comments ask for. */
  ghost predicate Proper(cb: Callbacks) {
    forall p: Participant, m: Message :: MayReturn(p, cb.reply(p, m))
  }

  /** The agent's turn before any deadline: it acts with its own callbacks; a participant
      without mail goes on waiting. */
  function Act(s: System, cb: Callbacks, agent: Agent): System {
    match agent
    case None => Next(s, Initiate(Moment(cb.stamp, false, cb.select(s.ini.proposals))))
    case Some(p) =>
      if p in s.parts && Queue(s.bus, p) != []
      then Next(s, Participate(p, cb.reply(s.parts[p], Queue(s.bus, p)[0])))
      else s
  }

  function ActAll(s: System, cb: Callbacks, agents: seq<Agent>): System {
    if agents == [] then s else Act(ActAll(s, cb, agents[..|agents| - 1]), cb, agents[|agents| - 1])
  }

  function Rounds(s: System, cb: Callbacks, rounds: seq<seq<Agent>>): System {
    if rounds == [] then s else ActAll(Rounds(s, cb, rounds[..|rounds| - 1]), cb, rounds[|rounds| - 1])
  }

  /** Everybody has a turn, in any order and any number of times. */
  predicate Fair(round: seq<Agent>, participants: seq<string>) {
    None in round && forall p :: p in participants ==> Some(p) in round
  }

  ghost predicate Steady(s: System) {
    Sound(s) && AllSettled(s)
  }

  lemma ActSteady(s: System, cb: Callbacks, agent: Agent)
    requires Steady(s)
    ensures Steady(Act(s, cb, agent))
    ensures Act(s, cb, agent) == s || Rank(Act(s, cb, agent)) < Rank(s)
    ensures Act(s, cb, agent).ini.participants == s.ini.participants
    ensures s.ini.done ==> Act(s, cb, agent).ini.done
  {
    hide Inv, Trail, Rank, AllSettled, Next;
    var move := match agent
      case None => Initiate(Moment(cb.stamp, false, cb.select(s.ini.proposals)))
      case Some(p) =>
        if p in s.parts && Queue(s.bus, p) != [] then Participate(p, cb.reply(s.parts[p], Queue(s.bus, p)[0]))
        else Initiate(Moment("", false, []));
    NextKeepsSound(s, move);
    StepLowersRank(s, move);
    KeepsNames(s, move);
  }

  lemma KeepsNames(s: System, move: Move)
    ensures Next(s, move).ini.participants == s.ini.participants && (s.ini.done ==> Next(s, move).ini.done)
  {
    hide InitiatorBus, ParticipantBus, ParticipantNext, Noted, Sends, Winners;
  }

  lemma {:induction false} ActAllSteady(s: System, cb: Callbacks, agents: seq<Agent>)
    requires Steady(s)
    ensures Steady(ActAll(s, cb, agents))
    ensures ActAll(s, cb, agents) == s || Rank(ActAll(s, cb, agents)) < Rank(s)
    ensures ActAll(s, cb, agents).ini.participants == s.ini.participants
    ensures s.ini.done ==> ActAll(s, cb, agents).ini.done
  {
    hide Steady, Act, Rank;
    if agents != [] {
      ActAllSteady(s, cb, agents[..|agents| - 1]);
      ActSteady(ActAll(s, cb, agents[..|agents| - 1]), cb, agents[|agents| - 1]);
    }
  }

  /** In a round that changes nothing, no agent could change anything. */
  lemma {:induction false} IdleRound(s: System, cb: Callbacks, agents: seq<Agent>, agent: Agent)
    requires Steady(s) && ActAll(s, cb, agents) == s && agent in agents
    ensures Act(s, cb, agent) == s
  {
    hide Steady, Act, Rank;
    var n := |agents| - 1;
    ActAllSteady(s, cb, agents[..n]);
    ActSteady(ActAll(s, cb, agents[..n]), cb, agents[n]);
    if agents[n] != agent {
      assert agents == agents[..n] + [agents[n]];
      IdleRound(s, cb, agents[..n], agent);
    }
  }

  lemma OwnMoveLowers(s: System, cb: Callbacks, agent: Agent)
    requires GetsOn(s, agent) && Proper(cb)
    ensures Act(s, cb, agent) != s
    ensures agent.Some? ==> agent.value in s.parts
  {
    hide Next, Rank, MayReturn, TimesOut;
    match agent {
      case None =>
        var at := Moment(cb.stamp, false, cb.select(s.ini.proposals));
        assert Rank(Next(s, Initiate(at))) < Rank(s);
      case Some(p) =>
        var reply := cb.reply(s.parts[p], Queue(s.bus, p)[0]);
        assert MayReturn(s.parts[p], reply);
        assert Rank(Next(s, Participate(p, reply))) < Rank(s);
    }
  }

  lemma FairRoundLowers(s: System, cb: Callbacks, round: seq<Agent>)
    requires Steady(s) && Proper(cb) && Fair(round, s.ini.participants) && !s.ini.done
    ensures Rank(ActAll(s, cb, round)) < Rank(s)
  {
    hide Inv, Trail, AllSettled, GetsOn, Act, ActAll, Rank, Proper;
    ActAllSteady(s, cb, round);
    if ActAll(s, cb, round) == s {
      var agent := Progress(s);
      OwnMoveLowers(s, cb, agent);
      if agent.Some? {
        SetupParts(s, agent.value);
      }
      IdleRound(s, cb, round, agent);
    }
  }

  lemma {:induction false} RoundsLower(s: System, cb: Callbacks, rounds: seq<seq<Agent>>)
    requires Steady(s) && Proper(cb) && forall r :: r in rounds ==> Fair(r, s.ini.participants)
    ensures var t := Rounds(s, cb, rounds);
      && Steady(t) && t.ini.participants == s.ini.participants
      && (t.ini.done || Rank(t) + |rounds| <= Rank(s))
  {
    hide Steady, Proper, Fair, ActAll, Rank;
    if rounds != [] {
      var n := |rounds| - 1;
      assert rounds[n] in rounds;
      RoundsLower(s, cb, rounds[..n]);
      var t := Rounds(s, cb, rounds[..n]);
      ActAllSteady(t, cb, rounds[n]);
      if !t.ini.done {
        FairRoundLowers(t, cb, rounds[n]);
      }
    }
  }

  lemma NotDoneHasRank(s: System)
    requires !s.ini.done
    ensures Rank(s) >= 1
  {
    hide Weight, TalkOf;
    TotalAtLeast(s.ini.participants, WeightFn(s));
  }

  /** Whatever the callbacks return, within their header comments: after any run without
      timeouts, 5(n + 1) rounds in which every agent has a turn, in any order, bring the
      initiator to its end. */
  lemma EveryFairRunEnds(name: string, cfp: Message, participants: seq<string>, moves: seq<Move>, cb: Callbacks, rounds: seq<seq<Agent>>)
    requires Legal(name, cfp, participants) && Timely(Start(name, cfp, participants), moves)
    requires Proper(cb) && |rounds| >= 5 * (|participants| + 1) && forall r :: r in rounds ==> Fair(r, participants)
    ensures Rounds(Play(Start(name, cfp, participants), moves), cb, rounds).ini.done
  {
    hide Rank, Inv, Trail, Start, Next, AllSettled, TimesOut, Timely, Play, Proper, Fair, Rounds;
    var start := Start(name, cfp, participants);
    StartInv(name, cfp, participants);
    StartSettled(name, cfp, participants);
    TimelySettled(start, moves);
    ChangesCostRank(start, moves);
    StartRank(name, cfp, participants);
    NamesStay(start, moves);
    StartNames(name, cfp, participants);
    var s := Play(start, moves);
    RoundsLower(s, cb, rounds);
    if !Rounds(s, cb, rounds).ini.done {
      NotDoneHasRank(Rounds(s, cb, rounds));
    }
  }
}
