/** Each role of the Contract Net on its own, whatever arrives in its queue: messages of
    other conversations, of any performative, in any order. What reaches which callback,
    what is sent, and when the role ends. */
module ContractNetRoles {
  import opened Options
  import opened AclMessages
  import opened Counting
  import opened ContractNet

  /** Both messages say the same, whoever sends them in whatever conversation. */
  predicate SamePayload(a: Message, b: Message) {
    && a.performative == b.performative && a.receivers == b.receivers
    && a.content == b.content && a.language == b.language && a.encoding == b.encoding
    && a.ontology == b.ontology && a.protocol == b.protocol && a.replyWith == b.replyWith
  }

  // ----- the initiator -----

  /** What the clock and selectProposals answer in one action, and what the transport
      returns if it is asked. */
  datatype Turn = Turn(at: Moment, got: Option<Message>)

  /** An initiator with its history. */
  datatype Record = Record(
    ini: Initiator,
    offers: seq<Message>,      // taken while it waited for proposals
    reports: seq<Message>,     // taken while it waited for results
    refusals: seq<Message>,    // handleRefuse
    informs: seq<Message>,     // handleInform
    failures: seq<Message>,    // handleFailure
    selected: seq<string>,     // returned by selectProposals
    sent: seq<Envelope>)

  function New(name: string, cfp: Message, participants: seq<string>): Record {
    Record(NewInitiator(name, cfp, participants), [], [], [], [], [], [], [])
  }

  function Listed(got: Option<Message>): seq<Message> {
    if got.Some? then [got.value] else []
  }

  function Acted(r: Record, turn: Turn): Record {
    if r.ini.done then r
    else
      var got := if Polls(r.ini, turn.at) then turn.got else None;
      var note := NoteOf(r.ini, got);
      Record(InitiatorNext(r.ini, got, turn.at),
             r.offers + (if r.ini.phase == WaitingProposals then Listed(got) else []),
             r.reports + (if r.ini.phase == WaitingResults then Listed(got) else []),
             r.refusals + (if note.HandleRefuse? then [note.msg] else []),
             r.informs + (if note.HandleInform? then [note.msg] else []),
             r.failures + (if note.HandleFailure? then [note.msg] else []),
             if r.ini.phase == HandlingProposals then turn.at.selected else r.selected,
             r.sent + Sends(r.ini, turn.at))
  }

  function ActedAll(r: Record, turns: seq<Turn>): Record {
    if turns == [] then r else Acted(ActedAll(r, turns[..|turns| - 1]), turns[|turns| - 1])
  }

  const REFUSING: set<Performative> := {Refuse, NotUnderstood}

  predicate Undecided(i: Initiator) {
    i.phase == SendingCfp || i.phase == WaitingProposals || i.phase == HandlingProposals
  }

  /** Every message of the conversation has reached the callback of its performative, and
      no other message any. */
  predicate Dispatched(r: Record) {
    var conv := r.ini.convId;
    && r.ini.proposals == Picked(r.offers, conv, {Propose})
    && r.refusals == Picked(r.offers, conv, REFUSING)
    && r.informs == Picked(r.reports, conv, {Inform})
    && r.failures == Picked(r.reports, conv, {Failure})
  }

  /** The two counters, and when the initiator stops waiting. */
  predicate Counted(r: Record, expired: bool) {
    var n := |r.ini.participants|;
    && r.ini.responded == |r.ini.proposals| + |r.refusals|
    && (r.ini.phase == SendingCfp ==> r.offers == [] && r.ini.responded == 0)
    && (r.ini.phase == WaitingProposals && n > 0 ==> r.ini.responded < n)
    && (r.ini.phase != SendingCfp && r.ini.phase != WaitingProposals ==> r.ini.responded >= n || expired)
    && (Undecided(r.ini) ==> r.reports == [] && r.ini.accepted == [] && r.ini.pending == 0 && r.informs == [] && r.failures == [])
    && (!Undecided(r.ini) ==> |r.ini.accepted| == r.ini.pending + |r.informs| + |r.failures|)
    && (r.ini.phase == WaitingResults ==> r.ini.pending > 0)
    && (r.ini.phase == Finished ==> r.ini.pending == 0 || expired)
    && (r.ini.done ==> r.ini.phase == Finished)
  }

  predicate SomeExpired(turns: seq<Turn>) {
    exists t :: t in turns && t.at.expired
  }

  lemma NewIsQuiet(name: string, cfp: Message, participants: seq<string>)
    ensures Dispatched(New(name, cfp, participants)) && Counted(New(name, cfp, participants), false)
  {
  }

  lemma SendingDispatches(r: Record, turn: Turn, expired: bool)
    requires Dispatched(r) && Counted(r, expired) && r.ini.phase == SendingCfp && !r.ini.done
    ensures Dispatched(Acted(r, turn))
  {
    hide CfpToSend, Winners, Sends, Picked, ConvId;
    NothingPicked(r.ini.convId);
    NothingPicked(ConvId(r.ini, turn.at));
  }

  lemma WaitingDispatches(r: Record, turn: Turn)
    requires Dispatched(r) && r.ini.phase != SendingCfp && !r.ini.done
    ensures Dispatched(Acted(r, turn))
  {
    hide CfpToSend, Winners, Sends, Picked, ConvId;
    NothingAdded(r.offers);
    NothingAdded(r.reports);
    NothingAdded(r.refusals);
    NothingAdded(r.informs);
    NothingAdded(r.failures);
    if turn.got.Some? {
      var conv, m := r.ini.convId, turn.got.value;
      PickedOne(r.offers, m, conv, {Propose});
      PickedOne(r.offers, m, conv, REFUSING);
      PickedOne(r.reports, m, conv, {Inform});
      PickedOne(r.reports, m, conv, {Failure});
    }
  }

  lemma ActedDispatches(r: Record, turn: Turn, expired: bool)
    requires Dispatched(r) && Counted(r, expired)
    ensures Dispatched(Acted(r, turn))
  {
    hide Dispatched, Counted;
    if r.ini.done {
      assert Acted(r, turn) == r;
    } else {
      hide Acted;
      if r.ini.phase == SendingCfp {
        SendingDispatches(r, turn, expired);
      } else {
        WaitingDispatches(r, turn);
      }
    }
  }

  lemma NothingAdded(q: seq<Message>)
    ensures q + [] == q
  {
  }

  lemma NothingPicked(conv: string)
    ensures forall kinds :: Picked([], conv, kinds) == []
  {
  }

  lemma ActedCounts(r: Record, turn: Turn, expired: bool)
    requires Counted(r, expired)
    ensures Counted(Acted(r, turn), expired || turn.at.expired)
  {
    hide CfpToSend, Sends, ConvId, Winners;
  }

  lemma {:induction false} RunCounts(name: string, cfp: Message, participants: seq<string>, turns: seq<Turn>)
    ensures var r := ActedAll(New(name, cfp, participants), turns);
      Dispatched(r) && Counted(r, SomeExpired(turns))
  {
    hide Dispatched, Counted, New, Acted;
    if turns == [] {
      NewIsQuiet(name, cfp, participants);
    } else {
      var n := |turns| - 1;
      RunCounts(name, cfp, participants, turns[..n]);
      var before := ActedAll(New(name, cfp, participants), turns[..n]);
      ActedDispatches(before, turns[n], SomeExpired(turns[..n]));
      ActedCounts(before, turns[n], SomeExpired(turns[..n]));
      assert turns == turns[..n] + [turns[n]];
    }
  }

  /** Whatever the initiator is sent, by whomever: every message of its conversation that
      it takes while it waits for proposals is recorded if it is a PROPOSE, handed to
      handleRefuse if it is a REFUSE or NOT_UNDERSTOOD, and counts as an answer then; of
      those it takes while it waits for results, handleInform gets the INFORMs and
      handleFailure the FAILUREs; all in order, and no callback gets anything else. It
      stops waiting for proposals when all have answered or the deadline has passed, not
      before, and for results likewise. */
  lemma CallbacksExact(name: string, cfp: Message, participants: seq<string>, turns: seq<Turn>)
    ensures var r := ActedAll(New(name, cfp, participants), turns);
      var n, conv, expired := |participants|, r.ini.convId, SomeExpired(turns);
      && r.ini.proposals == Picked(r.offers, conv, {Propose})
      && r.refusals == Picked(r.offers, conv, {Refuse, NotUnderstood})
      && r.informs == Picked(r.reports, conv, {Inform})
      && r.failures == Picked(r.reports, conv, {Failure})
      && (r.ini.phase == WaitingProposals && n > 0 ==> |r.ini.proposals| + |r.refusals| < n)
      && (r.ini.phase != SendingCfp && r.ini.phase != WaitingProposals ==> |r.ini.proposals| + |r.refusals| >= n || expired)
      && (r.ini.phase == WaitingResults ==> |r.informs| + |r.failures| < |r.ini.accepted|)
      && (r.ini.phase == Finished ==> |r.informs| + |r.failures| == |r.ini.accepted| || expired)
      && (r.ini.done ==> r.ini.phase == Finished)
  {
    hide Picked, Acted, New, SomeExpired;
    RunCounts(name, cfp, participants, turns);
    NamesKept(New(name, cfp, participants), turns);
    assert New(name, cfp, participants).ini.participants == participants by { NewNames(name, cfp, participants); }
  }

  lemma NewNames(name: string, cfp: Message, participants: seq<string>)
    ensures var i := New(name, cfp, participants).ini; i.participants == participants && i.name == name && i.cfp == cfp
  {
  }

  lemma ActedNames(r: Record, turn: Turn)
    ensures Acted(r, turn).ini.participants == r.ini.participants && Acted(r, turn).ini.name == r.ini.name
    ensures r.ini.phase != SendingCfp ==> Acted(r, turn).ini.phase != SendingCfp && Acted(r, turn).ini.convId == r.ini.convId
    ensures r.ini.phase == SendingCfp && !r.ini.done ==>
      Acted(r, turn).ini.phase != SendingCfp && Acted(r, turn).ini.convId == "cnp-" + r.ini.name + "-" + turn.at.stamp
  {
    hide NoteOf, CfpToSend, Winners, Sends;
  }

  lemma {:induction false} NamesKept(r: Record, turns: seq<Turn>)
    ensures ActedAll(r, turns).ini.participants == r.ini.participants && ActedAll(r, turns).ini.name == r.ini.name
    ensures r.ini.phase == SendingCfp && !r.ini.done && turns != [] ==>
      && ActedAll(r, turns).ini.phase != SendingCfp
      && ActedAll(r, turns).ini.convId == "cnp-" + r.ini.name + "-" + turns[0].at.stamp
  {
    if turns != [] {
      hide Acted;
      NamesKept(r, turns[..|turns| - 1]);
      ActedNames(ActedAll(r, turns[..|turns| - 1]), turns[|turns| - 1]);
    }
  }

  /** How many actions past the deadline are left. */
  function Steps(i: Initiator): nat {
    if i.done then 0
    else
      match i.phase
      case SendingCfp => 5
      case WaitingProposals => 4
      case HandlingProposals => 3
      case WaitingResults => 2
      case Finished => 1
  }

  lemma StepsLeft(i: Initiator)
    ensures Steps(i) <= 5 && (Steps(i) == 0 ==> i.done)
  {
  }

  lemma OneStepLess(r: Record, turn: Turn)
    requires turn.at.expired
    ensures Steps(Acted(r, turn).ini) <= (if Steps(r.ini) == 0 then 0 else Steps(r.ini) - 1)
  {
    hide CfpToSend, Winners, Sends;
  }

  /** Once the deadlines have passed, five actions end the initiator, whatever arrives. */
  lemma {:induction false} DeadlineEnds(r: Record, turns: seq<Turn>)
    requires forall t :: t in turns ==> t.at.expired
    ensures Steps(ActedAll(r, turns).ini) <= (if |turns| < Steps(r.ini) then Steps(r.ini) - |turns| else 0)
    ensures |turns| >= 5 ==> ActedAll(r, turns).ini.done
  {
    if turns != [] {
      hide Acted, Steps;
      var n := |turns| - 1;
      assert turns[n] in turns && forall t :: t in turns[..n] ==> t in turns;
      DeadlineEnds(r, turns[..n]);
      OneStepLess(ActedAll(r, turns[..n]), turns[n]);
    }
    StepsLeft(r.ini);
    StepsLeft(ActedAll(r, turns).ini);
  }

  // ----- what the initiator sends -----

  /** m is the CFP that the user gave, in the initiator's name and conversation. */
  predicate CarriesCfp(m: Message, cfp: Message, name: string, conv: string) {
    && m.performative == cfp.performative && m.receivers == cfp.receivers && m.content == cfp.content
    && m.language == cfp.language && m.encoding == cfp.encoding && m.ontology == cfp.ontology
    && m.inReplyTo == cfp.inReplyTo
    && m.sender == AgentIdentifier(name, []) && m.conversationId == conv
    && m.replyWith == "cfp-" + conv && m.protocol == "fipa-contract-net"
  }

  /** e is the verdict on a proposal: it goes back to who made it and refers to it. */
  predicate Judges(e: Envelope, proposal: Message, name: string, selected: seq<string>) {
    && e.to == proposal.sender.name
    && e.msg.performative == (if proposal.sender.name in selected then AcceptProposal else RejectProposal)
    && e.msg.sender == AgentIdentifier(name, []) && e.msg.receivers == [proposal.sender]
    && e.msg.conversationId == proposal.conversationId && e.msg.inReplyTo == proposal.replyWith
    && e.msg.language == proposal.language && e.msg.ontology == proposal.ontology && e.msg.protocol == proposal.protocol
    && e.msg.content == "" && e.msg.encoding == "" && e.msg.replyWith == ""
  }

  /** First the CFP to every participant, then a verdict for every proposal. */
  predicate Spoke(r: Record, cfp: Message) {
    var n, conv := |r.ini.participants|, r.ini.convId;
    if r.ini.phase == SendingCfp then r.sent == [] && r.ini.cfp == cfp && r.ini.accepted == []
    else
      && |r.sent| == n + (if Undecided(r.ini) then 0 else |r.ini.proposals|)
      && (forall i :: 0 <= i < n ==>
            r.sent[i].to == r.ini.participants[i] && CarriesCfp(r.sent[i].msg, cfp, r.ini.name, conv))
      && (forall i :: n <= i < |r.sent| ==> Judges(r.sent[i], r.ini.proposals[i - n], r.ini.name, r.selected))
      && r.ini.accepted == Chosen(r.sent[n..])
  }

  /** Whom the ACCEPTs among es went to. */
  function Chosen(es: seq<Envelope>): seq<string> {
    if es == [] then []
    else
      var e := es[|es| - 1];
      Chosen(es[..|es| - 1]) + (if e.msg.performative == AcceptProposal then [e.to] else [])
  }

  lemma NobodyChosen()
    ensures Chosen([]) == []
  {
  }

  lemma ChosenConcat(a: seq<Envelope>, b: seq<Envelope>)
    ensures Chosen(a + b) == Chosen(a) + Chosen(b)
  {
    if b == [] {
      assert a + b == a;
    } else {
      assert (a + b)[..|a + b| - 1] == a + b[..|b| - 1];
      ChosenConcat(a, b[..|b| - 1]);
    }
  }

  lemma CfpsSent(cfp: Message, ps: seq<string>)
    ensures |Cfps(cfp, ps)| == |ps|
    ensures forall i :: 0 <= i < |ps| ==> Cfps(cfp, ps)[i] == Envelope(ps[i], cfp)
  {
  }

  lemma VerdictJudges(name: string, selected: seq<string>, proposal: Message)
    ensures Judges(Verdict(name, selected, proposal), proposal, name, selected)
  {
  }

  lemma {:induction false} VerdictsSent(name: string, selected: seq<string>, proposals: seq<Message>)
    ensures |Verdicts(name, selected, proposals)| == |proposals|
    ensures forall i :: 0 <= i < |proposals| ==> Judges(Verdicts(name, selected, proposals)[i], proposals[i], name, selected)
  {
    hide Judges, Verdict;
    if proposals != [] {
      var n := |proposals| - 1;
      VerdictsSent(name, selected, proposals[..n]);
      VerdictJudges(name, selected, proposals[n]);
    }
  }

  lemma {:induction false} VerdictsChosen(name: string, selected: seq<string>, proposals: seq<Message>)
    ensures Chosen(Verdicts(name, selected, proposals)) == Winners(selected, proposals)
  {
    hide Judges, Verdict, Chosen;
    if proposals == [] {
      NobodyChosen();
    } else {
      var n := |proposals| - 1;
      VerdictsChosen(name, selected, proposals[..n]);
      VerdictJudges(name, selected, proposals[n]);
      var v := Verdict(name, selected, proposals[n]);
      ChosenConcat(Verdicts(name, selected, proposals[..n]), [v]);
      OneChosen(v, proposals[n], name, selected);
    }
  }

  lemma OneChosen(e: Envelope, proposal: Message, name: string, selected: seq<string>)
    requires Judges(e, proposal, name, selected)
    ensures Chosen([e]) == if proposal.sender.name in selected then [proposal.sender.name] else []
  {
    assert [e][..0] == [];
  }

  lemma SendingSpeaks(r: Record, turn: Turn, cfp: Message)
    requires Spoke(r, cfp) && r.ini.phase == SendingCfp && !r.ini.done
    ensures Spoke(Acted(r, turn), cfp)
  {
    hide Chosen;
    CfpsSent(CfpToSend(r.ini, turn.at), r.ini.participants);
    var es := Sends(r.ini, turn.at);
    assert r.sent + es == es && es[|r.ini.participants|..] == [];
    assert Chosen([]) == [] by { NobodyChosen(); }
  }

  lemma JudgedState(r: Record, turn: Turn)
    requires r.ini.phase == HandlingProposals && !r.ini.done
    ensures var r' := Acted(r, turn);
      && r'.sent == r.sent + Sends(r.ini, turn.at) && r'.selected == turn.at.selected
      && r'.ini == r.ini.(phase := r'.ini.phase, accepted := r.ini.accepted + Winners(turn.at.selected, r.ini.proposals),
                          pending := r'.ini.pending)
      && !Undecided(r'.ini)
  {
    hide Winners, Sends;
  }

  lemma JudgingSpeaks(r: Record, turn: Turn, cfp: Message)
    requires Spoke(r, cfp) && r.ini.phase == HandlingProposals && !r.ini.done
    ensures Spoke(Acted(r, turn), cfp)
  {
    hide Chosen, Judges, CarriesCfp, Winners, Verdicts, Acted;
    JudgedState(r, turn);
    VerdictsSent(r.ini.name, turn.at.selected, r.ini.proposals);
    VerdictsChosen(r.ini.name, turn.at.selected, r.ini.proposals);
    var n := |r.ini.participants|;
    assert (r.sent + Sends(r.ini, turn.at))[n..] == r.sent[n..] + Sends(r.ini, turn.at);
    ChosenConcat(r.sent[n..], Sends(r.ini, turn.at));
  }

  lemma WaitingSpeaks(r: Record, turn: Turn, cfp: Message)
    requires Spoke(r, cfp) && r.ini.phase != SendingCfp && r.ini.phase != HandlingProposals
    ensures Spoke(Acted(r, turn), cfp)
  {
    hide Chosen, Judges, CarriesCfp;
    if !r.ini.done {
      assert r.sent + Sends(r.ini, turn.at) == r.sent;
    }
  }

  /** What the initiator sends, message by message: the CFP, with the user's content and
      all its other fields, to every participant in order; then, once selectProposals has
      answered, one verdict for every recorded proposal in order, addressed to its sender
      and referring to it, an ACCEPT exactly for the selected ones; and nothing else. Who
      was accepted is who was sent an ACCEPT. The conversation is named after the initiator
      and the time of the first action. */
  lemma SendsExact(name: string, cfp: Message, participants: seq<string>, turns: seq<Turn>)
    ensures var r := ActedAll(New(name, cfp, participants), turns);
      && Spoke(r, cfp) && r.ini.name == name && r.ini.participants == participants
      && (turns != [] ==> r.ini.phase != SendingCfp && r.ini.convId == "cnp-" + name + "-" + turns[0].at.stamp)
  {
    hide Spoke;
    RunSpeaks(name, cfp, participants, turns);
    NamesKept(New(name, cfp, participants), turns);
  }

  lemma {:induction false} RunSpeaks(name: string, cfp: Message, participants: seq<string>, turns: seq<Turn>)
    ensures Spoke(ActedAll(New(name, cfp, participants), turns), cfp)
  {
    hide Spoke, Acted;
    if turns == [] {
      assert Spoke(New(name, cfp, participants), cfp) by { NewSpoke(name, cfp, participants); }
    } else {
      var n := |turns| - 1;
      RunSpeaks(name, cfp, participants, turns[..n]);
      RunCounts(name, cfp, participants, turns[..n]);
      var before := ActedAll(New(name, cfp, participants), turns[..n]);
      if before.ini.phase == SendingCfp && !before.ini.done {
        SendingSpeaks(before, turns[n], cfp);
      } else if before.ini.phase == HandlingProposals && !before.ini.done {
        JudgingSpeaks(before, turns[n], cfp);
      } else {
        WaitingSpeaks(before, turns[n], cfp);
      }
    }
  }

  lemma NewSpoke(name: string, cfp: Message, participants: seq<string>)
    ensures Spoke(New(name, cfp, participants), cfp)
  {
  }

  // ----- the participant -----

  /** What the transport returns in one action, and the callback if it is called. */
  datatype Go = Go(got: Option<Message>, reply: Message)

  /** A participant with its history. */
  datatype Dossier = Dossier(
    part: Participant,
    early: seq<Message>,       // taken before it has made a proposal
    later: seq<Message>,       // taken after that
    prepared: seq<Message>,    // given to prepareProposal
    executed: seq<Message>,    // given to executeTask
    replies: seq<Message>,     // returned by the two
    sent: seq<Envelope>,
    empty: bool)               // a receive has returned nothing

  function NewDossier(name: string): Dossier {
    Dossier(NewParticipant(name), [], [], [], [], [], [], false)
  }

  function Went(d: Dossier, go: Go): Dossier {
    if d.part.done then d
    else
      var p, got := d.part, go.got;
      var called := Prepares(p, got) || Executes(p, got);
      Dossier(ParticipantNext(p, got, go.reply),
              d.early + (if p.deciding then [] else Listed(got)),
              d.later + (if p.deciding then Listed(got) else []),
              d.prepared + (if Prepares(p, got) then Listed(got) else []),
              d.executed + (if Executes(p, got) then Listed(got) else []),
              d.replies + (if called then [go.reply] else []),
              d.sent + ParticipantSends(p, got, go.reply),
              d.empty || got.None?)
  }

  function WentAll(d: Dossier, gos: seq<Go>): Dossier {
    if gos == [] then d else Went(WentAll(d, gos[..|gos| - 1]), gos[|gos| - 1])
  }

  /** The CFPs among q, of whatever conversation. */
  function CfpsAmong(q: seq<Message>): seq<Message> {
    if q == [] then []
    else CfpsAmong(q[..|q| - 1]) + (if q[|q| - 1].performative == Cfp then [q[|q| - 1]] else [])
  }

  lemma CfpsAmongOne(q: seq<Message>, m: Message)
    ensures CfpsAmong(q + [m]) == CfpsAmong(q) + (if m.performative == Cfp then [m] else [])
  {
    assert (q + [m])[..|q + [m]| - 1] == q;
  }

  /** e answers the question, with what its callback returned. */
  predicate Answers(e: Envelope, to: string, name: string, question: Message, reply: Message) {
    && e.to == to && SamePayload(e.msg, reply)
    && e.msg.sender == AgentIdentifier(name, []) && e.msg.conversationId == question.conversationId
    && e.msg.inReplyTo == question.replyWith
  }

  const VERDICTS: set<Performative> := {AcceptProposal, RejectProposal}

  /** The first CFP is answered; the first verdict on the proposal, in its conversation,
      is obeyed; nothing else has any effect. */
  predicate Served(d: Dossier) {
    var p := d.part;
    && d.prepared == CfpsAmong(d.early) && |d.prepared| <= 1
    && |d.replies| == |d.sent| == |d.prepared| + |d.executed|
    && (d.prepared != [] ==> Answers(d.sent[0], d.prepared[0].sender.name, p.name, d.prepared[0], d.replies[0]))
    && (p.deciding <==> d.prepared != [] && d.replies[0].performative != Refuse)
    && (p.deciding ==> p.convId == d.prepared[0].conversationId && p.initiator == d.prepared[0].sender.name)
    && (!p.deciding ==> d.later == [] && d.executed == [])
    && d.executed == Picked(d.later, p.convId, {AcceptProposal})
    && |Picked(d.later, p.convId, VERDICTS)| <= 1
    && (d.executed != [] ==> d.prepared != [] && Answers(d.sent[1], d.prepared[0].sender.name, p.name, d.executed[0], d.replies[1]))
    && (p.done <==>
          || d.empty || (d.prepared != [] && d.replies[0].performative == Refuse)
          || Picked(d.later, p.convId, VERDICTS) != [])
  }

  lemma FewerPicked(q: seq<Message>, conv: string)
    ensures |Picked(q, conv, {AcceptProposal})| <= |Picked(q, conv, VERDICTS)|
  {
  }

  lemma EarlyServed(d: Dossier, go: Go)
    requires Served(d) && !d.part.done && !d.part.deciding
    ensures Served(Went(d, go))
  {
    hide Picked, CfpsAmong;
    NothingAdded(d.early);
    NothingAdded(d.later);
    NothingAdded(d.executed);
    NothingPicked(d.part.convId);
    assert d.prepared == [] && d.sent == [] && d.replies == [];
    if go.got.Some? {
      CfpsAmongOne(d.early, go.got.value);
      NothingPicked(go.got.value.conversationId);
    }
  }

  lemma LaterServed(d: Dossier, go: Go)
    requires Served(d) && !d.part.done && d.part.deciding
    ensures Served(Went(d, go))
  {
    hide Picked, CfpsAmong;
    NothingAdded(d.early);
    NothingAdded(d.prepared);
    NothingAdded(d.later);
    NothingAdded(d.executed);
    assert d.sent + [] == d.sent && d.replies + [] == d.replies;
    if go.got.Some? {
      PickedOne(d.later, go.got.value, d.part.convId, {AcceptProposal});
      PickedOne(d.later, go.got.value, d.part.convId, VERDICTS);
    }
    FewerPicked(d.later, d.part.convId);
  }

  /** Whatever a participant is sent, by whomever: prepareProposal is given the first CFP
      it takes and no other message, and what it returns goes back to the sender of that
      CFP, in its conversation and referring to it; executeTask is given the first verdict
      of that conversation that it takes, if it is an ACCEPT, and what it returns goes to
      the same agent; it ends exactly when a receive comes back empty, it has refused, or
      it has had its verdict. */
  lemma {:induction false} ParticipantExact(name: string, gos: seq<Go>)
    ensures Served(WentAll(NewDossier(name), gos)) && WentAll(NewDossier(name), gos).part.name == name
  {
    hide Served, Went;
    if gos == [] {
      NewServed(name);
    } else {
      var n := |gos| - 1;
      ParticipantExact(name, gos[..n]);
      var before := WentAll(NewDossier(name), gos[..n]);
      WentName(before, gos[n]);
      if before.part.done {
        WentDone(before, gos[n]);
      } else if before.part.deciding {
        LaterServed(before, gos[n]);
      } else {
        EarlyServed(before, gos[n]);
      }
    }
  }

  lemma NewServed(name: string)
    ensures Served(NewDossier(name)) && NewDossier(name).part.name == name
  {
  }

  lemma WentName(d: Dossier, go: Go)
    ensures Went(d, go).part.name == d.part.name
  {
  }

  lemma WentDone(d: Dossier, go: Go)
    requires d.part.done
    ensures Went(d, go) == d
  {
  }
}
