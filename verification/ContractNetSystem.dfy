/** One initiator and any number of participants over the FIFO bus, in any
    interleaving, with timeouts at any moment and callbacks answering as they like
    within their header comments. */
module ContractNetSystem {
  import opened Options
  import opened AclMessages
  import opened MessageBus
  import opened Counting
  import opened ContractNet

  /** What the callbacks and the transport were given, in order. */
  datatype Log = Log(
    refusals: seq<Message>,    // handleRefuse
    results: seq<Message>,     // handleInform, handleFailure
    late: seq<Message>,        // taken from the queue and dropped
    executed: seq<Message>,    // the results of executeTask
    asked: seq<Envelope>,      // sent by the initiator
    answered: seq<Message>,    // sent by the participants
    selected: seq<string>)     // returned by selectProposals

  datatype System = System(
    ini: Initiator,
    parts: map<string, Participant>,
    bus: Queues<Message>,
    log: Log)

  /** One action of one agent, with what the clock and its callbacks answer. */
  datatype Move = Initiate(at: Moment) | Participate(who: string, reply: Message)

  function Start(name: string, cfp: Message, participants: seq<string>): System {
    System(NewInitiator(name, cfp, participants),
           map p | p in participants :: NewParticipant(p),
           map[],
           Log([], [], [], [], [], [], []))
  }

  /** An agent acts only until its behaviour is done. */
  predicate Enabled(s: System, move: Move) {
    match move
    case Initiate(_) => !s.ini.done
    case Participate(who, reply) => who in s.parts && !s.parts[who].done && MayReturn(s.parts[who], reply)
  }

  function Noted(log: Log, note: Note): Log {
    match note
    case HandleRefuse(m) => log.(refusals := log.refusals + [m])
    case HandleInform(m) => log.(results := log.results + [m])
    case HandleFailure(m) => log.(results := log.results + [m])
    case Ignored(m) => log.(late := log.late + [m])
    case _ => log
  }

  function Mails(es: seq<Envelope>): seq<Message> {
    if es == [] then [] else [es[0].msg] + Mails(es[1..])
  }

  /** The next state; a move that is not enabled changes nothing. */
  function Next(s: System, move: Move): System {
    if !Enabled(s, move) then s
    else match move
      case Initiate(at) =>
        var got := Seen(s.ini, s.bus, at);
        var log := Noted(s.log, NoteOf(s.ini, got));
        s.(ini := InitiatorNext(s.ini, got, at),
           bus := InitiatorBus(s.ini, s.bus, at),
           log := log.(asked := log.asked + Sends(s.ini, at),
                       selected := if s.ini.phase == HandlingProposals then at.selected else log.selected))
      case Participate(who, reply) =>
        var p := s.parts[who];
        var got := Front(s.bus, who);
        var sent := Mails(ParticipantSends(p, got, reply));
        s.(parts := s.parts[who := ParticipantNext(p, got, reply)],
           bus := ParticipantBus(p, s.bus, reply),
           log := s.log.(executed := s.log.executed + (if Executes(p, got) then sent else []),
                         answered := s.log.answered + sent))
  }

  function Play(s: System, moves: seq<Move>): System {
    if moves == [] then s else Next(Play(s, moves[..|moves| - 1]), moves[|moves| - 1])
  }

  // ----- one participant's conversation -----

  const PROPOSALS: set<Performative> := {Propose}
  const REFUSALS: set<Performative> := {Refuse}
  const ANSWERS: set<Performative> := {Propose, Refuse}
  const RESULTS: set<Performative> := {Inform, Failure}
  const QUESTIONS: set<Performative> := {Cfp, AcceptProposal, RejectProposal}

  /** Everything about the conversation with one participant, as numbers. */
  datatype Talk = Talk(
    phase: Phase,
    mail: seq<Performative>,   // queued for the participant
    proposes: nat, refuses: nat, outcomes: nat,   // queued for the initiator
    recorded: nat, refused: nat, late: nat, handled: nat,   // taken by the initiator
    executed: nat,
    won: nat, accepts: nat, rejects: nat, cfps: nat,   // selected; sent to the participant
    answers: nat, reports: nat,   // sent by the participant
    deciding: bool, done: bool)

  function Performatives(q: seq<Message>): (ks: seq<Performative>)
    ensures |ks| == |q|
    ensures forall i :: 0 <= i < |q| ==> ks[i] == q[i].performative
  {
    if q == [] then [] else [q[0].performative] + Performatives(q[1..])
  }

  function TalkOf(s: System, p: string): Talk
    requires p in s.parts
  {
    var inbox := Queue(s.bus, s.ini.name);
    Talk(s.ini.phase, Performatives(Queue(s.bus, p)),
         Count(inbox, p, PROPOSALS), Count(inbox, p, REFUSALS), Count(inbox, p, RESULTS),
         Count(s.ini.proposals, p, PROPOSALS), Count(s.log.refusals, p, REFUSALS),
         Count(s.log.late, p, ANSWERS), Count(s.log.results, p, RESULTS),
         Count(s.log.executed, p, RESULTS),
         multiset(s.ini.accepted)[p], CountTo(s.log.asked, p, {AcceptProposal}),
         CountTo(s.log.asked, p, {RejectProposal}), CountTo(s.log.asked, p, {Cfp}),
         Count(s.log.answered, p, ANSWERS), Count(s.log.answered, p, RESULTS),
         s.parts[p].deciding, s.parts[p].done)
  }

  /** The twelve ways a conversation can stand; d is whether the participant gave up. */
  predicate Before(t: Talk) {
    t.phase == SendingCfp && t == Talk(t.phase, [], 0, 0, 0, 0, 0, 0, 0, 0, 0, 0, 0, 0, 0, 0, false, t.done)
  }

  predicate CfpQueued(t: Talk) {
    t.phase != SendingCfp && t == Talk(t.phase, [Cfp], 0, 0, 0, 0, 0, 0, 0, 0, 0, 0, 0, 1, 0, 0, false, t.done)
  }

  predicate ProposalQueued(t: Talk) {
    t.phase != SendingCfp && t == Talk(t.phase, [], 1, 0, 0, 0, 0, 0, 0, 0, 0, 0, 0, 1, 1, 0, true, t.done)
  }

  predicate RefusalQueued(t: Talk) {
    t.phase != SendingCfp && t == Talk(t.phase, [], 0, 1, 0, 0, 0, 0, 0, 0, 0, 0, 0, 1, 1, 0, false, true)
  }

  predicate ProposalRecorded(t: Talk) {
    (t.phase == WaitingProposals || t.phase == HandlingProposals)
    && t == Talk(t.phase, [], 0, 0, 0, 1, 0, 0, 0, 0, 0, 0, 0, 1, 1, 0, true, t.done)
  }

  predicate RefusalHandled(t: Talk) {
    t.phase != SendingCfp && t == Talk(t.phase, [], 0, 0, 0, 0, 1, 0, 0, 0, 0, 0, 0, 1, 1, 0, false, true)
  }

  predicate Decided(phase: Phase) {
    phase == WaitingResults || phase == Finished
  }

  predicate AnswerDropped(t: Talk) {
    Decided(t.phase) && t == Talk(t.phase, [], 0, 0, 0, 0, 0, 1, 0, 0, 0, 0, 0, 1, 1, 0, t.deciding, t.done)
  }

  predicate AcceptQueued(t: Talk) {
    Decided(t.phase) && t == Talk(t.phase, [AcceptProposal], 0, 0, 0, 1, 0, 0, 0, 0, 1, 1, 0, 1, 1, 0, true, t.done)
  }

  predicate RejectQueued(t: Talk) {
    Decided(t.phase) && t == Talk(t.phase, [RejectProposal], 0, 0, 0, 1, 0, 0, 0, 0, 0, 0, 1, 1, 1, 0, true, t.done)
  }

  predicate ResultQueued(t: Talk) {
    Decided(t.phase) && t == Talk(t.phase, [], 0, 0, 1, 1, 0, 0, 0, 1, 1, 1, 0, 1, 1, 1, true, true)
  }

  predicate ResultHandled(t: Talk) {
    Decided(t.phase) && t == Talk(t.phase, [], 0, 0, 0, 1, 0, 0, 1, 1, 1, 1, 0, 1, 1, 1, true, true)
  }

  predicate RejectRead(t: Talk) {
    Decided(t.phase) && t == Talk(t.phase, [], 0, 0, 0, 1, 0, 0, 0, 0, 0, 0, 1, 1, 1, 0, true, true)
  }

  predicate Fits(t: Talk) {
    || Before(t) || CfpQueued(t) || ProposalQueued(t) || RefusalQueued(t)
    || ProposalRecorded(t) || RefusalHandled(t) || AnswerDropped(t)
    || AcceptQueued(t) || RejectQueued(t) || ResultQueued(t) || ResultHandled(t) || RejectRead(t)
  }

  // ----- the invariant -----

  predicate From(ps: seq<string>, conv: string, kinds: set<Performative>, q: seq<Message>) {
    forall m :: m in q ==> m.sender.name in ps && m.conversationId == conv && m.performative in kinds
  }

  predicate MailOk(s: System, p: string) {
    forall m :: m in Queue(s.bus, p) ==> m.sender.name == s.ini.name && m.conversationId == s.ini.convId
  }

  predicate PartOk(s: System, p: string)
    requires p in s.parts
  {
    var part := s.parts[p];
    part.name == p && (part.deciding ==> part.convId == s.ini.convId && part.initiator == s.ini.name)
  }

  predicate Counters(s: System) {
    && s.ini.responded == |s.ini.proposals| + |s.log.refusals|
    && (!Decided(s.ini.phase) ==> s.ini.pending == 0 && s.ini.accepted == [] && s.log.results == [] && s.log.late == [])
    && (Decided(s.ini.phase) ==> s.ini.pending == |s.ini.accepted| - |s.log.results|)
    && (s.ini.phase == WaitingResults ==> s.ini.accepted != [])
    && (s.ini.phase == SendingCfp ==> s.ini.responded == 0 && Queue(s.bus, s.ini.name) == [])
  }

  ghost predicate Setup(s: System) {
    && Distinct(s.ini.participants)
    && s.ini.name !in s.ini.participants
    && s.ini.cfp.performative == Cfp
    && (forall p :: p in s.parts <==> p in s.ini.participants)
  }

  predicate Senders(s: System) {
    var ps, conv := s.ini.participants, s.ini.convId;
    && From(ps, conv, ANSWERS + RESULTS, Queue(s.bus, s.ini.name))
    && From(ps, conv, PROPOSALS, s.ini.proposals)
    && From(ps, conv, REFUSALS, s.log.refusals)
    && From(ps, conv, ANSWERS, s.log.late)
    && From(ps, conv, RESULTS, s.log.results)
    && (forall a :: a in s.ini.accepted ==> a in ps)
  }

  /** What has been sent, and who was accepted. */
  predicate Trail(s: System) {
    var ps := s.ini.participants;
    && (forall e :: e in s.log.asked ==> e.to in ps && e.msg.performative in QUESTIONS)
    && (forall m :: m in s.log.answered ==> m.sender.name in ps && m.performative in ANSWERS + RESULTS)
    && (Decided(s.ini.phase) ==> s.ini.accepted == Winners(s.log.selected, s.ini.proposals))
  }

  predicate Conversation(s: System, p: string)
    requires p in s.parts
  {
    PartOk(s, p) && MailOk(s, p) && Fits(TalkOf(s, p))
  }

  ghost predicate Inv(s: System) {
    && Setup(s) && Counters(s) && Senders(s)
    && forall p :: p in s.parts ==> Conversation(s, p)
  }

  /** The full invariant. */
  ghost predicate Sound(s: System) {
    Inv(s) && Trail(s)
  }

  lemma StartInv(name: string, cfp: Message, participants: seq<string>)
    requires Distinct(participants) && name !in participants && cfp.performative == Cfp
    ensures Sound(Start(name, cfp, participants))
  {
    var s := Start(name, cfp, participants);
    forall p | p in s.parts ensures Conversation(s, p) {
      assert Before(TalkOf(s, p));
    }
  }

  // ----- a participant's move -----

  /** What the participant sends goes to the initiator. */
  lemma AnswersGoHome(s: System, who: string, reply: Message)
    requires who in s.parts && PartOk(s, who) && MailOk(s, who)
    ensures var p, got := s.parts[who], Front(s.bus, who);
      ParticipantSends(p, got, reply) ==
        if Prepares(p, got) || Executes(p, got)
        then [Envelope(s.ini.name, Answer(p, got.value, reply))] else []
    ensures Front(s.bus, who).Some? ==>
      var m := Front(s.bus, who).value; m.conversationId == s.ini.convId && m.sender.name == s.ini.name
  {
    var got := Front(s.bus, who);
    if got.Some? {
      assert got.value in Queue(s.bus, who);
    }
  }

  /** The three kinds of queue after a participant's move. */
  lemma ParticipantQueues(s: System, who: string, reply: Message, p: string)
    requires who in s.parts && PartOk(s, who) && MailOk(s, who) && who != s.ini.name
    ensures var bus' := ParticipantBus(s.parts[who], s.bus, reply);
      Queue(bus', p) ==
        if p == s.ini.name then Queue(s.bus, p) + Mails(ParticipantSends(s.parts[who], Front(s.bus, who), reply))
        else if p == who && Queue(s.bus, who) != [] then Queue(s.bus, who)[1..]
        else Queue(s.bus, p)
  {
    AnswersGoHome(s, who, reply);
    var sends := ParticipantSends(s.parts[who], Front(s.bus, who), reply);
    SendAllQueue(Polled(s.bus, who), sends, p);
    if sends != [] {
      assert sends == [sends[0]];
      assert sends[1..] == [];
    }
    assert Queue(s.bus, p) + [] == Queue(s.bus, p);
  }

  lemma PerformativesTail(q: seq<Message>)
    requires q != []
    ensures Performatives(q) == [q[0].performative] + Performatives(q[1..])
  {
  }

  lemma SilentTalk(s: System, who: string, reply: Message)
    requires Inv(s) && Enabled(s, Participate(who, reply))
    requires !Prepares(s.parts[who], Front(s.bus, who)) && !Executes(s.parts[who], Front(s.bus, who))
    ensures ParticipantMoves(TalkOf(s, who), TalkOf(Next(s, Participate(who, reply)), who), reply.performative)
  {
    hide Inv, Fits, ParticipantBus, ParticipantSends;
    ConversationParts(s, who);
    SetupParts(s, who);
    AnswersGoHome(s, who, reply);
    ParticipantQueues(s, who, reply, who);
    ParticipantQueues(s, who, reply, s.ini.name);
    if Queue(s.bus, who) != [] {
      PerformativesTail(Queue(s.bus, who));
    }
    AddNothing(Queue(s.bus, s.ini.name));
    AddNothing(s.log.answered);
    AddNothing(s.log.executed);
  }

  lemma SendingState(s: System, who: string, reply: Message)
    requires Inv(s) && Enabled(s, Participate(who, reply))
    requires Prepares(s.parts[who], Front(s.bus, who)) || Executes(s.parts[who], Front(s.bus, who))
    ensures var a, s' := Answer(s.parts[who], Front(s.bus, who).value, reply), Next(s, Participate(who, reply));
      && s'.ini == s.ini
      && s'.parts == s.parts[who := ParticipantNext(s.parts[who], Front(s.bus, who), reply)]
      && Queue(s'.bus, s.ini.name) == Queue(s.bus, s.ini.name) + [a]
      && Queue(s'.bus, who) == Queue(s.bus, who)[1..]
      && s'.log == s.log.(answered := s.log.answered + [a],
           executed := if s.parts[who].deciding then s.log.executed + [a] else s.log.executed)
  {
    hide Inv, ParticipantBus, ParticipantSends, ParticipantNext, MailOk;
    ConversationParts(s, who);
    SetupParts(s, who);
    AnswersGoHome(s, who, reply);
    ParticipantQueues(s, who, reply, who);
    ParticipantQueues(s, who, reply, s.ini.name);
    var a := Answer(s.parts[who], Front(s.bus, who).value, reply);
    assert Mails([Envelope(s.ini.name, a)]) == [a];
    AddNothing(s.log.executed);
  }

  lemma SendingTalk(s: System, who: string, reply: Message)
    requires Inv(s) && Enabled(s, Participate(who, reply))
    requires Prepares(s.parts[who], Front(s.bus, who)) || Executes(s.parts[who], Front(s.bus, who))
    ensures ParticipantMoves(TalkOf(s, who), TalkOf(Next(s, Participate(who, reply)), who), reply.performative)
  {
    hide Inv, Fits, Next, Count, CountTo, Performatives, MailOk;
    SendingState(s, who, reply);
    PerformativesTail(Queue(s.bus, who));
    ConversationParts(s, who);
    var a := Answer(s.parts[who], Front(s.bus, who).value, reply);
    CountOneAll(Queue(s.bus, s.ini.name), a, who);
    CountOneAll(s.log.answered, a, who);
    CountOneAll(s.log.executed, a, who);
  }

  /** The moving participant's own conversation. */
  lemma OwnTalk(s: System, who: string, reply: Message)
    requires Inv(s) && Enabled(s, Participate(who, reply))
    ensures who in Next(s, Participate(who, reply)).parts && !TalkOf(s, who).done
    ensures ParticipantMoves(TalkOf(s, who), TalkOf(Next(s, Participate(who, reply)), who), reply.performative)
  {
    hide Fits, Inv, ParticipantMoves, TalkOf, Prepares, Executes;
    if Prepares(s.parts[who], Front(s.bus, who)) || Executes(s.parts[who], Front(s.bus, who)) {
      SendingTalk(s, who, reply);
    } else {
      SilentTalk(s, who, reply);
    }
    TalkDone(s, who);
  }

  lemma ParticipantTalks(s: System, who: string, reply: Message)
    requires Inv(s) && Enabled(s, Participate(who, reply))
    ensures Fits(TalkOf(Next(s, Participate(who, reply)), who))
  {
    hide Fits, Inv, Next, ParticipantMoves, TalkOf;
    ConversationParts(s, who);
    OwnTalk(s, who, reply);
    LocalParticipant(TalkOf(s, who), TalkOf(Next(s, Participate(who, reply)), who), reply.performative);
  }

  lemma TalkDone(s: System, p: string)
    requires p in s.parts
    ensures TalkOf(s, p).done == s.parts[p].done
  {
  }

  lemma AddNothing(q: seq<Message>)
    ensures q + [] == q
  {
  }

  lemma ConversationParts(s: System, p: string)
    requires Inv(s) && p in s.parts
    ensures PartOk(s, p) && MailOk(s, p) && Fits(TalkOf(s, p))
  {
    hide PartOk, MailOk, Fits;
    assert Conversation(s, p);
  }

  lemma SetupParts(s: System, p: string)
    requires Inv(s) && p in s.parts
    ensures p in s.ini.participants && p != s.ini.name
  {
  }

  lemma CountOneAll(q: seq<Message>, m: Message, p: string)
    ensures Count(q + [m], p, PROPOSALS) == Count(q, p, PROPOSALS) + (if m.sender.name == p && m.performative == Propose then 1 else 0)
    ensures Count(q + [m], p, REFUSALS) == Count(q, p, REFUSALS) + (if m.sender.name == p && m.performative == Refuse then 1 else 0)
    ensures Count(q + [m], p, ANSWERS) == Count(q, p, ANSWERS) + (if m.sender.name == p && m.performative in ANSWERS then 1 else 0)
    ensures Count(q + [m], p, RESULTS) == Count(q, p, RESULTS) + (if m.sender.name == p && m.performative in RESULTS then 1 else 0)
  {
    CountOne(q, m, p, PROPOSALS);
    CountOne(q, m, p, REFUSALS);
    CountOne(q, m, p, ANSWERS);
    CountOne(q, m, p, RESULTS);
  }

  /** How one action of the participant changes the numbers. */
  predicate ParticipantMoves(t: Talk, t': Talk, k: Performative) {
    if t.mail == [] then t' == t.(done := true)
    else
      var u := t.(mail := t.mail[1..]);
      if !t.deciding then
        if t.mail[0] != Cfp then t' == u
        else if k == Refuse then t' == u.(refuses := t.refuses + 1, answers := t.answers + 1, done := true)
        else t' == u.(proposes := t.proposes + 1, answers := t.answers + 1, deciding := true)
      else
        if t.mail[0] == AcceptProposal then
          t' == u.(outcomes := t.outcomes + 1, executed := t.executed + 1, reports := t.reports + 1, done := true)
        else if t.mail[0] == RejectProposal then t' == u.(done := true)
        else t' == u
  }

  lemma LocalParticipant(t: Talk, t': Talk, k: Performative)
    requires Fits(t) && !t.done && ParticipantMoves(t, t', k)
    ensures Fits(t')
  {
  }

  /** Both kinds of participant move at once: at most one message to the initiator. */
  lemma MoveState(s: System, who: string, reply: Message) returns (sent: seq<Message>)
    requires Inv(s) && Enabled(s, Participate(who, reply))
    ensures |sent| <= 1
    ensures forall m :: m in sent ==> m.sender.name == who && m.conversationId == s.ini.convId && m.performative in ANSWERS + RESULTS
    ensures s.ini.phase == SendingCfp ==> sent == []
    ensures var s' := Next(s, Participate(who, reply));
      && s'.ini == s.ini
      && s'.parts == s.parts[who := ParticipantNext(s.parts[who], Front(s.bus, who), reply)]
      && Queue(s'.bus, s.ini.name) == Queue(s.bus, s.ini.name) + sent
      && (forall p :: p != who && p != s.ini.name ==> Queue(s'.bus, p) == Queue(s.bus, p))
      && (forall m :: m in Queue(s'.bus, who) ==> m in Queue(s.bus, who))
      && s'.log.(answered := [], executed := []) == s.log.(answered := [], executed := [])
      && s'.log.answered == s.log.answered + sent
      && (s'.log.executed == s.log.executed || s'.log.executed == s.log.executed + sent)
  {
    hide Inv, Fits, ParticipantBus, ParticipantSends, ParticipantNext;
    var s' := Next(s, Participate(who, reply));
    ConversationParts(s, who);
    SetupParts(s, who);
    AnswersGoHome(s, who, reply);
    var p, got := s.parts[who], Front(s.bus, who);
    sent := if Prepares(p, got) || Executes(p, got) then [Answer(p, got.value, reply)] else [];
    if sent != [] {
      assert Mails([Envelope(s.ini.name, sent[0])]) == sent;
    }
    forall q ensures
      Queue(s'.bus, q) ==
        if q == s.ini.name then Queue(s.bus, q) + sent
        else if q == who && Queue(s.bus, who) != [] then Queue(s.bus, who)[1..]
        else Queue(s.bus, q)
    {
      ParticipantQueues(s, who, reply, q);
    }
    AddNothing(s.log.executed);
    if s.ini.phase == SendingCfp {
      QuietBefore(s, who);
    }
  }

  lemma QuietBefore(s: System, p: string)
    requires p in s.parts && Fits(TalkOf(s, p)) && s.ini.phase == SendingCfp
    ensures Queue(s.bus, p) == []
  {
    hide Count, CountTo;
    assert Before(TalkOf(s, p));
    assert |Performatives(Queue(s.bus, p))| == 0;
  }

  lemma CountForeign(q: seq<Message>, sent: seq<Message>, p: string, kinds: set<Performative>)
    requires |sent| <= 1 && forall m :: m in sent ==> m.sender.name != p
    ensures Count(q + sent, p, kinds) == Count(q, p, kinds)
  {
    if sent == [] {
      AddNothing(q);
    } else {
      assert sent == [sent[0]] && sent[0] in sent;
      CountOne(q, sent[0], p, kinds);
    }
  }

  /** The conversations of the other participants do not notice. */
  lemma OtherTalks(s: System, who: string, reply: Message, p: string)
    requires Inv(s) && Enabled(s, Participate(who, reply)) && p in s.parts && p != who
    ensures p in Next(s, Participate(who, reply)).parts
    ensures TalkOf(Next(s, Participate(who, reply)), p) == TalkOf(s, p)
  {
    hide Inv, Fits, Next, Count, CountTo, Performatives, ParticipantNext;
    var sent := MoveState(s, who, reply);
    SetupParts(s, p);
    var inbox := Queue(s.bus, s.ini.name);
    CountForeign(inbox, sent, p, PROPOSALS);
    CountForeign(inbox, sent, p, REFUSALS);
    CountForeign(inbox, sent, p, RESULTS);
    CountForeign(s.log.answered, sent, p, ANSWERS);
    CountForeign(s.log.answered, sent, p, RESULTS);
    CountForeign(s.log.executed, sent, p, RESULTS);
  }

  lemma ParticipantOthers(s: System, who: string, reply: Message, p: string)
    requires Inv(s) && Enabled(s, Participate(who, reply)) && p in s.parts && p != who
    ensures Conversation(Next(s, Participate(who, reply)), p)
  {
    hide Inv, Fits, Next, TalkOf, ParticipantNext;
    var sent := MoveState(s, who, reply);
    ConversationParts(s, p);
    SetupParts(s, p);
    OtherTalks(s, who, reply, p);
  }

  lemma ParticipantSelf(s: System, who: string, reply: Message)
    requires Inv(s) && Enabled(s, Participate(who, reply))
    ensures Conversation(Next(s, Participate(who, reply)), who)
  {
    hide Inv, Fits, Next, TalkOf;
    var sent := MoveState(s, who, reply);
    ConversationParts(s, who);
    SetupParts(s, who);
    ParticipantTalks(s, who, reply);
    AnswersGoHome(s, who, reply);
  }

  lemma InvGlobal(s: System)
    requires Inv(s)
    ensures Setup(s) && Counters(s) && Senders(s)
  {
    hide Setup, Counters, Senders, Conversation;
  }

  lemma ParticipantKeepsGlobal(s: System, who: string, reply: Message)
    requires Inv(s) && Enabled(s, Participate(who, reply))
    ensures var s' := Next(s, Participate(who, reply)); Setup(s') && Counters(s') && Senders(s')
  {
    hide Inv, Fits, Next, TalkOf, ParticipantNext;
    var sent := MoveState(s, who, reply);
    SetupParts(s, who);
    InvGlobal(s);
    AddNothing(Queue(s.bus, s.ini.name));
  }

  lemma ParticipantKeepsInv(s: System, who: string, reply: Message)
    requires Inv(s) && Enabled(s, Participate(who, reply))
    ensures Inv(Next(s, Participate(who, reply)))
  {
    hide Next, Conversation, Setup, Counters, Senders;
    var s' := Next(s, Participate(who, reply));
    var sent := MoveState(s, who, reply);
    ParticipantKeepsGlobal(s, who, reply);
    forall p | p in s'.parts ensures Conversation(s', p) {
      if p == who {
        ParticipantSelf(s, who, reply);
      } else {
        ParticipantOthers(s, who, reply, p);
      }
    }
  }

  // ----- the initiator's move: sending the CFPs -----

  lemma CountToAppend(es: seq<Envelope>, e: Envelope, p: string, kinds: set<Performative>)
    ensures CountTo(es + [e], p, kinds) ==
      CountTo(es, p, kinds) + (if e.to == p && e.msg.performative in kinds then 1 else 0)
  {
    CountToConcat(es, [e], p, kinds);
    assert [e][1..] == [];
  }

  lemma CfpMail(cfp: Message, ps: seq<string>, p: string, kinds: set<Performative>)
    requires Distinct(ps)
    ensures Mail(Cfps(cfp, ps), p) == if p in ps then [cfp] else []
    ensures CountTo(Cfps(cfp, ps), p, kinds) == if p in ps && cfp.performative in kinds then 1 else 0
  {
    if ps != [] {
      hide Mail, CountTo;
      var n := |ps| - 1;
      CfpMail(cfp, ps[..n], p, kinds);
      MailAppend(Cfps(cfp, ps[..n]), Envelope(ps[n], cfp), p);
      CountToAppend(Cfps(cfp, ps[..n]), Envelope(ps[n], cfp), p, kinds);
      assert ps == ps[..n] + [ps[n]];
      assert p in ps <==> p in ps[..n] || p == ps[n];
    }
  }

  /** The bus and the log after an action that polls nothing. */
  lemma SendState(s: System, at: Moment, p: string)
    requires !Polls(s.ini, at) && !s.ini.done
    ensures var s' := Next(s, Initiate(at));
      && Queue(s'.bus, p) == Queue(s.bus, p) + Mail(Sends(s.ini, at), p)
      && s'.log == s.log.(asked := s.log.asked + Sends(s.ini, at),
           selected := if s.ini.phase == HandlingProposals then at.selected else s.log.selected)
      && s'.parts == s.parts
      && s'.ini == InitiatorNext(s.ini, None, at)
  {
    hide InitiatorNext, Sends;
    SendAllQueue(s.bus, Sends(s.ini, at), p);
  }

  lemma LocalCfp(t: Talk)
    requires Fits(t) && t.phase == SendingCfp
    ensures t.mail == [] && !t.deciding
    ensures Fits(t.(phase := WaitingProposals, mail := [Cfp], cfps := t.cfps + 1))
  {
  }

  lemma CfpState(s: System, at: Moment, p: string)
    requires Inv(s) && s.ini.phase == SendingCfp && !s.ini.done && p in s.parts
    ensures var s' := Next(s, Initiate(at));
      && Queue(s'.bus, p) == [CfpToSend(s.ini, at)]
      && Queue(s'.bus, s.ini.name) == Queue(s.bus, s.ini.name)
      && s'.log == s.log.(asked := s.log.asked + Cfps(CfpToSend(s.ini, at), s.ini.participants))
      && s'.parts == s.parts
      && s'.ini == s.ini.(cfp := CfpToSend(s.ini, at), convId := ConvId(s.ini, at), responded := 0, phase := WaitingProposals)
  {
    hide Inv, Next, Fits, TalkOf, Mail;
    ConversationParts(s, p);
    SetupParts(s, p);
    InvGlobal(s);
    var cfp, ps := CfpToSend(s.ini, at), s.ini.participants;
    SendState(s, at, p);
    SendState(s, at, s.ini.name);
    CfpMail(cfp, ps, s.ini.name, {Cfp});
    CfpMail(cfp, ps, p, {Cfp});
    QuietBefore(s, p);
    AddNothing(Queue(s.bus, s.ini.name));
  }

  lemma CfpTalk(s: System, at: Moment, p: string)
    requires Inv(s) && s.ini.phase == SendingCfp && !s.ini.done && p in s.parts
    ensures p in Next(s, Initiate(at)).parts
    ensures TalkOf(Next(s, Initiate(at)), p)
         == TalkOf(s, p).(phase := WaitingProposals, mail := [Cfp], cfps := TalkOf(s, p).cfps + 1)
  {
    hide Inv, Next, Fits, Count, CountTo, CfpToSend, Cfps;
    ConversationParts(s, p);
    SetupParts(s, p);
    CfpState(s, at, p);
    var cfp, ps := CfpToSend(s.ini, at), s.ini.participants;
    assert cfp.performative == Cfp by {
      InvGlobal(s);
      CfpFields(s.ini, at);
    }
    assert Distinct(ps) by { InvGlobal(s); }
    CfpMail(cfp, ps, p, {Cfp});
    CfpMail(cfp, ps, p, {AcceptProposal});
    CfpMail(cfp, ps, p, {RejectProposal});
    CountToConcat(s.log.asked, Cfps(cfp, ps), p, {Cfp});
    CountToConcat(s.log.asked, Cfps(cfp, ps), p, {AcceptProposal});
    CountToConcat(s.log.asked, Cfps(cfp, ps), p, {RejectProposal});
    assert Performatives([cfp]) == [Cfp];
  }

  lemma CfpConversation(s: System, at: Moment, p: string)
    requires Inv(s) && s.ini.phase == SendingCfp && !s.ini.done && p in s.parts
    ensures p in Next(s, Initiate(at)).parts && Conversation(Next(s, Initiate(at)), p)
  {
    hide Inv, Next, Fits, TalkOf, CfpToSend, Cfps;
    ConversationParts(s, p);
    SetupParts(s, p);
    TalkPhase(s, p);
    LocalCfp(TalkOf(s, p));
    CfpTalk(s, at, p);
    CfpState(s, at, p);
    InvGlobal(s);
    CfpFields(s.ini, at);
    NotDeciding(s, p);
  }

  lemma NotDeciding(s: System, p: string)
    requires p in s.parts && Fits(TalkOf(s, p)) && s.ini.phase == SendingCfp
    ensures !s.parts[p].deciding
  {
    hide Count, CountTo;
    assert Before(TalkOf(s, p));
  }

  lemma CfpFields(i: Initiator, at: Moment)
    requires i.cfp.performative == Cfp
    ensures var cfp := CfpToSend(i, at);
      cfp.performative == Cfp && cfp.sender.name == i.name && cfp.conversationId == ConvId(i, at)
  {
  }

  lemma CfpGlobal(s: System, at: Moment)
    requires Inv(s) && s.ini.phase == SendingCfp && !s.ini.done
    ensures var s' := Next(s, Initiate(at)); Setup(s') && Counters(s') && Senders(s')
  {
    hide Inv, Next, Count, CountTo, TalkOf, Mail;
    InvGlobal(s);
    SendState(s, at, s.ini.name);
    CfpMail(CfpToSend(s.ini, at), s.ini.participants, s.ini.name, {});
    AddNothing(Queue(s.bus, s.ini.name));
    assert |s.ini.proposals| == 0 && |s.log.refusals| == 0;
  }

  lemma InvFromParts(s: System)
    requires Setup(s) && Counters(s) && Senders(s)
    requires forall p :: p in s.parts ==> Conversation(s, p)
    ensures Inv(s)
  {
    hide Setup, Counters, Senders, Conversation;
  }

  lemma CfpKeepsInv(s: System, at: Moment)
    requires Inv(s) && s.ini.phase == SendingCfp && !s.ini.done
    ensures Inv(Next(s, Initiate(at)))
  {
    hide Inv, Next, Conversation, Setup, Counters, Senders;
    SendState(s, at, s.ini.name);
    CfpGlobal(s, at);
    var s' := Next(s, Initiate(at));
    forall p | p in s'.parts ensures Conversation(s', p) {
      CfpConversation(s, at, p);
    }
    InvFromParts(s');
  }

  // ----- the initiator's move: the phase changes and nothing else -----

  predicate Advances(a: Phase, b: Phase) {
    a == b || (a == WaitingProposals && b == HandlingProposals) || (a == WaitingResults && b == Finished)
  }

  lemma LocalAdvance(t: Talk, phase: Phase)
    requires Fits(t) && Advances(t.phase, phase)
    ensures Fits(t.(phase := phase))
  {
  }

  lemma AdvanceKeepsInv(s: System, s': System)
    requires Inv(s) && Advances(s.ini.phase, s'.ini.phase)
    requires s'.ini == s.ini.(phase := s'.ini.phase, done := s'.ini.done) && s' == s.(ini := s'.ini)
    ensures Inv(s')
  {
    hide Inv, Fits, Performatives, Count, CountTo;
    InvGlobal(s);
    forall p | p in s'.parts ensures Conversation(s', p) {
      ConversationParts(s, p);
      LocalAdvance(TalkOf(s, p), s'.ini.phase);
      assert TalkOf(s', p) == TalkOf(s, p).(phase := s'.ini.phase);
    }
    InvFromParts(s');
  }

  lemma IdleKeepsInv(s: System, at: Moment)
    requires Inv(s) && !s.ini.done && !Polls(s.ini, at)
    requires s.ini.phase == WaitingProposals || s.ini.phase == WaitingResults || s.ini.phase == Finished
    ensures Inv(Next(s, Initiate(at)))
  {
    hide Inv;
    var s' := Next(s, Initiate(at));
    assert s.log.asked + [] == s.log.asked;
    AdvanceKeepsInv(s, s');
  }

  // ----- the initiator's move: taking a message -----

  /** How taking a message of kind k changes the numbers of its sender. */
  predicate Takes(t: Talk, t': Talk, k: Performative) {
    if k == Propose then
      t.proposes >= 1 && t' == (if t.phase == WaitingProposals
        then t.(proposes := t.proposes - 1, recorded := t.recorded + 1)
        else t.(proposes := t.proposes - 1, late := t.late + 1))
    else if k == Refuse then
      t.refuses >= 1 && t' == (if t.phase == WaitingProposals
        then t.(refuses := t.refuses - 1, refused := t.refused + 1)
        else t.(refuses := t.refuses - 1, late := t.late + 1))
    else
      t.outcomes >= 1 && t' == (if t.phase == WaitingProposals
        then t.(outcomes := t.outcomes - 1)
        else t.(outcomes := t.outcomes - 1, handled := t.handled + 1))
  }

  lemma LocalTakes(t: Talk, t': Talk, k: Performative)
    requires Fits(t) && (t.phase == WaitingProposals || t.phase == WaitingResults) && Takes(t, t', k)
    ensures Fits(t')
    ensures t.phase == WaitingProposals ==> k == Propose || k == Refuse || k !in RESULTS
  {
  }

  /** The message the initiator takes, and the state with the message taken but the
      phase not yet changed. */
  function Taken(s: System, m: Message): System {
    var i := s.ini;
    var note := NoteOf(i, Some(m));
    var i' := match note
      case Recorded(_) => i.(proposals := i.proposals + [m], responded := i.responded + 1)
      case HandleRefuse(_) => i.(responded := i.responded + 1)
      case HandleInform(_) => i.(pending := i.pending - 1)
      case HandleFailure(_) => i.(pending := i.pending - 1)
      case _ => i;
    s.(ini := i', bus := Polled(s.bus, i.name), log := Noted(s.log, note))
  }

  lemma TakenThenAdvance(s: System, at: Moment)
    requires !s.ini.done && Polls(s.ini, at) && Front(s.bus, s.ini.name).Some?
    ensures var s', u := Next(s, Initiate(at)), Taken(s, Front(s.bus, s.ini.name).value);
      && s'.ini == u.ini.(phase := s'.ini.phase) && s' == u.(ini := s'.ini)
      && Advances(u.ini.phase, s'.ini.phase)
  {
    assert s.log.asked + [] == s.log.asked;
  }

  lemma Heads(s: System)
    requires Inv(s) && Front(s.bus, s.ini.name).Some?
    ensures var m := Front(s.bus, s.ini.name).value;
      m in Queue(s.bus, s.ini.name) && m.sender.name in s.parts && m.conversationId == s.ini.convId
      && m.performative in ANSWERS + RESULTS
  {
    hide Conversation;
    assert Front(s.bus, s.ini.name).value in Queue(s.bus, s.ini.name);
  }

  lemma CountHead(q: seq<Message>, p: string, kinds: set<Performative>)
    requires q != []
    ensures Count(q, p, kinds) == (if q[0].sender.name == p && q[0].performative in kinds then 1 else 0) + Count(q[1..], p, kinds)
  {
  }

  lemma TakenOther(s: System, m: Message, p: string)
    requires Inv(s) && Front(s.bus, s.ini.name) == Some(m) && p in s.parts && m.sender.name != p
    ensures TalkOf(Taken(s, m), p) == TalkOf(s, p)
  {
    hide Inv, Count, CountTo, Performatives;
    SetupParts(s, p);
    var inbox := Queue(s.bus, s.ini.name);
    CountHead(inbox, p, PROPOSALS);
    CountHead(inbox, p, REFUSALS);
    CountHead(inbox, p, RESULTS);
    CountForeign(s.ini.proposals, [m], p, PROPOSALS);
    CountForeign(s.log.refusals, [m], p, REFUSALS);
    CountForeign(s.log.late, [m], p, ANSWERS);
    CountForeign(s.log.results, [m], p, RESULTS);
  }

  lemma TakenState(s: System, m: Message, p: string)
    requires Front(s.bus, s.ini.name) == Some(m) && p != s.ini.name
    requires m.conversationId == s.ini.convId && m.performative in ANSWERS + RESULTS
    requires s.ini.phase == WaitingProposals || s.ini.phase == WaitingResults
    ensures var u, inbox := Taken(s, m), Queue(s.bus, s.ini.name);
      && inbox != [] && inbox[0] == m
      && Queue(u.bus, s.ini.name) == inbox[1..] && Queue(u.bus, p) == Queue(s.bus, p)
      && u.parts == s.parts
    ensures var u, inbox := Taken(s, m), Queue(s.bus, s.ini.name);
      if s.ini.phase == WaitingProposals then
        if m.performative == Propose then
          u.ini == s.ini.(proposals := s.ini.proposals + [m], responded := s.ini.responded + 1) && u.log == s.log
        else if m.performative == Refuse then
          u.ini == s.ini.(responded := s.ini.responded + 1) && u.log == s.log.(refusals := s.log.refusals + [m])
        else u.ini == s.ini && u.log == s.log.(late := s.log.late + [m])
      else if m.performative in RESULTS then
        u.ini == s.ini.(pending := s.ini.pending - 1) && u.log == s.log.(results := s.log.results + [m])
      else u.ini == s.ini && u.log == s.log.(late := s.log.late + [m])
  {
  }

  lemma TakenTalk(s: System, m: Message)
    requires Front(s.bus, s.ini.name) == Some(m) && m.sender.name in s.parts && m.sender.name != s.ini.name
    requires m.conversationId == s.ini.convId && m.performative in ANSWERS + RESULTS
    requires s.ini.phase == WaitingProposals || s.ini.phase == WaitingResults
    ensures m.sender.name in Taken(s, m).parts
    ensures Takes(TalkOf(s, m.sender.name), TalkOf(Taken(s, m), m.sender.name), m.performative)
  {
    hide Count, CountTo, Performatives, Taken, Queue, Front;
    var p := m.sender.name;
    TakenState(s, m, p);
    CountHeads(Queue(s.bus, s.ini.name), p);
    if s.ini.phase == WaitingProposals {
      CountOneAll(s.ini.proposals, m, p);
      CountOneAll(s.log.refusals, m, p);
    } else {
      CountOneAll(s.log.results, m, p);
    }
    CountOneAll(s.log.late, m, p);
    var t, t' := TalkOf(s, p), TalkOf(Taken(s, m), p);
    if m.performative == Propose {
      assert t' == if s.ini.phase == WaitingProposals
        then t.(proposes := t.proposes - 1, recorded := t.recorded + 1)
        else t.(proposes := t.proposes - 1, late := t.late + 1);
    } else if m.performative == Refuse {
      assert t' == if s.ini.phase == WaitingProposals
        then t.(refuses := t.refuses - 1, refused := t.refused + 1)
        else t.(refuses := t.refuses - 1, late := t.late + 1);
    } else {
      assert m.performative in RESULTS;
    }
  }

  lemma CountHeads(q: seq<Message>, p: string)
    requires q != []
    ensures Count(q, p, PROPOSALS) == Count(q[1..], p, PROPOSALS) + (if q[0].sender.name == p && q[0].performative == Propose then 1 else 0)
    ensures Count(q, p, REFUSALS) == Count(q[1..], p, REFUSALS) + (if q[0].sender.name == p && q[0].performative == Refuse then 1 else 0)
    ensures Count(q, p, RESULTS) == Count(q[1..], p, RESULTS) + (if q[0].sender.name == p && q[0].performative in RESULTS then 1 else 0)
  {
  }

  lemma TakenOwn(s: System, m: Message)
    requires Inv(s) && Front(s.bus, s.ini.name) == Some(m)
    requires s.ini.phase == WaitingProposals || s.ini.phase == WaitingResults
    ensures m.sender.name in s.parts
    ensures Fits(TalkOf(Taken(s, m), m.sender.name))
    ensures s.ini.phase == WaitingProposals ==> m.performative == Propose || m.performative == Refuse
  {
    hide Inv, Fits, Takes, Taken, Count, CountTo, Performatives;
    Heads(s);
    var p := m.sender.name;
    ConversationParts(s, p);
    SetupParts(s, p);
    TakenTalk(s, m);
    if s.ini.phase == WaitingProposals && m.performative in RESULTS {
      TakesResult(TalkOf(s, p), TalkOf(Taken(s, m), p), m.performative);
      NoEarlyResults(TalkOf(s, p));
    }
    LocalTakes(TalkOf(s, p), TalkOf(Taken(s, m), p), m.performative);
  }

  lemma TakesResult(t: Talk, t': Talk, k: Performative)
    requires Takes(t, t', k) && k in RESULTS
    ensures t.outcomes >= 1
  {
  }

  lemma NoEarlyResults(t: Talk)
    requires Fits(t) && t.phase == WaitingProposals
    ensures t.outcomes == 0
  {
  }

  lemma TakenGlobal(s: System, m: Message)
    requires Inv(s) && Front(s.bus, s.ini.name) == Some(m)
    requires s.ini.phase == WaitingProposals || s.ini.phase == WaitingResults
    ensures var u := Taken(s, m); Setup(u) && Counters(u) && Senders(u)
  {
    hide Inv, TalkOf, Conversation, Fits, Front, Senders, Taken;
    Heads(s);
    TakenOwn(s, m);
    InvGlobal(s);
    TakenSenders(s, m);
    TakenCounters(s, m);
  }

  lemma TakenCounters(s: System, m: Message)
    requires Setup(s) && Counters(s) && Front(s.bus, s.ini.name) == Some(m)
    requires s.ini.phase == WaitingProposals || s.ini.phase == WaitingResults
    requires m.conversationId == s.ini.convId && m.performative in ANSWERS + RESULTS
    requires s.ini.phase == WaitingProposals ==> m.performative == Propose || m.performative == Refuse
    ensures Setup(Taken(s, m)) && Counters(Taken(s, m))
  {
    hide Distinct;
  }

  lemma TakenSenders(s: System, m: Message)
    requires Setup(s) && Counters(s) && Senders(s) && Front(s.bus, s.ini.name) == Some(m)
    requires m in Queue(s.bus, s.ini.name)
    requires s.ini.phase == WaitingProposals ==> m.performative == Propose || m.performative == Refuse
    requires s.ini.phase == WaitingProposals || s.ini.phase == WaitingResults
    ensures Senders(Taken(s, m))
  {
  }

  lemma TakenKeepsInv(s: System, m: Message)
    requires Inv(s) && Front(s.bus, s.ini.name) == Some(m)
    requires s.ini.phase == WaitingProposals || s.ini.phase == WaitingResults
    ensures Inv(Taken(s, m))
  {
    hide Inv, TalkOf, Fits, Setup, Counters, Senders;
    var u := Taken(s, m);
    TakenGlobal(s, m);
    TakenOwn(s, m);
    forall p | p in u.parts ensures Conversation(u, p) {
      ConversationParts(s, p);
      SetupParts(s, p);
      if m.sender.name != p {
        TakenOther(s, m, p);
      }
    }
    InvFromParts(u);
  }

  lemma PollKeepsInv(s: System, at: Moment)
    requires Inv(s) && !s.ini.done && Polls(s.ini, at)
    ensures Inv(Next(s, Initiate(at)))
  {
    hide Inv;
    var got := Front(s.bus, s.ini.name);
    if got.None? {
      assert s.log.asked + [] == s.log.asked;
      AdvanceKeepsInv(s, Next(s, Initiate(at)));
    } else {
      hide Next;
      TakenKeepsInv(s, got.value);
      TakenThenAdvance(s, at);
      AdvanceKeepsInv(Taken(s, got.value), Next(s, Initiate(at)));
    }
  }

  // ----- the initiator's move: the verdicts -----

  function VerdictKind(p: string, selected: seq<string>): Performative {
    if p in selected then AcceptProposal else RejectProposal
  }

  /** Each proposer gets one verdict a proposal, the same each time, and is a winner
      as often as it is accepted. */
  lemma VerdictMail(name: string, selected: seq<string>, proposals: seq<Message>, p: string, conv: string)
    requires forall m :: m in proposals ==> m.performative == Propose && m.conversationId == conv
    ensures |Mail(Verdicts(name, selected, proposals), p)| == Count(proposals, p, PROPOSALS)
    ensures forall m :: m in Mail(Verdicts(name, selected, proposals), p) ==>
      m.performative == VerdictKind(p, selected) && m.sender.name == name && m.conversationId == conv
    ensures multiset(Winners(selected, proposals))[p] == if p in selected then Count(proposals, p, PROPOSALS) else 0
  {
    if proposals != [] {
      hide Mail, Count;
      var n := |proposals| - 1;
      var last := proposals[n];
      assert proposals == proposals[..n] + [last];
      VerdictMail(name, selected, proposals[..n], p, conv);
      MailAppend(Verdicts(name, selected, proposals[..n]), Verdict(name, selected, last), p);
      CountOne(proposals[..n], last, p, PROPOSALS);
    } else {
      assert Verdicts(name, selected, proposals) == [];
    }
  }

  lemma VerdictCounts(name: string, selected: seq<string>, proposals: seq<Message>, p: string, kinds: set<Performative>)
    requires forall m :: m in proposals ==> m.performative == Propose
    ensures CountTo(Verdicts(name, selected, proposals), p, kinds)
         == if VerdictKind(p, selected) in kinds then Count(proposals, p, PROPOSALS) else 0
  {
    if proposals != [] {
      hide CountTo, Count;
      var n := |proposals| - 1;
      var last := proposals[n];
      assert proposals == proposals[..n] + [last];
      VerdictCounts(name, selected, proposals[..n], p, kinds);
      CountToAppend(Verdicts(name, selected, proposals[..n]), Verdict(name, selected, last), p, kinds);
      CountOne(proposals[..n], last, p, PROPOSALS);
    } else {
      assert Verdicts(name, selected, proposals) == [];
    }
  }

  lemma WinnersPropose(selected: seq<string>, proposals: seq<Message>)
    ensures forall a :: a in Winners(selected, proposals) ==>
      a in selected && exists i :: 0 <= i < |proposals| && proposals[i].sender.name == a
  {
    if proposals != [] {
      WinnersPropose(selected, proposals[..|proposals| - 1]);
    }
  }

  /** How the verdicts change the numbers of one conversation. */
  predicate Judged(t: Talk, t': Talk, phase: Phase, k: Performative) {
    if t.recorded == 0 then t' == t.(phase := phase)
    else if k == AcceptProposal then
      t' == t.(phase := phase, mail := t.mail + [AcceptProposal], won := t.won + 1, accepts := t.accepts + 1)
    else
      t' == t.(phase := phase, mail := t.mail + [RejectProposal], rejects := t.rejects + 1)
  }

  lemma LocalJudged(t: Talk, t': Talk, phase: Phase, k: Performative)
    requires Fits(t) && t.phase == HandlingProposals && Decided(phase) && Judged(t, t', phase, k)
    ensures Fits(t')
  {
    if t.recorded == 0 {
      LocalPassedOver(t, phase);
    } else {
      OnceRecorded(t);
      hide Fits;
      assert if k == AcceptProposal then AcceptQueued(t') else RejectQueued(t');
    }
  }

  lemma LocalPassedOver(t: Talk, phase: Phase)
    requires Fits(t) && t.phase == HandlingProposals && Decided(phase) && t.recorded == 0
    ensures Fits(t.(phase := phase))
  {
  }

  lemma OnceRecorded(t: Talk)
    requires Fits(t)
    ensures t.recorded <= 1
    ensures t.phase == HandlingProposals && t.recorded == 1 ==> ProposalRecorded(t)
  {
  }

  /** The state after the verdicts, as seen from one conversation. */
  lemma DecideState(s: System, at: Moment, p: string)
    requires Inv(s) && s.ini.phase == HandlingProposals && !s.ini.done && p in s.parts
    ensures var s' := Next(s, Initiate(at));
      && s'.parts == s.parts
      && s'.ini == s.ini.(phase := s'.ini.phase, accepted := Winners(at.selected, s.ini.proposals), pending := s'.ini.pending)
      && Decided(s'.ini.phase) && s'.ini.pending == |s'.ini.accepted|
      && (s'.ini.phase == WaitingResults ==> s'.ini.accepted != [])
      && s'.log == s.log.(asked := s.log.asked + Verdicts(s.ini.name, at.selected, s.ini.proposals), selected := at.selected)
      && Queue(s'.bus, s.ini.name) == Queue(s.bus, s.ini.name)
      && Queue(s'.bus, p) == Queue(s.bus, p) + Mail(Verdicts(s.ini.name, at.selected, s.ini.proposals), p)
  {
    hide Inv, Next, TalkOf, Fits, Mail, Count, CountTo;
    InvGlobal(s);
    SendState(s, at, p);
    SendState(s, at, s.ini.name);
    VerdictMail(s.ini.name, at.selected, s.ini.proposals, s.ini.name, s.ini.convId);
    NoneFrom(s.ini.proposals, s.ini.name);
    AddNothing(Queue(s.bus, s.ini.name));
    assert [] + Winners(at.selected, s.ini.proposals) == Winners(at.selected, s.ini.proposals);
  }

  lemma NoneFrom(q: seq<Message>, p: string)
    requires forall m :: m in q ==> m.sender.name != p
    ensures Count(q, p, PROPOSALS) == 0
  {
    if q != [] {
      assert q[0] in q;
    }
  }

  lemma DecideTalk(s: System, at: Moment, p: string)
    requires Inv(s) && s.ini.phase == HandlingProposals && !s.ini.done && p in s.parts
    ensures var s' := Next(s, Initiate(at));
      p in s'.parts && Judged(TalkOf(s, p), TalkOf(s', p), s'.ini.phase, VerdictKind(p, at.selected))
  {
    hide Inv, Next, Fits, Mail, Count, CountTo, Verdicts, Winners, VerdictKind, Performatives;
    InvGlobal(s);
    ConversationParts(s, p);
    OnceRecorded(TalkOf(s, p));
    DecideState(s, at, p);
    var n, props := s.ini.name, s.ini.proposals;
    VerdictMail(n, at.selected, props, p, s.ini.convId);
    VerdictCounts(n, at.selected, props, p, {Cfp});
    VerdictCounts(n, at.selected, props, p, {AcceptProposal});
    VerdictCounts(n, at.selected, props, p, {RejectProposal});
    var vs := Verdicts(n, at.selected, props);
    CountToConcat(s.log.asked, vs, p, {Cfp});
    CountToConcat(s.log.asked, vs, p, {AcceptProposal});
    CountToConcat(s.log.asked, vs, p, {RejectProposal});
    VerdictKinds(p, at.selected);
    PerformativesAppend(Queue(s.bus, p), Mail(vs, p), VerdictKind(p, at.selected));
  }

  lemma VerdictKinds(p: string, selected: seq<string>)
    ensures VerdictKind(p, selected) == (if p in selected then AcceptProposal else RejectProposal)
  {
  }

  lemma PerformativesAppend(q: seq<Message>, mail: seq<Message>, k: Performative)
    requires |mail| <= 1 && forall m :: m in mail ==> m.performative == k
    ensures Performatives(q + mail) == Performatives(q) + (if mail == [] then [] else [k])
  {
    if mail != [] {
      assert mail[0] in mail;
    }
  }

  lemma DecideConversation(s: System, at: Moment, p: string)
    requires Inv(s) && s.ini.phase == HandlingProposals && !s.ini.done && p in s.parts
    ensures p in Next(s, Initiate(at)).parts && Conversation(Next(s, Initiate(at)), p)
  {
    hide Inv, Next, TalkOf, Fits, Judged, Verdicts;
    InvGlobal(s);
    ConversationParts(s, p);
    DecideState(s, at, p);
    DecideTalk(s, at, p);
    var s' := Next(s, Initiate(at));
    assert TalkOf(s, p).phase == HandlingProposals by { TalkPhase(s, p); }
    LocalJudged(TalkOf(s, p), TalkOf(s', p), s'.ini.phase, VerdictKind(p, at.selected));
    VerdictMail(s.ini.name, at.selected, s.ini.proposals, p, s.ini.convId);
  }

  lemma TalkPhase(s: System, p: string)
    requires p in s.parts
    ensures TalkOf(s, p).phase == s.ini.phase
  {
  }

  lemma DecideGlobal(s: System, at: Moment, p: string)
    requires Inv(s) && s.ini.phase == HandlingProposals && !s.ini.done && p in s.parts
    ensures var s' := Next(s, Initiate(at)); Setup(s') && Counters(s') && Senders(s')
  {
    hide Inv, Next, TalkOf, Verdicts, Mail;
    InvGlobal(s);
    DecideState(s, at, p);
    WinnersPropose(at.selected, s.ini.proposals);
  }

  /** With no participants there is nothing to decide. */
  lemma DecideAlone(s: System, at: Moment)
    requires Inv(s) && s.ini.phase == HandlingProposals && !s.ini.done && s.parts == map[]
    ensures Inv(Next(s, Initiate(at)))
  {
    hide Inv;
    assert s.ini.proposals == [] || s.ini.proposals[0] in s.ini.proposals;
    InvGlobal(s);
    assert s.log.asked + [] == s.log.asked;
    InvFromParts(Next(s, Initiate(at)));
  }

  lemma DecideKeepsInv(s: System, at: Moment)
    requires Inv(s) && s.ini.phase == HandlingProposals && !s.ini.done
    ensures Inv(Next(s, Initiate(at)))
  {
    hide Inv, Next, Conversation, Setup, Counters, Senders;
    var s' := Next(s, Initiate(at));
    SendState(s, at, s.ini.name);
    if s.parts == map[] {
      DecideAlone(s, at);
    } else {
      var one :| one in s.parts;
      DecideGlobal(s, at, one);
      forall p | p in s'.parts ensures Conversation(s', p) {
        DecideConversation(s, at, p);
      }
      InvFromParts(s');
    }
  }

  // ----- every run -----

  lemma NextKeepsInv(s: System, move: Move)
    requires Inv(s)
    ensures Inv(Next(s, move))
  {
    hide Inv;
    if Enabled(s, move) {
      match move {
        case Participate(who, reply) => ParticipantKeepsInv(s, who, reply);
        case Initiate(at) =>
          if s.ini.phase == SendingCfp {
            CfpKeepsInv(s, at);
          } else if s.ini.phase == HandlingProposals {
            DecideKeepsInv(s, at);
          } else if Polls(s.ini, at) {
            PollKeepsInv(s, at);
          } else {
            IdleKeepsInv(s, at);
          }
      }
    }
  }

  lemma CfpsAsked(cfp: Message, ps: seq<string>)
    ensures forall e :: e in Cfps(cfp, ps) ==> e.to in ps && e.msg == cfp
  {
    if ps != [] {
      CfpsAsked(cfp, ps[..|ps| - 1]);
    }
  }

  lemma VerdictsAsked(name: string, selected: seq<string>, proposals: seq<Message>, ps: seq<string>)
    requires forall m :: m in proposals ==> m.sender.name in ps
    ensures forall e :: e in Verdicts(name, selected, proposals) ==> e.to in ps && e.msg.performative in QUESTIONS
  {
    if proposals != [] {
      VerdictsAsked(name, selected, proposals[..|proposals| - 1], ps);
    }
  }

  lemma SendsAsked(s: System, at: Moment)
    requires Inv(s)
    ensures forall e :: e in Sends(s.ini, at) ==> e.to in s.ini.participants && e.msg.performative in QUESTIONS
  {
    hide Inv;
    InvGlobal(s);
    CfpsAsked(CfpToSend(s.ini, at), s.ini.participants);
    VerdictsAsked(s.ini.name, at.selected, s.ini.proposals, s.ini.participants);
  }

  lemma InitiatorKeepsTrail(s: System, at: Moment)
    requires Inv(s) && Trail(s) && !s.ini.done
    ensures Trail(Next(s, Initiate(at)))
  {
    hide Inv, Sends, InitiatorBus, NoteOf;
    SendsAsked(s, at);
    InvGlobal(s);
    hide Setup, Senders, Counters;
    var s' := Next(s, Initiate(at));
    assert s'.log.asked == s.log.asked + Sends(s.ini, at) && s'.log.answered == s.log.answered;
    if s.ini.phase == HandlingProposals {
      assert s.ini.accepted == [] by { InvGlobal(s); UndecidedEmpty(s); }
      assert [] + Winners(at.selected, s.ini.proposals) == Winners(at.selected, s.ini.proposals);
    }
  }

  lemma UndecidedEmpty(s: System)
    requires Counters(s) && !Decided(s.ini.phase)
    ensures s.ini.accepted == []
  {
  }

  lemma ParticipantKeepsTrail(s: System, who: string, reply: Message)
    requires Inv(s) && Trail(s) && Enabled(s, Participate(who, reply))
    ensures Trail(Next(s, Participate(who, reply)))
  {
    hide Inv, Next;
    var sent := MoveState(s, who, reply);
    SetupParts(s, who);
  }

  lemma NextKeepsSound(s: System, move: Move)
    requires Sound(s)
    ensures Sound(Next(s, move))
  {
    hide Inv, Trail;
    NextKeepsInv(s, move);
    if Enabled(s, move) {
      hide Next;
      match move {
        case Participate(who, reply) => ParticipantKeepsTrail(s, who, reply);
        case Initiate(at) => InitiatorKeepsTrail(s, at);
      }
    }
  }

  /** The invariant holds in every state of every run. */
  lemma {:induction false} PlayKeepsSound(s: System, moves: seq<Move>)
    requires Sound(s)
    ensures Sound(Play(s, moves))
  {
    hide Sound, Next;
    if moves != [] {
      PlayKeepsSound(s, moves[..|moves| - 1]);
      NextKeepsSound(Play(s, moves[..|moves| - 1]), moves[|moves| - 1]);
    }
  }
}
