/** The two behaviours of the FIPA Contract Net protocol (ContractNet.hpp): what one
    call of action() does, as a function of the state, of what the transport returns
    and of what the callbacks and the clock answer; and the classes that do it. */
module ContractNet {
  import opened Options
  import opened AclMessages
  import opened MessageBus
  import opened Counting

  // ----- the initiator -----

  datatype Phase = SendingCfp | WaitingProposals | HandlingProposals | WaitingResults | Finished

  datatype Initiator = Initiator(
    name: string,
    cfp: Message,
    participants: seq<string>,
    phase: Phase,
    done: bool,
    convId: string,
    proposals: seq<Message>,
    accepted: seq<string>,
    responded: int,
    pending: int)

  /** What the clock and selectProposals answer during one action. */
  datatype Moment = Moment(stamp: string, expired: bool, selected: seq<string>)

  /** What became of a message the initiator took from its queue. */
  datatype Note =
    | Silent
    | Recorded(msg: Message)
    | HandleRefuse(msg: Message)
    | HandleInform(msg: Message)
    | HandleFailure(msg: Message)
    | Ignored(msg: Message)

  function NewInitiator(name: string, cfp: Message, participants: seq<string>): Initiator {
    Initiator(name, cfp, participants, SendingCfp, false, "", [], [], 0, 0)
  }

  function ConvId(i: Initiator, at: Moment): string {
    "cnp-" + i.name + "-" + at.stamp
  }

  function CfpToSend(i: Initiator, at: Moment): Message {
    i.cfp.(conversationId := ConvId(i, at), sender := Named(i.name),
           replyWith := "cfp-" + ConvId(i, at), protocol := "fipa-contract-net")
  }

  function Cfps(cfp: Message, participants: seq<string>): seq<Envelope> {
    if participants == [] then []
    else Cfps(cfp, participants[..|participants| - 1]) + [Envelope(participants[|participants| - 1], cfp)]
  }

  /** The answer to one proposal. */
  function Verdict(name: string, selected: seq<string>, proposal: Message): Envelope {
    var p := proposal.sender.name;
    Envelope(p, CreateReply(proposal, if p in selected then AcceptProposal else RejectProposal).(sender := Named(name)))
  }

  function Verdicts(name: string, selected: seq<string>, proposals: seq<Message>): seq<Envelope> {
    if proposals == [] then []
    else Verdicts(name, selected, proposals[..|proposals| - 1]) + [Verdict(name, selected, proposals[|proposals| - 1])]
  }

  /** The proposers that were selected, one entry a proposal. */
  function Winners(selected: seq<string>, proposals: seq<Message>): seq<string> {
    if proposals == [] then []
    else
      var p := proposals[|proposals| - 1].sender.name;
      Winners(selected, proposals[..|proposals| - 1]) + (if p in selected then [p] else [])
  }

  /** Does this action take a message from the queue? */
  predicate Polls(i: Initiator, at: Moment) {
    || (i.phase == WaitingProposals && !at.expired && i.responded < |i.participants|)
    || (i.phase == WaitingResults && !at.expired && i.pending > 0)
  }

  function Seen(i: Initiator, bus: Queues<Message>, at: Moment): Option<Message> {
    if Polls(i, at) then Front(bus, i.name) else None
  }

  function NoteOf(i: Initiator, got: Option<Message>): Note {
    match got
    case None => Silent
    case Some(m) =>
      if m.conversationId != i.convId then Ignored(m)
      else if i.phase == WaitingProposals then
        if m.performative == Propose then Recorded(m)
        else if m.performative == Refuse || m.performative == NotUnderstood then HandleRefuse(m)
        else Ignored(m)
      else
        if m.performative == Inform then HandleInform(m)
        else if m.performative == Failure then HandleFailure(m)
        else Ignored(m)
  }

  function Sends(i: Initiator, at: Moment): seq<Envelope> {
    match i.phase
    case SendingCfp => Cfps(CfpToSend(i, at), i.participants)
    case HandlingProposals => Verdicts(i.name, at.selected, i.proposals)
    case _ => []
  }

  function InitiatorNext(i: Initiator, got: Option<Message>, at: Moment): Initiator {
    match i.phase
    case SendingCfp =>
      i.(cfp := CfpToSend(i, at), convId := ConvId(i, at), responded := 0, phase := WaitingProposals)
    case WaitingProposals =>
      if !Polls(i, at) then i.(phase := HandlingProposals)
      else
        var i' := match NoteOf(i, got)
          case Recorded(m) => i.(proposals := i.proposals + [m], responded := i.responded + 1)
          case HandleRefuse(_) => i.(responded := i.responded + 1)
          case _ => i;
        if i'.responded >= |i.participants| then i'.(phase := HandlingProposals) else i'
    case HandlingProposals =>
      var accepted := i.accepted + Winners(at.selected, i.proposals);
      if accepted == [] then i.(phase := Finished)
      else i.(accepted := accepted, pending := |accepted|, phase := WaitingResults)
    case WaitingResults =>
      if !Polls(i, at) then i.(phase := Finished)
      else
        var note := NoteOf(i, got);
        var i' := if note.HandleInform? || note.HandleFailure? then i.(pending := i.pending - 1) else i;
        if i'.pending <= 0 then i'.(phase := Finished) else i'
    case Finished => i.(done := true)
  }

  function InitiatorBus(i: Initiator, bus: Queues<Message>, at: Moment): Queues<Message> {
    SendAll(if Polls(i, at) then Polled(bus, i.name) else bus, Sends(i, at))
  }

  lemma SendNothing(bus: Queues<Message>)
    ensures SendAll(bus, []) == bus
  {
  }

  class ContractNetInitiator {
    const name: string
    const participants: seq<string>
    var cfp: Message
    var phase: Phase
    var done: bool
    var convId: string
    var proposals: seq<Message>
    var accepted: seq<string>
    var responded: int
    var pending: int

    ghost function State(): Initiator
      reads this
    {
      Initiator(name, cfp, participants, phase, done, convId, proposals, accepted, responded, pending)
    }

    constructor (name: string, cfp: Message, participants: seq<string>)
      ensures State() == NewInitiator(name, cfp, participants)
    {
      this.name, this.cfp, this.participants := name, cfp, participants;
      phase, done, convId := SendingCfp, false, "";
      proposals, accepted, responded, pending := [], [], 0, 0;
    }

    method Action(bus: MockBus, at: Moment) returns (note: Note)
      modifies this, bus
      ensures State() == InitiatorNext(old(State()), Seen(old(State()), old(bus.queues), at), at)
      ensures bus.queues == InitiatorBus(old(State()), old(bus.queues), at)
      ensures note == NoteOf(old(State()), Seen(old(State()), old(bus.queues), at))
    {
      note := Silent;
      match phase {
        case SendingCfp =>
          SendCfps(bus, at);
        case WaitingProposals =>
          if at.expired || responded >= |participants| {
            phase := HandlingProposals;
          } else {
            note := ReceiveAnswer(bus);
            if responded >= |participants| {
              phase := HandlingProposals;
            }
          }
        case HandlingProposals =>
          Decide(bus, at.selected);
        case WaitingResults =>
          if at.expired || pending <= 0 {
            phase := Finished;
          } else {
            note := ReceiveResult(bus);
            if pending <= 0 {
              phase := Finished;
            }
          }
        case Finished =>
          done := true;
      }
    }

    method SendCfps(bus: MockBus, at: Moment)
      requires phase == SendingCfp
      modifies this, bus
      ensures State() == InitiatorNext(old(State()), None, at)
      ensures bus.queues == SendAll(old(bus.queues), Sends(old(State()), at))
    {
      convId := "cnp-" + name + "-" + at.stamp;
      cfp := cfp.(conversationId := convId);
      cfp := cfp.(sender := Named(name));
      cfp := cfp.(replyWith := "cfp-" + convId);
      cfp := cfp.(protocol := "fipa-contract-net");
      for k := 0 to |participants|
        invariant bus.queues == SendAll(old(bus.queues), Cfps(cfp, participants[..k]))
        modifies bus
      {
        assert participants[..k + 1][..k] == participants[..k];
        SendAllAppend(old(bus.queues), Cfps(cfp, participants[..k]), Envelope(participants[k], cfp));
        bus.Deliver(participants[k], cfp);
      }
      assert participants[..|participants|] == participants;
      responded := 0;
      phase := WaitingProposals;
    }

    method ReceiveAnswer(bus: MockBus) returns (note: Note)
      requires phase == WaitingProposals
      modifies this, bus
      ensures note == NoteOf(old(State()), Front(old(bus.queues), name))
      ensures bus.queues == Polled(old(bus.queues), name)
      ensures State() == match note
        case Recorded(m) => old(State()).(proposals := old(proposals) + [m], responded := old(responded) + 1)
        case HandleRefuse(_) => old(State()).(responded := old(responded) + 1)
        case _ => old(State())
    {
      var opt := bus.Poll(name);
      if opt.None? {
        return Silent;
      }
      var msg := opt.value;
      if msg.conversationId != convId {
        return Ignored(msg);
      }
      if msg.performative == Propose {
        proposals := proposals + [msg];
        responded := responded + 1;
        return Recorded(msg);
      } else if msg.performative == Refuse || msg.performative == NotUnderstood {
        responded := responded + 1;
        return HandleRefuse(msg);
      }
      return Ignored(msg);
    }

    method Decide(bus: MockBus, selected: seq<string>)
      requires phase == HandlingProposals
      modifies this, bus
      ensures State() == InitiatorNext(old(State()), None, Moment("", false, selected))
      ensures bus.queues == SendAll(old(bus.queues), Verdicts(name, selected, old(proposals)))
    {
      hide CreateReply, SendAll;
      SendNothing(bus.queues);
      for k := 0 to |proposals|
        invariant proposals == old(proposals)
        invariant State() == old(State()).(accepted := old(accepted) + Winners(selected, proposals[..k]))
        invariant bus.queues == SendAll(old(bus.queues), Verdicts(name, selected, proposals[..k]))
      {
        var prop := proposals[k];
        assert proposals[..k + 1][..k] == proposals[..k];
        SendAllAppend(old(bus.queues), Verdicts(name, selected, proposals[..k]), Verdict(name, selected, prop));
        var pname := prop.sender.name;
        if pname in selected {
          var acc := CreateReply(prop, AcceptProposal).(sender := Named(name));
          bus.Deliver(pname, acc);
          Assoc(old(accepted), Winners(selected, proposals[..k]), [pname]);
          accepted := accepted + [pname];
        } else {
          var rej := CreateReply(prop, RejectProposal).(sender := Named(name));
          bus.Deliver(pname, rej);
          assert Winners(selected, proposals[..k]) + [] == Winners(selected, proposals[..k]);
        }
      }
      assert proposals[..|proposals|] == proposals;
      if accepted == [] {
        phase := Finished;
      } else {
        pending := |accepted|;
        phase := WaitingResults;
      }
    }

    method ReceiveResult(bus: MockBus) returns (note: Note)
      requires phase == WaitingResults
      modifies this, bus
      ensures note == NoteOf(old(State()), Front(old(bus.queues), name))
      ensures bus.queues == Polled(old(bus.queues), name)
      ensures State() == if note.HandleInform? || note.HandleFailure?
        then old(State()).(pending := old(pending) - 1) else old(State())
    {
      var opt := bus.Poll(name);
      if opt.None? {
        return Silent;
      }
      var msg := opt.value;
      if msg.conversationId != convId {
        return Ignored(msg);
      }
      if msg.performative == Inform {
        pending := pending - 1;
        return HandleInform(msg);
      } else if msg.performative == Failure {
        pending := pending - 1;
        return HandleFailure(msg);
      }
      return Ignored(msg);
    }
  }

  // ----- the participant -----

  datatype Participant = Participant(
    name: string,
    deciding: bool,
    done: bool,
    convId: string,
    initiator: string)

  function NewParticipant(name: string): Participant {
    Participant(name, false, false, "", "")
  }

  /** What prepareProposal may return to a CFP, and executeTask to an acceptance. */
  predicate MayReturn(p: Participant, reply: Message) {
    if !p.deciding then reply.performative == Propose || reply.performative == Refuse
    else reply.performative == Inform || reply.performative == Failure
  }

  /** The message sent in answer to got, when the callback returned reply. */
  function Answer(p: Participant, got: Message, reply: Message): Message {
    reply.(sender := Named(p.name),
           conversationId := if p.deciding then p.convId else got.conversationId,
           inReplyTo := got.replyWith)
  }

  /** Does the participant call executeTask? */
  predicate Executes(p: Participant, got: Option<Message>) {
    p.deciding && got.Some? && got.value.conversationId == p.convId && got.value.performative == AcceptProposal
  }

  /** Does the participant call prepareProposal? */
  predicate Prepares(p: Participant, got: Option<Message>) {
    !p.deciding && got.Some? && got.value.performative == Cfp
  }

  function ParticipantSends(p: Participant, got: Option<Message>, reply: Message): seq<Envelope> {
    if Prepares(p, got) then [Envelope(got.value.sender.name, Answer(p, got.value, reply))]
    else if Executes(p, got) then [Envelope(p.initiator, Answer(p, got.value, reply))]
    else []
  }

  function ParticipantNext(p: Participant, got: Option<Message>, reply: Message): Participant {
    if got.None? then p.(done := true)
    else if Prepares(p, got) then
      if reply.performative == Refuse then p.(done := true)
      else p.(deciding := true, convId := got.value.conversationId, initiator := got.value.sender.name)
    else if Executes(p, got) then p.(done := true)
    else if p.deciding && got.value.conversationId == p.convId && got.value.performative == RejectProposal
    then p.(done := true)
    else p
  }

  function ParticipantBus(p: Participant, bus: Queues<Message>, reply: Message): Queues<Message> {
    SendAll(Polled(bus, p.name), ParticipantSends(p, Front(bus, p.name), reply))
  }

  class ContractNetParticipant {
    const name: string
    var deciding: bool
    var done: bool
    var convId: string
    var initiator: string

    ghost function State(): Participant
      reads this
    {
      Participant(name, deciding, done, convId, initiator)
    }

    constructor (name: string)
      ensures State() == NewParticipant(name)
    {
      this.name := name;
      deciding, done, convId, initiator := false, false, "", "";
    }

    /** reply is what the callback returns, if this action calls one. */
    method Action(bus: MockBus, reply: Message)
      modifies this, bus
      ensures State() == ParticipantNext(old(State()), Front(old(bus.queues), name), reply)
      ensures bus.queues == ParticipantBus(old(State()), old(bus.queues), reply)
    {
      var opt := bus.Poll(name);
      if opt.None? {
        done := true;
        return;
      }
      var msg := opt.value;
      if !deciding {
        if msg.performative == Cfp {
          var resp := reply.(sender := Named(name));
          resp := resp.(conversationId := msg.conversationId);
          resp := resp.(inReplyTo := msg.replyWith);
          SendOne(bus.queues, Envelope(msg.sender.name, resp));
          bus.Deliver(msg.sender.name, resp);
          if resp.performative == Refuse {
            done := true;
          } else {
            convId := msg.conversationId;
            initiator := msg.sender.name;
            deciding := true;
          }
        }
      } else if msg.conversationId == convId {
        if msg.performative == AcceptProposal {
          var result := reply.(sender := Named(name));
          result := result.(conversationId := convId);
          result := result.(inReplyTo := msg.replyWith);
          SendOne(bus.queues, Envelope(initiator, result));
          bus.Deliver(initiator, result);
          done := true;
        } else if msg.performative == RejectProposal {
          done := true;
        }
      }
    }
  }
}
