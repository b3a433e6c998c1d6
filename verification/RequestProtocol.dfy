/** The two behaviours of the FIPA Request protocol (Request.hpp), as functions of the
    state, of what the transport returns and of what the callbacks answer, and as the
    classes that do it. */
module RequestProtocol {
  import opened Options
  import opened AclMessages
  import opened MessageBus

  // ----- the initiator -----

  datatype Requester = Requester(
    name: string,
    target: string,
    content: string,
    ontology: string,
    convId: string,
    waiting: bool,
    done: bool)

  /** The callback an action ends in, if any. */
  datatype Note =
    | Silent
    | HandleAgree(msg: Message)
    | HandleInform(msg: Message)
    | HandleRefuse(msg: Message)
    | HandleFailure(msg: Message)
    | HandleNotUnderstood(msg: Message)
    | HandleTimeout
    | Dropped(msg: Message)

  function NewRequester(name: string, target: string, content: string, ontology: string, pid: string): Requester {
    Requester(name, target, content, ontology, "req-" + name + "-" + pid, false, false)
  }

  function RequestMessage(r: Requester): Message {
    Fresh(Request).(sender := Named(r.name), receivers := [Named(r.target)], content := r.content,
                    conversationId := r.convId, ontology := r.ontology, protocol := "fipa-request")
  }

  function NoteOf(r: Requester, got: Option<Message>): Note {
    if !r.waiting then Silent
    else if got.None? then HandleTimeout
    else
      var m := got.value;
      if m.conversationId != r.convId then Dropped(m)
      else if m.performative == Agree then HandleAgree(m)
      else if m.performative == Inform then HandleInform(m)
      else if m.performative == Refuse then HandleRefuse(m)
      else if m.performative == Failure then HandleFailure(m)
      else if m.performative == NotUnderstood then HandleNotUnderstood(m)
      else Dropped(m)
  }

  /** A callback after which the behaviour is done. */
  predicate Terminal(n: Note) {
    n.HandleInform? || n.HandleRefuse? || n.HandleFailure? || n.HandleNotUnderstood? || n.HandleTimeout?
  }

  function RequesterNext(r: Requester, got: Option<Message>): Requester {
    if !r.waiting then r.(waiting := true)
    else if Terminal(NoteOf(r, got)) then r.(done := true)
    else r
  }

  function RequesterBus(r: Requester, bus: Queues<Message>): Queues<Message> {
    if r.waiting then Polled(bus, r.name) else Enqueued(bus, r.target, RequestMessage(r))
  }

  class RequestInitiator {
    const name: string
    const target: string
    const content: string
    const ontology: string
    const convId: string
    var waiting: bool
    var done: bool

    ghost function State(): Requester
      reads this
    {
      Requester(name, target, content, ontology, convId, waiting, done)
    }

    constructor (name: string, target: string, content: string, ontology: string, pid: string)
      ensures State() == NewRequester(name, target, content, ontology, pid)
    {
      this.name, this.target, this.content, this.ontology := name, target, content, ontology;
      convId := "req-" + name + "-" + pid;
      waiting, done := false, false;
    }

    method Action(bus: MockBus) returns (note: Note)
      modifies this, bus
      ensures State() == RequesterNext(old(State()), Front(old(bus.queues), name))
      ensures bus.queues == RequesterBus(old(State()), old(bus.queues))
      ensures note == NoteOf(old(State()), Front(old(bus.queues), name))
    {
      if !waiting {
        var req := Fresh(Request);
        req := req.(sender := Named(name));
        req := req.(receivers := req.receivers + [Named(target)]);
        req := req.(content := content);
        req := req.(conversationId := convId);
        if ontology != "" {
          req := req.(ontology := ontology);
        }
        req := req.(protocol := "fipa-request");
        assert req == RequestMessage(State());
        bus.Deliver(target, req);
        waiting := true;
        return Silent;
      }
      var opt := bus.Poll(name);
      if opt.None? {
        done := true;
        return HandleTimeout;
      }
      var msg := opt.value;
      if msg.conversationId != convId {
        return Dropped(msg);
      }
      match msg.performative {
        case Agree => return HandleAgree(msg);
        case Inform => done := true; return HandleInform(msg);
        case Refuse => done := true; return HandleRefuse(msg);
        case Failure => done := true; return HandleFailure(msg);
        case NotUnderstood => done := true; return HandleNotUnderstood(msg);
        case _ => return Dropped(msg);
      }
    }
  }

  // ----- the participant -----

  const FINAL: set<Performative> := {Inform, Refuse, Failure, NotUnderstood}

  /** What handleRequest may return: a final answer, in the conversation of the request
      or in none. */
  predicate MayReturn(request: Message, response: Message) {
    response.performative in FINAL
    && (response.conversationId == "" || response.conversationId == request.conversationId)
  }

  function AgreeTo(name: string, request: Message): Message {
    CreateReply(request, Agree).(sender := Named(name))
  }

  /** The response with what its handler left out filled in. */
  function Completed(name: string, request: Message, response: Message): Message {
    response.(
      receivers := if response.receivers == [] then [request.sender] else response.receivers,
      sender := if response.sender.name == "" then Named(name) else response.sender,
      conversationId := if response.conversationId == "" then request.conversationId else response.conversationId)
  }

  /** The request an action takes up, if any. */
  function Taken(got: Option<Message>): Option<Message> {
    if got.Some? && got.value.performative == Request then got else None
  }

  /** The first half of an action: take a request and perhaps agree to it. */
  function ReceiveBus(name: string, bus: Queues<Message>, agree: bool): Queues<Message> {
    var taken := Taken(Front(bus, name));
    if taken.Some? && agree
    then Enqueued(Polled(bus, name), taken.value.sender.name, AgreeTo(name, taken.value))
    else Polled(bus, name)
  }

  /** The second half: the response of handleRequest. */
  function RespondBus(name: string, bus: Queues<Message>, request: Message, response: Message): Queues<Message> {
    Enqueued(bus, request.sender.name, Completed(name, request, response))
  }

  class RequestParticipant {
    const name: string

    constructor (name: string)
      ensures this.name == name
    {
      this.name := name;
    }

    method Receive(bus: MockBus, agree: bool) returns (request: Option<Message>)
      modifies bus
      ensures request == Taken(Front(old(bus.queues), name))
      ensures bus.queues == ReceiveBus(name, old(bus.queues), agree)
    {
      var opt := bus.Poll(name);
      if opt.None? || opt.value.performative != Request {
        return None;
      }
      var msg := opt.value;
      if agree {
        var reply := CreateReply(msg, Agree);
        reply := reply.(sender := Named(name));
        bus.Deliver(msg.sender.name, reply);
      }
      return Some(msg);
    }

    method Respond(bus: MockBus, request: Message, response: Message)
      modifies bus
      ensures bus.queues == RespondBus(name, old(bus.queues), request, response)
    {
      var reply := response;
      if reply.receivers == [] {
        reply := reply.(receivers := reply.receivers + [request.sender]);
      }
      if reply.sender.name == "" {
        reply := reply.(sender := Named(name));
      }
      if reply.conversationId == "" {
        reply := reply.(conversationId := request.conversationId);
      }
      assert reply == Completed(name, request, response);
      bus.Deliver(request.sender.name, reply);
    }

    /** One action(): agree and response are what prepareAgree and handleRequest return. */
    method Action(bus: MockBus, agree: bool, response: Message)
      modifies bus
      ensures var got := Taken(Front(old(bus.queues), name));
        bus.queues ==
          var after := ReceiveBus(name, old(bus.queues), agree);
          if got.Some? then RespondBus(name, after, got.value, response) else after
    {
      var request := Receive(bus, agree);
      if request.Some? {
        Respond(bus, request.value, response);
      }
    }
  }
}
