/** Each role of the Request protocol on its own, whatever arrives in its queue. */
module RequestRoles {
  import opened Options
  import opened AclMessages
  import opened MessageBus
  import opened Counting
  import opened RequestProtocol

  // ----- the client -----

  /** A client with its history: what it took while it waited, what each callback was
      given, and what it sent. */
  datatype Record = Record(
    req: Requester,
    taken: seq<Message>,
    agrees: seq<Message>,
    informs: seq<Message>,
    refusals: seq<Message>,
    failures: seq<Message>,
    misses: seq<Message>,      // handleNotUnderstood
    timeouts: nat,
    sent: seq<Envelope>)

  function New(name: string, target: string, content: string, ontology: string, pid: string): Record {
    Record(NewRequester(name, target, content, ontology, pid), [], [], [], [], [], [], 0, [])
  }

  function Acted(r: Record, got: Option<Message>): Record {
    if r.req.done then r
    else
      var note := NoteOf(r.req, got);
      Record(RequesterNext(r.req, got),
             r.taken + (if r.req.waiting && got.Some? then [got.value] else []),
             r.agrees + (if note.HandleAgree? then [note.msg] else []),
             r.informs + (if note.HandleInform? then [note.msg] else []),
             r.refusals + (if note.HandleRefuse? then [note.msg] else []),
             r.failures + (if note.HandleFailure? then [note.msg] else []),
             r.misses + (if note.HandleNotUnderstood? then [note.msg] else []),
             r.timeouts + (if note.HandleTimeout? then 1 else 0),
             r.sent + (if r.req.waiting then [] else [Envelope(r.req.target, RequestMessage(r.req))]))
  }

  function ActedAll(r: Record, gots: seq<Option<Message>>): Record {
    if gots == [] then r else Acted(ActedAll(r, gots[..|gots| - 1]), gots[|gots| - 1])
  }

  const ENDING: set<Performative> := {Inform, Refuse, Failure, NotUnderstood}

  /** m is the request that c was made for. */
  predicate Asks(m: Message, c: Requester) {
    && m.performative == Request && m.sender == AgentIdentifier(c.name, []) && m.receivers == [AgentIdentifier(c.target, [])]
    && m.content == c.content && m.ontology == c.ontology && m.conversationId == c.convId && m.protocol == "fipa-request"
    && m.language == m.encoding == m.replyWith == m.inReplyTo == ""
  }

  /** Every message of the conversation has reached the callback of its performative. */
  predicate Dispatched(r: Record) {
    var conv := r.req.convId;
    && r.agrees == Picked(r.taken, conv, {Agree}) && r.informs == Picked(r.taken, conv, {Inform})
    && r.refusals == Picked(r.taken, conv, {Refuse}) && r.failures == Picked(r.taken, conv, {Failure})
    && r.misses == Picked(r.taken, conv, {NotUnderstood})
  }

  predicate Concluded(r: Record) {
    && |Picked(r.taken, r.req.convId, ENDING)| + r.timeouts == (if r.req.done then 1 else 0)
    && (if r.req.waiting then |r.sent| == 1 && r.sent[0].to == r.req.target && Asks(r.sent[0].msg, r.req)
        else r.sent == [] && r.taken == [] && !r.req.done)
  }

  lemma ActedDispatches(r: Record, got: Option<Message>)
    requires Dispatched(r)
    ensures Dispatched(Acted(r, got))
  {
    hide Picked, RequestMessage;
    assert r.taken + [] == r.taken && r.agrees + [] == r.agrees && r.informs + [] == r.informs;
    assert r.refusals + [] == r.refusals && r.failures + [] == r.failures && r.misses + [] == r.misses;
    if got.Some? {
      var conv, m := r.req.convId, got.value;
      PickedOne(r.taken, m, conv, {Agree});
      PickedOne(r.taken, m, conv, {Inform});
      PickedOne(r.taken, m, conv, {Refuse});
      PickedOne(r.taken, m, conv, {Failure});
      PickedOne(r.taken, m, conv, {NotUnderstood});
    }
  }

  lemma ActedConcludes(r: Record, got: Option<Message>)
    requires Concluded(r)
    ensures Concluded(Acted(r, got))
  {
    hide Picked;
    assert r.taken + [] == r.taken && r.sent + [] == r.sent;
    if got.Some? {
      PickedOne(r.taken, got.value, r.req.convId, ENDING);
    }
  }

  /** Whatever a client is sent, by whomever: it sends its request, once; every message of
      its conversation that it takes is handed to the callback of its performative, in
      order, and no callback is given anything else; it ends with the first ending or with
      the first receive that comes back empty, and then takes nothing more. */
  lemma {:induction false} ClientExact(name: string, target: string, content: string, ontology: string, pid: string, gots: seq<Option<Message>>)
    ensures var r := ActedAll(New(name, target, content, ontology, pid), gots);
      && Dispatched(r) && Concluded(r)
      && r.req.name == name && r.req.target == target && r.req.content == content && r.req.ontology == ontology
      && r.req.convId == "req-" + name + "-" + pid
  {
    hide Dispatched, Concluded, Acted;
    if gots == [] {
      NewConcludes(name, target, content, ontology, pid);
    } else {
      var n := |gots| - 1;
      ClientExact(name, target, content, ontology, pid, gots[..n]);
      var before := ActedAll(New(name, target, content, ontology, pid), gots[..n]);
      ActedDispatches(before, gots[n]);
      ActedConcludes(before, gots[n]);
      ActedNames(before, gots[n]);
    }
  }

  lemma NewConcludes(name: string, target: string, content: string, ontology: string, pid: string)
    ensures var r := New(name, target, content, ontology, pid);
      Dispatched(r) && Concluded(r) && r.req.name == name && r.req.target == target && r.req.content == content
      && r.req.ontology == ontology && r.req.convId == "req-" + name + "-" + pid
  {
  }

  lemma ActedNames(r: Record, got: Option<Message>)
    ensures var c := Acted(r, got).req;
      c.name == r.req.name && c.target == r.req.target && c.content == r.req.content && c.ontology == r.req.ontology
      && c.convId == r.req.convId
  {
    hide NoteOf, RequestMessage;
  }

  // ----- the participant -----

  /** m agrees to the request. */
  predicate AgreesTo(m: Message, request: Message, name: string) {
    && m.performative == Agree && m.sender == AgentIdentifier(name, []) && m.receivers == [request.sender]
    && m.conversationId == request.conversationId && m.inReplyTo == request.replyWith
    && m.language == request.language && m.ontology == request.ontology && m.protocol == request.protocol
    && m.content == m.encoding == m.replyWith == ""
  }

  /** m is what handleRequest returned: in the conversation of the request, addressed to
      who asked and in the participant's name, unless the response says otherwise. */
  predicate Carries(m: Message, request: Message, response: Message, name: string) {
    && m.performative == response.performative && m.content == response.content && m.language == response.language
    && m.encoding == response.encoding && m.ontology == response.ontology && m.protocol == response.protocol
    && m.replyWith == response.replyWith && m.inReplyTo == response.inReplyTo
    && m.conversationId == (if response.conversationId == "" then request.conversationId else response.conversationId)
    && m.receivers == (if response.receivers == [] then [request.sender] else response.receivers)
    && m.sender == (if response.sender.name == "" then AgentIdentifier(name, []) else response.sender)
  }

  /** What one action puts behind the queues: nothing, unless the message it takes is a
      REQUEST; then an AGREE if prepareAgree wants one, and the response. */
  predicate Replied(sent: seq<Message>, request: Message, agree: bool, response: Message, name: string) {
    && |sent| == (if agree then 2 else 1)
    && (agree ==> AgreesTo(sent[0], request, name))
    && Carries(sent[|sent| - 1], request, response, name)
  }

  /** The whole action of a participant on the queues, whatever is in them: a message is
      taken; a REQUEST is answered to its sender, AGREE first, and nobody else gets
      anything; any other message is dropped. */
  lemma ParticipantExact(name: string, bus: Queues<Message>, agree: bool, response: Message, n: string) returns (sent: seq<Message>)
    ensures var q := Queue(bus, name);
      if q != [] && q[0].performative == Request then Replied(sent, q[0], agree, response, name) else sent == []
    ensures var got := Taken(Front(bus, name));
      var after := ReceiveBus(name, bus, agree);
      var bus' := if got.Some? then RespondBus(name, after, got.value, response) else after;
      var q := Queue(bus, name);
      Queue(bus', n) == (if n == name && q != [] then q[1..] else Queue(bus, n))
        + (if q != [] && n == q[0].sender.name then sent else [])
  {
    hide Polled, Enqueued;
    var q := Queue(bus, name);
    PolledQueue(bus, name, n);
    if q == [] || q[0].performative != Request {
      assert Queue(Polled(bus, name), n) + [] == Queue(Polled(bus, name), n);
      sent := [];
    } else {
      hide AgreeTo, Completed, Queue;
      var m := q[0];
      sent := (if agree then [AgreeTo(name, m)] else []) + [Completed(name, m, response)];
      SentFields(name, m, response);
      AnsweredQueues(name, Polled(bus, name), m, agree, response, n);
    }
  }

  /** The queues after the AGREE, if any, and the response. */
  lemma AnsweredQueues(name: string, bus: Queues<Message>, m: Message, agree: bool, response: Message, n: string)
    ensures var agreed := if agree then Enqueued(bus, m.sender.name, AgreeTo(name, m)) else bus;
      Queue(RespondBus(name, agreed, m, response), n) == Queue(bus, n)
        + (if n == m.sender.name then (if agree then [AgreeTo(name, m)] else []) + [Completed(name, m, response)] else [])
  {
    hide AgreeTo, Completed, Enqueued, Queue;
    var to := m.sender.name;
    EnqueuedQueue(bus, Envelope(to, AgreeTo(name, m)), n);
    EnqueuedQueue(if agree then Enqueued(bus, to, AgreeTo(name, m)) else bus, Envelope(to, Completed(name, m, response)), n);
  }

  lemma PolledQueue(bus: Queues<Message>, name: string, n: string)
    ensures var q := Queue(bus, name);
      && Queue(Polled(bus, name), n) == (if n == name && q != [] then q[1..] else Queue(bus, n))
      && Front(bus, name) == if q == [] then None else Some(q[0])
  {
  }

  lemma SentFields(name: string, m: Message, response: Message)
    ensures AgreesTo(AgreeTo(name, m), m, name) && Carries(Completed(name, m, response), m, response, name)
  {
  }
}
