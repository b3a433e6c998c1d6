/** The two behaviours of the FIPA Subscribe protocol (SubscribeNotify.hpp): one call
    of action(), notify() or notifyOne() as a function of the state, of what the
    transport returns and of what the callbacks and the clock answer; and the classes
    that do it. */
module SubscribeNotify {
  import opened Options
  import opened AclMessages
  import opened MessageBus
  import opened Counting

  // ----- the subscriber -----

  datatype Phase = SendingSubscribe | WaitingAgree | WaitingNotify | WaitingCancelAck

  datatype Subscriber = Subscriber(
    name: string,
    publisher: string,
    topic: string,
    ontology: string,
    phase: Phase,
    done: bool,
    convId: string)

  /** What the clock and shouldCancel answer during one action. */
  datatype Moment = Moment(stamp: string, expired: bool, cancel: bool)

  datatype Note = Silent | Agreed(msg: Message) | HandleRefuse(msg: Message) | HandleNotify(msg: Message) | Dropped(msg: Message)

  function NewSubscriber(name: string, publisher: string, topic: string, ontology: string): Subscriber {
    Subscriber(name, publisher, topic, ontology, SendingSubscribe, false, "")
  }

  function ConvId(s: Subscriber, at: Moment): string {
    "snp-" + s.name + "-" + at.stamp
  }

  function SubscribeMessage(s: Subscriber, at: Moment): Message {
    Fresh(Subscribe).(sender := Named(s.name), content := s.topic, ontology := s.ontology,
                      conversationId := ConvId(s, at), replyWith := "sub-" + ConvId(s, at), protocol := "fipa-subscribe")
  }

  function CancelMessage(s: Subscriber): Message {
    Fresh(Cancel).(sender := Named(s.name), conversationId := s.convId, protocol := "fipa-subscribe")
  }

  predicate Polls(s: Subscriber, at: Moment) {
    || (s.phase == WaitingAgree && !at.expired)
    || (s.phase == WaitingNotify && !at.cancel)
    || s.phase == WaitingCancelAck
  }

  function Seen(s: Subscriber, bus: Queues<Message>, at: Moment): Option<Message> {
    if Polls(s, at) then Front(bus, s.name) else None
  }

  function NoteOf(s: Subscriber, got: Option<Message>): Note {
    match got
    case None => Silent
    case Some(m) =>
      if m.conversationId != s.convId then Dropped(m)
      else if s.phase == WaitingAgree then
        if m.performative == Agree then Agreed(m)
        else if m.performative == Refuse || m.performative == NotUnderstood then HandleRefuse(m)
        else Dropped(m)
      else if s.phase == WaitingNotify && m.performative != Inform then Dropped(m)
      else HandleNotify(m)
  }

  function SubscriberSends(s: Subscriber, at: Moment): seq<Envelope> {
    if s.phase == SendingSubscribe then [Envelope(s.publisher, SubscribeMessage(s, at))]
    else if s.phase == WaitingNotify && at.cancel then [Envelope(s.publisher, CancelMessage(s))]
    else []
  }

  function SubscriberNext(s: Subscriber, got: Option<Message>, at: Moment): Subscriber {
    match s.phase
    case SendingSubscribe => s.(convId := ConvId(s, at), phase := WaitingAgree)
    case WaitingAgree =>
      if at.expired then s.(done := true)
      else if NoteOf(s, got).Agreed? then s.(phase := WaitingNotify)
      else if NoteOf(s, got).HandleRefuse? then s.(done := true)
      else s
    case WaitingNotify => if at.cancel then s.(phase := WaitingCancelAck) else s
    case WaitingCancelAck => s.(done := true)
  }

  function SubscriberBus(s: Subscriber, bus: Queues<Message>, at: Moment): Queues<Message> {
    SendAll(if Polls(s, at) then Polled(bus, s.name) else bus, SubscriberSends(s, at))
  }

  class SubscribeInitiator {
    const name: string
    const publisher: string
    const topic: string
    const ontology: string
    var phase: Phase
    var done: bool
    var convId: string

    ghost function State(): Subscriber
      reads this
    {
      Subscriber(name, publisher, topic, ontology, phase, done, convId)
    }

    constructor (name: string, publisher: string, topic: string, ontology: string)
      ensures State() == NewSubscriber(name, publisher, topic, ontology)
    {
      this.name, this.publisher, this.topic, this.ontology := name, publisher, topic, ontology;
      phase, done, convId := SendingSubscribe, false, "";
    }

    method Action(bus: MockBus, at: Moment) returns (note: Note)
      modifies this, bus
      ensures State() == SubscriberNext(old(State()), Seen(old(State()), old(bus.queues), at), at)
      ensures bus.queues == SubscriberBus(old(State()), old(bus.queues), at)
      ensures note == NoteOf(old(State()), Seen(old(State()), old(bus.queues), at))
    {
      note := Silent;
      match phase {
        case SendingSubscribe =>
          SendSubscribe(bus, at);
        case WaitingAgree =>
          if at.expired {
            done := true;
          } else {
            note := ReceiveAgree(bus);
          }
        case WaitingNotify =>
          if at.cancel {
            var cancel := Fresh(Cancel);
            cancel := cancel.(sender := Named(name));
            cancel := cancel.(conversationId := convId);
            cancel := cancel.(protocol := "fipa-subscribe");
            SendOne(bus.queues, Envelope(publisher, cancel));
            bus.Deliver(publisher, cancel);
            phase := WaitingCancelAck;
          } else {
            var opt := bus.Poll(name);
            if opt.Some? {
              var msg := opt.value;
              if msg.conversationId == convId && msg.performative == Inform {
                note := HandleNotify(msg);
              } else {
                note := Dropped(msg);
              }
            }
          }
        case WaitingCancelAck =>
          var opt := bus.Poll(name);
          if opt.Some? && opt.value.conversationId == convId {
            note := HandleNotify(opt.value);
          } else if opt.Some? {
            note := Dropped(opt.value);
          }
          done := true;
      }
    }

    method SendSubscribe(bus: MockBus, at: Moment)
      requires phase == SendingSubscribe
      modifies this, bus
      ensures State() == SubscriberNext(old(State()), None, at)
      ensures bus.queues == SendAll(old(bus.queues), SubscriberSends(old(State()), at))
    {
      convId := "snp-" + name + "-" + at.stamp;
      var sub := Fresh(Subscribe);
      sub := sub.(sender := Named(name));
      sub := sub.(content := topic);
      if ontology != "" {
        sub := sub.(ontology := ontology);
      }
      sub := sub.(conversationId := convId);
      sub := sub.(replyWith := "sub-" + convId);
      sub := sub.(protocol := "fipa-subscribe");
      SendOne(bus.queues, Envelope(publisher, sub));
      bus.Deliver(publisher, sub);
      phase := WaitingAgree;
    }

    method ReceiveAgree(bus: MockBus) returns (note: Note)
      requires phase == WaitingAgree
      modifies this, bus
      ensures note == NoteOf(old(State()), Front(old(bus.queues), name))
      ensures bus.queues == Polled(old(bus.queues), name)
      ensures State() == match note
        case Agreed(_) => old(State()).(phase := WaitingNotify)
        case HandleRefuse(_) => old(State()).(done := true)
        case _ => old(State())
    {
      var opt := bus.Poll(name);
      if opt.None? {
        return Silent;
      }
      var msg := opt.value;
      if msg.conversationId != convId {
        return Dropped(msg);
      }
      if msg.performative == Agree {
        phase := WaitingNotify;
        return Agreed(msg);
      } else if msg.performative == Refuse || msg.performative == NotUnderstood {
        done := true;
        return HandleRefuse(msg);
      }
      return Dropped(msg);
    }
  }

  // ----- the publisher -----

  /** The subscriptions: the conversation of each subscriber. */
  datatype Publisher = Publisher(name: string, subscribers: map<string, string>)

  /** What handleSubscribe and handleCancel return, if this action calls one. */
  datatype Answer = Answer(accept: bool, farewell: string)

  function Notice(from: string, conv: string, content: string, ontology: string): Message {
    Fresh(Inform).(sender := Named(from), content := content, conversationId := conv,
                   protocol := "fipa-subscribe", ontology := ontology)
  }

  function ReplyTo(p: Publisher, msg: Message, performative: Performative): Message {
    CreateReply(msg, performative).(sender := Named(p.name), protocol := "fipa-subscribe")
  }

  function PublisherSends(p: Publisher, got: Option<Message>, answer: Answer): seq<Envelope> {
    if got.None? then []
    else
      var msg := got.value;
      if msg.performative == Subscribe then
        [Envelope(msg.sender.name, ReplyTo(p, msg, if answer.accept then Agree else Refuse))]
      else if msg.performative == Cancel && answer.farewell != "" then
        [Envelope(msg.sender.name, Notice(p.name, msg.conversationId, answer.farewell, ""))]
      else []
  }

  function PublisherNext(p: Publisher, got: Option<Message>, answer: Answer): Publisher {
    if got.None? then p
    else
      var msg := got.value;
      if msg.performative == Subscribe && answer.accept
      then p.(subscribers := p.subscribers[msg.sender.name := msg.conversationId])
      else if msg.performative == Cancel then p.(subscribers := p.subscribers - {msg.sender.name})
      else p
  }

  function PublisherBus(p: Publisher, bus: Queues<Message>, answer: Answer): Queues<Message> {
    SendAll(Polled(bus, p.name), PublisherSends(p, Front(bus, p.name), answer))
  }

  /** The bus after the subscribers in who have been notified: each of them has one
      more message, and nobody else notices. */
  function NotifiedBus(p: Publisher, who: set<string>, bus: Queues<Message>, content: string, ontology: string): Queues<Message>
    requires who <= p.subscribers.Keys
  {
    map n | n in bus.Keys + who ::
      if n in who then Queue(bus, n) + [Notice(p.name, p.subscribers[n], content, ontology)] else bus[n]
  }

  function NotifiedOneBus(p: Publisher, who: string, bus: Queues<Message>, content: string, ontology: string): Queues<Message> {
    if who in p.subscribers then NotifiedBus(p, {who}, bus, content, ontology) else bus
  }

  lemma NotifyOneMore(p: Publisher, who: set<string>, n: string, bus: Queues<Message>, content: string, ontology: string)
    requires who <= p.subscribers.Keys && n in p.subscribers && n !in who
    ensures NotifiedBus(p, who + {n}, bus, content, ontology)
         == Enqueued(NotifiedBus(p, who, bus, content, ontology), n, Notice(p.name, p.subscribers[n], content, ontology))
  {
    var a := NotifiedBus(p, who + {n}, bus, content, ontology);
    var b := NotifiedBus(p, who, bus, content, ontology);
    assert Queue(b, n) == Queue(bus, n);
    assert a.Keys == b.Keys + {n};
  }

  lemma NotifyNobody(p: Publisher, bus: Queues<Message>, content: string, ontology: string)
    ensures NotifiedBus(p, {}, bus, content, ontology) == bus
  {
  }

  class SubscribeParticipant {
    const name: string
    var subscribers: map<string, string>

    ghost function State(): Publisher
      reads this
    {
      Publisher(name, subscribers)
    }

    constructor (name: string)
      ensures State() == Publisher(name, map[])
    {
      this.name, subscribers := name, map[];
    }

    method Action(bus: MockBus, answer: Answer)
      modifies this, bus
      ensures State() == PublisherNext(old(State()), Front(old(bus.queues), name), answer)
      ensures bus.queues == PublisherBus(old(State()), old(bus.queues), answer)
    {
      var opt := bus.Poll(name);
      if opt.None? {
        return;
      }
      var msg := opt.value;
      var sender := msg.sender.name;
      if msg.performative == Subscribe {
        if answer.accept {
          var agree := CreateReply(msg, Agree).(sender := Named(name));
          agree := agree.(protocol := "fipa-subscribe");
          SendOne(bus.queues, Envelope(sender, agree));
          bus.Deliver(sender, agree);
          subscribers := subscribers[sender := msg.conversationId];
        } else {
          var refuse := CreateReply(msg, Refuse).(sender := Named(name));
          refuse := refuse.(protocol := "fipa-subscribe");
          SendOne(bus.queues, Envelope(sender, refuse));
          bus.Deliver(sender, refuse);
        }
      } else if msg.performative == Cancel {
        var last := answer.farewell;
        if last != "" {
          var inf := Fresh(Inform).(sender := Named(name));
          inf := inf.(content := last);
          inf := inf.(conversationId := msg.conversationId);
          inf := inf.(protocol := "fipa-subscribe");
          SendOne(bus.queues, Envelope(sender, inf));
          bus.Deliver(sender, inf);
        }
        subscribers := subscribers - {sender};
      }
    }

    /** Every subscriber gets one message, whatever the order of the loop. */
    method Notify(bus: MockBus, content: string, ontology: string)
      modifies bus
      ensures bus.queues == NotifiedBus(State(), subscribers.Keys, old(bus.queues), content, ontology)
    {
      hide NotifiedBus;
      var left := subscribers.Keys;
      ghost var told: set<string> := {};
      NotifyNobody(State(), bus.queues, content, ontology);
      while left != {}
        invariant told !! left && told + left == subscribers.Keys
        invariant bus.queues == NotifiedBus(State(), told, old(bus.queues), content, ontology)
        modifies bus
        decreases |left|
      {
        var sub :| sub in left;
        NotifyOneMore(State(), told, sub, old(bus.queues), content, ontology);
        var inf := Fresh(Inform).(sender := Named(name));
        inf := inf.(content := content);
        inf := inf.(conversationId := subscribers[sub]);
        inf := inf.(protocol := "fipa-subscribe");
        if ontology != "" {
          inf := inf.(ontology := ontology);
        }
        bus.Deliver(sub, inf);
        left := left - {sub};
        told := told + {sub};
      }
      assert told == subscribers.Keys;
    }

    method NotifyOne(bus: MockBus, who: string, content: string, ontology: string)
      modifies bus
      ensures bus.queues == NotifiedOneBus(State(), who, old(bus.queues), content, ontology)
    {
      if who !in subscribers {
        return;
      }
      var inf := Fresh(Inform).(sender := Named(name));
      inf := inf.(content := content);
      inf := inf.(conversationId := subscribers[who]);
      inf := inf.(protocol := "fipa-subscribe");
      if ontology != "" {
        inf := inf.(ontology := ontology);
      }
      NotifyOneMore(State(), {}, who, bus.queues, content, ontology);
      NotifyNobody(State(), bus.queues, content, ontology);
      assert {} + {who} == {who};
      bus.Deliver(who, inf);
    }

    method SubscriberCount() returns (n: nat)
      ensures n == |subscribers|
    {
      n := |subscribers|;
    }
  }
}
