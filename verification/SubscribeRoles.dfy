/** Each role of the Subscribe protocol on its own, whatever arrives in its queue; and what
    the notifications say. */
module SubscribeRoles {
  import opened Options
  import opened AclMessages
  import opened MessageBus
  import opened Counting
  import opened SubscribeNotify

  function Listed(got: Option<Message>): seq<Message> {
    if got.Some? then [got.value] else []
  }

  /** The messages of q in the conversation conv. */
  function Within(q: seq<Message>, conv: string): seq<Message> {
    if q == [] then []
    else Within(q[..|q| - 1], conv) + (if q[|q| - 1].conversationId == conv then [q[|q| - 1]] else [])
  }

  lemma WithinOne(q: seq<Message>, m: Message, conv: string)
    ensures Within(q + [m], conv) == Within(q, conv) + (if m.conversationId == conv then [m] else [])
  {
    assert (q + [m])[..|q|] == q;
  }

  lemma Empty(q: seq<Message>, conv: string)
    ensures q + [] == q && Within([], conv) == []
    ensures forall kinds :: Picked([], conv, kinds) == []
  {
  }

  // ----- the subscriber -----

  /** What the clock and shouldCancel answer in one action, and what the transport returns
      if it is asked. */
  datatype Turn = Turn(at: Moment, got: Option<Message>)

  /** A subscriber with its history. */
  datatype Record = Record(
    sub: Subscriber,
    first: seq<Message>,       // taken while it waited for the AGREE
    second: seq<Message>,      // taken while it waited for notifications
    third: seq<Message>,       // taken after its CANCEL
    refused: seq<Message>,     // handleRefuse
    notified: seq<Message>,    // handleNotify
    sent: seq<Envelope>,
    lapsed: bool,              // it has acted past the deadline for the AGREE
    closed: bool)              // it has acted after its CANCEL

  function New(name: string, publisher: string, topic: string, ontology: string): Record {
    Record(NewSubscriber(name, publisher, topic, ontology), [], [], [], [], [], [], false, false)
  }

  function Acted(r: Record, turn: Turn): Record {
    if r.sub.done then r
    else
      var got := if Polls(r.sub, turn.at) then turn.got else None;
      var note := NoteOf(r.sub, got);
      Record(SubscriberNext(r.sub, got, turn.at),
             r.first + (if r.sub.phase == WaitingAgree then Listed(got) else []),
             r.second + (if r.sub.phase == WaitingNotify then Listed(got) else []),
             r.third + (if r.sub.phase == WaitingCancelAck then Listed(got) else []),
             r.refused + (if note.HandleRefuse? then [note.msg] else []),
             r.notified + (if note.HandleNotify? then [note.msg] else []),
             r.sent + SubscriberSends(r.sub, turn.at),
             r.lapsed || (r.sub.phase == WaitingAgree && turn.at.expired),
             r.closed || r.sub.phase == WaitingCancelAck)
  }

  function ActedAll(r: Record, turns: seq<Turn>): Record {
    if turns == [] then r else Acted(ActedAll(r, turns[..|turns| - 1]), turns[|turns| - 1])
  }

  const REFUSING: set<Performative> := {Refuse, NotUnderstood}
  const ANSWERING: set<Performative> := {Agree, Refuse, NotUnderstood}

  /** e is the SUBSCRIBE of s, with the topic that the user gave. */
  predicate Asks(e: Envelope, s: Subscriber) {
    && e.to == s.publisher && e.msg.performative == Subscribe && e.msg.sender == AgentIdentifier(s.name, [])
    && e.msg.content == s.topic && e.msg.ontology == s.ontology && e.msg.conversationId == s.convId
    && e.msg.replyWith == "sub-" + s.convId && e.msg.protocol == "fipa-subscribe"
    && e.msg.receivers == [] && e.msg.language == e.msg.encoding == e.msg.inReplyTo == ""
  }

  predicate Cancels(e: Envelope, s: Subscriber) {
    && e.to == s.publisher && e.msg.performative == Cancel && e.msg.sender == AgentIdentifier(s.name, [])
    && e.msg.conversationId == s.convId && e.msg.protocol == "fipa-subscribe"
    && e.msg.receivers == [] && e.msg.content == e.msg.ontology == ""
    && e.msg.language == e.msg.encoding == e.msg.replyWith == e.msg.inReplyTo == ""
  }

  /** What has become of every message, what was sent, and when it is over. */
  predicate Kept(r: Record) {
    var s := r.sub;
    var conv := s.convId;
    && r.refused == Picked(r.first, conv, REFUSING)
    && |Picked(r.first, conv, ANSWERING)| <= 1
    && r.notified == Picked(r.second, conv, {Inform}) + Within(r.third, conv)
    && (s.phase == WaitingNotify || s.phase == WaitingCancelAck <==> Picked(r.first, conv, {Agree}) != [])
    && (s.phase == SendingSubscribe ==> r.first == [] && r.sent == [])
    && (s.phase == SendingSubscribe || s.phase == WaitingAgree ==> r.second == [])
    && (s.phase != WaitingCancelAck ==> r.third == [] && !r.closed)
    && (s.phase != SendingSubscribe ==>
          |r.sent| == (if s.phase == WaitingCancelAck then 2 else 1) && Asks(r.sent[0], s))
    && (s.phase == WaitingCancelAck ==> Cancels(r.sent[1], s))
    && (!r.closed ==> r.third == []) && |r.third| <= 1
    && (s.done <==> r.refused != [] || r.lapsed || r.closed)
  }

  lemma FewerPicked(q: seq<Message>, conv: string)
    ensures |Picked(q, conv, ANSWERING)| == |Picked(q, conv, {Agree})| + |Picked(q, conv, REFUSING)|
  {
  }

  lemma NewKept(name: string, publisher: string, topic: string, ontology: string)
    ensures Kept(New(name, publisher, topic, ontology))
  {
  }

  lemma SendingKept(r: Record, turn: Turn)
    requires Kept(r) && !r.sub.done && r.sub.phase == SendingSubscribe
    ensures Kept(Acted(r, turn))
  {
    hide Picked, Within, ConvId;
    Empty(r.first, r.sub.convId);
    Empty(r.first, ConvId(r.sub, turn.at));
    assert r.sent + SubscriberSends(r.sub, turn.at) == SubscriberSends(r.sub, turn.at);
  }

  lemma AgreeingKept(r: Record, turn: Turn)
    requires Kept(r) && !r.sub.done && r.sub.phase == WaitingAgree
    ensures Kept(Acted(r, turn))
  {
    hide Picked, Within, ConvId;
    var conv := r.sub.convId;
    Empty(r.first, conv);
    Empty(r.refused, conv);
    Empty(r.notified, conv);
    assert r.sent + [] == r.sent;
    FewerPicked(r.first, conv);
    if turn.got.Some? {
      var m := turn.got.value;
      PickedOne(r.first, m, conv, REFUSING);
      PickedOne(r.first, m, conv, ANSWERING);
      PickedOne(r.first, m, conv, {Agree});
    }
  }

  lemma ListeningKept(r: Record, turn: Turn)
    requires Kept(r) && !r.sub.done && r.sub.phase == WaitingNotify
    ensures Kept(Acted(r, turn))
  {
    hide Picked, Within, ConvId;
    var conv := r.sub.convId;
    Empty(r.second, conv);
    Empty(r.refused, conv);
    Empty(r.notified, conv);
    Empty(Picked(r.second, conv, {Inform}), conv);
    Empty(r.first, conv);
    assert r.sent + [] == r.sent;
    if turn.got.Some? {
      PickedOne(r.second, turn.got.value, conv, {Inform});
      Empty(Picked(r.second + [turn.got.value], conv, {Inform}), conv);
    }
  }

  lemma ClosingKept(r: Record, turn: Turn)
    requires Kept(r) && !r.sub.done && r.sub.phase == WaitingCancelAck
    ensures Kept(Acted(r, turn))
  {
    hide Picked, Within, ConvId;
    var conv := r.sub.convId;
    Empty(r.first, conv);
    Empty(r.second, conv);
    Empty(r.refused, conv);
    Empty(r.notified, conv);
    Empty(Picked(r.second, conv, {Inform}), conv);
    assert r.sent + [] == r.sent;
    if turn.got.Some? {
      WithinOne(r.third, turn.got.value, conv);
    }
  }

  /** Whatever a subscriber is sent, by whomever: it is subscribed once it has taken an
      AGREE of its conversation; handleRefuse is given the REFUSE or NOT_UNDERSTOOD of its
      conversation that it takes instead, if any; handleNotify the INFORMs of its
      conversation that it takes while subscribed, and after its CANCEL the next message
      if it is of the conversation; no other message has any effect. It sends the
      SUBSCRIBE with the user's topic and, once shouldCancel says so, the CANCEL, and
      nothing else. It ends exactly when it is refused, acts past the deadline for the
      AGREE, or has acted once after its CANCEL. */
  lemma {:induction false} SubscriberExact(name: string, publisher: string, topic: string, ontology: string, turns: seq<Turn>)
    ensures var r := ActedAll(New(name, publisher, topic, ontology), turns);
      && Kept(r) && r.sub.name == name && r.sub.publisher == publisher && r.sub.topic == topic && r.sub.ontology == ontology
      && (turns != [] ==> r.sub.convId == "snp-" + name + "-" + turns[0].at.stamp)
      && (turns == [] <==> r.sub.phase == SendingSubscribe)
  {
    hide Kept, Acted;
    if turns == [] {
      NewKept(name, publisher, topic, ontology);
    } else {
      var n := |turns| - 1;
      SubscriberExact(name, publisher, topic, ontology, turns[..n]);
      var before := ActedAll(New(name, publisher, topic, ontology), turns[..n]);
      ActedNames(before, turns[n]);
      NewDoes(name, publisher, topic, ontology);
      if before.sub.done {
        DoneStays(before, turns[n]);
      } else {
        match before.sub.phase {
          case SendingSubscribe => SendingKept(before, turns[n]);
          case WaitingAgree => AgreeingKept(before, turns[n]);
          case WaitingNotify => ListeningKept(before, turns[n]);
          case WaitingCancelAck => ClosingKept(before, turns[n]);
        }
      }
    }
  }

  lemma NewDoes(name: string, publisher: string, topic: string, ontology: string)
    ensures !New(name, publisher, topic, ontology).sub.done
  {
  }

  lemma DoneStays(r: Record, turn: Turn)
    requires r.sub.done
    ensures Acted(r, turn) == r
  {
  }

  lemma ActedNames(r: Record, turn: Turn)
    ensures var s, t := r.sub, Acted(r, turn).sub;
      && t.name == s.name && t.publisher == s.publisher && t.topic == s.topic && t.ontology == s.ontology
      && (s.phase == SendingSubscribe && !s.done ==>
            t.phase != SendingSubscribe && t.convId == "snp-" + s.name + "-" + turn.at.stamp)
      && (s.phase != SendingSubscribe ==> t.phase != SendingSubscribe && t.convId == s.convId)
  {
    hide NoteOf, SubscriberSends;
  }

  // ----- the publisher -----

  /** A message the publisher took, with what handleSubscribe or handleCancel answered. */
  datatype Served = Served(msg: Message, answer: Answer)

  /** A publisher with its history. */
  datatype Ledger = Ledger(pub: Publisher, served: seq<Served>, sent: seq<Envelope>)

  function Serve(l: Ledger, got: Option<Message>, answer: Answer): Ledger {
    Ledger(PublisherNext(l.pub, got, answer),
           l.served + (if got.Some? then [Served(got.value, answer)] else []),
           l.sent + PublisherSends(l.pub, got, answer))
  }

  function ServeAll(l: Ledger, calls: seq<(Option<Message>, Answer)>): Ledger {
    if calls == [] then l else Serve(ServeAll(l, calls[..|calls| - 1]), calls[|calls| - 1].0, calls[|calls| - 1].1)
  }

  /** The conversation under which who is subscribed: that of the last SUBSCRIBE from it
      that was accepted, unless a CANCEL came after it. */
  function Standing(served: seq<Served>, who: string): Option<string> {
    if served == [] then None
    else
      var x := served[|served| - 1];
      if x.msg.sender.name == who && x.msg.performative == Cancel then None
      else if x.msg.sender.name == who && x.msg.performative == Subscribe && x.answer.accept then Some(x.msg.conversationId)
      else Standing(served[..|served| - 1], who)
  }

  /** Those that get a message back. */
  function Answered(served: seq<Served>): seq<Served> {
    if served == [] then []
    else
      var x := served[|served| - 1];
      Answered(served[..|served| - 1]) +
        if x.msg.performative == Subscribe || (x.msg.performative == Cancel && x.answer.farewell != "") then [x] else []
  }

  /** e is what x gets back: the verdict on a SUBSCRIBE, the farewell on a CANCEL. */
  predicate Replies(e: Envelope, x: Served, name: string) {
    && e.to == x.msg.sender.name && e.msg.sender == AgentIdentifier(name, [])
    && e.msg.conversationId == x.msg.conversationId && e.msg.protocol == "fipa-subscribe"
    && e.msg.encoding == "" && e.msg.replyWith == ""
    && (if x.msg.performative == Subscribe then
          && e.msg.performative == (if x.answer.accept then Agree else Refuse)
          && e.msg.receivers == [x.msg.sender] && e.msg.inReplyTo == x.msg.replyWith && e.msg.content == ""
          && e.msg.language == x.msg.language && e.msg.ontology == x.msg.ontology
        else
          && e.msg.performative == Inform && e.msg.content == x.answer.farewell
          && e.msg.receivers == [] && e.msg.language == e.msg.ontology == e.msg.inReplyTo == "")
  }

  ghost predicate Balanced(l: Ledger) {
    && (forall who: string :: Standing(l.served, who) == if who in l.pub.subscribers then Some(l.pub.subscribers[who]) else None)
    && |l.sent| == |Answered(l.served)|
    && forall i :: 0 <= i < |l.sent| ==> Replies(l.sent[i], Answered(l.served)[i], l.pub.name)
  }

  lemma OneServed(served: seq<Served>, x: Served, who: string)
    ensures Standing(served + [x], who) ==
      (if x.msg.sender.name == who && x.msg.performative == Cancel then None
       else if x.msg.sender.name == who && x.msg.performative == Subscribe && x.answer.accept then Some(x.msg.conversationId)
       else Standing(served, who))
    ensures Answered(served + [x]) == Answered(served) +
      (if x.msg.performative == Subscribe || (x.msg.performative == Cancel && x.answer.farewell != "") then [x] else [])
  {
    assert (served + [x])[..|served|] == served;
  }

  lemma SentReplies(p: Publisher, x: Served)
    ensures var es := PublisherSends(p, Some(x.msg), x.answer);
      if x.msg.performative == Subscribe || (x.msg.performative == Cancel && x.answer.farewell != "")
      then |es| == 1 && Replies(es[0], x, p.name) else es == []
  {
  }

  lemma ServeBalances(l: Ledger, got: Option<Message>, answer: Answer)
    requires Balanced(l)
    ensures Balanced(Serve(l, got, answer)) && Serve(l, got, answer).pub.name == l.pub.name
  {
    hide Standing, Answered, Replies, PublisherSends;
    if got.None? {
      assert l.served + [] == l.served;
      assert l.sent + [] == l.sent by { NothingSent(l.pub, answer); }
      assert PublisherSends(l.pub, None, answer) == [] by { NothingSent(l.pub, answer); }
    } else {
      var x := Served(got.value, answer);
      SentReplies(l.pub, x);
      forall who ensures
        Standing(Serve(l, got, answer).served, who) ==
          var subs := Serve(l, got, answer).pub.subscribers; if who in subs then Some(subs[who]) else None
      {
        OneServed(l.served, x, who);
      }
      OneServed(l.served, x, "");
    }
  }

  lemma NothingSent(p: Publisher, answer: Answer)
    ensures PublisherSends(p, None, answer) == []
  {
  }

  /** Whatever a publisher is sent, by whomever: who is subscribed, and under which
      conversation, is what the last accepted SUBSCRIBE or the last CANCEL of each agent
      says; and what it sends back is, in order, one verdict to the sender of each
      SUBSCRIBE and one farewell, with the text of handleCancel, to the sender of each
      CANCEL for which there is one. */
  lemma {:induction false} PublisherExact(name: string, calls: seq<(Option<Message>, Answer)>)
    ensures var l := ServeAll(Ledger(Publisher(name, map[]), [], []), calls);
      Balanced(l) && l.pub.name == name
  {
    hide Balanced, Serve;
    if calls == [] {
      EmptyBalances(name);
    } else {
      var n := |calls| - 1;
      PublisherExact(name, calls[..n]);
      ServeBalances(ServeAll(Ledger(Publisher(name, map[]), [], []), calls[..n]), calls[n].0, calls[n].1);
    }
  }

  lemma EmptyBalances(name: string)
    ensures Balanced(Ledger(Publisher(name, map[]), [], []))
  {
  }

  // ----- what a notification says -----

  /** m is the publisher's notification of this content under this ontology. */
  predicate Says(m: Message, from: string, content: string, ontology: string) {
    && m.performative == Inform && m.sender == AgentIdentifier(from, []) && m.protocol == "fipa-subscribe"
    && m.content == content && m.ontology == ontology
    && m.receivers == [] && m.language == m.encoding == m.replyWith == m.inReplyTo == ""
  }

  /** notify puts behind each subscriber's queue one message that says the content under
      the subscriber's own conversation, notifyOne behind the queue of the one; nobody
      else's queue changes. */
  lemma NotifyExact(p: Publisher, to: Option<string>, bus: Queues<Message>, content: string, ontology: string, n: string)
    ensures var q := Queue(bus, n);
      var q' := Queue(if to.None? then NotifiedBus(p, p.subscribers.Keys, bus, content, ontology)
                      else NotifiedOneBus(p, to.value, bus, content, ontology), n);
      if n in p.subscribers && (to.None? || to.value == n) then
        && |q'| == |q| + 1 && q'[..|q|] == q
        && Says(q'[|q|], p.name, content, ontology) && q'[|q|].conversationId == p.subscribers[n]
      else q' == q
  {
  }
}
