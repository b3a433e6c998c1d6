/** The Subscribe protocol over the text transport. */
module SubscribeOverText {
  import opened Options
  import opened AclMessages
  import opened AclTokens
  import opened AclCodec
  import opened MessageBus
  import opened Transport
  import opened Counting
  import opened SubscribeNotify
  import opened SpokenMessages
  import opened TextShadows
  import SD = SubscribeDelivery

  datatype TextSystem = TextSystem(
    pub: Publisher,
    subs: map<string, Subscriber>,
    bus: Queues<string>,
    events: seq<SD.Event>,
    handled: map<string, seq<Message>>)

  function TextStart(publisher: string, wishes: map<string, (string, string)>): TextSystem {
    TextSystem(Publisher(publisher, map[]), SD.Start(publisher, wishes).subs, map[], [], map n | n in wishes :: [])
  }

  /** notify over text: one text for each of the subscribers in who. */
  function NotifiedTexts(p: Publisher, who: set<string>, bus: Queues<string>, content: string, ontology: string): Queues<string>
    requires who <= p.subscribers.Keys
  {
    map n | n in bus.Keys + who ::
      if n in who then Queue(bus, n) + [Print(Notice(p.name, p.subscribers[n], content, ontology))] else bus[n]
  }

  /** What handleNotify has been given. */
  function HandledBy(handled: map<string, seq<Message>>, who: string, note: Note): map<string, seq<Message>>
    requires who in handled
  {
    if note.HandleNotify? then handled[who := handled[who] + [note.msg]] else handled
  }

  function TextNext(t: TextSystem, move: SD.Move): TextSystem {
    match move
    case Listen(who, at) =>
      if who !in t.subs || who !in t.handled || t.subs[who].done then t
      else
        var sub := t.subs[who];
        var got := if Polls(sub, at) then Decoded(Front(t.bus, sub.name)) else None;
        t.(subs := t.subs[who := SubscriberNext(sub, got, at)],
           bus := SendTexts(if Polls(sub, at) then Polled(t.bus, sub.name) else t.bus, SubscriberSends(sub, at)),
           handled := HandledBy(t.handled, who, NoteOf(sub, got)))
    case Serve(answer) =>
      var got := Decoded(Front(t.bus, t.pub.name));
      t.(pub := PublisherNext(t.pub, got, answer),
         bus := SendTexts(Polled(t.bus, t.pub.name), PublisherSends(t.pub, got, answer)),
         events := t.events + SD.ServeEvents(got, answer))
    case Notify(content, ontology) =>
      t.(bus := NotifiedTexts(t.pub, t.pub.subscribers.Keys, t.bus, content, ontology),
         events := t.events + [SD.Announce(content, ontology)])
    case NotifyOne(who, content, ontology) =>
      t.(bus := if who in t.pub.subscribers then NotifiedTexts(t.pub, {who}, t.bus, content, ontology) else t.bus,
         events := t.events + [SD.AnnounceTo(who, content, ontology)])
  }

  function TextPlay(t: TextSystem, moves: seq<SD.Move>): TextSystem {
    if moves == [] then t else TextNext(TextPlay(t, moves[..|moves| - 1]), moves[|moves| - 1])
  }

  // ----- no step looks at an address -----

  lemma ErasedSubscriber(s: Subscriber, got: Option<Message>, at: Moment)
    ensures SubscriberNext(s, Delivered(got), at) == SubscriberNext(s, got, at)
    ensures var a, b := NoteOf(s, Delivered(got)), NoteOf(s, got);
      (a.HandleNotify? <==> b.HandleNotify?) && (b.HandleNotify? ==> a.msg == EraseAddresses(b.msg))
  {
  }

  lemma ErasedPublisher(p: Publisher, got: Option<Message>, answer: Answer)
    ensures PublisherNext(p, Delivered(got), answer) == PublisherNext(p, got, answer)
    ensures SameMail(PublisherSends(p, Delivered(got), answer), PublisherSends(p, got, answer))
    ensures SD.ServeEvents(Delivered(got), answer) == SD.ServeEvents(got, answer)
  {
  }

  // ----- what is sent can be read -----

  ghost predicate Speaks(s: Subscriber) {
    PlainWord(s.name) && '\0' !in s.topic && Canonical(s.ontology) && Canonical(s.convId)
  }

  ghost predicate Sayable(move: SD.Move) {
    match move
    case Listen(_, at) => Suffix(at.stamp)
    case Serve(answer) => '\0' !in answer.farewell
    case Notify(content, ontology) => '\0' !in content && Canonical(ontology)
    case NotifyOne(_, content, ontology) => '\0' !in content && Canonical(ontology)
  }

  ghost predicate PublisherSpeaks(p: Publisher) {
    PlainWord(p.name) && forall n :: n in p.subscribers ==> Canonical(p.subscribers[n])
  }

  ghost predicate AllReady(s: SD.System) {
    PublisherSpeaks(s.pub) && (forall who :: who in s.subs ==> Speaks(s.subs[who])) && BusReady(s.bus)
  }

  /** handleNotify was given the same messages, without their addresses. */
  predicate SameHandled(a: map<string, seq<Message>>, b: map<string, seq<Message>>) {
    a.Keys == b.Keys && forall who :: who in b ==> a[who] == EraseAll(b[who])
  }

  lemma HandledShadows(a: map<string, seq<Message>>, b: map<string, seq<Message>>, who: string, s: Subscriber, got: Option<Message>, at: Moment)
    requires SameHandled(a, b) && who in b
    ensures who in a && SameHandled(HandledBy(a, who, NoteOf(s, Delivered(got))), HandledBy(b, who, NoteOf(s, got)))
  {
    hide EraseAll, NoteOf, Delivered, EraseAddresses;
    assert who in a.Keys;
    ErasedSubscriber(s, got, at);
    if NoteOf(s, got).HandleNotify? {
      EraseAllAppend(b[who], NoteOf(s, got).msg);
    }
  }

  ghost predicate Shadows(t: TextSystem, s: SD.System) {
    && t.pub == s.pub && t.subs == s.subs && Mirrors(t.bus, s.bus) && s.subs.Keys == s.handled.Keys
    && t.events == s.events && SameHandled(t.handled, s.handled)
  }

  lemma SubscriberReady(s: Subscriber, got: Option<Message>, at: Moment)
    requires Speaks(s) && Suffix(at.stamp)
    ensures Speaks(SubscriberNext(s, got, at))
    ensures forall e :: e in SubscriberSends(s, at) ==> Ready(e.msg)
  {
    SubscribeReady(s, at);
    CancelReady(s);
    hide Canonical, PlainWord, Suffix, Ready, SubscribeMessage, CancelMessage, ConvId, NoteOf;
  }

  /** Sending over both transports. */
  lemma SayAll(text: Queues<string>, mock: Queues<Message>, a: seq<Envelope>, b: seq<Envelope>)
    requires Mirrors(text, mock) && BusReady(mock) && SameMail(a, b)
    requires (forall e :: e in a ==> Ready(e.msg)) && forall e :: e in b ==> Ready(e.msg)
    ensures Mirrors(SendTexts(text, a), SendAll(mock, b)) && BusReady(SendAll(mock, b))
  {
    hide Mirrors, Ready, Printable, BusReady, SameMail, SendTexts, SendAll;
    forall e | e in a ensures Printable(e.msg) {
      ReadyPrintable(e.msg);
    }
    SendMirrors(text, mock, a, b);
    SendAllReady(mock, b);
  }

  lemma ListenShadows(t: TextSystem, s: SD.System, who: string, at: Moment)
    requires Shadows(t, s) && AllReady(s) && Suffix(at.stamp)
    ensures Shadows(TextNext(t, SD.Listen(who, at)), SD.Next(s, SD.Listen(who, at)))
    ensures AllReady(SD.Next(s, SD.Listen(who, at)))
  {
    hide Mirrors, Delivered, Decoded, Speaks, Ready, BusReady, SubscriberNext, SubscriberSends, Polls, NoteOf, Suffix,
         SameMail, SendTexts, SendAll, PublisherSpeaks, SameHandled;
    assert who in t.handled <==> who in s.handled by { SameNames(t.handled, s.handled, who); }
    assert who in s.subs <==> who in s.handled.Keys;
    if who in s.subs && !s.subs[who].done {
      var sub := s.subs[who];
      SameFront(t.bus, s.bus, sub.name);
      assert Delivered(None) == None by { NothingDelivered(); }
      ErasedSubscriber(sub, Seen(sub, s.bus, at), at);
      HandledShadows(t.handled, s.handled, who, sub, Seen(sub, s.bus, at), at);
      SubscriberReady(sub, Seen(sub, s.bus, at), at);
      PolledReady(s.bus, sub.name);
      SameMailSelf(SubscriberSends(sub, at));
      SayAll(if Polls(sub, at) then Polled(t.bus, sub.name) else t.bus,
             if Polls(sub, at) then Polled(s.bus, sub.name) else s.bus, SubscriberSends(sub, at), SubscriberSends(sub, at));
    }
  }

  lemma SameNames(a: map<string, seq<Message>>, b: map<string, seq<Message>>, who: string)
    requires SameHandled(a, b)
    ensures who in a <==> who in b
  {
    assert who in a.Keys <==> who in b.Keys;
  }

  lemma PublisherReady(p: Publisher, got: Option<Message>, answer: Answer)
    requires PublisherSpeaks(p) && '\0' !in answer.farewell && (got.Some? ==> Ready(got.value))
    ensures PublisherSpeaks(PublisherNext(p, got, answer))
    ensures forall e :: e in PublisherSends(p, got, answer) ==> Ready(e.msg)
  {
    hide Canonical, PlainWord, Notice, ReplyTo;
    EmptyIsCanonical();
    if got.Some? {
      SubscribeReplyReady(p, got.value, if answer.accept then Agree else Refuse);
      NoticeReady(p.name, got.value.conversationId, answer.farewell, "");
    }
  }

  lemma ReadyDelivered(got: Option<Message>)
    requires got.Some? ==> Ready(got.value)
    ensures Delivered(got).Some? ==> Ready(Delivered(got).value)
  {
    hide Canonical, PlainWord;
    if got.Some? {
      PrintableErased(got.value);
    }
  }

  lemma ServeShadows(t: TextSystem, s: SD.System, answer: Answer)
    requires Shadows(t, s) && AllReady(s) && '\0' !in answer.farewell
    ensures Shadows(TextNext(t, SD.Serve(answer)), SD.Next(s, SD.Serve(answer)))
    ensures AllReady(SD.Next(s, SD.Serve(answer)))
  {
    hide Mirrors, Delivered, Decoded, Speaks, Ready, BusReady, PublisherNext, PublisherSends, SD.ServeEvents,
         SameMail, SendTexts, SendAll, PublisherSpeaks, SameHandled;
    var got := Front(s.bus, s.pub.name);
    SameFront(t.bus, s.bus, s.pub.name);
    PolledReady(s.bus, s.pub.name);
    ErasedPublisher(s.pub, got, answer);
    ReadyDelivered(got);
    PublisherReady(s.pub, got, answer);
    PublisherReady(s.pub, Delivered(got), answer);
    SayAll(Polled(t.bus, s.pub.name), Polled(s.bus, s.pub.name),
           PublisherSends(s.pub, Delivered(got), answer), PublisherSends(s.pub, got, answer));
  }

  lemma NotifiedMirrors(p: Publisher, who: set<string>, text: Queues<string>, mock: Queues<Message>, content: string, ontology: string)
    requires who <= p.subscribers.Keys && Mirrors(text, mock) && BusReady(mock)
    requires PublisherSpeaks(p) && '\0' !in content && Canonical(ontology)
    ensures Mirrors(NotifiedTexts(p, who, text, content, ontology), NotifiedBus(p, who, mock, content, ontology))
    ensures BusReady(NotifiedBus(p, who, mock, content, ontology))
  {
    hide Ready, Stands, Print, Notice, Canonical, PlainWord;
    var text', mock' := NotifiedTexts(p, who, text, content, ontology), NotifiedBus(p, who, mock, content, ontology);
    forall name ensures QueueStands(Queue(text', name), Queue(mock', name)) && QueueReady(Queue(mock', name)) {
      assert QueueStands(Queue(text, name), Queue(mock, name)) && QueueReady(Queue(mock, name));
      if name in who {
        var m := Notice(p.name, p.subscribers[name], content, ontology);
        NoticeReady(p.name, p.subscribers[name], content, ontology);
        ReadyPrintable(m);
        TextStands(m, m);
      } else {
        assert Queue(text', name) == Queue(text, name) && Queue(mock', name) == Queue(mock, name);
      }
    }
  }

  lemma NotifyShadows(t: TextSystem, s: SD.System, move: SD.Move)
    requires Shadows(t, s) && AllReady(s) && Sayable(move) && (move.Notify? || move.NotifyOne?)
    ensures Shadows(TextNext(t, move), SD.Next(s, move)) && AllReady(SD.Next(s, move))
  {
    hide Mirrors, Speaks, Ready, BusReady, NotifiedTexts, NotifiedBus, Canonical, PublisherSpeaks, SameHandled;
    if move.Notify? {
      NotifiedMirrors(s.pub, s.pub.subscribers.Keys, t.bus, s.bus, move.content, move.ontology);
    } else if move.who in s.pub.subscribers {
      NotifiedMirrors(s.pub, {move.who}, t.bus, s.bus, move.content, move.ontology);
    }
  }

  lemma {:induction false} PlayShadows(t: TextSystem, s: SD.System, moves: seq<SD.Move>)
    requires Shadows(t, s) && AllReady(s) && forall move :: move in moves ==> Sayable(move)
    ensures Shadows(TextPlay(t, moves), SD.Play(s, moves)) && AllReady(SD.Play(s, moves))
  {
    hide Shadows, AllReady, SD.Next, TextNext, Canonical, Suffix;
    if moves != [] {
      var n := |moves| - 1;
      assert moves[n] in moves;
      PlayShadows(t, s, moves[..n]);
      var t', s' := TextPlay(t, moves[..n]), SD.Play(s, moves[..n]);
      if moves[n].Listen? {
        ListenShadows(t', s', moves[n].who, moves[n].at);
      } else if moves[n].Serve? {
        ServeShadows(t', s', moves[n].answer);
      } else {
        NotifyShadows(t', s', moves[n]);
      }
    }
  }

  /** Over text, publisher and subscribers go through exactly the states they go through
      over the in-memory bus: the publisher takes the same decisions, and handleNotify is
      given the same messages, addresses aside. */
  lemma TextRunIsMockRun(publisher: string, wishes: map<string, (string, string)>, moves: seq<SD.Move>)
    requires PlainWord(publisher)
    requires forall n :: n in wishes ==> PlainWord(n) && '\0' !in wishes[n].0 && Canonical(wishes[n].1)
    requires forall move :: move in moves ==> Sayable(move)
    ensures var t, s := TextPlay(TextStart(publisher, wishes), moves), SD.Play(SD.Start(publisher, wishes), moves);
      && t.pub == s.pub && t.subs == s.subs && Mirrors(t.bus, s.bus)
      && t.events == s.events && SameHandled(t.handled, s.handled)
  {
    hide Sayable, TextPlay, SD.Play, PlainWord, Canonical;
    EmptyIsCanonical();
    assert Shadows(TextStart(publisher, wishes), SD.Start(publisher, wishes));
    PlayShadows(TextStart(publisher, wishes), SD.Start(publisher, wishes), moves);
  }
}
