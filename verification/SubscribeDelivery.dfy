/** One publisher and any number of subscribers over the FIFO bus, in any interleaving:
    every subscriber handles, in order and exactly once, what was announced while it
    was subscribed. */
module SubscribeDelivery {
  import opened Options
  import opened AclMessages
  import opened MessageBus
  import opened Counting
  import opened SubscribeNotify

  /** What the publisher decided, in order. */
  datatype Event =
    | Admit(who: string, conv: string)
    | Announce(content: string, ontology: string)
    | AnnounceTo(who: string, content: string, ontology: string)
    | Leave(who: string, conv: string, farewell: string)

  datatype System = System(
    pub: Publisher,
    subs: map<string, Subscriber>,
    bus: Queues<Message>,
    events: seq<Event>,
    handled: map<string, seq<Message>>)   // handleNotify, by subscriber

  /** One call of action() or of notify() or notifyOne(). */
  datatype Move =
    | Listen(who: string, at: Moment)
    | Serve(answer: Answer)
    | Notify(content: string, ontology: string)
    | NotifyOne(who: string, content: string, ontology: string)

  function Start(publisher: string, wishes: map<string, (string, string)>): System {
    System(Publisher(publisher, map[]),
           map n | n in wishes :: NewSubscriber(n, publisher, wishes[n].0, wishes[n].1),
           map[], [],
           map n | n in wishes :: [])
  }

  function ServeEvents(got: Option<Message>, answer: Answer): seq<Event> {
    if got.None? then []
    else if got.value.performative == Subscribe && answer.accept then [Admit(got.value.sender.name, got.value.conversationId)]
    else if got.value.performative == Cancel then [Leave(got.value.sender.name, got.value.conversationId, answer.farewell)]
    else []
  }

  /** The next state; a subscriber that has ended does nothing more. */
  function Next(s: System, move: Move): System {
    match move
    case Listen(who, at) =>
      if who !in s.subs || who !in s.handled || s.subs[who].done then s
      else
        var got := Seen(s.subs[who], s.bus, at);
        var note := NoteOf(s.subs[who], got);
        s.(subs := s.subs[who := SubscriberNext(s.subs[who], got, at)],
           bus := SubscriberBus(s.subs[who], s.bus, at),
           handled := if note.HandleNotify? then s.handled[who := s.handled[who] + [note.msg]] else s.handled)
    case Serve(answer) =>
      var got := Front(s.bus, s.pub.name);
      s.(pub := PublisherNext(s.pub, got, answer),
         bus := PublisherBus(s.pub, s.bus, answer),
         events := s.events + ServeEvents(got, answer))
    case Notify(content, ontology) =>
      s.(bus := NotifiedBus(s.pub, s.pub.subscribers.Keys, s.bus, content, ontology),
         events := s.events + [Announce(content, ontology)])
    case NotifyOne(who, content, ontology) =>
      s.(bus := NotifiedOneBus(s.pub, who, s.bus, content, ontology),
         events := s.events + [AnnounceTo(who, content, ontology)])
  }

  function Play(s: System, moves: seq<Move>): System {
    if moves == [] then s else Next(Play(s, moves[..|moves| - 1]), moves[|moves| - 1])
  }

  // ----- what each subscriber ought to get, from the publisher's decisions alone -----

  /** The conversation under which who is subscribed. */
  function Member(events: seq<Event>, who: string): Option<string> {
    if events == [] then None
    else
      match events[|events| - 1]
      case Admit(w, conv) => if w == who then Some(conv) else Member(events[..|events| - 1], who)
      case Leave(w, _, _) => if w == who then None else Member(events[..|events| - 1], who)
      case _ => Member(events[..|events| - 1], who)
  }

  /** What one more event brings to who. */
  function Brings(member: Option<string>, e: Event, from: string, who: string): seq<Message> {
    match e
    case Announce(content, ontology) =>
      if member.Some? then [Notice(from, member.value, content, ontology)] else []
    case AnnounceTo(w, content, ontology) =>
      if w == who && member.Some? then [Notice(from, member.value, content, ontology)] else []
    case Leave(w, conv, farewell) =>
      if w == who && farewell != "" then [Notice(from, conv, farewell, "")] else []
    case _ => []
  }

  /** The INFORMs for who: one for each announcement made while it was subscribed, and
      the farewell. */
  function Feed(events: seq<Event>, from: string, who: string): seq<Message> {
    if events == [] then []
    else
      var before := events[..|events| - 1];
      Feed(before, from, who) + Brings(Member(before, who), events[|events| - 1], from, who)
  }

  lemma FeedOneMore(events: seq<Event>, e: Event, from: string, who: string)
    ensures Feed(events + [e], from, who) == Feed(events, from, who) + Brings(Member(events, who), e, from, who)
    ensures Member(events + [e], who) == match e
      case Admit(w, conv) => if w == who then Some(conv) else Member(events, who)
      case Leave(w, _, _) => if w == who then None else Member(events, who)
      case _ => Member(events, who)
  {
    assert (events + [e])[..|events + [e]| - 1] == events;
  }

  // ----- one subscriber's conversation -----

  datatype Talk = Talk(
    phase: Phase, done: bool, conv: string,
    mail: seq<Message>,            // queued for the subscriber
    inbox: seq<Message>,           // queued for the publisher
    member: Option<string>,        // the publisher's entry
    joined: Option<string>,        // the same, from the events
    feed: seq<Message>,
    handled: seq<Message>)

  function Entry(subscribers: map<string, string>, who: string): Option<string> {
    if who in subscribers then Some(subscribers[who]) else None
  }

  function TalkOf(s: System, who: string): Talk
    requires who in s.subs && who in s.handled
  {
    Talk(s.subs[who].phase, s.subs[who].done, s.subs[who].convId,
         Queue(s.bus, who), MessagesOf(Queue(s.bus, s.pub.name), who),
         Entry(s.pub.subscribers, who), Member(s.events, who),
         Feed(s.events, s.pub.name, who), s.handled[who])
  }

  predicate Notices(q: seq<Message>, conv: string) {
    forall m :: m in q ==> m.performative == Inform && m.conversationId == conv
  }

  predicate Only(q: seq<Message>, kind: Performative, conv: string) {
    |q| == 1 && q[0].performative == kind && q[0].conversationId == conv
  }

  predicate Quiet(t: Talk) {
    t.member == None && t.feed == [] && t.handled == []
  }

  /** The seven ways a conversation can stand. */
  predicate Idle(t: Talk) {
    t.phase == SendingSubscribe && !t.done && t.mail == [] && t.inbox == [] && Quiet(t)
  }

  predicate Asked(t: Talk) {
    t.phase == WaitingAgree && t.mail == [] && Only(t.inbox, Subscribe, t.conv) && Quiet(t)
  }

  predicate Declined(t: Talk) {
    t.phase == WaitingAgree && t.inbox == [] && Quiet(t)
    && (Only(t.mail, Refuse, t.conv) || (t.mail == [] && t.done))
  }

  predicate Admitted(t: Talk) {
    t.phase == WaitingAgree && t.inbox == [] && t.member == Some(t.conv) && t.handled == []
    && t.mail != [] && t.mail[0].performative == Agree && t.mail[0].conversationId == t.conv
    && t.mail[1..] == t.feed
  }

  predicate Listening(t: Talk) {
    t.phase == WaitingNotify && !t.done && t.inbox == [] && t.member == Some(t.conv)
    && t.handled + t.mail == t.feed
  }

  predicate Leaving(t: Talk) {
    t.phase == WaitingCancelAck && Only(t.inbox, Cancel, t.conv) && t.member == Some(t.conv)
    && t.handled + t.mail == t.feed
  }

  predicate Left(t: Talk) {
    t.phase == WaitingCancelAck && t.inbox == [] && t.member == None
    && t.handled + t.mail == t.feed
  }

  predicate Fits(t: Talk) {
    && t.joined == t.member && Notices(t.feed, t.conv)
    && (Idle(t) || Asked(t) || Declined(t) || Admitted(t) || Listening(t) || Leaving(t) || Left(t))
  }

  // ----- the subscriber listens -----

  /** What listening does to the conversation; sent is what the subscriber sends. */
  function ListenTo(t: Talk, at: Moment, sent: seq<Message>, conv: string): Talk {
    if t.phase == SendingSubscribe then t.(phase := WaitingAgree, conv := conv, inbox := t.inbox + sent)
    else if t.phase == WaitingAgree then
      if at.expired then t.(done := true)
      else if t.mail == [] then t
      else
        var m, u := t.mail[0], t.(mail := t.mail[1..]);
        if m.conversationId != t.conv then u
        else if m.performative == Agree then u.(phase := WaitingNotify)
        else if m.performative == Refuse || m.performative == NotUnderstood then u.(done := true)
        else u
    else if t.phase == WaitingNotify then
      if at.cancel then t.(phase := WaitingCancelAck, inbox := t.inbox + sent)
      else if t.mail == [] then t
      else
        var m, u := t.mail[0], t.(mail := t.mail[1..]);
        if m.conversationId == t.conv && m.performative == Inform then u.(handled := t.handled + [m]) else u
    else
      var v := t.(done := true);
      if t.mail == [] then v
      else
        var m, u := t.mail[0], v.(mail := t.mail[1..]);
        if m.conversationId == t.conv then u.(handled := t.handled + [m]) else u
  }

  lemma LocalListen(t: Talk, at: Moment, sent: seq<Message>, conv: string)
    requires Fits(t) && !t.done
    requires t.phase == SendingSubscribe ==> Only(sent, Subscribe, conv)
    requires t.phase == WaitingNotify && at.cancel ==> Only(sent, Cancel, t.conv)
    ensures Fits(ListenTo(t, at, sent, conv))
  {
    assert [] + sent == sent;
    if t.phase == WaitingNotify || t.phase == WaitingCancelAck {
      LocalHear(t, at, sent, conv);
    } else if Admitted(t) {
      var t' := ListenTo(t, at, sent, conv);
      assert [] + t'.mail == t'.mail;
    }
  }

  lemma LocalHear(t: Talk, at: Moment, sent: seq<Message>, conv: string)
    requires Fits(t) && !t.done && (t.phase == WaitingNotify || t.phase == WaitingCancelAck)
    requires t.phase == WaitingNotify && at.cancel ==> Only(sent, Cancel, t.conv)
    ensures Fits(ListenTo(t, at, sent, conv))
  {
    var t' := ListenTo(t, at, sent, conv);
    assert [] + sent == sent;
    if t.mail != [] {
      HeadOfFeed(t);
    }
    if t.phase == WaitingNotify {
      assert if at.cancel then Leaving(t') else Listening(t');
    } else {
      assert if t.inbox == [] then Left(t') else Leaving(t');
    }
  }

  lemma HeadOfFeed(t: Talk)
    requires t.mail != [] && t.handled + t.mail == t.feed && Notices(t.feed, t.conv)
    ensures t.handled + [t.mail[0]] + t.mail[1..] == t.feed
    ensures t.mail[0].performative == Inform && t.mail[0].conversationId == t.conv
  {
    assert t.feed[|t.handled|] == t.mail[0];
    assert t.feed[|t.handled|] in t.feed;
  }

  // ----- the invariant -----

  predicate SubOk(s: System, who: string) {
    who in s.subs && who in s.handled && s.subs[who].name == who && s.subs[who].publisher == s.pub.name
  }

  ghost predicate Setup(s: System) {
    && s.pub.name !in s.subs
    && s.handled.Keys == s.subs.Keys
    && (forall who :: who in s.subs ==> SubOk(s, who))
    && (forall who :: who in s.pub.subscribers ==> who in s.subs)
    && (forall m :: m in Queue(s.bus, s.pub.name) ==> m.sender.name in s.subs)
  }

  ghost predicate Inv(s: System) {
    Setup(s) && forall who :: who in s.subs ==> SubOk(s, who) && Fits(TalkOf(s, who))
  }

  lemma StartInv(publisher: string, wishes: map<string, (string, string)>)
    requires publisher !in wishes
    ensures Inv(Start(publisher, wishes))
  {
    var s := Start(publisher, wishes);
    forall who | who in s.subs ensures SubOk(s, who) && Fits(TalkOf(s, who)) {
      assert Idle(TalkOf(s, who));
    }
  }

  lemma InvParts(s: System, who: string)
    requires Inv(s) && who in s.subs
    ensures Setup(s) && SubOk(s, who) && Fits(TalkOf(s, who)) && who != s.pub.name
  {
    hide Fits;
  }

  lemma InvFromParts(s: System)
    requires Setup(s)
    requires forall who :: who in s.subs ==> SubOk(s, who) && Fits(TalkOf(s, who))
    ensures Inv(s)
  {
    hide Setup, Fits;
  }

  lemma SetupOf(s: System)
    requires Inv(s)
    ensures Setup(s)
  {
    hide Setup, Fits;
  }

  // ----- a subscriber's move -----

  function SentMessages(es: seq<Envelope>): seq<Message> {
    if es == [] then [] else [es[0].msg]
  }

  /** The queues after a subscriber's move. */
  lemma ListenQueues(s: System, who: string, at: Moment)
    requires SubOk(s, who) && who != s.pub.name && !s.subs[who].done
    ensures var s', sent := Next(s, Listen(who, at)), SentMessages(SubscriberSends(s.subs[who], at));
      && Queue(s'.bus, s.pub.name) == Queue(s.bus, s.pub.name) + sent
      && Queue(s'.bus, who) == (if Polls(s.subs[who], at) && Queue(s.bus, who) != [] then Queue(s.bus, who)[1..] else Queue(s.bus, who))
      && forall w :: w != who && w != s.pub.name ==> Queue(s'.bus, w) == Queue(s.bus, w)
  {
    hide SubscriberNext, NoteOf;
    var sub := s.subs[who];
    var bus := if Polls(sub, at) then Polled(s.bus, who) else s.bus;
    var es := SubscriberSends(sub, at);
    var s' := Next(s, Listen(who, at));
    forall w ensures Queue(s'.bus, w) == Queue(bus, w) + (if w == s.pub.name then SentMessages(es) else []) {
      SendAllQueue(bus, es, w);
      if es != [] {
        assert es == [es[0]] && es[1..] == [];
      }
    }
    assert Queue(bus, who) + [] == Queue(bus, who);
  }

  lemma SentIsOwn(s: System, who: string, at: Moment)
    requires SubOk(s, who)
    ensures var sent := SentMessages(SubscriberSends(s.subs[who], at));
      && |sent| <= 1 && (forall m :: m in sent ==> m.sender.name == who)
      && (s.subs[who].phase == SendingSubscribe ==> Only(sent, Subscribe, ConvId(s.subs[who], at)))
      && (s.subs[who].phase == WaitingNotify && at.cancel ==> Only(sent, Cancel, s.subs[who].convId))
      && (s.subs[who].phase != SendingSubscribe && !(s.subs[who].phase == WaitingNotify && at.cancel) ==> sent == [])
  {
    hide ConvId;
  }

  lemma SentMessagesOf(q: seq<Message>, sent: seq<Message>, who: string, w: string)
    requires |sent| <= 1 && forall m :: m in sent ==> m.sender.name == who
    ensures MessagesOf(q + sent, w) == MessagesOf(q, w) + (if w == who then sent else [])
  {
    if sent == [] {
      assert q + sent == q;
      assert MessagesOf(q, w) + [] == MessagesOf(q, w);
    } else {
      assert sent[0] in sent;
      assert sent == [sent[0]];
      MessagesOfAppend(q, sent[0], w);
    }
  }

  lemma ListenFields(s: System, who: string, at: Moment)
    requires SubOk(s, who) && !s.subs[who].done
    ensures var s', got := Next(s, Listen(who, at)), Seen(s.subs[who], s.bus, at);
      var note := NoteOf(s.subs[who], got);
      && s'.pub == s.pub && s'.events == s.events
      && s'.subs == s.subs[who := SubscriberNext(s.subs[who], got, at)]
      && s'.handled == (if note.HandleNotify? then s.handled[who := s.handled[who] + [note.msg]] else s.handled)
  {
    hide SubscriberNext, SubscriberBus, NoteOf, Seen;
  }

  lemma ListenTalk(s: System, who: string, at: Moment)
    requires SubOk(s, who) && who != s.pub.name && !s.subs[who].done
    ensures SubOk(Next(s, Listen(who, at)), who)
    ensures TalkOf(Next(s, Listen(who, at)), who) ==
      ListenTo(TalkOf(s, who), at, SentMessages(SubscriberSends(s.subs[who], at)), ConvId(s.subs[who], at))
  {
    hide Next, MessagesOf, Feed, Member, SubscriberSends, ConvId, SentMessages, Entry;
    ListenFields(s, who, at);
    ListenQueues(s, who, at);
    SentIsOwn(s, who, at);
    var sent := SentMessages(SubscriberSends(s.subs[who], at));
    SentMessagesOf(Queue(s.bus, s.pub.name), sent, who, who);
    if sent == [] {
      assert MessagesOf(Queue(s.bus, s.pub.name), who) + [] == MessagesOf(Queue(s.bus, s.pub.name), who);
    }
  }

  lemma ListenOthers(s: System, who: string, at: Moment, w: string)
    requires SubOk(s, who) && SubOk(s, w) && who != s.pub.name && w != s.pub.name && w != who && !s.subs[who].done
    ensures SubOk(Next(s, Listen(who, at)), w)
    ensures TalkOf(Next(s, Listen(who, at)), w) == TalkOf(s, w)
  {
    hide SubscriberBus, SubscriberNext, MessagesOf, Feed, Member, SubscriberSends, NoteOf, SentMessages;
    ListenQueues(s, who, at);
    SentIsOwn(s, who, at);
    SentMessagesOf(Queue(s.bus, s.pub.name), SentMessages(SubscriberSends(s.subs[who], at)), who, w);
    assert MessagesOf(Queue(s.bus, s.pub.name), w) + [] == MessagesOf(Queue(s.bus, s.pub.name), w);
  }

  lemma ListenSetup(s: System, who: string, at: Moment)
    requires Setup(s) && who in s.subs && !s.subs[who].done
    ensures Setup(Next(s, Listen(who, at))) && Next(s, Listen(who, at)).subs.Keys == s.subs.Keys
  {
    hide SubscriberBus, SubscriberSends, NoteOf, SentMessages;
    assert SubOk(s, who);
    ListenQueues(s, who, at);
    SentIsOwn(s, who, at);
    var s' := Next(s, Listen(who, at));
    forall w | w in s'.subs ensures SubOk(s', w) {
      assert SubOk(s, w);
    }
  }

  lemma ListenKeepsInv(s: System, who: string, at: Moment)
    requires Inv(s)
    ensures Inv(Next(s, Listen(who, at)))
  {
    hide Inv, Fits, TalkOf, ListenTo, SubscriberNext, SubscriberBus, SentMessages, SubscriberSends, ConvId, Setup, NoteOf;
    var s' := Next(s, Listen(who, at));
    if s' != s {
      InvParts(s, who);
      ListenSetup(s, who, at);
      SentIsOwn(s, who, at);
      TalkPhase(s, who);
      LocalListen(TalkOf(s, who), at, SentMessages(SubscriberSends(s.subs[who], at)), ConvId(s.subs[who], at));
      ListenTalk(s, who, at);
      forall w | w in s'.subs ensures SubOk(s', w) && Fits(TalkOf(s', w)) {
        assert w in s'.subs.Keys;
        InvParts(s, w);
        if w != who {
          ListenOthers(s, who, at, w);
        }
      }
      InvFromParts(s');
    }
  }

  lemma TalkPhase(s: System, who: string)
    requires SubOk(s, who)
    ensures TalkOf(s, who).phase == s.subs[who].phase && TalkOf(s, who).done == s.subs[who].done
    ensures TalkOf(s, who).conv == s.subs[who].convId
  {
  }

  // ----- the publisher serves -----

  /** What serving the message m does to the conversation with its sender. */
  function ServedTalk(t: Talk, m: Message, p: Publisher, answer: Answer): Talk {
    var u := t.(inbox := if t.inbox == [] then [] else t.inbox[1..]);
    if m.performative == Subscribe then
      if answer.accept then
        u.(mail := t.mail + [ReplyTo(p, m, Agree)], member := Some(m.conversationId), joined := Some(m.conversationId))
      else u.(mail := t.mail + [ReplyTo(p, m, Refuse)])
    else if m.performative == Cancel then
      var last := if answer.farewell == "" then [] else [Notice(p.name, m.conversationId, answer.farewell, "")];
      u.(mail := t.mail + last, feed := t.feed + last, member := None, joined := None)
    else u
  }

  lemma LocalServed(t: Talk, m: Message, p: Publisher, answer: Answer)
    requires Fits(t) && t.inbox != [] && t.inbox[0] == m
    ensures Fits(ServedTalk(t, m, p, answer))
  {
    if Asked(t) {
      var t' := ServedTalk(t, m, p, answer);
      if answer.accept {
        assert t'.mail == [ReplyTo(p, m, Agree)];
        assert Admitted(t');
      } else {
        assert t'.mail == [ReplyTo(p, m, Refuse)];
        assert Declined(t');
      }
    } else {
      LocalFarewell(t, m, p, answer);
    }
  }

  lemma LocalFarewell(t: Talk, m: Message, p: Publisher, answer: Answer)
    requires Fits(t) && t.inbox != [] && t.inbox[0] == m && Leaving(t)
    ensures Fits(ServedTalk(t, m, p, answer))
  {
    var last := if answer.farewell == "" then [] else [Notice(p.name, m.conversationId, answer.farewell, "")];
    assert t.handled + (t.mail + last) == t.feed + last;
    assert Left(ServedTalk(t, m, p, answer));
  }

  /** The queues after the publisher has served m. */
  lemma ServeQueues(s: System, answer: Answer, m: Message)
    requires Front(s.bus, s.pub.name) == Some(m) && m.sender.name != s.pub.name
    ensures var s', sent := Next(s, Serve(answer)), SentMessages(PublisherSends(s.pub, Some(m), answer));
      && Queue(s.bus, s.pub.name) == [m] + Queue(s'.bus, s.pub.name)
      && Queue(s'.bus, m.sender.name) == Queue(s.bus, m.sender.name) + sent
      && forall w :: w != m.sender.name && w != s.pub.name ==> Queue(s'.bus, w) == Queue(s.bus, w)
  {
    hide PublisherNext;
    var bus := Polled(s.bus, s.pub.name);
    var es := PublisherSends(s.pub, Some(m), answer);
    var s' := Next(s, Serve(answer));
    forall w ensures Queue(s'.bus, w) == Queue(bus, w) + (if w == m.sender.name then SentMessages(es) else []) {
      SendAllQueue(bus, es, w);
      if es != [] {
        assert es == [es[0]] && es[1..] == [];
      }
    }
  }

  lemma ServeMember(s: System, answer: Answer, m: Message, w: string)
    ensures var events := s.events + ServeEvents(Some(m), answer);
      if m.sender.name != w then
        Member(events, w) == Member(s.events, w) && Feed(events, s.pub.name, w) == Feed(s.events, s.pub.name, w)
      else if m.performative == Subscribe && answer.accept then
        Member(events, w) == Some(m.conversationId) && Feed(events, s.pub.name, w) == Feed(s.events, s.pub.name, w)
      else if m.performative == Cancel then
        && Member(events, w) == None
        && Feed(events, s.pub.name, w) == Feed(s.events, s.pub.name, w)
             + (if answer.farewell == "" then [] else [Notice(s.pub.name, m.conversationId, answer.farewell, "")])
      else
        Member(events, w) == Member(s.events, w) && Feed(events, s.pub.name, w) == Feed(s.events, s.pub.name, w)
  {
    hide Notice;
    var es := ServeEvents(Some(m), answer);
    if es == [] {
      assert s.events + es == s.events;
    } else {
      assert es == [es[0]];
      FeedOneMore(s.events, es[0], s.pub.name, w);
      hide Feed, Member;
      assert Feed(s.events, s.pub.name, w) + [] == Feed(s.events, s.pub.name, w);
    }
  }

  lemma ServeTalk(s: System, answer: Answer, m: Message)
    requires Front(s.bus, s.pub.name) == Some(m) && SubOk(s, m.sender.name) && m.sender.name != s.pub.name
    ensures SubOk(Next(s, Serve(answer)), m.sender.name)
    ensures TalkOf(s, m.sender.name).inbox != [] && TalkOf(s, m.sender.name).inbox[0] == m
    ensures TalkOf(Next(s, Serve(answer)), m.sender.name) == ServedTalk(TalkOf(s, m.sender.name), m, s.pub, answer)
  {
    hide PublisherBus, MessagesOf, Feed, Member, ServeEvents, Notice, ReplyTo;
    var who := m.sender.name;
    ServeQueues(s, answer, m);
    ServeMember(s, answer, m, who);
    var s' := Next(s, Serve(answer));
    MessagesOfHead(m, Queue(s'.bus, s.pub.name), who);
    assert ([m] + MessagesOf(Queue(s'.bus, s.pub.name), who))[1..] == MessagesOf(Queue(s'.bus, s.pub.name), who);
    assert Queue(s.bus, who) + [] == Queue(s.bus, who);
  }

  lemma ServeOthers(s: System, answer: Answer, m: Message, w: string)
    requires Front(s.bus, s.pub.name) == Some(m) && m.sender.name != s.pub.name
    requires SubOk(s, w) && w != s.pub.name && w != m.sender.name
    ensures SubOk(Next(s, Serve(answer)), w) && TalkOf(Next(s, Serve(answer)), w) == TalkOf(s, w)
  {
    hide PublisherBus, PublisherSends, MessagesOf, Feed, Member, ServeEvents;
    ServeQueues(s, answer, m);
    ServeMember(s, answer, m, w);
    MessagesOfHead(m, Queue(Next(s, Serve(answer)).bus, s.pub.name), w);
  }

  lemma ServeSetup(s: System, answer: Answer, m: Message)
    requires Setup(s) && Front(s.bus, s.pub.name) == Some(m)
    ensures SubOk(s, m.sender.name) && m.sender.name != s.pub.name
    ensures Setup(Next(s, Serve(answer))) && Next(s, Serve(answer)).subs == s.subs
  {
    hide PublisherBus, PublisherSends, ServeEvents;
    assert m in Queue(s.bus, s.pub.name);
    ServeQueues(s, answer, m);
    var s' := Next(s, Serve(answer));
    forall w | w in s'.subs ensures SubOk(s', w) {
      assert SubOk(s, w);
    }
  }

  lemma ServeKeepsInv(s: System, answer: Answer)
    requires Inv(s)
    ensures Inv(Next(s, Serve(answer)))
  {
    hide Inv, Fits, TalkOf, ServedTalk, Setup;
    var s' := Next(s, Serve(answer));
    SetupOf(s);
    if Front(s.bus, s.pub.name).None? {
      assert s.events + [] == s.events;
      assert s' == s;
    } else {
      hide Next;
      var m := Front(s.bus, s.pub.name).value;
      ServeSetup(s, answer, m);
      OkIsIn(s, m.sender.name);
      InvParts(s, m.sender.name);
      ServeTalk(s, answer, m);
      LocalServed(TalkOf(s, m.sender.name), m, s.pub, answer);
      forall w | w in s'.subs ensures SubOk(s', w) && Fits(TalkOf(s', w)) {
        InvParts(s, w);
        if w != m.sender.name {
          ServeOthers(s, answer, m, w);
        }
      }
      InvFromParts(s');
    }
  }

  lemma OkIsIn(s: System, who: string)
    requires SubOk(s, who)
    ensures who in s.subs
  {
  }

  // ----- the publisher notifies -----

  /** One notice to a subscribed agent, nothing to the others. */
  predicate Notified(t: Talk, t': Talk, notice: seq<Message>) {
    t' == t.(mail := t.mail + notice, feed := t.feed + notice)
    && (notice == [] || (|notice| == 1 && t.member.Some? && Notices(notice, t.member.value)))
  }

  lemma LocalNotified(t: Talk, t': Talk, notice: seq<Message>)
    requires Fits(t) && Notified(t, t', notice)
    ensures Fits(t')
  {
    if notice == [] {
      assert t.mail + notice == t.mail && t.feed + notice == t.feed;
    } else if Admitted(t) {
      assert (t.mail + notice)[1..] == t.mail[1..] + notice;
      assert Admitted(t');
    } else {
      assert t.handled + (t.mail + notice) == t.handled + t.mail + notice;
      assert if Listening(t) then Listening(t') else Leaving(t');
    }
  }

  function NoticesFor(t: Talk, p: string, content: string, ontology: string, meant: bool): seq<Message> {
    if meant && t.member.Some? then [Notice(p, t.member.value, content, ontology)] else []
  }

  /** The queues after some of the subscribers have been notified. */
  lemma NotifiedQueues(p: Publisher, told: set<string>, bus: Queues<Message>, content: string, ontology: string, who: string)
    requires told <= p.subscribers.Keys && p.name !in p.subscribers
    ensures var bus' := NotifiedBus(p, told, bus, content, ontology);
      && Queue(bus', p.name) == Queue(bus, p.name)
      && Queue(bus', who) == Queue(bus, who) + (if who in told then [Notice(p.name, p.subscribers[who], content, ontology)] else [])
  {
    hide Notice;
    assert Queue(bus, who) + [] == Queue(bus, who);
  }

  lemma NotifyTalk(s: System, content: string, ontology: string, who: string)
    requires SubOk(s, who) && who != s.pub.name && s.pub.name !in s.pub.subscribers && Fits(TalkOf(s, who))
    ensures var s' := Next(s, Notify(content, ontology));
      SubOk(s', who) && Notified(TalkOf(s, who), TalkOf(s', who), NoticesFor(TalkOf(s, who), s.pub.name, content, ontology, true))
  {
    hide MessagesOf, Feed, Member, NotifiedBus, Queue;
    FeedOneMore(s.events, Announce(content, ontology), s.pub.name, who);
    NotifiedQueues(s.pub, s.pub.subscribers.Keys, s.bus, content, ontology, who);
  }

  lemma NotifyOneTalk(s: System, to: string, content: string, ontology: string, who: string)
    requires SubOk(s, who) && who != s.pub.name && s.pub.name !in s.pub.subscribers && Fits(TalkOf(s, who))
    ensures var s' := Next(s, NotifyOne(to, content, ontology));
      SubOk(s', who) && Notified(TalkOf(s, who), TalkOf(s', who), NoticesFor(TalkOf(s, who), s.pub.name, content, ontology, to == who))
  {
    hide MessagesOf, Feed, Member, NotifiedBus, Queue;
    FeedOneMore(s.events, AnnounceTo(to, content, ontology), s.pub.name, who);
    if to in s.pub.subscribers {
      NotifiedQueues(s.pub, {to}, s.bus, content, ontology, who);
    }
    assert Queue(s.bus, who) + [] == Queue(s.bus, who);
    assert Feed(s.events, s.pub.name, who) + [] == Feed(s.events, s.pub.name, who);
  }

  lemma NotifyKeepsInv(s: System, move: Move)
    requires Inv(s) && (move.Notify? || move.NotifyOne?)
    ensures Inv(Next(s, move))
  {
    hide Inv, Fits, TalkOf, Notified, NoticesFor, NotifiedBus, NotifiedOneBus;
    SetupOf(s);
    var s' := Next(s, move);
    NotifySetup(s, move);
    forall w | w in s'.subs ensures SubOk(s', w) && Fits(TalkOf(s', w)) {
      InvParts(s, w);
      if move.Notify? {
        NotifyTalk(s, move.content, move.ontology, w);
        LocalNotified(TalkOf(s, w), TalkOf(s', w), NoticesFor(TalkOf(s, w), s.pub.name, move.content, move.ontology, true));
      } else {
        NotifyOneTalk(s, move.who, move.content, move.ontology, w);
        LocalNotified(TalkOf(s, w), TalkOf(s', w), NoticesFor(TalkOf(s, w), s.pub.name, move.content, move.ontology, move.who == w));
      }
    }
    InvFromParts(s');
  }

  lemma NotifySetup(s: System, move: Move)
    requires Setup(s) && (move.Notify? || move.NotifyOne?)
    ensures Setup(Next(s, move)) && Next(s, move).subs == s.subs
  {
    var s' := Next(s, move);
    assert Queue(s'.bus, s.pub.name) == Queue(s.bus, s.pub.name);
    forall w | w in s'.subs ensures SubOk(s', w) {
      assert SubOk(s, w);
    }
  }

  // ----- every run -----

  lemma {:induction false} PlayKeepsInv(s: System, moves: seq<Move>)
    requires Inv(s)
    ensures Inv(Play(s, moves))
  {
    hide Inv, Next;
    if moves != [] {
      var before, move := Play(s, moves[..|moves| - 1]), moves[|moves| - 1];
      PlayKeepsInv(s, moves[..|moves| - 1]);
      if move.Listen? {
        ListenKeepsInv(before, move.who, move.at);
      } else if move.Serve? {
        ServeKeepsInv(before, move.answer);
      } else {
        NotifyKeepsInv(before, move);
      }
    }
  }

  lemma NamesStay(s: System, moves: seq<Move>)
    ensures Play(s, moves).subs.Keys == s.subs.Keys && Play(s, moves).pub.name == s.pub.name
    ensures Play(s, moves).handled.Keys == s.handled.Keys
  {
    if moves != [] {
      NamesStay(s, moves[..|moves| - 1]);
      hide SubscriberNext, SubscriberBus, PublisherBus, NotifiedBus, NotifiedOneBus, NoteOf;
    }
  }

  lemma LocalDelivery(t: Talk)
    requires Fits(t)
    ensures t.handled <= t.feed
    ensures t.phase == WaitingNotify || t.phase == WaitingCancelAck ==> t.handled + t.mail == t.feed
    ensures t.phase == WaitingAgree ==> t.handled == []
    ensures t.phase == WaitingAgree && t.member.Some? ==>
      t.mail != [] && t.mail[0].performative == Agree && t.mail[1..] == t.feed
    ensures t.phase == WaitingAgree && t.member.None? ==> t.feed == []
    ensures t.phase == WaitingNotify ==> t.member.Some? && !t.done
    ensures t.member == t.joined
    ensures forall m :: m in t.handled ==> m.performative == Inform && m.conversationId == t.conv
  {
    forall m | m in t.handled && t.handled <= t.feed ensures m in t.feed {
      var i :| 0 <= i < |t.handled| && t.handled[i] == m;
      assert t.feed[i] == m;
    }
  }

  /** In every state of every run and for every subscriber: what handleNotify was given
      is a prefix of the feed, the INFORMs announced while the publisher held the
      subscription plus the farewell, in order and each once. Once the AGREE is read
      the rest of the feed is exactly what is still queued; before that nothing is
      lost, for the AGREE and the whole feed are queued. */
  lemma DeliveryInOrder(publisher: string, wishes: map<string, (string, string)>, moves: seq<Move>, who: string)
    requires publisher !in wishes && who in wishes
    ensures var s := Play(Start(publisher, wishes), moves);
      && who in s.subs && who in s.handled
      && var sub, handled, queued, feed := s.subs[who], s.handled[who], Queue(s.bus, who), Feed(s.events, publisher, who);
      && handled <= feed
      && (forall m :: m in handled ==> m.performative == Inform && m.conversationId == sub.convId)
      && (sub.phase == WaitingNotify || sub.phase == WaitingCancelAck ==> handled + queued == feed)
      && (sub.phase == WaitingAgree && who in s.pub.subscribers ==>
            handled == [] && queued != [] && queued[0].performative == Agree && queued[1..] == feed)
      && (sub.phase == WaitingAgree && who !in s.pub.subscribers ==> handled == feed == [])
  {
    hide Inv, Play, Fits, Feed, Member, MessagesOf;
    var start := Start(publisher, wishes);
    StartInv(publisher, wishes);
    PlayKeepsInv(start, moves);
    NamesStay(start, moves);
    var s := Play(start, moves);
    assert who in start.subs.Keys;
    InvParts(s, who);
    LocalDelivery(TalkOf(s, who));
  }

  /** The publisher's map is always the membership its decisions imply, and a subscriber
      that waits for notifications is in it under its own conversation. */
  lemma MembershipExact(publisher: string, wishes: map<string, (string, string)>, moves: seq<Move>, who: string)
    requires publisher !in wishes && who in wishes
    ensures var s := Play(Start(publisher, wishes), moves);
      && who in s.subs
      && Entry(s.pub.subscribers, who) == Member(s.events, who)
      && (who in s.pub.subscribers ==> s.pub.subscribers[who] == s.subs[who].convId)
      && (s.subs[who].phase == WaitingNotify ==> who in s.pub.subscribers)
  {
    hide Inv, Play, Feed, Member, MessagesOf;
    var start := Start(publisher, wishes);
    StartInv(publisher, wishes);
    PlayKeepsInv(start, moves);
    NamesStay(start, moves);
    var s := Play(start, moves);
    assert who in start.subs.Keys;
    InvParts(s, who);
    LocalMember(TalkOf(s, who));
  }

  lemma LocalMember(t: Talk)
    requires Fits(t)
    ensures t.member == t.joined && (t.member.Some? ==> t.member.value == t.conv)
    ensures t.phase == WaitingNotify ==> t.member.Some?
  {
  }

  /** The agents that are subscribed, by the publisher's decisions. */
  function Members(names: set<string>, events: seq<Event>): set<string> {
    set who | who in names && Member(events, who).Some?
  }

  /** What subscriberCount counts: the agents whose SUBSCRIBE was accepted and whose
      CANCEL has not been served since. */
  lemma SubscribersCounted(publisher: string, wishes: map<string, (string, string)>, moves: seq<Move>)
    requires publisher !in wishes
    ensures var s := Play(Start(publisher, wishes), moves);
      |s.pub.subscribers| == |Members(wishes.Keys, s.events)|
  {
    hide Inv, Play, Fits, Feed, Member, MessagesOf;
    var start := Start(publisher, wishes);
    StartInv(publisher, wishes);
    PlayKeepsInv(start, moves);
    NamesStay(start, moves);
    var s := Play(start, moves);
    SetupOf(s);
    var members := Members(wishes.Keys, s.events);
    forall who ensures who in s.pub.subscribers <==> who in members {
      assert who in s.pub.subscribers ==> who in start.subs.Keys;
      if who in wishes {
        MembershipExact(publisher, wishes, moves, who);
      }
    }
    assert s.pub.subscribers.Keys == members;
  }
}
