/** What every subscriber is told, read off the publisher's decisions alone: the contents
    and ontologies announced while it was subscribed, and the farewell text. */
module SubscribeWords {
  import opened AclMessages
  import opened MessageBus
  import opened SubscribeNotify
  import opened SubscribeDelivery
  import opened SubscribeRoles

  datatype Word = Word(content: string, ontology: string)

  /** What was announced to who while it was subscribed, and the farewell. */
  function Told(events: seq<Event>, who: string): seq<Word> {
    if events == [] then []
    else
      var before := events[..|events| - 1];
      Told(before, who) +
        match events[|events| - 1]
        case Announce(content, ontology) => if Member(before, who).Some? then [Word(content, ontology)] else []
        case AnnounceTo(w, content, ontology) =>
          if w == who && Member(before, who).Some? then [Word(content, ontology)] else []
        case Leave(w, _, farewell) => if w == who && farewell != "" then [Word(farewell, "")] else []
        case Admit(_, _) => []
  }

  /** The messages say the words, one each, in order. */
  predicate SayAll(ms: seq<Message>, from: string, words: seq<Word>) {
    && |ms| == |words|
    && forall i :: 0 <= i < |ms| ==> Says(ms[i], from, words[i].content, words[i].ontology)
  }

  lemma {:induction false} FeedSays(events: seq<Event>, from: string, who: string)
    ensures SayAll(Feed(events, from, who), from, Told(events, who))
  {
    if events != [] {
      FeedSays(events[..|events| - 1], from, who);
      hide Member;
    }
  }

  /** In every state of every run, for every subscriber: what handleNotify was given says,
      message by message, the first of the words that were told it, in its conversation
      and in the publisher's name; while it waits for notifications, what is queued says
      exactly the rest; and while it waits for the AGREE and is already subscribed, the
      AGREE and all the words are queued. */
  lemma WordsArrive(publisher: string, wishes: map<string, (string, string)>, moves: seq<Move>, who: string)
    requires publisher !in wishes && who in wishes
    ensures var s := Play(Start(publisher, wishes), moves);
      && who in s.subs && who in s.handled
      && var sub, handled, queued, told := s.subs[who], s.handled[who], Queue(s.bus, who), Told(s.events, who);
      && |handled| <= |told| && SayAll(handled, publisher, told[..|handled|])
      && (forall m :: m in handled ==> m.conversationId == sub.convId)
      && (sub.phase == WaitingNotify || sub.phase == WaitingCancelAck ==> SayAll(handled + queued, publisher, told))
      && (sub.phase == WaitingAgree && who in s.pub.subscribers ==>
            handled == [] && queued != [] && queued[0].performative == Agree && SayAll(queued[1..], publisher, told))
  {
    hide Play, Start, Feed, Told, Says;
    DeliveryInOrder(publisher, wishes, moves, who);
    FeedSays(Play(Start(publisher, wishes), moves).events, publisher, who);
  }
}
