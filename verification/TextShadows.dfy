/** What running over texts has in common for all protocols: messages up to their
    addresses, the texts that stand for them, and queues of both. */
module TextShadows {
  import opened Options
  import opened AclMessages
  import opened AclTokens
  import opened AclCodec
  import opened AclRoundTrip
  import opened MessageBus
  import opened Transport
  import opened Counting
  import opened SpokenMessages

  /** The same envelopes, up to the addresses in the messages. */
  predicate SameMail(a: seq<Envelope>, b: seq<Envelope>) {
    |a| == |b| && forall i :: 0 <= i < |a| ==> a[i].to == b[i].to && EraseAddresses(a[i].msg) == EraseAddresses(b[i].msg)
  }

  /** The messages without their addresses. */
  function EraseAll(ms: seq<Message>): (r: seq<Message>)
    ensures |r| == |ms| && forall i :: 0 <= i < |ms| ==> r[i] == EraseAddresses(ms[i])
  {
    if ms == [] then [] else EraseAll(ms[..|ms| - 1]) + [EraseAddresses(ms[|ms| - 1])]
  }

  lemma EraseAllAppend(ms: seq<Message>, m: Message)
    ensures EraseAll(ms + [m]) == EraseAll(ms) + [EraseAddresses(m)]
  {
  }

  lemma EraseAllInit(ms: seq<Message>)
    requires ms != []
    ensures EraseAll(ms)[..|ms| - 1] == EraseAll(ms[..|ms| - 1])
    ensures EraseAll(ms)[|ms| - 1] == EraseAddresses(ms[|ms| - 1])
  {
    hide EraseAddresses;
  }

  lemma ErasedTwice(m: Message)
    ensures EraseAddresses(EraseAddresses(m)) == EraseAddresses(m)
  {
    assert Names(Names(m.receivers)) == Names(m.receivers);
  }

  lemma SameMailAppend(a: seq<Envelope>, b: seq<Envelope>, x: Envelope, y: Envelope)
    requires SameMail(a, b) && x.to == y.to && EraseAddresses(x.msg) == EraseAddresses(y.msg)
    ensures SameMail(a + [x], b + [y])
  {
    hide EraseAddresses;
  }

  lemma SameMailSelf(es: seq<Envelope>)
    ensures SameMail(es, es)
  {
    hide EraseAddresses;
  }

  lemma SameMailConcat(a: seq<Envelope>, b: seq<Envelope>, c: seq<Envelope>, d: seq<Envelope>)
    requires SameMail(a, b) && SameMail(c, d)
    ensures SameMail(a + c, b + d)
  {
    hide EraseAddresses;
  }

  lemma ErasedSender(m: Message)
    ensures EraseAddresses(m).sender.name == m.sender.name
    ensures EraseAddresses(m).performative == m.performative && EraseAddresses(m).conversationId == m.conversationId
    ensures EraseAddresses(m).replyWith == m.replyWith
  {
  }

  // ----- sending text -----

  function SendTexts(bus: Queues<string>, es: seq<Envelope>): Queues<string>
    decreases |es|
  {
    if es == [] then bus else SendTexts(Enqueued(bus, es[0].to, Print(es[0].msg)), es[1..])
  }

  lemma PrintableErased(m: Message)
    requires Printable(m)
    ensures Printable(EraseAddresses(m))
  {
    hide Canonical, PlainWord;
  }

  /** The text of a message that is printable, whatever its addresses, stands for it. */
  lemma TextStands(a: Message, b: Message)
    requires Printable(a) && EraseAddresses(a) == EraseAddresses(b)
    ensures Stands(Print(a), b)
  {
    hide Printable, Print, EraseAddresses, ParseText;
    PrintThenParse(a);
  }

  lemma SameMailTail(a: seq<Envelope>, b: seq<Envelope>)
    requires SameMail(a, b) && a != []
    ensures b != [] && a[0].to == b[0].to && EraseAddresses(a[0].msg) == EraseAddresses(b[0].msg)
    ensures SameMail(a[1..], b[1..])
  {
    hide EraseAddresses;
  }

  lemma {:induction false} SendMirrors(text: Queues<string>, mock: Queues<Message>, a: seq<Envelope>, b: seq<Envelope>)
    requires Mirrors(text, mock) && SameMail(a, b) && forall e :: e in a ==> Printable(e.msg)
    ensures Mirrors(SendTexts(text, a), SendAll(mock, b))
    decreases |a|
  {
    if a != [] {
      hide Printable, Print, EraseAddresses, Stands, Mirrors, Enqueued, SameMail;
      SameMailTail(a, b);
      assert a[0] in a;
      TextStands(a[0].msg, b[0].msg);
      OneMirrors(text, mock, a[0].to, Print(a[0].msg), b[0].msg);
      SendMirrors(Enqueued(text, a[0].to, Print(a[0].msg)), Enqueued(mock, b[0].to, b[0].msg), a[1..], b[1..]);
    }
  }

  lemma OneMirrors(text: Queues<string>, mock: Queues<Message>, to: string, t: string, m: Message)
    requires Mirrors(text, mock) && Stands(t, m)
    ensures Mirrors(Enqueued(text, to, t), Enqueued(mock, to, m))
  {
    hide Stands;
    var text', mock' := Enqueued(text, to, t), Enqueued(mock, to, m);
    forall name ensures QueueStands(Queue(text', name), Queue(mock', name)) {
      assert QueueStands(Queue(text, name), Queue(mock, name));
    }
  }

  // ----- queues of messages that can travel -----

  ghost predicate QueueReady(q: seq<Message>) {
    forall m :: m in q ==> Ready(m)
  }

  ghost predicate BusReady(bus: Queues<Message>) {
    forall name: string :: QueueReady(Queue(bus, name))
  }

  lemma OneReady(bus: Queues<Message>, to: string, m: Message)
    requires BusReady(bus) && Ready(m)
    ensures BusReady(Enqueued(bus, to, m))
  {
    hide Ready;
    forall q ensures QueueReady(Queue(Enqueued(bus, to, m), q)) {
      assert QueueReady(Queue(bus, q));
    }
  }

  lemma {:induction false} SendAllReady(bus: Queues<Message>, es: seq<Envelope>)
    requires BusReady(bus) && forall e :: e in es ==> Ready(e.msg)
    ensures BusReady(SendAll(bus, es))
    decreases |es|
  {
    if es != [] {
      hide Ready, BusReady;
      assert es[0] in es;
      OneReady(bus, es[0].to, es[0].msg);
      SendAllReady(Enqueued(bus, es[0].to, es[0].msg), es[1..]);
    }
  }

  lemma PolledReady(bus: Queues<Message>, name: string)
    requires BusReady(bus)
    ensures BusReady(Polled(bus, name))
    ensures Front(bus, name).Some? ==> Ready(Front(bus, name).value)
  {
    hide Ready;
    assert QueueReady(Queue(bus, name));
    forall q ensures QueueReady(Queue(Polled(bus, name), q)) {
      assert QueueReady(Queue(bus, q));
    }
  }

  lemma NothingDelivered()
    ensures Delivered(None) == None
  {
  }

  lemma ReadyPrintable(m: Message)
    requires Ready(m)
    ensures Printable(m)
  {
  }

  /** Receiving over both transports. */
  lemma SameFront(text: Queues<string>, mock: Queues<Message>, name: string)
    requires Mirrors(text, mock)
    ensures Decoded(Front(text, name)) == Delivered(Front(mock, name))
    ensures Mirrors(Polled(text, name), Polled(mock, name))
  {
    hide Mirrors, Decoded, Delivered;
    MirrorsReceive(text, mock, name);
  }
}
