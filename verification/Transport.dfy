/** The transport that sends text: acl_send queues toString(msg) and acl_receive
    returns parse(text), where an unreadable text looks like a timeout. Seen by agents
    that look at names and not at addresses it is the in-memory bus, as long as they
    send printable messages. */
module Transport {
  import opened Options
  import opened AclMessages
  import opened AclLexer
  import opened AclTokens
  import opened AclCodec
  import opened AclRoundTrip
  import opened AclMeaning
  import opened MessageBus
  import G = AclGrammar

  /** What receive returns over each transport. */
  function Delivered(got: Option<Message>): Option<Message> {
    match got
    case None => None
    case Some(m) => Some(EraseAddresses(m))
  }

  function Decoded(got: Option<string>): Option<Message> {
    match got
    case None => None
    case Some(text) => ParseText(text)
  }

  /** The sending and receiving of text, each receiver with its queue of texts. */
  class TextTransport {
    var queues: Queues<string>

    constructor ()
      ensures queues == map[]
    {
      queues := map[];
    }

    method AclSend(to: string, msg: Message)
      modifies this
      ensures queues == Enqueued(old(queues), to, Print(msg))
    {
      var raw := ToString(msg);
      queues := queues[to := (if to in queues then queues[to] else []) + [raw]];
    }

    /** None when nothing is queued, and when what is queued cannot be read. */
    method AclReceive(name: string) returns (msg: Option<Message>)
      modifies this
      ensures msg == Decoded(Front(old(queues), name))
      ensures queues == Polled(old(queues), name)
    {
      if name !in queues || queues[name] == [] {
        return None;
      }
      var raw := queues[name][0];
      queues := queues[name := queues[name][1..]];
      var driver := new FipaAclDriver();
      msg := driver.Parse(raw);
    }
  }

  /** What a receive over text returns, whatever text is queued: a message exactly if there
      is a text and the text has a derivation tree that says this message; a text without
      one is taken from the queue like any other, and nothing is returned. */
  lemma ReceiveMeans(queues: Queues<string>, name: string, m: Message)
    ensures Decoded(Front(queues, name)) == Some(m) <==>
      Queue(queues, name) != [] && exists t: G.Tree, ts: seq<Token> :: Means(Queue(queues, name)[0], ts, t, m)
    ensures Queue(Polled(queues, name), name) == if Queue(queues, name) == [] then [] else Queue(queues, name)[1..]
  {
    hide Means, ParseText;
    if Queue(queues, name) != [] {
      TextMeans(Queue(queues, name)[0], m);
    }
  }

  /** The whole multi-agent system, with its schedule and its callbacks: from what has
      been received so far it determines the next call on the transport. */
  type System = seq<Option<Message>> -> Call<Message>

  datatype Run<T> = Run(bus: Queues<T>, seen: seq<Option<Message>>)

  function MockRun(system: System, steps: nat): Run<Message> {
    if steps == 0 then Run(map[], [])
    else
      var run := MockRun(system, steps - 1);
      match system(run.seen)
      case Send(to, m) => Run(Enqueued(run.bus, to, m), run.seen + [None])
      case Receive(name) => Run(Polled(run.bus, name), run.seen + [Delivered(Front(run.bus, name))])
  }

  function TextRun(system: System, steps: nat): Run<string> {
    if steps == 0 then Run(map[], [])
    else
      var run := TextRun(system, steps - 1);
      match system(run.seen)
      case Send(to, m) => Run(Enqueued(run.bus, to, Print(m)), run.seen + [None])
      case Receive(name) => Run(Polled(run.bus, name), run.seen + [Decoded(Front(run.bus, name))])
  }

  /** The text stands for the message. */
  predicate Stands(text: string, m: Message) {
    ParseText(text) == Some(EraseAddresses(m))
  }

  ghost predicate QueueStands(texts: seq<string>, ms: seq<Message>) {
    |texts| == |ms| && forall i :: 0 <= i < |ms| ==> Stands(texts[i], ms[i])
  }

  ghost predicate Mirrors(text: Queues<string>, mock: Queues<Message>) {
    forall name :: QueueStands(Queue(text, name), Queue(mock, name))
  }

  ghost predicate SendsPrintable(system: System, steps: nat) {
    forall k: nat :: k < steps && system(MockRun(system, k).seen).Send? ==> Printable(system(MockRun(system, k).seen).x)
  }

  /** Over text queues every system takes the very steps it takes over the mock bus:
      the same calls in the same order with the same results, so an unreadable message
      never passes for a timeout. */
  lemma {:induction false} TextIsMock(system: System, steps: nat)
    requires SendsPrintable(system, steps)
    ensures TextRun(system, steps).seen == MockRun(system, steps).seen
    ensures Mirrors(TextRun(system, steps).bus, MockRun(system, steps).bus)
  {
    hide Print, ParseText, Printable, EraseAddresses;
    if steps > 0 {
      TextIsMock(system, steps - 1);
      var text, mock := TextRun(system, steps - 1), MockRun(system, steps - 1);
      match system(mock.seen) {
        case Send(to, m) =>
          assert Printable(m);
          PrintThenParse(m);
          MirrorsSend(text.bus, mock.bus, to, m);
        case Receive(name) =>
          MirrorsReceive(text.bus, mock.bus, name);
      }
    }
  }

  lemma MirrorsSend(text: Queues<string>, mock: Queues<Message>, to: string, m: Message)
    requires Mirrors(text, mock) && Stands(Print(m), m)
    ensures Mirrors(Enqueued(text, to, Print(m)), Enqueued(mock, to, m))
  {
    hide Print, Stands;
    var text', mock' := Enqueued(text, to, Print(m)), Enqueued(mock, to, m);
    forall name ensures QueueStands(Queue(text', name), Queue(mock', name)) {
      assert QueueStands(Queue(text, name), Queue(mock, name));
    }
  }

  lemma MirrorsReceive(text: Queues<string>, mock: Queues<Message>, name: string)
    requires Mirrors(text, mock)
    ensures Mirrors(Polled(text, name), Polled(mock, name))
    ensures Decoded(Front(text, name)) == Delivered(Front(mock, name))
  {
    hide ParseText, EraseAddresses;
    assert QueueStands(Queue(text, name), Queue(mock, name));
    var text', mock' := Polled(text, name), Polled(mock, name);
    forall other ensures QueueStands(Queue(text', other), Queue(mock', other)) {
      assert QueueStands(Queue(text, other), Queue(mock, other));
    }
  }

  /** The reply to a printable message is printable just when the message says who
      sent it: an unnamed sender becomes a receiver that no text can name. */
  lemma ReplyPrintable(m: Message, p: Performative)
    requires Printable(m) && p != Unknown
    ensures Printable(CreateReply(m, p)) <==> m.sender.name != ""
  {
    hide Canonical;
    assert Canonical("") by { EmptyIsCanonical(); }
    assert CreateReply(m, p).receivers[0] == m.sender;
    assert !PlainWord("");
  }

  /** The reply to a message without a sender: what was printed is not what is read. */
  lemma NamelessReply()
    ensures var m := Fresh(Request); Printable(m) && !Printable(CreateReply(m, Inform))
    ensures var reply := CreateReply(Fresh(Request), Inform); ParseText(Print(reply)) != Some(EraseAddresses(reply))
  {
    hide Canonical, Print, ParseText;
    EmptyIsCanonical();
    ReplyPrintable(Fresh(Request), Inform);
    RoundTrip(CreateReply(Fresh(Request), Inform));
  }

  lemma EmptyIsCanonical()
    ensures Canonical("")
  {
  }
}
