/** The in-memory transport of MockTransport.hpp: one FIFO queue a name. */
module MessageBus {
  import opened Options
  import opened AclMessages

  type Queues<T> = map<string, seq<T>>

  function Queue<T>(bus: Queues<T>, name: string): seq<T> {
    if name in bus then bus[name] else []
  }

  function Enqueued<T>(bus: Queues<T>, to: string, x: T): Queues<T> {
    bus[to := Queue(bus, to) + [x]]
  }

  /** What poll returns. */
  function Front<T>(bus: Queues<T>, name: string): Option<T> {
    if Queue(bus, name) == [] then None else Some(Queue(bus, name)[0])
  }

  /** What poll leaves. */
  function Polled<T>(bus: Queues<T>, name: string): Queues<T> {
    if Queue(bus, name) == [] then bus else bus[name := Queue(bus, name)[1..]]
  }

  class MockBus {
    var queues: Queues<Message>

    constructor ()
      ensures queues == map[]
    {
      queues := map[];
    }

    method Deliver(to: string, msg: Message)
      modifies this
      ensures queues == Enqueued(old(queues), to, msg)
    {
      if to !in queues {
        queues := queues[to := []];
      }
      queues := queues[to := queues[to] + [msg]];
    }

    method Poll(name: string) returns (msg: Option<Message>)
      modifies this
      ensures msg == Front(old(queues), name)
      ensures queues == Polled(old(queues), name)
    {
      if name !in queues || queues[name] == [] {
        return None;
      }
      msg := Some(queues[name][0]);
      queues := queues[name := queues[name][1..]];
    }

    method Clear(name: string)
      modifies this
      ensures queues == old(queues) - {name}
    {
      queues := queues - {name};
    }

    method Pending(name: string) returns (n: nat)
      ensures n == |Queue(queues, name)|
    {
      if name !in queues {
        return 0;
      }
      n := |queues[name]|;
    }
  }

  // ----- lossless, in order, each message once -----

  /** One call on the bus. */
  datatype Call<T> = Send(to: string, x: T) | Receive(name: string)

  function After<T>(bus: Queues<T>, c: Call<T>): Queues<T> {
    match c
    case Send(to, x) => Enqueued(bus, to, x)
    case Receive(name) => Polled(bus, name)
  }

  function AfterAll<T>(bus: Queues<T>, calls: seq<Call<T>>): Queues<T> {
    if calls == [] then bus else After(AfterAll(bus, calls[..|calls| - 1]), calls[|calls| - 1])
  }

  /** What one call sends to a name, and what it receives under it. */
  function SentBy<T>(c: Call<T>, name: string): seq<T> {
    if c.Send? && c.to == name then [c.x] else []
  }

  function ReceivedBy<T>(bus: Queues<T>, c: Call<T>, name: string): seq<T> {
    if c.Receive? && c.name == name && Queue(bus, name) != [] then [Queue(bus, name)[0]] else []
  }

  /** Everything sent to a name, and everything received under it, in order. */
  function Sent<T>(calls: seq<Call<T>>, name: string): seq<T> {
    if calls == [] then [] else Sent(calls[..|calls| - 1], name) + SentBy(calls[|calls| - 1], name)
  }

  function Received<T>(bus: Queues<T>, calls: seq<Call<T>>, name: string): seq<T> {
    if calls == [] then []
    else
      var before := calls[..|calls| - 1];
      Received(bus, before, name) + ReceivedBy(AfterAll(bus, before), calls[|calls| - 1], name)
  }

  lemma OneCall<T>(bus: Queues<T>, c: Call<T>, name: string, got: seq<T>, sent: seq<T>)
    requires got + Queue(bus, name) == sent
    ensures got + ReceivedBy(bus, c, name) + Queue(After(bus, c), name) == sent + SentBy(c, name)
  {
    var q := Queue(bus, name);
    if c.Send? && c.to == name {
      assert Queue(After(bus, c), name) == q + [c.x];
      assert got + [] + (q + [c.x]) == got + q + [c.x];
    } else if c.Receive? && c.name == name && q != [] {
      assert Queue(After(bus, c), name) == q[1..];
      assert got + [q[0]] + q[1..] == got + q;
    } else {
      assert Queue(After(bus, c), name) == q;
      assert got + [] + q == got + q;
    }
  }

  /** Whatever the calls and however they interleave, what was received under a name
      followed by what is still queued is what was queued at first and then sent. */
  lemma {:induction false} FifoExact<T>(bus: Queues<T>, calls: seq<Call<T>>, name: string)
    ensures Received(bus, calls, name) + Queue(AfterAll(bus, calls), name) == Queue(bus, name) + Sent(calls, name)
  {
    if calls != [] {
      hide After, ReceivedBy, SentBy;
      var before, c := calls[..|calls| - 1], calls[|calls| - 1];
      FifoExact(bus, before, name);
      OneCall(AfterAll(bus, before), c, name, Received(bus, before, name), Queue(bus, name) + Sent(before, name));
      assert Queue(bus, name) + Sent(before, name) + SentBy(c, name) == Queue(bus, name) + (Sent(before, name) + SentBy(c, name));
    }
  }
}
