/** Counting the messages of one agent, and sums over agents: what the protocol
    invariants are stated with. */
module Counting {
  import opened AclMessages
  import opened MessageBus

  /** A message on its way to a name. */
  datatype Envelope = Envelope(to: string, msg: Message)

  /** How many messages of q the agent p sent with one of the given performatives. */
  function Count(q: seq<Message>, p: string, kinds: set<Performative>): nat {
    if q == [] then 0
    else (if q[0].sender.name == p && q[0].performative in kinds then 1 else 0) + Count(q[1..], p, kinds)
  }

  lemma CountConcat(q: seq<Message>, r: seq<Message>, p: string, kinds: set<Performative>)
    ensures Count(q + r, p, kinds) == Count(q, p, kinds) + Count(r, p, kinds)
  {
    if q == [] {
      assert q + r == r;
    } else {
      assert (q + r)[1..] == q[1..] + r;
      CountConcat(q[1..], r, p, kinds);
    }
  }

  lemma CountOne(q: seq<Message>, m: Message, p: string, kinds: set<Performative>)
    ensures Count(q + [m], p, kinds) ==
      Count(q, p, kinds) + (if m.sender.name == p && m.performative in kinds then 1 else 0)
  {
    CountConcat(q, [m], p, kinds);
    assert [m][1..] == [];
  }

  /** The messages of q in the conversation conv with one of the given performatives, in
      order. */
  function Picked(q: seq<Message>, conv: string, kinds: set<Performative>): seq<Message> {
    if q == [] then []
    else
      var m := q[|q| - 1];
      Picked(q[..|q| - 1], conv, kinds) + (if m.conversationId == conv && m.performative in kinds then [m] else [])
  }

  lemma PickedOne(q: seq<Message>, m: Message, conv: string, kinds: set<Performative>)
    ensures Picked(q + [m], conv, kinds) ==
      Picked(q, conv, kinds) + (if m.conversationId == conv && m.performative in kinds then [m] else [])
  {
    assert (q + [m])[..|q + [m]| - 1] == q;
  }

  /** How many envelopes go to p with one of the given performatives. */
  function CountTo(es: seq<Envelope>, p: string, kinds: set<Performative>): nat {
    if es == [] then 0
    else (if es[0].to == p && es[0].msg.performative in kinds then 1 else 0) + CountTo(es[1..], p, kinds)
  }

  lemma CountToConcat(es: seq<Envelope>, fs: seq<Envelope>, p: string, kinds: set<Performative>)
    ensures CountTo(es + fs, p, kinds) == CountTo(es, p, kinds) + CountTo(fs, p, kinds)
  {
    if es == [] {
      assert es + fs == fs;
    } else {
      assert (es + fs)[1..] == es[1..] + fs;
      CountToConcat(es[1..], fs, p, kinds);
    }
  }

  // ----- sending several messages -----

  function SendAll(bus: Queues<Message>, es: seq<Envelope>): Queues<Message>
    decreases |es|
  {
    if es == [] then bus else SendAll(Enqueued(bus, es[0].to, es[0].msg), es[1..])
  }

  /** The messages among es that go to p, in order. */
  function Mail(es: seq<Envelope>, p: string): seq<Message> {
    if es == [] then [] else (if es[0].to == p then [es[0].msg] else []) + Mail(es[1..], p)
  }

  lemma MailStep(es: seq<Envelope>, p: string)
    requires es != []
    ensures Mail(es, p) == (if es[0].to == p then [es[0].msg] else []) + Mail(es[1..], p)
  {
  }

  lemma {:induction false} MailAppend(es: seq<Envelope>, e: Envelope, p: string)
    ensures Mail(es + [e], p) == Mail(es, p) + (if e.to == p then [e.msg] else [])
  {
    if es == [] {
      assert es + [e] == [e] && [e][1..] == [];
    } else {
      hide Mail;
      assert (es + [e])[1..] == es[1..] + [e] && (es + [e])[0] == es[0];
      MailAppend(es[1..], e, p);
      MailStep(es + [e], p);
      MailStep(es, p);
      Assoc(if es[0].to == p then [es[0].msg] else [], Mail(es[1..], p), if e.to == p then [e.msg] else []);
    }
  }

  /** The messages of q that who sent, in order. */
  function MessagesOf(q: seq<Message>, who: string): seq<Message> {
    if q == [] then [] else (if q[0].sender.name == who then [q[0]] else []) + MessagesOf(q[1..], who)
  }

  lemma MessagesOfStep(q: seq<Message>, who: string)
    requires q != []
    ensures MessagesOf(q, who) == (if q[0].sender.name == who then [q[0]] else []) + MessagesOf(q[1..], who)
  {
  }

  lemma {:induction false} MessagesOfAppend(q: seq<Message>, m: Message, who: string)
    ensures MessagesOf(q + [m], who) == MessagesOf(q, who) + (if m.sender.name == who then [m] else [])
  {
    if q == [] {
      assert q + [m] == [m] && [m][1..] == [];
    } else {
      hide MessagesOf;
      assert (q + [m])[1..] == q[1..] + [m] && (q + [m])[0] == q[0];
      MessagesOfAppend(q[1..], m, who);
      MessagesOfStep(q + [m], who);
      MessagesOfStep(q, who);
      Assoc(if q[0].sender.name == who then [q[0]] else [], MessagesOf(q[1..], who), if m.sender.name == who then [m] else []);
    }
  }

  lemma MessagesOfHead(m: Message, q: seq<Message>, who: string)
    ensures MessagesOf([m] + q, who) == (if m.sender.name == who then [m] else []) + MessagesOf(q, who)
  {
    assert ([m] + q)[1..] == q;
  }

  lemma EnqueuedQueue(bus: Queues<Message>, e: Envelope, p: string)
    ensures Queue(Enqueued(bus, e.to, e.msg), p) == Queue(bus, p) + (if e.to == p then [e.msg] else [])
  {
  }

  lemma Assoc<T>(a: seq<T>, b: seq<T>, c: seq<T>)
    ensures a + b + c == a + (b + c)
  {
  }

  lemma {:induction false} SendAllQueue(bus: Queues<Message>, es: seq<Envelope>, p: string)
    ensures Queue(SendAll(bus, es), p) == Queue(bus, p) + Mail(es, p)
    decreases |es|
  {
    if es != [] {
      hide Enqueued, Queue;
      EnqueuedQueue(bus, es[0], p);
      SendAllQueue(Enqueued(bus, es[0].to, es[0].msg), es[1..], p);
      Assoc(Queue(bus, p), if es[0].to == p then [es[0].msg] else [], Mail(es[1..], p));
    }
  }

  lemma SendAllAppend(bus: Queues<Message>, es: seq<Envelope>, e: Envelope)
    ensures SendAll(bus, es + [e]) == Enqueued(SendAll(bus, es), e.to, e.msg)
    decreases |es|
  {
    if es == [] {
      assert es + [e] == [e] && [e][1..] == [];
    } else {
      assert (es + [e])[1..] == es[1..] + [e];
      SendAllAppend(Enqueued(bus, es[0].to, es[0].msg), es[1..], e);
    }
  }

  lemma SendOne(bus: Queues<Message>, e: Envelope)
    ensures SendAll(bus, [e]) == Enqueued(bus, e.to, e.msg)
  {
    SendAllAppend(bus, [], e);
    assert [] + [e] == [e];
  }

  // ----- sums -----

  predicate Distinct(ps: seq<string>) {
    forall i, j :: 0 <= i < j < |ps| ==> ps[i] != ps[j]
  }

  function Total(ps: seq<string>, f: string -> int): int {
    if ps == [] then 0 else f(ps[0]) + Total(ps[1..], f)
  }

  lemma TotalSame(ps: seq<string>, f: string -> int, g: string -> int)
    requires forall p :: p in ps ==> f(p) == g(p)
    ensures Total(ps, f) == Total(ps, g)
  {
  }

  lemma TotalPlus(ps: seq<string>, f: string -> int, g: string -> int, h: string -> int)
    requires forall p :: p in ps ==> h(p) == f(p) + g(p)
    ensures Total(ps, h) == Total(ps, f) + Total(ps, g)
  {
  }

  lemma TotalAtMost(ps: seq<string>, f: string -> int, bound: int)
    requires forall p :: p in ps ==> f(p) <= bound
    ensures Total(ps, f) <= bound * |ps|
  {
  }

  lemma TotalConst(ps: seq<string>, f: string -> int, c: int)
    requires forall p :: p in ps ==> f(p) == c
    ensures Total(ps, f) == c * |ps|
  {
  }

  lemma TotalLess(ps: seq<string>, f: string -> int, g: string -> int)
    requires forall p :: p in ps ==> f(p) <= g(p)
    ensures Total(ps, f) <= Total(ps, g)
    ensures (exists p :: p in ps && f(p) < g(p)) ==> Total(ps, f) < Total(ps, g)
  {
    if ps != [] {
      TotalLess(ps[1..], f, g);
    }
  }

  /** Changing f at one of the distinct names changes the sum by as much. */
  lemma TotalChange(ps: seq<string>, f: string -> int, g: string -> int, p: string)
    requires Distinct(ps) && p in ps
    requires forall r :: r in ps && r != p ==> f(r) == g(r)
    ensures Total(ps, g) == Total(ps, f) + g(p) - f(p)
  {
    if ps[0] == p {
      assert p !in ps[1..];
      TotalSame(ps[1..], f, g);
    } else {
      TotalChange(ps[1..], f, g, p);
    }
  }

  function CountFn(q: seq<Message>, kinds: set<Performative>): string -> int {
    p => Count(q, p, kinds)
  }

  /** How many messages of q, from anyone, have one of the given performatives. */
  function CountAny(q: seq<Message>, kinds: set<Performative>): nat {
    if q == [] then 0 else (if q[0].performative in kinds then 1 else 0) + CountAny(q[1..], kinds)
  }

  lemma CountAnyAll(q: seq<Message>, kinds: set<Performative>)
    requires forall m :: m in q ==> m.performative in kinds
    ensures CountAny(q, kinds) == |q|
  {
    if q != [] {
      assert q[0] in q;
      CountAnyAll(q[1..], kinds);
    }
  }

  /** Counting the messages of each sender counts all messages. */
  lemma {:induction false} CountsAddUp(ps: seq<string>, q: seq<Message>, kinds: set<Performative>)
    requires Distinct(ps)
    requires forall m :: m in q ==> m.sender.name in ps
    ensures Total(ps, CountFn(q, kinds)) == CountAny(q, kinds)
  {
    if q == [] {
      TotalConst(ps, CountFn(q, kinds), 0);
    } else {
      CountsAddUp(ps, q[1..], kinds);
      assert q[0] in q;
      TotalChange(ps, CountFn(q[1..], kinds), CountFn(q, kinds), q[0].sender.name);
    }
  }

  function CountToFn(es: seq<Envelope>, kinds: set<Performative>): string -> int {
    p => CountTo(es, p, kinds)
  }

  lemma {:induction false} EnvelopesAddUp(ps: seq<string>, es: seq<Envelope>, kinds: set<Performative>)
    requires Distinct(ps)
    requires forall e :: e in es ==> e.to in ps && e.msg.performative in kinds
    ensures Total(ps, CountToFn(es, kinds)) == |es|
  {
    if es == [] {
      TotalConst(ps, CountToFn(es, kinds), 0);
    } else {
      EnvelopesAddUp(ps, es[1..], kinds);
      assert es[0] in es;
      TotalChange(ps, CountToFn(es[1..], kinds), CountToFn(es, kinds), es[0].to);
    }
  }

  function MemberFn(names: seq<string>): string -> int {
    p => multiset(names)[p]
  }

  lemma {:induction false} NamesAddUp(ps: seq<string>, names: seq<string>)
    requires Distinct(ps)
    requires forall a :: a in names ==> a in ps
    ensures Total(ps, MemberFn(names)) == |names|
  {
    if names == [] {
      TotalConst(ps, MemberFn(names), 0);
    } else {
      NamesAddUp(ps, names[1..]);
      assert names == [names[0]] + names[1..];
      assert names[0] in names;
      TotalChange(ps, MemberFn(names[1..]), MemberFn(names), names[0]);
    }
  }

  lemma TotalPositive(ps: seq<string>, f: string -> int) returns (p: string)
    requires Total(ps, f) > 0
    ensures p in ps && f(p) > 0
  {
    if f(ps[0]) > 0 {
      p := ps[0];
    } else {
      p := TotalPositive(ps[1..], f);
    }
  }
}
