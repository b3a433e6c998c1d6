/** How many times exthread calls action() on a behaviour: over a sequence the sum of
    what the children take, over a parallel the maximum or the minimum, whatever the
    children are; and hence the exact cost of every tree of sequences and parallels. */
module BehaviourTicks {
  import opened Behaviours

  // ----- times -----

  function Plus(a: Time, b: Time): Time {
    if a.Ticks? && b.Ticks? then Ticks(a.n + b.n) else Forever
  }

  function Max(a: Time, b: Time): Time {
    if a.Forever? || b.Forever? then Forever else if a.n <= b.n then b else a
  }

  function Min(a: Time, b: Time): Time {
    if a.Forever? then b else if b.Forever? || a.n <= b.n then a else b
  }

  function AtLeastOne(a: Time): Time {
    Max(Ticks(1), a)
  }

  function Minus(a: Time, n: nat): Time {
    if a.Forever? then Forever else if a.n <= n then Ticks(0) else Ticks(a.n - n)
  }

  function Sum(ts: seq<Time>): Time {
    if ts == [] then Ticks(0) else Plus(ts[0], Sum(ts[1..]))
  }

  function Greatest(ts: seq<Time>): Time {
    if ts == [] then Ticks(0) else Max(ts[0], Greatest(ts[1..]))
  }

  function Least(ts: seq<Time>): Time {
    if ts == [] then Ticks(0) else if |ts| == 1 then ts[0] else Min(ts[0], Least(ts[1..]))
  }

  predicate Before(n: nat, t: Time) {
    t.Forever? || n < t.n
  }

  // ----- the loop -----

  /** The tree after n rounds of action() and done(). */
  function Driven(b: Behaviour, n: nat): Behaviour {
    if n == 0 then b else Done(Action(Driven(b, n - 1)))
  }

  /** None of the first n rounds ends the loop. */
  predicate Runs(b: Behaviour, n: nat) {
    n == 0 || (Runs(b, n - 1) && !IsDone(Action(Driven(b, n - 1)).body))
  }

  /** A started behaviour that needs exactly t rounds of action() and done(). */
  ghost predicate Takes(b: Behaviour, t: Time) {
    Sane(b) && b.life == Ready && forall n: nat :: Runs(b, n) <==> Before(n, t)
  }

  lemma {:induction false} RunsShift(b: Behaviour, n: nat)
    ensures Driven(b, n + 1) == Driven(Done(Action(b)), n)
    ensures Runs(b, n + 1) <==> !IsDone(Action(b).body) && Runs(Done(Action(b)), n)
  {
    hide Action, Done, IsDone;
    if n > 0 {
      RunsShift(b, n - 1);
    }
  }

  lemma TakesPositive(b: Behaviour, t: Time)
    requires Takes(b, t)
    ensures t != Ticks(0)
  {
    hide Sane;
    assert Runs(b, 0);
  }

  /** One round of a behaviour that takes t. */
  lemma TakesRound(b: Behaviour, t: Time)
    requires Takes(b, t)
    ensures t != Ticks(0) && (IsDone(Action(b).body) <==> t == Ticks(1))
    ensures t != Ticks(1) ==> Takes(Done(Action(b)), Minus(t, 1))
  {
    hide Sane, Action, Done, IsDone, Runs, Driven;
    TakesPositive(b, t);
    assert Runs(b, 1) <==> Before(1, t);
    assert Runs(b, 1) <==> !IsDone(Action(b).body) by {
      RunsShift(b, 0);
      RunsNone(Done(Action(b)));
    }
    if t != Ticks(1) {
      ActionKeepsSane(b);
      DoneKeepsSane(Action(b));
      forall n: nat ensures Runs(Done(Action(b)), n) <==> Before(n, Minus(t, 1)) {
        RunsShift(b, n);
        assert Runs(b, n + 1) <==> Before(n + 1, t);
      }
    }
  }

  lemma {:induction false} RunsDown(b: Behaviour, m: nat, n: nat)
    requires m <= n && Runs(b, n)
    ensures Runs(b, m)
  {
    if m < n {
      RunsDown(b, m, n - 1);
    }
  }

  lemma {:induction false} FirstEnd(b: Behaviour, n: nat) returns (k: nat)
    requires !Runs(b, n)
    ensures k > 0 && Runs(b, k - 1) && !Runs(b, k)
  {
    if Runs(b, n - 1) {
      k := n;
    } else {
      k := FirstEnd(b, n - 1);
    }
  }

  /** Every started behaviour takes some time, a number of rounds or for ever. */
  lemma SomeTime(b: Behaviour) returns (t: Time)
    requires Sane(b) && b.life == Ready
    ensures Takes(b, t)
  {
    hide Sane;
    if k: nat :| !Runs(b, k) {
      var n := FirstEnd(b, k);
      t := Ticks(n);
      forall m: nat ensures Runs(b, m) <==> Before(m, t) {
        if m < n {
          RunsDown(b, m, n - 1);
        } else if Runs(b, m) {
          RunsDown(b, n, m);
        }
      }
    } else {
      t := Forever;
    }
  }

  lemma RunsNone(b: Behaviour)
    ensures Runs(b, 0)
  {
  }

  lemma TurnInSteps(b: Behaviour)
    ensures TurnEnds(b) == IsDone(Action(b).body)
    ensures Turn(b) == if IsDone(Action(b).body) then OnEnd(Done(Action(b))) else Done(Action(b))
  {
  }

  /** One turn that a composite gives to a child that takes t. */
  lemma TakesTurn(b: Behaviour, t: Time)
    requires Takes(b, t)
    ensures t != Ticks(0) && (TurnEnds(b) <==> t == Ticks(1))
    ensures !TurnEnds(b) ==> Takes(Turn(b), Minus(t, 1))
  {
    hide Takes, Turn, TurnEnds, Action, Done, IsDone;
    TurnInSteps(b);
    TakesRound(b, t);
  }

  /** Done exactly when one tick was left, and otherwise one tick less is left. */
  predicate Ticked(before: Time, after: Time, done: bool) {
    && (before.Ticks? ==> before.n >= 1)
    && (done <==> before == Ticks(1))
    && (!done ==> after == Minus(before, 1))
  }

  // ----- sequences -----

  lemma SequentialRound(b: Behaviour, cs: seq<Behaviour>, current: nat)
    requires Sane(b) && b.life == Ready && b.body == Sequential(cs, current)
    ensures Sane(Done(Action(b))) && (!IsDone(Action(b).body) ==> Done(Action(b)).life == Ready)
    ensures Action(b).body == SequentialAction(cs, current) && Done(Action(b)).body == SequentialAction(cs, current)
  {
    ActionKeepsSane(b);
    DoneKeepsSane(Action(b));
  }

  /** A sequence whose current child takes left, and whose later children will take
      rest, takes the sum. */
  lemma {:induction false} SequentialRuns(b: Behaviour, cs: seq<Behaviour>, current: nat, left: Time, rest: seq<Time>, n: nat)
    requires Sane(b) && b.life == Ready && b.body == Sequential(cs, current) && current < |cs|
    requires Takes(cs[current], left) && |rest| == |cs| - current - 1
    requires forall j :: 0 <= j < |rest| ==> Takes(OnStart(cs[current + 1 + j]), rest[j])
    ensures Runs(b, n) <==> Before(n, Plus(left, Sum(rest)))
    decreases n
  {
    hide Sane, Takes, Turn, TurnEnds, Action, Done, OnStart, Driven;
    TakesTurn(cs[current], left);
    if n > 0 {
      RunsShift(b, n - 1);
      SequentialRound(b, cs, current);
      hide Runs;
      var b' := Done(Action(b));
      if !TurnEnds(cs[current]) {
        SequentialRuns(b', cs[current := Turn(cs[current])], current, Minus(left, 1), rest, n - 1);
      } else if current + 1 < |cs| {
        var next := cs[current := Turn(cs[current])][current + 1 := OnStart(cs[current + 1])];
        assert rest[0] == rest[0] && Takes(OnStart(cs[current + 1 + 0]), rest[0]);
        forall j | 0 <= j < |rest[1..]| ensures Takes(OnStart(next[current + 2 + j]), rest[1..][j]) {
          assert rest[1..][j] == rest[j + 1] && next[current + 2 + j] == cs[current + 1 + (j + 1)];
        }
        SequentialRuns(b', next, current + 1, rest[0], rest[1..], n - 1);
      }
    }
  }

  /** A sequence takes what its children take, one after the other. */
  lemma SequentialTakes(b: Behaviour, cs: seq<Behaviour>, current: nat, ts: seq<Time>)
    requires Sane(b) && Resting(b) && b.body == Sequential(cs, current)
    requires |ts| == |cs| && forall i :: 0 <= i < |cs| ==> Takes(OnStart(cs[i]), ts[i])
    ensures Takes(OnStart(b), AtLeastOne(Sum(ts)))
  {
    StartKeepsSane(b);
    var a := OnStart(b);
    if cs == [] {
      forall n: nat ensures Runs(a, n) <==> Before(n, Ticks(1)) {
        EmptySequence(a, n);
      }
    } else {
      var started := cs[0 := OnStart(cs[0])];
      assert a.body == Sequential(started, 0);
      hide Sane, Takes, OnStart, Action, Done;
      TakesPositive(started[0], ts[0]);
      forall n: nat ensures Runs(a, n) <==> Before(n, AtLeastOne(Sum(ts))) {
        SequentialRuns(a, started, 0, ts[0], ts[1..], n);
      }
      TakesFrom(a, AtLeastOne(Sum(ts)));
    }
  }

  lemma TakesFrom(b: Behaviour, t: Time)
    requires Sane(b) && b.life == Ready && forall n: nat :: Runs(b, n) <==> Before(n, t)
    ensures Takes(b, t)
  {
    hide Sane, Runs;
  }

  lemma {:induction false} EmptySequence(b: Behaviour, n: nat)
    requires b.body == Sequential([], 0)
    ensures Runs(b, n) <==> n < 1
  {
    if n > 0 {
      RunsShift(b, n - 1);
    }
  }

  // ----- parallels: every time goes down by one -----

  predicate AllTicked(before: seq<Time>, after: seq<Time>) {
    |before| == |after| && forall i :: 0 <= i < |before| ==> after[i] == Minus(before[i], 1)
  }

  lemma GreatestTicked(before: seq<Time>, after: seq<Time>)
    requires AllTicked(before, after)
    ensures Greatest(after) == Minus(Greatest(before), 1)
  {
    if before != [] {
      GreatestTicked(before[1..], after[1..]);
    }
  }

  lemma LeastTicked(before: seq<Time>, after: seq<Time>)
    requires AllTicked(before, after)
    ensures Least(after) == Minus(Least(before), 1)
  {
    if |before| > 1 {
      LeastTicked(before[1..], after[1..]);
    }
  }

  lemma GreatestZero(ts: seq<Time>)
    ensures Greatest(ts) == Ticks(0) <==> forall i :: 0 <= i < |ts| ==> ts[i] == Ticks(0)
  {
    if ts != [] {
      GreatestZero(ts[1..]);
      assert forall i :: 0 <= i < |ts[1..]| ==> ts[1..][i] == ts[i + 1];
      assert (forall i :: 0 <= i < |ts| ==> ts[i] == Ticks(0)) <==>
        ts[0] == Ticks(0) && forall i :: 0 <= i < |ts[1..]| ==> ts[1..][i] == Ticks(0);
    }
  }

  lemma LeastZero(ts: seq<Time>)
    requires ts != []
    ensures Least(ts) == Ticks(0) <==> exists i :: 0 <= i < |ts| && ts[i] == Ticks(0)
  {
    if |ts| > 1 {
      LeastZero(ts[1..]);
      if exists i :: 0 <= i < |ts| && ts[i] == Ticks(0) {
        var i :| 0 <= i < |ts| && ts[i] == Ticks(0);
        assert i == 0 || ts[1..][i - 1] == Ticks(0);
      }
      if exists i :: 0 <= i < |ts[1..]| && ts[1..][i] == Ticks(0) {
        var i :| 0 <= i < |ts[1..]| && ts[1..][i] == Ticks(0);
        assert ts[i + 1] == Ticks(0);
      }
    } else {
      assert ts == [ts[0]];
    }
  }

  lemma ParallelTimes(before: seq<Time>, after: seq<Time>, any: bool, ended: seq<bool>)
    requires AllTicked(before, after) && |ended| == |after|
    requires forall i :: 0 <= i < |after| ==> (ended[i] <==> after[i] == Ticks(0))
    ensures Ticked(AtLeastOne(if any then Least(before) else Greatest(before)),
                   AtLeastOne(if any then Least(after) else Greatest(after)),
                   ParallelDone(|after|, any, ended))
  {
    if before != [] {
      if any {
        LeastTicked(before, after);
        LeastZero(after);
        hide Least;
        assert ParallelDone(|after|, any, ended) <==> Least(after) == Ticks(0);
      } else {
        GreatestTicked(before, after);
        GreatestZero(after);
        hide Greatest;
        assert ParallelDone(|after|, any, ended) <==> Greatest(after) == Ticks(0);
      }
    }
  }

  lemma ParallelRound(b: Behaviour, cs: seq<Behaviour>, any: bool, ended: seq<bool>)
    requires Sane(b) && b.life == Ready && b.body == Parallel(cs, any, ended)
    ensures |ended| == |cs|
    ensures var turned := TurnAll(cs, ended);
      Action(b).body == Parallel(turned.0, any, turned.1) && Done(Action(b)).body == Parallel(turned.0, any, turned.1)
    ensures Sane(Done(Action(b))) && (!IsDone(Action(b).body) ==> Done(Action(b)).life == Ready)
  {
    ActionKeepsSane(b);
    DoneKeepsSane(Action(b));
  }

  function LessOne(ts: seq<Time>): (r: seq<Time>)
    ensures |r| == |ts| && forall i :: 0 <= i < |ts| ==> r[i] == Minus(ts[i], 1)
  {
    if ts == [] then [] else [Minus(ts[0], 1)] + LessOne(ts[1..])
  }

  /** What one turn leaves of each child. */
  lemma TurnsTake(cs: seq<Behaviour>, ended: seq<bool>, lefts: seq<Time>, i: nat)
    requires |ended| == |cs| == |lefts| && i < |cs|
    requires if ended[i] then lefts[i] == Ticks(0) else Takes(cs[i], lefts[i])
    ensures var turned := TurnAll(cs, ended);
      && (turned.1[i] <==> LessOne(lefts)[i] == Ticks(0))
      && (!turned.1[i] ==> Takes(turned.0[i], LessOne(lefts)[i]))
  {
    hide Takes, Turn, TurnEnds;
    if !ended[i] {
      TakesTurn(cs[i], lefts[i]);
    }
  }

  /** A parallel whose children have these times left takes the greatest of them, or the
      least. */
  lemma {:induction false} ParallelRuns(b: Behaviour, cs: seq<Behaviour>, any: bool, ended: seq<bool>, lefts: seq<Time>, n: nat)
    requires Sane(b) && b.life == Ready && b.body == Parallel(cs, any, ended) && |ended| == |cs| == |lefts|
    requires forall i :: 0 <= i < |cs| ==> if ended[i] then lefts[i] == Ticks(0) else Takes(cs[i], lefts[i])
    ensures Runs(b, n) <==> Before(n, AtLeastOne(if any then Least(lefts) else Greatest(lefts)))
    decreases n
  {
    hide Sane, Takes, Turn, TurnEnds, Action, Done, Driven, Least, Greatest, TurnAll, ParallelDone;
    if n > 0 {
      RunsShift(b, n - 1);
      ParallelRound(b, cs, any, ended);
      hide Runs;
      var turned := TurnAll(cs, ended);
      forall i | 0 <= i < |cs|
        ensures turned.1[i] <==> LessOne(lefts)[i] == Ticks(0)
        ensures !turned.1[i] ==> Takes(turned.0[i], LessOne(lefts)[i])
      {
        TurnsTake(cs, ended, lefts, i);
      }
      ParallelTimes(lefts, LessOne(lefts), any, turned.1);
      if !ParallelDone(|cs|, any, turned.1) {
        ParallelRuns(Done(Action(b)), turned.0, any, turned.1, LessOne(lefts), n - 1);
      }
    }
  }

  /** A parallel takes as long as the longest of its children, or the shortest. */
  lemma ParallelTakes(b: Behaviour, cs: seq<Behaviour>, any: bool, ended: seq<bool>, ts: seq<Time>)
    requires Sane(b) && Resting(b) && b.body == Parallel(cs, any, ended)
    requires |ts| == |cs| && forall i :: 0 <= i < |cs| ==> Takes(OnStart(cs[i]), ts[i])
    ensures Takes(OnStart(b), AtLeastOne(if any then Least(ts) else Greatest(ts)))
  {
    StartKeepsSane(b);
    var a := OnStart(b);
    assert a.body == Parallel(StartAll(cs), any, NoneEnded(|cs|));
    hide Sane, Takes, OnStart, Action, Done, Least, Greatest;
    forall n: nat ensures Runs(a, n) <==> Before(n, AtLeastOne(if any then Least(ts) else Greatest(ts))) {
      ParallelRuns(a, StartAll(cs), any, NoneEnded(|cs|), ts, n);
    }
    TakesFrom(a, AtLeastOne(if any then Least(ts) else Greatest(ts)));
  }

  // ----- leaves -----

  lemma {:induction false} SimpleRuns(b: Behaviour, plan: nat -> Visit, starts: nat, acts: nat, n: nat)
    requires b.body == Simple(plan, starts, acts)
    ensures Runs(b, n) <==> Before(n, AtLeastOne(Minus(plan(starts).needs, acts)))
    decreases n
  {
    if n > 0 {
      RunsShift(b, n - 1);
      hide Runs, Driven;
      if !IsDone(Action(b).body) {
        SimpleRuns(Done(Action(b)), plan, starts, acts + 1, n - 1);
      }
    }
  }

  lemma {:induction false} WakerRuns(b: Behaviour, timer: nat, visits: nat, wakes: nat, n: nat)
    requires b.body == Waker(timer, visits, wakes)
    ensures Runs(b, n) <==> Before(n, AtLeastOne(Ticks(timer)))
    decreases n
  {
    if n > 0 {
      RunsShift(b, n - 1);
      hide Runs, Driven;
      if !IsDone(Action(b).body) {
        WakerRuns(Done(Action(b)), timer - 1, visits, wakes, n - 1);
      }
    }
  }

  // ----- the cost of a tree -----

  /** Trees without state machines: what those take depends on where they go. */
  predicate Plain(b: Behaviour)
    decreases b
  {
    match b.body
    case Simple(_, _, _) => true
    case Waker(_, _, _) => true
    case Sequential(cs, _) => forall i :: 0 <= i < |cs| ==> Plain(cs[i])
    case Parallel(cs, _, _) => forall i :: 0 <= i < |cs| ==> Plain(cs[i])
    case Fsm(_) => false
  }

  /** What the next visit of the tree takes. */
  function Cost(b: Behaviour): Time
    requires Plain(b)
    decreases b
  {
    AtLeastOne(match b.body
      case Simple(plan, starts, _) => plan(starts + 1).needs
      case Waker(timer, _, _) => Ticks(timer)
      case Sequential(cs, _) => Sum(Costs(cs))
      case Parallel(cs, any, _) => if any then Least(Costs(cs)) else Greatest(Costs(cs)))
  }

  function Costs(cs: seq<Behaviour>): (r: seq<Time>)
    requires forall i :: 0 <= i < |cs| ==> Plain(cs[i])
    ensures |r| == |cs|
    ensures forall i :: 0 <= i < |cs| ==> r[i] == Cost(cs[i])
    decreases cs
  {
    if cs == [] then [] else [Cost(cs[0])] + Costs(cs[1..])
  }

  lemma {:induction false} TreeTakes(b: Behaviour)
    requires Plain(b) && Sane(b) && Resting(b)
    ensures Takes(OnStart(b), Cost(b))
    decreases b
  {
    match b.body {
      case Simple(plan, starts, acts) => LeafTakes(b);
      case Waker(_, _, _) => LeafTakes(b);
      case Sequential(cs, current) =>
        forall i | 0 <= i < |cs| ensures Takes(OnStart(cs[i]), Costs(cs)[i]) {
          TreeTakes(cs[i]);
        }
        SequentialTakes(b, cs, current, Costs(cs));
      case Parallel(cs, any, ended) =>
        forall i | 0 <= i < |cs| ensures Takes(OnStart(cs[i]), Costs(cs)[i]) {
          TreeTakes(cs[i]);
        }
        ParallelTakes(b, cs, any, ended, Costs(cs));
      case Fsm(_) =>
    }
  }

  /** A one-shot behaviour, done from the start, still acts once; a cyclic one for ever. */
  lemma OneShotActsOnce(exit: int, n: nat)
    ensures Runs(OnStart(OneShot(exit)), n) <==> n < 1
    ensures Runs(OnStart(Cyclic()), n)
  {
    TreeTakes(OneShot(exit));
    TreeTakes(Cyclic());
  }

  lemma LeafTakes(b: Behaviour)
    requires Sane(b) && Resting(b) && (b.body.Simple? || b.body.Waker?)
    ensures Takes(OnStart(b), Cost(b))
  {
    StartKeepsSane(b);
    var a := OnStart(b);
    hide Sane;
    forall n: nat ensures Runs(a, n) <==> Before(n, Cost(b)) {
      if b.body.Simple? {
        SimpleRuns(a, b.body.plan, b.body.starts + 1, 0, n);
      } else {
        WakerRuns(a, b.body.timer, b.body.visits + 1, b.body.wakes, n);
      }
    }
  }

  // ----- exthread -----

  /** What the loop of exthread calls in n rounds. */
  function LoopCalls(b: Behaviour, n: nat): seq<Call> {
    if n == 0 then [CallStart]
    else LoopCalls(b, n - 1) + [CallAction] + [CallDone(IsDone(Action(Driven(OnStart(b), n - 1)).body))]
  }

  lemma OneMoreCall(b: Behaviour, calls: seq<Call>, call: Call)
    requires Contract(b, calls) && Follow(ApplyAll(b, calls).life, call) != Broken
    requires call.CallDone? ==> call.result == IsDone(ApplyAll(b, calls).body)
    ensures Contract(b, calls + [call]) && ApplyAll(b, calls + [call]) == Apply(ApplyAll(b, calls), call)
  {
    hide Apply;
    assert (calls + [call])[..|calls + [call]| - 1] == calls;
  }

  /** exthread drives every tree by the contract, state machines included, so that no
      behaviour in it ever has its contract broken. */
  lemma {:induction false} ExThreadKeepsContract(b: Behaviour, n: nat)
    requires Sane(b) && Resting(b) && (n > 0 ==> Runs(OnStart(b), n - 1))
    ensures Contract(b, LoopCalls(b, n)) && ApplyAll(b, LoopCalls(b, n)) == Driven(OnStart(b), n)
    ensures Driven(OnStart(b), n).life == (if Runs(OnStart(b), n) then Ready else Finished)
    ensures Unbroken(Driven(OnStart(b), n)) && Sane(Driven(OnStart(b), n))
  {
    hide Sane, OnStart, Action, Done, Contract, ApplyAll, Unbroken, IsDone;
    if n == 0 {
      StartKeepsSane(b);
      assert Contract(b, []) && ApplyAll(b, []) == b by { NoCalls(b); }
      OneMoreCall(b, [], CallStart);
      assert [] + [CallStart] == [CallStart];
    } else {
      ExThreadKeepsContract(b, n - 1);
      var c := Driven(OnStart(b), n - 1);
      ActionKeepsSane(c);
      DoneKeepsSane(Action(c));
      OneMoreCall(b, LoopCalls(b, n - 1), CallAction);
      OneMoreCall(b, LoopCalls(b, n - 1) + [CallAction], CallDone(IsDone(Action(c).body)));
    }
    SaneUnbroken(Driven(OnStart(b), n));
  }

  /** A waker stays one, in its first visit. */
  lemma {:induction false} DrivenWaker(b: Behaviour, n: nat)
    requires Fresh(b) && b.body.Waker?
    ensures var c := Driven(OnStart(b), n); c.body.Waker? && c.body.visits == 1 && c.cut == 0
  {
    if n > 0 {
      DrivenWaker(b, n - 1);
    }
  }

  lemma OneVisitWakes(b: Behaviour)
    requires b.body.Waker? && b.body.visits == 1 && b.cut == 0 && Unbroken(b) && (b.life == Idle || b.life == Ready)
    ensures b.body.wakes == if b.life == Idle then 1 else 0
  {
  }

  lemma FreshRests(b: Behaviour)
    requires Fresh(b)
    ensures Sane(b) && Resting(b)
  {
    FreshIsSane(b);
  }

  lemma EndKeepsBody(b: Behaviour)
    ensures OnEnd(b).body == b.body && OnEnd(b).cut == b.cut
  {
  }

  /** What the thread leaves behind after n rounds, onEnd included if it has ended: no
      contract is broken, and a waker has woken once if it has ended and not before. */
  lemma ThreadKeepsContract(b: Behaviour, n: nat)
    requires Sane(b) && Resting(b) && (n > 0 ==> Runs(OnStart(b), n - 1))
    ensures var ended := !Runs(OnStart(b), n);
      var after := if ended then OnEnd(Driven(OnStart(b), n)) else Driven(OnStart(b), n);
      && Unbroken(after) && after.life == (if ended then Idle else Ready)
      && (Fresh(b) && b.body.Waker? ==> after.body.Waker? && after.body.wakes == (if ended then 1 else 0))
  {
    hide Sane, Fresh, Unbroken, OnStart, OnEnd, Driven, Runs, Resting;
    ExThreadKeepsContract(b, n);
    var last := Driven(OnStart(b), n);
    var after := last;
    if !Runs(OnStart(b), n) {
      EndKeepsSane(last);
      SaneUnbroken(OnEnd(last));
      EndKeepsBody(last);
      after := OnEnd(last);
    }
    if Fresh(b) && b.body.Waker? {
      DrivenWaker(b, n);
      OneVisitWakes(after);
    }
  }

  lemma NoCalls(b: Behaviour)
    ensures Contract(b, []) && ApplyAll(b, []) == b
  {
  }

  /** The loop of exthread goes round exactly as often as the tree costs: for ever if
      the cost is infinite. The cost is the sum over a sequence, the maximum over a
      parallel that waits for all, the minimum over one that waits for any, and at least
      one throughout. */
  lemma TickCount(b: Behaviour, n: nat)
    requires Plain(b) && Sane(b) && Resting(b)
    ensures Runs(OnStart(b), n) <==> Before(n, Cost(b))
    ensures Cost(b) == AtLeastOne(match b.body
      case Simple(plan, starts, _) => plan(starts + 1).needs
      case Waker(timer, _, _) => Ticks(timer)
      case Sequential(cs, _) => Sum(Costs(cs))
      case Parallel(cs, any, _) => if any then Least(Costs(cs)) else Greatest(Costs(cs)))
  {
    hide Sane, OnStart, Runs;
    TreeTakes(b);
  }
}
