/** Only a parallel that waits for any of its children leaves visits unfinished: outside
    of those, every visit that is started is ended, and none is cut off. */
module BehaviourVisits {
  import opened Behaviours

  /** No visit of the tree has been cut off by a new onStart. What lies below a parallel
      that waits for any is excepted. */
  predicate Uncut(b: Behaviour)
    decreases b
  {
    && b.cut == 0
    && match b.body
       case Simple(_, _, _) => true
       case Waker(_, _, _) => true
       case Sequential(cs, _) => forall i :: 0 <= i < |cs| ==> Uncut(cs[i])
       case Parallel(cs, any, _) => any || forall i :: 0 <= i < |cs| ==> Uncut(cs[i])
       case Fsm(fsm) => forall k :: k in fsm.states ==> Uncut(fsm.states[k].beh)
  }

  /** Every visit that was started has been ended, with the same exception. */
  predicate Over(b: Behaviour)
    decreases b, 1
  {
    b.life == Idle && ChildrenOver(b.body)
  }

  predicate ChildrenOver(body: Body)
    decreases body, 0
  {
    match body
    case Simple(_, _, _) => true
    case Waker(_, _, _) => true
    case Sequential(cs, _) => forall i :: 0 <= i < |cs| ==> Over(cs[i])
    case Parallel(cs, any, _) => any || forall i :: 0 <= i < |cs| ==> Over(cs[i])
    case Fsm(fsm) => forall k :: k in fsm.states ==> Over(fsm.states[k].beh)
  }

  /** The child with this key is the one that the machine is visiting. */
  predicate Visiting(life: Life, fsm: FsmBody, k: string) {
    life != Idle && !fsm.finished && k != "" && k == fsm.current
  }

  /** Exactly the children that a composite is driving are in the middle of a visit. */
  predicate Whole(b: Behaviour)
    decreases b
  {
    && b.cut == 0 && (b.life == Finished ==> IsDone(b.body))
    && match b.body
       case Simple(_, _, _) => true
       case Waker(_, _, _) => true
       case Sequential(cs, current) =>
         forall i :: 0 <= i < |cs| ==>
           Whole(cs[i]) && cs[i].life == if b.life != Idle && i == current then Ready else Idle
       case Parallel(cs, any, ended) =>
         any || ((b.life != Idle ==> |ended| == |cs|)
           && forall i :: 0 <= i < |cs| ==>
                Whole(cs[i]) && cs[i].life == if b.life != Idle && !ended[i] then Ready else Idle)
       case Fsm(fsm) =>
         forall k :: k in fsm.states ==>
           Whole(fsm.states[k].beh) && fsm.states[k].beh.life == if Visiting(b.life, fsm, k) then Ready else Idle
  }

  lemma {:induction false} FreshIsWhole(b: Behaviour)
    requires Fresh(b)
    ensures Whole(b)
    decreases b
  {
    match b.body {
      case Simple(_, _, _) =>
      case Waker(_, _, _) =>
      case Sequential(cs, _) =>
        forall i | 0 <= i < |cs| ensures Whole(cs[i]) {
          FreshIsWhole(cs[i]);
        }
      case Parallel(cs, _, _) =>
        forall i | 0 <= i < |cs| ensures Whole(cs[i]) {
          FreshIsWhole(cs[i]);
        }
      case Fsm(fsm) =>
        forall k | k in fsm.states ensures Whole(fsm.states[k].beh) {
          FreshIsWhole(fsm.states[k].beh);
        }
    }
  }

  lemma {:induction false} WholeUncut(b: Behaviour)
    requires Whole(b)
    ensures Uncut(b)
    decreases b
  {
    match b.body {
      case Simple(_, _, _) =>
      case Waker(_, _, _) =>
      case Sequential(cs, _) =>
        forall i | 0 <= i < |cs| ensures Uncut(cs[i]) {
          WholeUncut(cs[i]);
        }
      case Parallel(cs, any, _) =>
        forall i | 0 <= i < |cs| && !any ensures Uncut(cs[i]) {
          WholeUncut(cs[i]);
        }
      case Fsm(fsm) =>
        forall k | k in fsm.states ensures Uncut(fsm.states[k].beh) {
          WholeUncut(fsm.states[k].beh);
        }
    }
  }

  /** A behaviour at rest, or done, has no child in the middle of a visit. */
  lemma {:induction false} WholeOver(b: Behaviour)
    requires Whole(b) && Sane(b) && (b.life == Idle || IsDone(b.body))
    ensures ChildrenOver(b.body)
    decreases b
  {
    match b.body {
      case Simple(_, _, _) =>
      case Waker(_, _, _) =>
      case Sequential(cs, _) =>
        forall i | 0 <= i < |cs| ensures Over(cs[i]) {
          WholeOver(cs[i]);
        }
      case Parallel(cs, any, _) =>
        forall i | 0 <= i < |cs| && !any ensures Over(cs[i]) {
          WholeOver(cs[i]);
        }
      case Fsm(fsm) =>
        forall k | k in fsm.states ensures Over(fsm.states[k].beh) {
          WholeOver(fsm.states[k].beh);
        }
    }
  }

  // ----- every call keeps it -----

  lemma {:induction false} StartKeepsWhole(b: Behaviour)
    requires Whole(b) && b.life == Idle
    ensures Whole(OnStart(b)) && OnStart(b).life == Ready
    decreases b
  {
    match b.body {
      case Simple(_, _, _) =>
      case Waker(_, _, _) =>
      case Sequential(cs, _) =>
        if cs != [] {
          StartKeepsWhole(cs[0]);
        }
      case Parallel(cs, any, _) =>
        forall i | 0 <= i < |cs| && !any ensures Whole(OnStart(cs[i])) && OnStart(cs[i]).life == Ready {
          StartKeepsWhole(cs[i]);
        }
      case Fsm(fsm) =>
        if fsm.machine.first in fsm.states {
          StartKeepsWhole(fsm.states[fsm.machine.first].beh);
        }
    }
  }

  lemma DoneKeepsWhole(b: Behaviour)
    requires Whole(b) && b.life == Acted
    ensures Whole(Done(b)) && Done(b).life == if IsDone(b.body) then Finished else Ready
  {
  }

  lemma EndKeepsWhole(b: Behaviour)
    requires Whole(b) && Sane(b) && b.life == Finished
    ensures Whole(OnEnd(b)) && OnEnd(b).life == Idle
  {
  }

  lemma {:induction false} TurnKeepsWhole(b: Behaviour)
    requires Whole(b) && Sane(b) && b.life == Ready
    ensures Whole(Turn(b)) && Turn(b).life == if TurnEnds(b) then Idle else Ready
    decreases b, 1
  {
    ActionKeepsWhole(b);
    ActionKeepsSane(b);
    hide Sane, Whole, Action, IsDone, Done, OnEnd;
    DoneKeepsWhole(Action(b));
    DoneKeepsSane(Action(b));
    if IsDone(Action(b).body) {
      EndKeepsWhole(Done(Action(b)));
    }
  }

  lemma {:induction false} ActionKeepsWhole(b: Behaviour)
    requires Whole(b) && Sane(b) && b.life == Ready
    ensures Whole(Action(b)) && Action(b).life == Acted
    decreases b, 0
  {
    hide Turn, TurnEnds, OnStart;
    match b.body {
      case Simple(_, _, _) =>
      case Waker(_, _, _) =>
      case Sequential(cs, current) =>
        if current < |cs| {
          TurnKeepsWhole(cs[current]);
          if current + 1 < |cs| {
            StartKeepsWhole(cs[current + 1]);
          }
        }
      case Parallel(cs, any, ended) =>
        forall i | 0 <= i < |cs| && !any && !ended[i]
          ensures Whole(Turn(cs[i])) && Turn(cs[i]).life == if TurnEnds(cs[i]) then Idle else Ready
        {
          TurnKeepsWhole(cs[i]);
        }
      case Fsm(fsm) =>
        if !fsm.finished && fsm.current != "" && fsm.current in fsm.states {
          TurnKeepsWhole(fsm.states[fsm.current].beh);
          FsmActionKeepsWhole(b, fsm);
        }
    }
  }

  lemma {:induction false} FsmActionKeepsWhole(b: Behaviour, fsm: FsmBody)
    requires b.body == Fsm(fsm) && Whole(b) && b.life == Ready
    requires !fsm.finished && fsm.current != "" && fsm.current in fsm.states
    requires var beh := fsm.states[fsm.current].beh;
      Whole(Turn(beh)) && Turn(beh).life == if TurnEnds(beh) then Idle else Ready
    ensures Whole(Action(b)) && Action(b).life == Acted
  {
    hide Turn, TurnEnds, OnStart;
    var q := fsm.current;
    var turned := fsm.states[q := fsm.states[q].(beh := Turn(fsm.states[q].beh))];
    var next := Target(fsm.machine, q, ExitValue(Done(Action(fsm.states[q].beh))));
    if next in fsm.states && TurnEnds(fsm.states[q].beh) {
      assert turned[next].beh.life == Idle;
      StartKeepsWhole(turned[next].beh);
    }
  }

  // ----- any driver that cuts off no visit of the root -----

  predicate Uninterrupted(b: Behaviour, calls: seq<Call>) {
    calls == [] ||
      (Uninterrupted(b, calls[..|calls| - 1])
        && (calls[|calls| - 1] == CallStart ==> ApplyAll(b, calls[..|calls| - 1]).life == Idle))
  }

  lemma {:induction false} CallsKeepWhole(b: Behaviour, calls: seq<Call>)
    requires Sane(b) && Whole(b) && Contract(b, calls) && Uninterrupted(b, calls)
    ensures Sane(ApplyAll(b, calls)) && Whole(ApplyAll(b, calls))
  {
    hide Sane, Whole, OnStart, Action, Done, OnEnd, IsDone;
    if calls != [] {
      var before, call := ApplyAll(b, calls[..|calls| - 1]), calls[|calls| - 1];
      CallsKeepWhole(b, calls[..|calls| - 1]);
      match call {
        case CallStart =>
          StartKeepsSane(before);
          StartKeepsWhole(before);
        case CallAction =>
          ActionKeepsSane(before);
          ActionKeepsWhole(before);
        case CallDone(_) =>
          DoneKeepsSane(before);
          DoneKeepsWhole(before);
        case CallEnd =>
          EndKeepsSane(before);
          EndKeepsWhole(before);
      }
    }
  }

  /** If the root of a tree is driven by the contract and none of its own visits is cut
      off, then no sequence, no machine and no parallel that waits for all ever cuts off
      a visit of a child: onStart reaches the child only at rest. And whenever the root
      is done or at rest, every visit that any of them started has been ended. Only below
      a parallel that waits for any can a visit stay a prefix. */
  lemma VisitsAreWhole(b: Behaviour, calls: seq<Call>)
    requires Fresh(b) && Contract(b, calls) && Uninterrupted(b, calls)
    ensures var c := ApplyAll(b, calls);
      Unbroken(c) && Uncut(c) && (c.life == Idle || IsDone(c.body) ==> ChildrenOver(c.body))
  {
    hide Sane, Whole, Fresh, Unbroken, Uncut, ChildrenOver, Contract, Uninterrupted, ApplyAll, IsDone;
    FreshIsSane(b);
    FreshIsWhole(b);
    CallsKeepWhole(b, calls);
    SaneUnbroken(ApplyAll(b, calls));
    WholeUncut(ApplyAll(b, calls));
    if ApplyAll(b, calls).life == Idle || IsDone(ApplyAll(b, calls).body) {
      WholeOver(ApplyAll(b, calls));
    }
  }

  lemma OneShotTurn()
    ensures var c := OnStart(OneShot(0)); c.life == Ready && TurnEnds(c)
  {
  }

  lemma CyclicTurn()
    ensures var c := OnStart(Cyclic()); c.life == Ready && !TurnEnds(c) && Turn(c).life == Ready && Turn(c).cut == 0
  {
  }

  /** One round of a parallel that waits for any of two children. */
  function AnyOf(a: Behaviour, b: Behaviour): Behaviour {
    Behaviour(Idle, 0, Parallel([a, b], true, []))
  }

  lemma StartOfAny(a: Behaviour, b: Behaviour)
    ensures OnStart(AnyOf(a, b)) == Behaviour(Ready, 0, Parallel([OnStart(a), OnStart(b)], true, NoneEnded(2)))
  {
    assert StartAll([a, b]) == [OnStart(a), OnStart(b)];
  }

  lemma RoundOfAny(a: Behaviour, b: Behaviour)
    requires TurnEnds(a) && !TurnEnds(b)
    ensures var after := OnEnd(Done(Action(Behaviour(Ready, 0, Parallel([a, b], true, NoneEnded(2))))));
      after == Behaviour(Idle, 0, Parallel([Turn(a), Turn(b)], true, [true, false]))
  {
    hide Turn, TurnEnds;
    var acted := Action(Behaviour(Ready, 0, Parallel([a, b], true, NoneEnded(2))));
    assert acted.body == Parallel([Turn(a), Turn(b)], true, [true, false]);
    assert [true, false][0];
  }

  lemma StartAgain(a: Behaviour, b: Behaviour, ended: seq<bool>)
    ensures OnStart(Behaviour(Idle, 0, Parallel([a, b], true, ended))).body == Parallel([OnStart(a), OnStart(b)], true, NoneEnded(2))
    ensures OnStart(b).cut == CutBy(b.life, b.cut)
  {
  }

  /** A parallel that waits for any does cut visits off: of two children, one that ends
      at once and one that never ends, the second is still in its visit when the first
      has ended, and is started again from there. */
  lemma AnyCutsOff()
    ensures var ended := OnEnd(Done(Action(OnStart(AnyOf(OneShot(0), Cyclic())))));
      && Fresh(AnyOf(OneShot(0), Cyclic())) && ended.life == Idle && ended.body.Parallel? && |ended.body.children| == 2
      && ended.body.children[1].life == Ready
      && var again := OnStart(ended); again.body.Parallel? && |again.body.children| == 2 && again.body.children[1].cut == 1
  {
    var one, two := OneShot(0), Cyclic();
    assert Fresh(AnyOf(one, two));
    hide OnStart, Turn, TurnEnds, Action, Done, OnEnd;
    OneShotTurn();
    CyclicTurn();
    StartOfAny(one, two);
    RoundOfAny(OnStart(one), OnStart(two));
    StartAgain(Turn(OnStart(one)), Turn(OnStart(two)), [true, false]);
  }
}
