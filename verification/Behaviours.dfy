/** The behaviours of Behaviour.cpp: simple ones, and the composites that drive their
    children. A child belongs to its parent alone, which deletes it, so a tree of
    behaviours is one value; what each call does to it is a function. Every behaviour
    carries a monitor of the life-cycle contract. */
module Behaviours {
  // ----- the life-cycle contract -----

  /** onStart, then action and done in turn until done is true, then onEnd; a visit may
      also be abandoned after a false done, and started anew. */
  datatype Life = Idle | Ready | Acted | Finished | Broken

  datatype Call = CallStart | CallAction | CallDone(result: bool) | CallEnd

  function Follow(life: Life, call: Call): Life {
    match call
    case CallStart => if life == Idle || life == Ready then Ready else Broken
    case CallAction => if life == Ready then Acted else Broken
    case CallDone(result) => if life != Acted then Broken else if result then Finished else Ready
    case CallEnd => if life == Finished then Idle else Broken
  }

  // ----- behaviours -----

  /** A number of action() calls, or no number at all. */
  datatype Time = Ticks(n: nat) | Forever

  /** One visit of a user's behaviour: after how many actions done() is true, and what
      exitValue() returns then, and once onEnd() has run. */
  datatype Visit = Visit(needs: Time, exit: int, exitAfterEnd: int)

  datatype Machine = Machine(
    first: string,
    transitions: map<string, map<int, string>>,
    defaults: map<string, string>)

  datatype State = State(beh: Behaviour, last: bool)

  /** cut: visits that were cut off by a new onStart. */
  datatype Behaviour = Behaviour(life: Life, cut: nat, body: Body)

  datatype Body =
    | Simple(plan: nat -> Visit, starts: nat, acts: nat)
    | Waker(timer: nat, visits: nat, wakes: nat)   // visits and calls of onWake so far
    | Sequential(children: seq<Behaviour>, current: nat)
    | Parallel(children: seq<Behaviour>, any: bool, ended: seq<bool>)
    | Fsm(fsm: FsmBody)

  /** trail and exits are the states entered and the exit values read in this visit. */
  datatype FsmBody = FsmBody(
    states: map<string, State>,
    machine: Machine,
    current: string,
    finished: bool,
    trail: seq<string>,
    exits: seq<int>)

  /** Done from the start, and never done. */
  function OneShot(exit: int): Behaviour {
    Behaviour(Idle, 0, Simple((visit: nat) => Visit(Ticks(0), exit, exit), 0, 0))
  }

  function Cyclic(): Behaviour {
    Behaviour(Idle, 0, Simple((visit: nat) => Visit(Forever, 0, 0), 0, 0))
  }

  // ----- what each call does -----

  predicate ParallelDone(n: nat, any: bool, ended: seq<bool>) {
    if n == 0 then true
    else if |ended| != n then false
    else if any then exists i :: 0 <= i < n && ended[i]
    else forall i :: 0 <= i < n ==> ended[i]
  }

  predicate IsDone(body: Body) {
    match body
    case Simple(plan, starts, acts) => plan(starts).needs.Ticks? && acts >= plan(starts).needs.n
    case Waker(timer, _, _) => timer == 0
    case Sequential(cs, current) => current >= |cs|
    case Parallel(cs, any, ended) => ParallelDone(|cs|, any, ended)
    case Fsm(fsm) => fsm.finished
  }

  /** done(): a true answer of a waker has called onWake. */
  function Done(b: Behaviour): Behaviour {
    Behaviour(Follow(b.life, CallDone(IsDone(b.body))), b.cut,
      match b.body
      case Waker(timer, visits, wakes) => if timer == 0 then Waker(timer, visits, wakes + 1) else b.body
      case _ => b.body)
  }

  function OnEnd(b: Behaviour): Behaviour {
    b.(life := Follow(b.life, CallEnd))
  }

  /** exitValue(), which only users' behaviours override. */
  function ExitValue(b: Behaviour): int {
    match b.body
    case Simple(plan, starts, _) => if b.life == Idle then plan(starts).exitAfterEnd else plan(starts).exit
    case _ => 0
  }

  /** An onStart in the middle of a visit cuts it off. */
  function CutBy(life: Life, cut: nat): nat {
    if life == Ready then cut + 1 else cut
  }

  function OnStart(b: Behaviour): Behaviour
    decreases b
  {
    Behaviour(Follow(b.life, CallStart), CutBy(b.life, b.cut),
      match b.body
      case Simple(plan, starts, _) => Simple(plan, starts + 1, 0)
      case Waker(timer, visits, wakes) => Waker(timer, visits + 1, wakes)
      case Sequential(cs, _) => Sequential(if cs == [] then cs else cs[0 := OnStart(cs[0])], 0)
      case Parallel(cs, any, _) => Parallel(StartAll(cs), any, NoneEnded(|cs|))
      case Fsm(fsm) =>
        var q := fsm.machine.first;
        if q != "" && q in fsm.states
        then Fsm(FsmBody(fsm.states[q := State(OnStart(fsm.states[q].beh), fsm.states[q].last)], fsm.machine, q, false, [q], []))
        else Fsm(FsmBody(fsm.states, fsm.machine, q, false, [], [])))
  }

  function StartAll(cs: seq<Behaviour>): (r: seq<Behaviour>)
    ensures |r| == |cs|
    ensures forall i :: 0 <= i < |cs| ==> r[i] == OnStart(cs[i])
    decreases cs
  {
    if cs == [] then [] else [OnStart(cs[0])] + StartAll(cs[1..])
  }

  function NoneEnded(n: nat): (r: seq<bool>)
    ensures |r| == n && forall i :: 0 <= i < n ==> !r[i]
  {
    if n == 0 then [] else [false] + NoneEnded(n - 1)
  }

  /** The name a transition on this exit value leads to, "" for none. */
  function Target(m: Machine, from: string, exit: int): string {
    var specific := if from in m.transitions && exit in m.transitions[from] then m.transitions[from][exit] else "";
    if specific != "" then specific else if from in m.defaults then m.defaults[from] else ""
  }

  /** An action of a composite on one child: action, done, and onEnd if it is done. */
  function Turn(b: Behaviour): Behaviour
    decreases b, 1
  {
    var c := Action(b);
    if IsDone(c.body) then OnEnd(Done(c)) else Done(c)
  }

  predicate TurnEnds(b: Behaviour)
    decreases b, 1
  {
    IsDone(Action(b).body)
  }

  /** The children of a parallel behaviour after its action, and their flags. */
  function TurnAll(cs: seq<Behaviour>, ended: seq<bool>): (r: (seq<Behaviour>, seq<bool>))
    requires |ended| == |cs|
    ensures |r.0| == |r.1| == |cs|
    ensures forall i :: 0 <= i < |cs| ==> r.0[i] == (if ended[i] then cs[i] else Turn(cs[i]))
    ensures forall i :: 0 <= i < |cs| ==> r.1[i] == (ended[i] || TurnEnds(cs[i]))
    decreases cs, 2
  {
    hide Turn, TurnEnds;
    if cs == [] then ([], [])
    else
      var rest := TurnAll(cs[1..], ended[1..]);
      ([if ended[0] then cs[0] else Turn(cs[0])] + rest.0, [ended[0] || TurnEnds(cs[0])] + rest.1)
  }

  function Resized(flags: seq<bool>, n: nat): (r: seq<bool>)
    ensures |r| == n
    ensures forall i :: 0 <= i < n ==> r[i] == (i < |flags| && flags[i])
  {
    if n <= |flags| then flags[..n] else flags + NoneEnded(n - |flags|)
  }

  function SequentialAction(cs: seq<Behaviour>, current: nat): (r: Body)
    ensures r.Sequential? && |r.children| == |cs|
    decreases cs, 2
  {
    if current >= |cs| then Sequential(cs, current)
    else
      var turned := cs[current := Turn(cs[current])];
      if !TurnEnds(cs[current]) then Sequential(turned, current)
      else if current + 1 < |cs| then Sequential(turned[current + 1 := OnStart(cs[current + 1])], current + 1)
      else Sequential(turned, current + 1)
  }

  function FsmAction(fsm: FsmBody): FsmBody
    decreases fsm, 2
  {
    var q := fsm.current;
    if fsm.finished || q == "" then fsm
    else if q !in fsm.states then fsm.(finished := true)
    else
      var beh := fsm.states[q].beh;
      var turned := fsm.states[q := fsm.states[q].(beh := Turn(beh))];
      if !TurnEnds(beh) then fsm.(states := turned)
      else
        var exit := ExitValue(Done(Action(beh)));
        var next := Target(fsm.machine, q, exit);
        if fsm.states[q].last || next == "" || next !in fsm.states then
          fsm.(states := turned, finished := true, exits := fsm.exits + [exit])
        else
          fsm.(states := turned[next := turned[next].(beh := OnStart(turned[next].beh))],
               current := next, trail := fsm.trail + [next], exits := fsm.exits + [exit])
  }

  function Action(b: Behaviour): Behaviour
    decreases b, 0
  {
    Behaviour(Follow(b.life, CallAction), b.cut,
      match b.body
      case Simple(plan, starts, acts) => Simple(plan, starts, acts + 1)
      case Waker(timer, visits, wakes) => Waker(if timer == 0 then 0 else timer - 1, visits, wakes)
      case Sequential(cs, current) => SequentialAction(cs, current)
      case Parallel(cs, any, ended) =>
        var turned := TurnAll(cs, if |ended| == |cs| then ended else Resized(ended, |cs|));
        Parallel(turned.0, any, turned.1)
      case Fsm(fsm) => Fsm(FsmAction(fsm)))
  }

  // ----- the contract is kept at every level -----

  /** A behaviour that may be started: not in the middle of a call sequence. */
  predicate Resting(b: Behaviour) {
    b.life == Idle || b.life == Ready
  }

  /** Each visit of a waker was cut off, or is going on, or has called onWake once. */
  predicate WokenOnce(life: Life, cut: nat, visits: nat, wakes: nat) {
    visits == cut + (if life == Ready || life == Acted then 1 else 0) + wakes
  }

  /** The states in which a tree can be while its root is driven by the contract. */
  predicate Sane(b: Behaviour)
    decreases b
  {
    && b.life != Broken
    && match b.body
       case Simple(_, _, _) => true
       case Waker(_, visits, wakes) => WokenOnce(b.life, b.cut, visits, wakes)
       case Sequential(cs, current) =>
         && (forall i :: 0 <= i < |cs| ==> Sane(cs[i]) && Resting(cs[i]))
         && (b.life != Idle ==> current <= |cs| && (current < |cs| ==> cs[current].life == Ready))
       case Parallel(cs, any, ended) =>
         && (forall i :: 0 <= i < |cs| ==> Sane(cs[i]) && Resting(cs[i]))
         && (b.life != Idle ==> |ended| == |cs| && forall i :: 0 <= i < |cs| && !ended[i] ==> cs[i].life == Ready)
         && (b.life == Ready && any && |ended| == |cs| ==> forall i :: 0 <= i < |cs| ==> !ended[i])
       case Fsm(fsm) =>
         && (forall k :: k in fsm.states ==> Sane(fsm.states[k].beh) && Resting(fsm.states[k].beh))
         && (b.life != Idle && !fsm.finished && fsm.current != "" && fsm.current in fsm.states ==>
               fsm.states[fsm.current].beh.life == Ready)
  }

  lemma {:induction false} StartKeepsSane(b: Behaviour)
    requires Sane(b) && Resting(b)
    ensures Sane(OnStart(b)) && OnStart(b).life == Ready
    decreases b
  {
    match b.body {
      case Simple(_, _, _) =>
      case Waker(_, _, _) =>
      case Sequential(cs, _) =>
        if cs != [] {
          StartKeepsSane(cs[0]);
        }
      case Parallel(cs, _, _) =>
        forall i | 0 <= i < |cs| ensures Sane(OnStart(cs[i])) && OnStart(cs[i]).life == Ready {
          StartKeepsSane(cs[i]);
        }
      case Fsm(fsm) =>
        if fsm.machine.first in fsm.states {
          StartKeepsSane(fsm.states[fsm.machine.first].beh);
        }
    }
  }

  lemma DoneKeepsSane(b: Behaviour)
    requires Sane(b) && b.life == Acted
    ensures Sane(Done(b)) && Done(b).life == (if IsDone(b.body) then Finished else Ready)
  {
  }

  lemma EndKeepsSane(b: Behaviour)
    requires Sane(b) && b.life == Finished
    ensures Sane(OnEnd(b)) && OnEnd(b).life == Idle
  {
  }

  lemma {:induction false} TurnKeepsSane(b: Behaviour)
    requires Sane(b) && b.life == Ready
    ensures Sane(Turn(b)) && Resting(Turn(b))
    ensures !TurnEnds(b) ==> Turn(b).life == Ready
    decreases b, 1
  {
    ActionKeepsSane(b);
    hide Sane, Action, IsDone, Done, OnEnd;
    DoneKeepsSane(Action(b));
    if IsDone(Action(b).body) {
      EndKeepsSane(Done(Action(b)));
    }
  }

  lemma {:induction false} ActionKeepsSane(b: Behaviour)
    requires Sane(b) && b.life == Ready
    ensures Sane(Action(b)) && Action(b).life == Acted
    decreases b, 0
  {
    hide Turn, TurnEnds, OnStart;
    match b.body {
      case Simple(_, _, _) =>
      case Waker(_, _, _) =>
      case Sequential(cs, current) =>
        if current < |cs| {
          TurnKeepsSane(cs[current]);
          if current + 1 < |cs| {
            StartKeepsSane(cs[current + 1]);
          }
        }
      case Parallel(cs, _, ended) =>
        forall i | 0 <= i < |cs| && !ended[i]
          ensures Sane(Turn(cs[i])) && Resting(Turn(cs[i])) && (!TurnEnds(cs[i]) ==> Turn(cs[i]).life == Ready)
        {
          TurnKeepsSane(cs[i]);
        }
      case Fsm(fsm) =>
        if !fsm.finished && fsm.current != "" && fsm.current in fsm.states {
          TurnKeepsSane(fsm.states[fsm.current].beh);
          FsmActionKeepsSane(b, fsm);
        }
    }
  }

  lemma {:induction false} FsmActionKeepsSane(b: Behaviour, fsm: FsmBody)
    requires b.body == Fsm(fsm) && Sane(b) && b.life == Ready
    requires !fsm.finished && fsm.current != "" && fsm.current in fsm.states
    requires var beh := fsm.states[fsm.current].beh;
      Sane(Turn(beh)) && Resting(Turn(beh)) && (!TurnEnds(beh) ==> Turn(beh).life == Ready)
    ensures Sane(Action(b)) && Action(b).life == Acted
  {
    hide Turn, TurnEnds, OnStart;
    var q := fsm.current;
    var turned := fsm.states[q := fsm.states[q].(beh := Turn(fsm.states[q].beh))];
    var next := Target(fsm.machine, q, ExitValue(Done(Action(fsm.states[q].beh))));
    if next in fsm.states {
      StartKeepsSane(turned[next].beh);
    }
  }

  // ----- any driver that keeps the contract -----

  function Apply(b: Behaviour, call: Call): Behaviour {
    match call
    case CallStart => OnStart(b)
    case CallAction => Action(b)
    case CallDone(_) => Done(b)
    case CallEnd => OnEnd(b)
  }

  function ApplyAll(b: Behaviour, calls: seq<Call>): Behaviour {
    if calls == [] then b else Apply(ApplyAll(b, calls[..|calls| - 1]), calls[|calls| - 1])
  }

  /** The calls keep the contract of the root, whose done() answers are the real ones. */
  predicate Contract(b: Behaviour, calls: seq<Call>) {
    calls == [] ||
      var before, call := ApplyAll(b, calls[..|calls| - 1]), calls[|calls| - 1];
      && Contract(b, calls[..|calls| - 1])
      && Follow(before.life, call) != Broken
      && (call.CallDone? ==> call.result == IsDone(before.body))
  }

  /** No behaviour of the tree has had its contract broken, and every waker has woken
      exactly once in each of its visits, cut-off ones and the current one excepted. */
  predicate Unbroken(b: Behaviour)
    decreases b
  {
    && b.life != Broken
    && match b.body
       case Simple(_, _, _) => true
       case Waker(_, visits, wakes) => WokenOnce(b.life, b.cut, visits, wakes)
       case Sequential(cs, _) => forall i :: 0 <= i < |cs| ==> Unbroken(cs[i])
       case Parallel(cs, _, _) => forall i :: 0 <= i < |cs| ==> Unbroken(cs[i])
       case Fsm(fsm) => forall k :: k in fsm.states ==> Unbroken(fsm.states[k].beh)
  }

  lemma {:induction false} SaneUnbroken(b: Behaviour)
    requires Sane(b)
    ensures Unbroken(b)
    decreases b
  {
    match b.body {
      case Simple(_, _, _) =>
      case Waker(_, _, _) =>
      case Sequential(cs, _) =>
        forall i | 0 <= i < |cs| ensures Unbroken(cs[i]) {
          SaneUnbroken(cs[i]);
        }
      case Parallel(cs, _, _) =>
        forall i | 0 <= i < |cs| ensures Unbroken(cs[i]) {
          SaneUnbroken(cs[i]);
        }
      case Fsm(fsm) =>
        forall k | k in fsm.states ensures Unbroken(fsm.states[k].beh) {
          SaneUnbroken(fsm.states[k].beh);
        }
    }
  }

  /** A tree as it is built: nothing has been called yet. */
  predicate Fresh(b: Behaviour)
    decreases b
  {
    && b.life == Idle && b.cut == 0
    && match b.body
       case Simple(_, _, _) => true
       case Waker(_, visits, wakes) => visits == 0 && wakes == 0
       case Sequential(cs, _) => forall i :: 0 <= i < |cs| ==> Fresh(cs[i])
       case Parallel(cs, _, _) => forall i :: 0 <= i < |cs| ==> Fresh(cs[i])
       case Fsm(fsm) => forall k :: k in fsm.states ==> Fresh(fsm.states[k].beh)
  }

  lemma {:induction false} FreshIsSane(b: Behaviour)
    requires Fresh(b)
    ensures Sane(b)
    decreases b
  {
    match b.body {
      case Simple(_, _, _) =>
      case Waker(_, _, _) =>
      case Sequential(cs, _) =>
        forall i | 0 <= i < |cs| ensures Sane(cs[i]) {
          FreshIsSane(cs[i]);
        }
      case Parallel(cs, _, _) =>
        forall i | 0 <= i < |cs| ensures Sane(cs[i]) {
          FreshIsSane(cs[i]);
        }
      case Fsm(fsm) =>
        forall k | k in fsm.states ensures Sane(fsm.states[k].beh) {
          FreshIsSane(fsm.states[k].beh);
        }
    }
  }

  lemma {:induction false} CallsKeepSane(b: Behaviour, calls: seq<Call>)
    requires Sane(b) && Contract(b, calls)
    ensures Sane(ApplyAll(b, calls))
  {
    hide Sane, OnStart, Action, Done, OnEnd, IsDone;
    if calls != [] {
      var before, call := ApplyAll(b, calls[..|calls| - 1]), calls[|calls| - 1];
      CallsKeepSane(b, calls[..|calls| - 1]);
      match call {
        case CallStart => StartKeepsSane(before);
        case CallAction => ActionKeepsSane(before);
        case CallDone(_) => DoneKeepsSane(before);
        case CallEnd => EndKeepsSane(before);
      }
    }
  }

  /** The contract is closed under nesting: whoever drives the root of a tree by the
      contract, for as long as it likes, every composite in the tree drives its own
      children by it, whatever their kinds, and every waker wakes exactly once in each visit
      that comes to its end, when done is first true, and in no other. Which children may be cut off in the middle of a visit is said by VisitsAreWhole. */
  lemma LifeCycleIsClosed(b: Behaviour, calls: seq<Call>)
    requires Fresh(b) && Contract(b, calls)
    ensures Unbroken(ApplyAll(b, calls))
  {
    hide Sane, Fresh, Unbroken, Contract, ApplyAll;
    FreshIsSane(b);
    CallsKeepSane(b, calls);
    SaneUnbroken(ApplyAll(b, calls));
  }
}
