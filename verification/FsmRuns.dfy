/** A state machine of behaviours runs the automaton that its registrations describe,
    and takes the summed time of the states it visits. */
module FsmRuns {
  import opened Behaviours
  import opened BehaviourTicks

  // ----- the automaton -----

  predicate SpecificTo(m: Machine, q: string, exit: int, next: string) {
    next != "" && q in m.transitions && exit in m.transitions[q] && m.transitions[q][exit] == next
  }

  predicate DefaultTo(m: Machine, q: string, next: string) {
    next != "" && q in m.defaults && m.defaults[q] == next
  }

  /** The automaton's step: the specific transition on the exit value, or the default
      one if there is none, to a registered state. */
  ghost predicate Moves(m: Machine, names: set<string>, q: string, exit: int, next: string) {
    next in names && (SpecificTo(m, q, exit, next) || (DefaultTo(m, q, next) && forall o :: !SpecificTo(m, q, exit, o)))
  }

  ghost predicate Stuck(m: Machine, names: set<string>, q: string, exit: int) {
    forall next :: !Moves(m, names, q, exit, next)
  }

  lemma TargetMoves(m: Machine, names: set<string>, q: string, exit: int)
    ensures var next := Target(m, q, exit);
      if next != "" && next in names then Moves(m, names, q, exit, next) else Stuck(m, names, q, exit)
  {
    if q in m.transitions && exit in m.transitions[q] {
      var next := m.transitions[q][exit];
      assert next != "" ==> SpecificTo(m, q, exit, next);
    }
  }

  lemma MovesOneWay(m: Machine, names: set<string>, q: string, exit: int, a: string, b: string)
    requires Moves(m, names, q, exit, a) && Moves(m, names, q, exit, b)
    ensures a == b
  {
    hide SpecificTo;
    assert SpecificTo(m, q, exit, a) && SpecificTo(m, q, exit, b) ==> a == b by { SpecificOnce(m, q, exit, a, b); }
  }

  lemma SpecificOnce(m: Machine, q: string, exit: int, a: string, b: string)
    ensures SpecificTo(m, q, exit, a) && SpecificTo(m, q, exit, b) ==> a == b
  {
  }

  // ----- refinement -----

  /** The states entered so far are a run of the automaton on the exit values read, the
      current state is the last of them and registered, and the machine has finished
      just when it ended a last state or a state with no successor. */
  ghost predicate Tracks(f: FsmBody) {
    var trail, exits, names := f.trail, f.exits, f.states.Keys;
    && trail != [] && trail[0] == f.machine.first && f.current == trail[|trail| - 1]
    && f.current != "" && (forall i :: 0 <= i < |trail| ==> trail[i] in f.states)
    && |exits| == (if f.finished then |trail| else |trail| - 1)
    && (forall i :: 0 <= i < |trail| - 1 ==>
          !f.states[trail[i]].last && Moves(f.machine, names, trail[i], exits[i], trail[i + 1]))
    && (f.finished ==> f.states[f.current].last || Stuck(f.machine, names, f.current, exits[|trail| - 1]))
  }

  lemma StartTracks(b: Behaviour)
    requires b.body.Fsm? && b.body.fsm.machine.first != "" && b.body.fsm.machine.first in b.body.fsm.states
    ensures OnStart(b).body.Fsm? && Tracks(OnStart(b).body.fsm)
  {
    hide Moves, Stuck;
  }

  predicate SameNames(f: FsmBody, g: FsmBody) {
    && f.machine == g.machine && f.states.Keys == g.states.Keys
    && forall k :: k in f.states ==> f.states[k].last == g.states[k].last
  }

  /** How one action moves the history of the machine. */
  lemma FsmStep(f: FsmBody)
    requires f.current in f.states && f.current != "" && !f.finished
    ensures var g, beh := FsmAction(f), f.states[f.current].beh;
      var exit := ExitValue(Done(Action(beh)));
      var next := Target(f.machine, f.current, exit);
      && SameNames(f, g)
      && (if !TurnEnds(beh) then g == f.(states := g.states)
          else if f.states[f.current].last || next == "" || next !in f.states
          then g == f.(states := g.states, finished := true, exits := f.exits + [exit])
          else g == f.(states := g.states, current := next, trail := f.trail + [next], exits := f.exits + [exit]))
  {
    hide Turn, TurnEnds, Action, ExitValue, Target;
  }

  lemma ActionTracks(f: FsmBody)
    requires Tracks(f)
    ensures Tracks(FsmAction(f)) && SameNames(f, FsmAction(f))
  {
    hide Turn, TurnEnds, Moves, Stuck, Target, ExitValue, Action, FsmAction;
    if f.finished {
      FinishedStays(f);
    } else {
      FsmStep(f);
      var exit := ExitValue(Done(Action(f.states[f.current].beh)));
      TargetMoves(f.machine, f.states.Keys, f.current, exit);
      var g := FsmAction(f);
      assert forall i :: 0 <= i < |f.trail| ==> g.trail[i] == f.trail[i];
      assert forall i :: 0 <= i < |f.exits| ==> g.exits[i] == f.exits[i];
    }
  }

  lemma FinishedStays(f: FsmBody)
    requires f.finished
    ensures FsmAction(f) == f
  {
  }

  /** However long it is driven, a machine with a registered first state has run the
      automaton. */
  lemma {:induction false} FsmRefinesAutomaton(b: Behaviour, n: nat)
    requires b.body.Fsm? && b.body.fsm.machine.first != "" && b.body.fsm.machine.first in b.body.fsm.states
    ensures Driven(OnStart(b), n).body.Fsm? && Tracks(Driven(OnStart(b), n).body.fsm)
    ensures SameNames(b.body.fsm, Driven(OnStart(b), n).body.fsm)
  {
    hide Tracks, FsmAction, Turn;
    if n == 0 {
      StartTracks(b);
    } else {
      FsmRefinesAutomaton(b, n - 1);
      ActionTracks(Driven(OnStart(b), n - 1).body.fsm);
    }
  }

  /** A machine whose first state is not registered ends with its first action, and one
      that was given no first state never does; neither enters or starts any state. */
  lemma {:induction false} NoStateToEnter(b: Behaviour, n: nat)
    requires b.body.Fsm? && (b.body.fsm.machine.first == "" || b.body.fsm.machine.first !in b.body.fsm.states)
    ensures Driven(OnStart(b), n).body.Fsm?
    ensures var f := Driven(OnStart(b), n).body.fsm;
      && f.states == b.body.fsm.states && f.trail == [] && f.exits == []
      && f.current == b.body.fsm.machine.first && (f.finished <==> f.current != "" && n > 0)
    ensures Runs(OnStart(b), n) <==> b.body.fsm.machine.first == "" || n == 0
  {
    hide OnStart, Action, Done, IsDone;
    StartsNowhere(b);
    if n > 0 {
      NoStateToEnter(b, n - 1);
      ActsNowhere(Driven(OnStart(b), n - 1));
    }
  }

  lemma StartsNowhere(b: Behaviour)
    requires b.body.Fsm? && (b.body.fsm.machine.first == "" || b.body.fsm.machine.first !in b.body.fsm.states)
    ensures OnStart(b).body == Fsm(FsmBody(b.body.fsm.states, b.body.fsm.machine, b.body.fsm.machine.first, false, [], []))
  {
  }

  lemma ActsNowhere(b: Behaviour)
    requires b.body.Fsm? && (b.body.fsm.current == "" || b.body.fsm.current !in b.body.fsm.states)
    ensures Done(Action(b)).body == Action(b).body
    ensures Action(b).body == if b.body.fsm.current == "" then b.body else Fsm(b.body.fsm.(finished := true))
    ensures IsDone(Action(b).body) == (b.body.fsm.finished || b.body.fsm.current != "")
  {
  }

  // ----- when the exit value is read -----

  /** The action as the class comment describes it: the transition looks at the exit value
      that onEnd has left. */
  function DocumentedAction(f: FsmBody): FsmBody {
    var q := f.current;
    if f.finished || q == "" then f
    else if q !in f.states then f.(finished := true)
    else
      var beh := f.states[q].beh;
      var turned := f.states[q := f.states[q].(beh := Turn(beh))];
      if !TurnEnds(beh) then f.(states := turned)
      else
        var exit := ExitValue(Turn(beh));
        var next := Target(f.machine, q, exit);
        if f.states[q].last || next == "" || next !in f.states then
          f.(states := turned, finished := true, exits := f.exits + [exit])
        else
          f.(states := turned[next := turned[next].(beh := OnStart(turned[next].beh))],
             current := next, trail := f.trail + [next], exits := f.exits + [exit])
  }

  /** The exit value of the visit in progress, before onEnd and after it. */
  function ExitNow(b: Behaviour): int {
    match b.body
    case Simple(plan, starts, _) => plan(starts).exit
    case _ => 0
  }

  function ExitAfter(b: Behaviour): int {
    match b.body
    case Simple(plan, starts, _) => plan(starts).exitAfterEnd
    case _ => 0
  }

  /** The tables lead from q to the same registered state on both values, or to none. */
  ghost predicate SameSuccessor(m: Machine, names: set<string>, q: string, exit: int, other: int) {
    forall next :: Moves(m, names, q, exit, next) <==> Moves(m, names, q, other, next)
  }

  lemma ActionBody(b: Behaviour)
    ensures Action(b).body.Simple? == b.body.Simple?
    ensures b.body.Simple? ==> Action(b).body == Simple(b.body.plan, b.body.starts, b.body.acts + 1)
  {
    hide SequentialAction, FsmAction, TurnAll, IsDone;
    if !b.body.Simple? {
      assert !Action(b).body.Simple?;
    }
  }

  lemma ExitsOfVisit(b: Behaviour)
    requires b.life == Ready && TurnEnds(b)
    ensures ExitValue(Done(Action(b))) == ExitNow(b) && ExitValue(Turn(b)) == ExitAfter(b)
  {
    hide Action, IsDone;
    ActionBody(b);
    assert Action(b).life == Acted by { ActionLife(b); }
  }

  lemma ActionLife(b: Behaviour)
    ensures Action(b).life == Follow(b.life, CallAction)
  {
    hide SequentialAction, FsmAction, TurnAll;
  }

  lemma SuccessorOfTarget(m: Machine, names: set<string>, q: string, exit: int, other: int)
    ensures SameSuccessor(m, names, q, exit, other) <==>
      (var a, b := Target(m, q, exit), Target(m, q, other);
       if a != "" && a in names then a == b else b == "" || b !in names)
  {
    hide Moves, Target;
    var a, b := Target(m, q, exit), Target(m, q, other);
    TargetMoves(m, names, q, exit);
    TargetMoves(m, names, q, other);
    MovesNamed(m, names, q, exit);
    MovesNamed(m, names, q, other);
    forall x, y | Moves(m, names, q, exit, x) && Moves(m, names, q, exit, y) ensures x == y {
      MovesOneWay(m, names, q, exit, x, y);
    }
    forall x, y | Moves(m, names, q, other, x) && Moves(m, names, q, other, y) ensures x == y {
      MovesOneWay(m, names, q, other, x, y);
    }
  }

  lemma MovesNamed(m: Machine, names: set<string>, q: string, exit: int)
    ensures forall next :: Moves(m, names, q, exit, next) ==> next != "" && next in names
  {
  }

  /** Whenever a visit of a state that is not last ends: the machine goes where the value
      left by onEnd would send it if and only if the tables lead to the same registered
      state on the values before and after onEnd, or to none on both. */
  lemma ExitTimingMatters(f: FsmBody)
    requires !f.finished && f.current != "" && f.current in f.states && !f.states[f.current].last
    requires f.states[f.current].beh.life == Ready && TurnEnds(f.states[f.current].beh)
    ensures var beh := f.states[f.current].beh;
      FsmAction(f).(exits := []) == DocumentedAction(f).(exits := []) <==>
        SameSuccessor(f.machine, f.states.Keys, f.current, ExitNow(beh), ExitAfter(beh))
  {
    hide Turn, TurnEnds, Action, OnStart, ExitValue, ExitNow, ExitAfter, Target, SameSuccessor;
    var beh := f.states[f.current].beh;
    ExitsOfVisit(beh);
    SuccessorOfTarget(f.machine, f.states.Keys, f.current, ExitNow(beh), ExitAfter(beh));
    var a, b := Target(f.machine, f.current, ExitNow(beh)), Target(f.machine, f.current, ExitAfter(beh));
    var g, d := FsmAction(f), DocumentedAction(f);
    if a != "" && a in f.states {
      assert !g.finished && g.current == a;
    }
    if b != "" && b in f.states {
      assert !d.finished && d.current == b;
    }
  }

  /** A machine with A to B on 0 and A to C on 1, whose state A has the exit value 0 until
      its onEnd makes it 1. */
  function LateExit(): Behaviour {
    var a := Behaviour(Idle, 0, Simple((visit: nat) => Visit(Ticks(1), 0, 1), 0, 0));
    Behaviour(Idle, 0, Fsm(FsmBody(
      map["A" := State(a, false), "B" := State(OneShot(0), false), "C" := State(OneShot(0), true)],
      Machine("A", map["A" := map[0 := "B", 1 := "C"]], map[]), "", false, [], [])))
  }

  /** It goes to B, where the class comment sends it to C. */
  lemma OnEndComesTooLate()
    ensures OnStart(LateExit()).body.Fsm?
    ensures FsmAction(OnStart(LateExit()).body.fsm).current == "B"
    ensures DocumentedAction(OnStart(LateExit()).body.fsm).current == "C"
  {
    var f := OnStart(LateExit()).body.fsm;
    var beh := f.states["A"].beh;
    assert beh.life == Ready && TurnEnds(beh);
    ExitsOfVisit(beh);
    hide OnStart, Turn, TurnEnds, Action, ExitValue;
    assert Target(f.machine, "A", 0) == "B" && Target(f.machine, "A", 1) == "C";
  }

  // ----- time -----

  /** Every transition that the machine can take lowers the rank. */
  ghost predicate Ranked(f: FsmBody, rank: string -> nat) {
    forall q, exit ::
      (q in f.states && !f.states[q].last && Target(f.machine, q, exit) in f.states && Target(f.machine, q, exit) != "")
      ==> rank(Target(f.machine, q, exit)) < rank(q)
  }

  /** The exit value of the next visit. */
  function ExitNext(b: Behaviour): int {
    match b.body
    case Simple(plan, starts, _) => plan(starts + 1).exit
    case _ => 0
  }

  /** Where the automaton goes from q on this exit value, [] for nowhere. */
  function Onward(f: FsmBody, q: string, exit: int): (r: seq<string>)
    requires q in f.states
    ensures r != [] ==> r[0] in f.states && r[0] == Target(f.machine, q, exit) && r[0] != "" && !f.states[q].last
  {
    var next := Target(f.machine, q, exit);
    if f.states[q].last || next == "" || next !in f.states then [] else [next]
  }

  /** The states the automaton visits from q on. */
  ghost function Path(f: FsmBody, rank: string -> nat, q: string): seq<string>
    requires q in f.states && Ranked(f, rank)
    decreases rank(q)
  {
    var on := Onward(f, q, ExitNext(f.states[q].beh));
    [q] + (if on == [] then [] else Path(f, rank, on[0]))
  }

  /** The time they take in all, given the time that a visit of each state takes. */
  ghost function PathTime(f: FsmBody, rank: string -> nat, times: string -> Time, q: string): Time
    requires q in f.states && Ranked(f, rank)
    decreases rank(q)
  {
    var on := Onward(f, q, ExitNext(f.states[q].beh));
    Plus(times(q), if on == [] then Ticks(0) else PathTime(f, rank, times, on[0]))
  }

  /** What follows the visit in progress: the states and their time. */
  ghost function RestPath(f: FsmBody, rank: string -> nat, q: string): seq<string>
    requires q in f.states && Ranked(f, rank)
  {
    var on := Onward(f, q, ExitNow(f.states[q].beh));
    if on == [] then [] else Path(f, rank, on[0])
  }

  ghost function RestTime(f: FsmBody, rank: string -> nat, times: string -> Time, q: string): Time
    requires q in f.states && Ranked(f, rank)
  {
    var on := Onward(f, q, ExitNow(f.states[q].beh));
    if on == [] then Ticks(0) else PathTime(f, rank, times, on[0])
  }

  /** Changing behaviours of higher rank changes nothing from here on. */
  ghost predicate AgreeUpTo(f: FsmBody, g: FsmBody, rank: string -> nat, r: int) {
    SameNames(f, g) && forall k :: k in f.states && rank(k) <= r ==> f.states[k] == g.states[k]
  }

  lemma {:induction false} PathFrame(f: FsmBody, g: FsmBody, rank: string -> nat, times: string -> Time, q: string)
    requires q in f.states && Ranked(f, rank) && AgreeUpTo(f, g, rank, rank(q))
    ensures q in g.states && Ranked(g, rank)
    ensures Path(f, rank, q) == Path(g, rank, q) && PathTime(f, rank, times, q) == PathTime(g, rank, times, q)
    decreases rank(q)
  {
    hide ExitNext, Target;
    RankedFrame(f, g, rank);
    var on := Onward(f, q, ExitNext(f.states[q].beh));
    assert f.states[q] == g.states[q];
    if on != [] {
      PathFrame(f, g, rank, times, on[0]);
    }
  }

  lemma RankedFrame(f: FsmBody, g: FsmBody, rank: string -> nat)
    requires Ranked(f, rank) && SameNames(f, g)
    ensures Ranked(g, rank)
  {
    hide Target;
    forall q, exit | q in g.states && !g.states[q].last && Target(g.machine, q, exit) in g.states
      && Target(g.machine, q, exit) != "" ensures rank(Target(g.machine, q, exit)) < rank(q)
    {
      assert q in f.states.Keys && Target(f.machine, q, exit) in f.states.Keys;
    }
  }

  lemma TurnExit(b: Behaviour)
    requires b.life == Ready
    ensures TurnEnds(b) ==> ExitValue(Done(Action(b))) == ExitNow(b)
    ensures !TurnEnds(b) ==> ExitNow(Turn(b)) == ExitNow(b)
  {
    hide SequentialAction, FsmAction, TurnAll, IsDone;
    if b.body.Simple? {
    } else {
      assert !Action(b).body.Simple?;
    }
  }

  lemma StartExit(b: Behaviour)
    ensures ExitNow(OnStart(b)) == ExitNext(b)
  {
  }

  lemma OnwardLower(f: FsmBody, rank: string -> nat, q: string, exit: int)
    requires q in f.states && Ranked(f, rank) && Onward(f, q, exit) != []
    ensures rank(Onward(f, q, exit)[0]) < rank(q)
  {
    hide Target;
  }

  /** How the machine changes while the visit goes on. */
  lemma Stays(f: FsmBody)
    requires f.current != "" && f.current in f.states && !f.finished
    requires f.states[f.current].beh.life == Ready && !TurnEnds(f.states[f.current].beh)
    ensures var g, q := FsmAction(f), f.current;
      && SameNames(f, g) && g == f.(states := g.states)
      && g.states[q].beh == Turn(f.states[q].beh)
      && ExitNow(g.states[q].beh) == ExitNow(f.states[q].beh)
      && forall k :: k in f.states && k != q ==> g.states[k] == f.states[k]
  {
    hide Turn, TurnEnds, Action, ExitNow, Target, OnStart, ExitValue;
    TurnExit(f.states[f.current].beh);
  }

  /** How the machine changes when the visit ends. */
  lemma Leaves(f: FsmBody)
    requires f.current != "" && f.current in f.states && !f.finished
    requires f.states[f.current].beh.life == Ready && TurnEnds(f.states[f.current].beh)
    ensures var g, q := FsmAction(f), f.current;
      var on := Onward(f, q, ExitNow(f.states[q].beh));
      && SameNames(f, g)
      && (if on == [] then g.finished && g.trail == f.trail && g.current == q
          else
            && !g.finished && g.current == on[0] && g.trail == f.trail + [on[0]]
            && (on[0] != q ==> g.states[on[0]].beh == OnStart(f.states[on[0]].beh))
            && forall k :: k in f.states && k != q && k != on[0] ==> g.states[k] == f.states[k])
  {
    hide Turn, TurnEnds, Action, ExitNow, Target, OnStart, ExitValue;
    TurnExit(f.states[f.current].beh);
  }

  /** The machine while it runs. */
  ghost predicate Running(b: Behaviour, rank: string -> nat) {
    b.body.Fsm? && Sane(b) && b.life == Ready && !b.body.fsm.finished
    && b.body.fsm.current != "" && b.body.fsm.current in b.body.fsm.states && Ranked(b.body.fsm, rank)
  }

  /** The states that may still be entered take the given times. */
  ghost predicate Timed(f: FsmBody, rank: string -> nat, times: string -> Time, r: int) {
    forall k :: k in f.states && rank(k) < r ==> Takes(OnStart(f.states[k].beh), times(k))
  }

  lemma MachineRound(b: Behaviour, rank: string -> nat)
    requires Running(b, rank)
    ensures var g := FsmAction(b.body.fsm);
      Action(b).body == Fsm(g) && Done(Action(b)).body == Fsm(g) && IsDone(Action(b).body) == g.finished
    ensures Sane(Done(Action(b))) && (!IsDone(Action(b).body) ==> Done(Action(b)).life == Ready)
    ensures b.body.fsm.states[b.body.fsm.current].beh.life == Ready
  {
    ActionKeepsSane(b);
    DoneKeepsSane(Action(b));
  }

  /** The visit goes on: what follows it does not change. */
  lemma StayInState(f: FsmBody, rank: string -> nat, times: string -> Time)
    requires f.current != "" && f.current in f.states && !f.finished && Ranked(f, rank)
    requires f.states[f.current].beh.life == Ready && !TurnEnds(f.states[f.current].beh)
    requires Timed(f, rank, times, rank(f.current))
    ensures var g, q := FsmAction(f), f.current;
      && g == f.(states := g.states) && q in g.states && Ranked(g, rank) && Timed(g, rank, times, rank(q))
      && g.states[q].beh == Turn(f.states[q].beh)
      && RestTime(g, rank, times, q) == RestTime(f, rank, times, q) && RestPath(g, rank, q) == RestPath(f, rank, q)
  {
    hide Turn, TurnEnds, ExitNow, FsmAction, Ranked, Path, PathTime, Target, Takes, OnStart;
    var q := f.current;
    var g := FsmAction(f);
    Stays(f);
    RankedFrame(f, g, rank);
    var on := Onward(f, q, ExitNow(f.states[q].beh));
    assert Onward(g, q, ExitNow(f.states[q].beh)) == on;
    if on != [] {
      OnwardLower(f, rank, q, ExitNow(f.states[q].beh));
      PathFrame(f, g, rank, times, on[0]);
    }
  }

  /** The visit ends: the machine finishes, or enters the next state of its path. */
  lemma LeaveState(f: FsmBody, rank: string -> nat, times: string -> Time)
    requires f.current != "" && f.current in f.states && !f.finished && Ranked(f, rank)
    requires f.states[f.current].beh.life == Ready && TurnEnds(f.states[f.current].beh)
    requires Timed(f, rank, times, rank(f.current))
    ensures var g, q := FsmAction(f), f.current;
      && g.current in g.states && Ranked(g, rank)
      && (g.finished ==> g.trail == f.trail && RestPath(f, rank, q) == [] && RestTime(f, rank, times, q) == Ticks(0))
      && (!g.finished ==>
            && g.current != "" && rank(g.current) < rank(q) && Timed(g, rank, times, rank(g.current))
            && Takes(g.states[g.current].beh, times(g.current))
            && RestTime(f, rank, times, q) == Plus(times(g.current), RestTime(g, rank, times, g.current))
            && g.trail + RestPath(g, rank, g.current) == f.trail + RestPath(f, rank, q))
  {
    hide Turn, TurnEnds, ExitNow, FsmAction, Ranked, Onward, Takes, OnStart, Path, PathTime;
    var q := f.current;
    var g := FsmAction(f);
    Leaves(f);
    RankedFrame(f, g, rank);
    var on := Onward(f, q, ExitNow(f.states[q].beh));
    if on != [] {
      OnwardLower(f, rank, q, ExitNow(f.states[q].beh));
      Entered(f, g, rank, times, on[0]);
      assert f.trail + [on[0]] + RestPath(g, rank, on[0]) == f.trail + ([on[0]] + RestPath(g, rank, on[0]));
    }
  }

  /** A state just entered is at the head of its path. */
  lemma Entered(f: FsmBody, g: FsmBody, rank: string -> nat, times: string -> Time, next: string)
    requires next in f.states && Ranked(f, rank) && Ranked(g, rank) && SameNames(f, g)
    requires g.states[next].beh == OnStart(f.states[next].beh)
    requires forall k :: k in f.states && rank(k) < rank(next) ==> g.states[k] == f.states[k]
    ensures PathTime(f, rank, times, next) == Plus(times(next), RestTime(g, rank, times, next))
    ensures Path(f, rank, next) == [next] + RestPath(g, rank, next)
  {
    hide ExitNow, ExitNext, Target, OnStart;
    StartExit(f.states[next].beh);
    var on := Onward(f, next, ExitNext(f.states[next].beh));
    if on != [] {
      PathFrame(f, g, rank, times, on[0]);
    }
  }

  lemma {:induction false} MachineRuns(b: Behaviour, rank: string -> nat, times: string -> Time, left: Time, n: nat)
    requires Running(b, rank) && Timed(b.body.fsm, rank, times, rank(b.body.fsm.current))
    requires Takes(b.body.fsm.states[b.body.fsm.current].beh, left)
    ensures Runs(b, n) <==> Before(n, Plus(left, RestTime(b.body.fsm, rank, times, b.body.fsm.current)))
    ensures n > 0 && Runs(b, n - 1) && !Runs(b, n) ==>
      && Driven(b, n).body.Fsm?
      && Driven(b, n).body.fsm.trail == b.body.fsm.trail + RestPath(b.body.fsm, rank, b.body.fsm.current)
    decreases n
  {
    hide Sane, Takes, Turn, TurnEnds, Action, Done, IsDone, OnStart, RestTime, RestPath, FsmAction, Ranked, Timed;
    var f := b.body.fsm;
    TakesTurn(f.states[f.current].beh, left);
    if n > 0 {
      RunsShift(b, n - 1);
      MachineRound(b, rank);
      OneRound(b);
      if n > 1 {
        RunsShift(b, n - 2);
      }
      hide Runs, Driven;
      var b' := Done(Action(b));
      if TurnEnds(f.states[f.current].beh) {
        LeaveState(f, rank, times);
        assert f.trail + [] == f.trail;
        if !FsmAction(f).finished {
          TakesPositive(FsmAction(f).states[FsmAction(f).current].beh, times(FsmAction(f).current));
          MachineRuns(b', rank, times, times(FsmAction(f).current), n - 1);
        }
      } else {
        StayInState(f, rank, times);
        MachineRuns(b', rank, times, Minus(left, 1), n - 1);
      }
    }
  }

  lemma OneRound(b: Behaviour)
    ensures Driven(b, 1) == Done(Action(b)) && Runs(b, 0) && (Runs(b, 1) <==> !IsDone(Action(b).body))
  {
    hide Done, Action, IsDone;
    RunsShift(b, 0);
  }

  lemma StartRunning(b: Behaviour, rank: string -> nat)
    requires b.body.Fsm? && Sane(b) && Resting(b) && Ranked(b.body.fsm, rank)
    requires b.body.fsm.machine.first != "" && b.body.fsm.machine.first in b.body.fsm.states
    ensures var f, q := b.body.fsm, b.body.fsm.machine.first;
      && Running(OnStart(b), rank)
      && var g := OnStart(b).body.fsm;
         g.current == q && g.trail == [q] && SameNames(f, g) && g.states[q].beh == OnStart(f.states[q].beh)
         && forall k :: k in f.states && k != q ==> g.states[k] == f.states[k]
  {
    hide Sane, Ranked;
    StartKeepsSane(b);
    assert SameNames(b.body.fsm, OnStart(b).body.fsm);
    RankedFrame(b.body.fsm, OnStart(b).body.fsm, rank);
  }

  /** A machine whose transitions are ranked takes exactly the summed times of the states
      on the path of its automaton, and has visited exactly those, whatever behaviours
      its states are: sequences, parallels, machines. */
  lemma FsmTickCount(b: Behaviour, rank: string -> nat, times: string -> Time, n: nat)
    requires b.body.Fsm? && Sane(b) && Resting(b) && Ranked(b.body.fsm, rank)
    requires b.body.fsm.machine.first != "" && b.body.fsm.machine.first in b.body.fsm.states
    requires forall k :: k in b.body.fsm.states ==> Takes(OnStart(b.body.fsm.states[k].beh), times(k))
    ensures Runs(OnStart(b), n) <==> Before(n, PathTime(b.body.fsm, rank, times, b.body.fsm.machine.first))
    ensures n > 0 && Runs(OnStart(b), n - 1) && !Runs(OnStart(b), n) ==>
      && Driven(OnStart(b), n).body.Fsm?
      && Driven(OnStart(b), n).body.fsm.trail == Path(b.body.fsm, rank, b.body.fsm.machine.first)
  {
    hide Sane, OnStart, Path, PathTime, Ranked, Runs, Driven, Takes, RestPath, RestTime;
    StartRunning(b, rank);
    var f, g, q := b.body.fsm, OnStart(b).body.fsm, b.body.fsm.machine.first;
    Entered(f, g, rank, times, q);
    assert Timed(g, rank, times, rank(q));
    MachineRuns(OnStart(b), rank, times, times(q), n);
  }

  /** The same as a time, so that machines nest in other behaviours. */
  lemma FsmTakes(b: Behaviour, rank: string -> nat, times: string -> Time)
    requires b.body.Fsm? && Sane(b) && Resting(b) && Ranked(b.body.fsm, rank)
    requires b.body.fsm.machine.first != "" && b.body.fsm.machine.first in b.body.fsm.states
    requires forall k :: k in b.body.fsm.states ==> Takes(OnStart(b.body.fsm.states[k].beh), times(k))
    ensures Takes(OnStart(b), PathTime(b.body.fsm, rank, times, b.body.fsm.machine.first))
  {
    StartKeepsSane(b);
    hide Sane, OnStart, PathTime, Ranked, Runs, Takes;
    forall n: nat ensures Runs(OnStart(b), n) <==> Before(n, PathTime(b.body.fsm, rank, times, b.body.fsm.machine.first)) {
      FsmTickCount(b, rank, times, n);
    }
    TakesFrom(OnStart(b), PathTime(b.body.fsm, rank, times, b.body.fsm.machine.first));
  }
}
