/** The composite behaviours as the classes they are, with their fields and loops, and
    the thread that runs a behaviour. A class keeps its children by value. */
module Scheduler {
  import opened Behaviours
  import opened BehaviourTicks

  class WakerBehaviour {
    ghost var life: Life
    ghost var cut: nat
    var timer: nat
    ghost var visits: nat
    ghost var wakes: nat

    ghost function Value(): Behaviour
      reads this
    {
      Behaviour(life, cut, Waker(timer, visits, wakes))
    }

    constructor (timer: nat)
      ensures Value() == Behaviour(Idle, 0, Waker(timer, 0, 0))
    {
      this.timer, visits, wakes, life, cut := timer, 0, 0, Idle, 0;
    }

    method Begin()
      modifies this
      ensures Value() == OnStart(old(Value()))
    {
      life, cut, visits := Follow(life, CallStart), CutBy(life, cut), visits + 1;
    }

    /** internalTimer is unsigned: it must not be taken below zero. */
    method Act()
      modifies this
      ensures Value() == Action(old(Value()))
    {
      life := Follow(life, CallAction);
      if timer == 0 {
        return;
      }
      timer := timer - 1;
    }

    method AskDone() returns (answer: bool)
      modifies this
      ensures answer == IsDone(old(Value()).body) && Value() == Done(old(Value()))
    {
      life := Follow(life, CallDone(timer == 0));
      if timer == 0 {
        wakes := wakes + 1;
        return true;
      }
      return false;
    }
  }

  class SequentialBehaviour {
    ghost var life: Life
    ghost var cut: nat
    var children: seq<Behaviour>
    var current: nat

    ghost function Value(): Behaviour
      reads this
    {
      Behaviour(life, cut, Sequential(children, current))
    }

    constructor (children: seq<Behaviour>)
      ensures Value() == Behaviour(Idle, 0, Sequential(children, 0))
    {
      this.children, current, life, cut := children, 0, Idle, 0;
    }

    method Begin()
      modifies this
      ensures Value() == OnStart(old(Value()))
    {
      life, cut := Follow(life, CallStart), CutBy(life, cut);
      current := 0;
      if children != [] {
        children := children[current := OnStart(children[current])];
      }
    }

    method Act()
      modifies this
      ensures Value() == Action(old(Value()))
    {
      life := Follow(life, CallAction);
      if current >= |children| {
        return;
      }
      TurnInSteps(children[current]);
      var cur := Action(children[current]);
      var ends := IsDone(cur.body);
      cur := Done(cur);
      if ends {
        children := children[current := OnEnd(cur)];
        current := current + 1;
        if current < |children| {
          children := children[current := OnStart(children[current])];
        }
      } else {
        children := children[current := cur];
      }
    }

    method AskDone() returns (answer: bool)
      modifies this
      ensures answer == IsDone(old(Value()).body) && Value() == Done(old(Value()))
    {
      answer := current >= |children|;
      life := Follow(life, CallDone(answer));
    }
  }

  class ParallelBehaviour {
    ghost var life: Life
    ghost var cut: nat
    const any: bool
    var children: seq<Behaviour>
    var ended: seq<bool>

    ghost function Value(): Behaviour
      reads this
    {
      Behaviour(life, cut, Parallel(children, any, ended))
    }

    constructor (children: seq<Behaviour>, any: bool)
      ensures Value() == Behaviour(Idle, 0, Parallel(children, any, []))
    {
      this.children, this.any, ended, life, cut := children, any, [], Idle, 0;
    }

    method Begin()
      modifies this
      ensures Value() == OnStart(old(Value()))
    {
      life, cut := Follow(life, CallStart), CutBy(life, cut);
      ended := NoneEnded(|children|);
      for i := 0 to |children|
        invariant |children| == |old(children)| && life == Follow(old(life), CallStart) && cut == CutBy(old(life), old(cut)) && ended == NoneEnded(|children|)
        invariant forall j :: 0 <= j < i ==> children[j] == OnStart(old(children)[j])
        invariant forall j :: i <= j < |children| ==> children[j] == old(children)[j]
      {
        children := children[i := OnStart(children[i])];
      }
      assert children == StartAll(old(children));
    }

    /** action() then done(), so that a child that is done from the start still acts. */
    method Act()
      modifies this
      ensures Value() == Action(old(Value()))
    {
      life := Follow(life, CallAction);
      if |ended| != |children| {
        ended := Resized(ended, |children|);
      }
      ghost var flags := ended;
      for i := 0 to |children|
        invariant |children| == |old(children)| == |ended| == |flags| && life == Follow(old(life), CallAction) && cut == old(cut)
        invariant forall j :: 0 <= j < i ==>
          children[j] == (if flags[j] then old(children)[j] else Turn(old(children)[j]))
          && ended[j] == (flags[j] || TurnEnds(old(children)[j]))
        invariant forall j :: i <= j < |children| ==> children[j] == old(children)[j] && ended[j] == flags[j]
      {
        if !ended[i] {
          var child := Action(children[i]);
          var ends := IsDone(child.body);
          child := Done(child);
          if ends {
            child := OnEnd(child);
            ended := ended[i := true];
          }
          children := children[i := child];
        }
      }
      assert children == TurnAll(old(children), flags).0;
      assert ended == TurnAll(old(children), flags).1;
    }

    method AskDone() returns (answer: bool)
      modifies this
      ensures answer == IsDone(old(Value()).body) && Value() == Done(old(Value()))
    {
      answer := Answer();
      life := Follow(life, CallDone(answer));
    }

    method Answer() returns (answer: bool)
      ensures answer == ParallelDone(|children|, any, ended)
    {
      if children == [] {
        return true;
      }
      if |ended| != |children| {
        return false;
      }
      for i := 0 to |ended|
        invariant forall j :: 0 <= j < i ==> ended[j] == !any
      {
        if ended[i] == any {
          return any;
        }
      }
      return !any;
    }
  }

  lemma FsmActs(life: Life, cut: nat, fsm: FsmBody)
    ensures Action(Behaviour(life, cut, Fsm(fsm))) == Behaviour(Follow(life, CallAction), cut, Fsm(FsmAction(fsm)))
  {
  }

  class FSMBehaviour {
    ghost var life: Life
    ghost var cut: nat
    var states: map<string, State>
    var transitions: map<string, map<int, string>>
    var defaults: map<string, string>
    var first: string
    var currentState: string
    var finished: bool
    ghost var trail: seq<string>
    ghost var exits: seq<int>

    ghost function Machine(): FsmBody
      reads this
    {
      FsmBody(states, Behaviours.Machine(first, transitions, defaults), currentState, finished, trail, exits)
    }

    ghost function Value(): Behaviour
      reads this
    {
      Behaviour(life, cut, Fsm(Machine()))
    }

    constructor ()
      ensures Value() == Behaviour(Idle, 0, Fsm(FsmBody(map[], Behaviours.Machine("", map[], map[]), "", false, [], [])))
    {
      states, transitions, defaults, first := map[], map[], map[], "";
      currentState, finished, trail, exits, life, cut := "", false, [], [], Idle, 0;
    }

    method RegisterFirstState(beh: Behaviour, name: string)
      modifies this
      ensures Machine() == old(Machine()).(
        states := old(states)[name := State(beh, false)], machine := old(Machine()).machine.(first := name))
      ensures life == old(life) && cut == old(cut)
    {
      states := states[name := State(beh, false)];
      first := name;
    }

    method RegisterState(beh: Behaviour, name: string)
      modifies this
      ensures Machine() == old(Machine()).(states := old(states)[name := State(beh, false)]) && life == old(life) && cut == old(cut)
    {
      states := states[name := State(beh, false)];
    }

    method RegisterLastState(beh: Behaviour, name: string)
      modifies this
      ensures Machine() == old(Machine()).(states := old(states)[name := State(beh, true)]) && life == old(life) && cut == old(cut)
    {
      states := states[name := State(beh, true)];
    }

    method RegisterTransition(from: string, to: string, exit: int)
      modifies this
      ensures (forall q, e ::
        Target(Machine().machine, q, e) ==
          if q == from && e == exit && to != "" then to
          else if q == from && e == exit then (if from in defaults then defaults[from] else "")
          else Target(old(Machine()).machine, q, e))
      ensures Machine() == old(Machine()).(machine := Machine().machine) && first == old(first) && life == old(life) && cut == old(cut)
    {
      var row := if from in transitions then transitions[from] else map[];
      transitions := transitions[from := row[exit := to]];
    }

    method RegisterDefaultTransition(from: string, to: string)
      modifies this
      ensures defaults == old(defaults)[from := to]
      ensures Machine() == old(Machine()).(machine := old(Machine()).machine.(defaults := defaults)) && life == old(life) && cut == old(cut)
    {
      defaults := defaults[from := to];
    }

    method Begin()
      modifies this
      ensures Value() == OnStart(old(Value()))
    {
      life, cut := Follow(life, CallStart), CutBy(life, cut);
      finished := false;
      currentState := first;
      trail, exits := [], [];
      if currentState != "" && currentState in states {
        var entry := states[currentState];
        states := states[currentState := State(OnStart(entry.beh), entry.last)];
        trail := [currentState];
      }
    }

    method Act()
      modifies this
      ensures Value() == Action(old(Value()))
    {
      hide Action, Turn, TurnEnds, IsDone, Done, OnEnd, OnStart, ExitValue, Target;
      FsmActs(life, cut, Machine());
      life := Follow(life, CallAction);
      if finished || currentState == "" {
        return;
      }
      if currentState !in states {
        finished := true;
        return;
      }
      var entry := states[currentState];
      TurnInSteps(entry.beh);
      var cur := Action(entry.beh);
      var ends := IsDone(cur.body);
      cur := Done(cur);
      if !ends {
        states := states[currentState := State(cur, entry.last)];
        return;
      }
      var exit := ExitValue(cur);
      states := states[currentState := State(OnEnd(cur), entry.last)];
      exits := exits + [exit];
      if entry.last {
        finished := true;
        return;
      }
      var next := NextState(exit);
      if next == "" || next !in states {
        finished := true;
        return;
      }
      currentState := next;
      states := states[next := State(OnStart(states[next].beh), states[next].last)];
      trail := trail + [next];
    }

    method NextState(exit: int) returns (next: string)
      ensures next == Target(Machine().machine, currentState, exit)
    {
      next := "";
      if currentState in transitions && exit in transitions[currentState] {
        next := transitions[currentState][exit];
      }
      if next == "" && currentState in defaults {
        next := defaults[currentState];
      }
    }

    method AskDone() returns (answer: bool)
      modifies this
      ensures answer == IsDone(old(Value()).body) && Value() == Done(old(Value()))
    {
      answer := finished;
      life := Follow(life, CallDone(answer));
    }
  }

  /** The body of Agent::exthread, watched for the given number of rounds: it has called
      action() until done() was first true, and then onEnd(), or is still at it. For a
      tree of sequences and parallels that is as often as the tree costs. A waker that is
      run has woken once if it has ended and not before. */
  method ExThread(beh: Behaviour, rounds: nat) returns (after: Behaviour, actions: nat, ended: bool)
    ensures actions <= rounds && (!ended ==> actions == rounds && Runs(OnStart(beh), rounds))
    ensures ended ==> actions > 0 && Runs(OnStart(beh), actions - 1) && !Runs(OnStart(beh), actions)
    ensures after == var last := Driven(OnStart(beh), actions); if ended then OnEnd(last) else last
    ensures Plain(beh) && Sane(beh) && Resting(beh) ==>
      (ended <==> Cost(beh).Ticks? && Cost(beh).n <= rounds) && (ended ==> actions == Cost(beh).n)
    ensures Sane(beh) && Resting(beh) ==> Unbroken(after) && after.life == (if ended then Idle else Ready)
    ensures Fresh(beh) && beh.body.Waker? ==> after.body.Waker? && after.body.wakes == (if ended then 1 else 0)
  {
    hide Sane, Resting, Fresh, Unbroken, Plain, Cost, OnStart, Action, Done, OnEnd;
    after := OnStart(beh);
    actions, ended := 0, false;
    while actions < rounds && !ended
      invariant actions <= rounds && after == Driven(OnStart(beh), actions)
      invariant if ended then actions > 0 && Runs(OnStart(beh), actions - 1) && !Runs(OnStart(beh), actions)
                else Runs(OnStart(beh), actions)
      decreases rounds - actions, !ended
    {
      after := Action(after);
      ended := IsDone(after.body);
      after := Done(after);
      actions := actions + 1;
    }
    if Plain(beh) && Sane(beh) && Resting(beh) {
      TickCount(beh, actions);
      if ended {
        TickCount(beh, actions - 1);
      }
    }
    if ended {
      after := OnEnd(after);
    }
    if Fresh(beh) {
      FreshRests(beh);
    }
    if Sane(beh) && Resting(beh) {
      ThreadKeepsContract(beh, actions);
    }
  }
}
