/** The gate at which an agent suspends its behaviour threads: runingThred, its mutex
    and its condition variable, with any number of threads and any interleaving. */
module SuspendGate {

  /** Where a behaviour thread is. A thread Looks while it holds the mutex and tests the
      flag; it sleeps in Blocked until it is notified, or wakes spuriously. */
  datatype Thread = AtGate | Looks | Blocked | Passed | Acts | Gone

  /** The control thread around one assignment to the flag. */
  datatype Control = Away | Holds(value: bool) | Wrote

  datatype Owner = Nobody | BehaviourThread(i: nat) | ControlThread

  datatype Gate = Gate(
    threads: seq<Thread>,
    control: Control,
    owner: Owner,            // of the mutex
    flag: bool,              // runingThred
    through: seq<bool>,      // past the gate when the flag was last set, or cleared while it was up
    begun: seq<nat>)         // actions begun since then

  datatype Step =
    | Lock(i: nat) | Look(i: nat) | Spurious(i: nat) | Begin(i: nat) | End(i: nat, done: bool)
    | ControlLock(value: bool) | ControlWrite | ControlNotify

  function Open(n: nat): Gate {
    Gate(All(n, AtGate), Away, Nobody, true, All(n, false), All(n, 0))
  }

  function All<T>(n: nat, x: T): (r: seq<T>)
    ensures |r| == n && forall i :: 0 <= i < n ==> r[i] == x
  {
    if n == 0 then [] else All(n - 1, x) + [x]
  }

  /** notify_all: every sleeper goes to compete for the mutex. */
  function Woken(threads: seq<Thread>): (r: seq<Thread>)
    ensures |r| == |threads|
    ensures forall i :: 0 <= i < |r| ==> r[i] == (if threads[i] == Blocked then AtGate else threads[i])
  {
    if threads == [] then [] else [if threads[0] == Blocked then AtGate else threads[0]] + Woken(threads[1..])
  }

  function ThroughNow(threads: seq<Thread>): (r: seq<bool>)
    ensures |r| == |threads|
    ensures forall i :: 0 <= i < |r| ==> r[i] == (threads[i] == Passed)
  {
    if threads == [] then [] else [threads[0] == Passed] + ThroughNow(threads[1..])
  }

  predicate At(g: Gate, i: nat, where: Thread) {
    i < |g.threads| && i < |g.begun| && g.threads[i] == where
  }

  /** The next state; a step that is not possible changes nothing. */
  function Next(g: Gate, step: Step): Gate {
    match step
    case Lock(i) =>
      if At(g, i, AtGate) && g.owner == Nobody
      then g.(threads := g.threads[i := Looks], owner := BehaviourThread(i)) else g
    case Look(i) =>
      if At(g, i, Looks) then g.(threads := g.threads[i := if g.flag then Passed else Blocked], owner := Nobody) else g
    case Spurious(i) =>
      if At(g, i, Blocked) then g.(threads := g.threads[i := AtGate]) else g
    case Begin(i) =>
      if At(g, i, Passed) then g.(threads := g.threads[i := Acts], begun := g.begun[i := g.begun[i] + 1]) else g
    case End(i, done) =>
      if At(g, i, Acts) then g.(threads := g.threads[i := if done then Gone else AtGate]) else g
    case ControlLock(value) =>
      if g.control == Away && g.owner == Nobody then g.(control := Holds(value), owner := ControlThread) else g
    case ControlWrite =>
      if !g.control.Holds? then g
      else if !g.flag && !g.control.value then g.(control := Wrote)
      else g.(control := Wrote, flag := g.control.value, through := ThroughNow(g.threads), begun := All(|g.threads|, 0))
    case ControlNotify =>
      if g.control == Wrote then g.(control := Away, owner := Nobody, threads := Woken(g.threads)) else g
  }

  function Play(g: Gate, steps: seq<Step>): Gate {
    if steps == [] then g else Next(Play(g, steps[..|steps| - 1]), steps[|steps| - 1])
  }

  /** The mutex is held by exactly the one that acts under it; while the flag is down
      only threads that were through go on, each once; while it is up nobody sleeps,
      except between the write and the notification. */
  predicate Inv(g: Gate) {
    && |g.through| == |g.begun| == |g.threads|
    && (g.control == Away <==> g.owner != ControlThread)
    && (forall i :: 0 <= i < |g.threads| ==> (g.threads[i] == Looks <==> g.owner == BehaviourThread(i)))
    && (forall i :: 0 <= i < |g.threads| && !g.flag ==>
          g.begun[i] + (if g.threads[i] == Passed then 1 else 0) <= (if g.through[i] then 1 else 0))
    && (forall i :: 0 <= i < |g.threads| && g.flag && g.control != Wrote ==> g.threads[i] != Blocked)
  }

  lemma NextKeepsInv(g: Gate, step: Step)
    requires Inv(g)
    ensures Inv(Next(g, step))
  {
  }

  lemma {:induction false} PlayKeepsInv(g: Gate, steps: seq<Step>)
    requires Inv(g)
    ensures Inv(Play(g, steps))
  {
    hide Inv, Next;
    if steps != [] {
      PlayKeepsInv(g, steps[..|steps| - 1]);
      NextKeepsInv(Play(g, steps[..|steps| - 1]), steps[|steps| - 1]);
    }
  }

  lemma ThreadsStay(g: Gate, steps: seq<Step>)
    ensures |Play(g, steps).threads| == |g.threads|
  {
    if steps != [] {
      ThreadsStay(g, steps[..|steps| - 1]);
    }
  }

  /** How many actions thread i begins in these steps. */
  function Begins(g: Gate, steps: seq<Step>, i: nat): nat {
    if steps == [] then 0
    else
      var before := Play(g, steps[..|steps| - 1]);
      Begins(g, steps[..|steps| - 1], i) + (if steps[|steps| - 1] == Begin(i) && At(before, i, Passed) then 1 else 0)
  }

  /** The flag is down all the time. */
  predicate StaysShut(g: Gate, steps: seq<Step>) {
    !Play(g, steps).flag && (steps == [] || StaysShut(g, steps[..|steps| - 1]))
  }

  lemma ShutStep(g: Gate, step: Step, i: nat)
    requires Inv(g) && i < |g.threads| && !g.flag
    ensures |Next(g, step).threads| == |g.threads|
    ensures (if step == Begin(i) && At(g, i, Passed) then 1 else 0) + (if Next(g, step).threads[i] == Passed then 1 else 0)
         <= (if g.threads[i] == Passed then 1 else 0)
  {
  }

  /** However often the flag is cleared again: as long as it stays down, a thread begins
      at most one action, and none unless it was past the gate. */
  lemma {:induction false} AtMostOneAction(g: Gate, steps: seq<Step>, i: nat)
    requires Inv(g) && i < |g.threads| && StaysShut(g, steps)
    ensures Inv(Play(g, steps)) && |Play(g, steps).threads| == |g.threads|
    ensures Begins(g, steps, i) + (if Play(g, steps).threads[i] == Passed then 1 else 0)
         <= (if g.threads[i] == Passed then 1 else 0)
  {
    hide Inv, Next;
    if steps != [] {
      var n := |steps| - 1;
      AtMostOneAction(g, steps[..n], i);
      ShutStep(Play(g, steps[..n]), steps[n], i);
      NextKeepsInv(Play(g, steps[..n]), steps[n]);
    }
  }

  /** In every state of every run: since the flag was last taken down each thread has
      begun at most one action, and only if it was already past the gate; and once the
      flag is up and the control thread has let go, no thread sleeps at the gate: no
      notification is lost. */
  lemma GateHolds(n: nat, steps: seq<Step>, i: nat)
    requires i < n
    ensures var g := Play(Open(n), steps);
      && |g.threads| == |g.begun| == |g.through| == n
      && (!g.flag ==> g.begun[i] <= 1 && (g.begun[i] == 1 ==> g.through[i]))
      && (!g.flag && g.begun[i] == 1 ==> g.threads[i] != Passed)
      && (g.flag && g.control != Wrote ==> g.threads[i] != Blocked)
  {
    hide Open, Next;
    assert Inv(Open(n)) && |Open(n).threads| == n by { OpenInv(n); }
    PlayKeepsInv(Open(n), steps);
    ThreadsStay(Open(n), steps);
  }

  lemma OpenInv(n: nat)
    ensures Inv(Open(n)) && |Open(n).threads| == n
  {
  }

  /** While the gate is shut and the control thread is away, a thread on this side of it
      stays on this side, whatever the others do. */
  lemma ShutGateStops(g: Gate, step: Step, i: nat)
    requires Inv(g) && i < |g.threads| && !g.flag
    requires g.threads[i] == AtGate || g.threads[i] == Looks || g.threads[i] == Blocked
    ensures var h := Next(g, step);
      h.flag || h.threads[i] == AtGate || h.threads[i] == Looks || h.threads[i] == Blocked
  {
  }

  /** Once the gate is open and free, a thread that waits at it can pass and act. */
  lemma OpenGateLetsThrough(g: Gate, i: nat)
    requires Inv(g) && i < |g.threads| && g.flag && g.control == Away && g.owner == Nobody && g.threads[i] == AtGate
    ensures At(Play(g, [Lock(i), Look(i), Begin(i)]), i, Acts)
  {
    var steps := [Lock(i), Look(i), Begin(i)];
    assert steps[..2] == [Lock(i), Look(i)] && steps[..2][..1] == [Lock(i)] && steps[..2][..1][..0] == [];
    assert Play(g, []) == g;
    assert Play(g, [Lock(i)]) == Next(g, Lock(i));
    assert Play(g, [Lock(i), Look(i)]) == Next(Next(g, Lock(i)), Look(i));
  }

  // ----- the control thread -----

  /** The value that was last written to the flag; it is up at first. */
  function LastWritten(g: Gate, steps: seq<Step>): bool {
    if steps == [] then true
    else
      var before := Play(g, steps[..|steps| - 1]);
      if steps[|steps| - 1] == ControlWrite && before.control.Holds? then before.control.value
      else LastWritten(g, steps[..|steps| - 1])
  }

  lemma FlagStep(g: Gate, step: Step)
    ensures Next(g, step).flag == if step == ControlWrite && g.control.Holds? then g.control.value else g.flag
  {
  }

  /** In every state of every run the flag is what was last written to it, whatever the
      threads do. */
  lemma {:induction false} FlagIsLastWritten(n: nat, steps: seq<Step>)
    ensures Play(Open(n), steps).flag == LastWritten(Open(n), steps)
  {
    hide Next;
    if steps != [] {
      FlagIsLastWritten(n, steps[..|steps| - 1]);
      FlagStep(Play(Open(n), steps[..|steps| - 1]), steps[|steps| - 1]);
    }
  }

  /** Whenever the mutex is free the control thread can shut the gate or open it: it leaves
      the flag at its value and the mutex free again, and wakes every sleeper; the threads
      past the gate are not touched. */
  lemma ControlTakesEffect(g: Gate, value: bool)
    requires Inv(g) && g.control == Away && g.owner == Nobody
    ensures var h := Play(g, [ControlLock(value), ControlWrite, ControlNotify]);
      && h.flag == value && h.control == Away && h.owner == Nobody && |h.threads| == |g.threads|
      && forall i :: 0 <= i < |g.threads| ==> h.threads[i] == if g.threads[i] == Blocked then AtGate else g.threads[i]
  {
    var steps := [ControlLock(value), ControlWrite, ControlNotify];
    assert steps[..2] == [ControlLock(value), ControlWrite] && steps[..2][..1] == [ControlLock(value)] && steps[..2][..1][..0] == [];
    assert Play(g, []) == g;
    assert Play(g, [ControlLock(value)]) == Next(g, ControlLock(value));
    assert Play(g, [ControlLock(value), ControlWrite]) == Next(Next(g, ControlLock(value)), ControlWrite);
  }

  // ----- waiting is sleeping -----

  /** How often thread i looks at the flag in these steps. */
  function Glances(g: Gate, steps: seq<Step>, i: nat): nat {
    if steps == [] then 0
    else
      Glances(g, steps[..|steps| - 1], i) +
        if steps[|steps| - 1] == Look(i) && At(Play(g, steps[..|steps| - 1]), i, Looks) then 1 else 0
  }

  /** Nobody is notified, and thread i does not wake by itself. */
  predicate Undisturbed(steps: seq<Step>, i: nat) {
    forall s :: s in steps ==> s != ControlNotify && s != Spurious(i)
  }

  function Awake(g: Gate, i: nat): nat
    requires i < |g.threads|
  {
    if g.threads[i] == Blocked || g.threads[i] == Gone then 0 else 1
  }

  lemma AwakeStep(g: Gate, step: Step, i: nat)
    requires i < |g.threads| && |g.begun| == |g.threads| && !g.flag && step != ControlNotify && step != Spurious(i)
    ensures |Next(g, step).threads| == |Next(g, step).begun| == |g.threads|
    ensures (if step == Look(i) && At(g, i, Looks) then 1 else 0) + Awake(Next(g, step), i) <= Awake(g, i)
  {
  }

  /** As long as the flag stays down and nobody wakes it, a thread looks at the flag at
      most once, and not at all once it sleeps: it does not wait by looking again and
      again. */
  lemma {:induction false} WaitingIsSleeping(g: Gate, steps: seq<Step>, i: nat)
    requires i < |g.threads| && |g.begun| == |g.threads| && StaysShut(g, steps) && Undisturbed(steps, i)
    ensures |Play(g, steps).threads| == |Play(g, steps).begun| == |g.threads|
    ensures Glances(g, steps, i) + Awake(Play(g, steps), i) <= Awake(g, i)
  {
    hide Next, Awake;
    if steps != [] {
      var n := |steps| - 1;
      assert steps[n] in steps && forall s :: s in steps[..n] ==> s in steps;
      WaitingIsSleeping(g, steps[..n], i);
      ShutBefore(g, steps);
      AwakeStep(Play(g, steps[..n]), steps[n], i);
    }
  }

  lemma ShutBefore(g: Gate, steps: seq<Step>)
    requires StaysShut(g, steps) && steps != []
    ensures !Play(g, steps[..|steps| - 1]).flag && StaysShut(g, steps[..|steps| - 1])
  {
  }

  /** A thread that wakes by itself while the gate is shut looks and goes back to sleep,
      and everything is as it was. */
  lemma SpuriousWakeIsHarmless(g: Gate, i: nat)
    requires Inv(g) && i < |g.threads| && g.threads[i] == Blocked && g.control == Away && g.owner == Nobody
    ensures At(Play(g, [Spurious(i)]), i, AtGate) && Play(g, [Spurious(i), Lock(i), Look(i)]) == g
  {
    var steps := [Spurious(i), Lock(i), Look(i)];
    assert steps[..2] == [Spurious(i), Lock(i)] && steps[..2][..1] == [Spurious(i)] && steps[..2][..1][..0] == [];
    assert Play(g, []) == g;
    assert Play(g, [Spurious(i)]) == Next(g, Spurious(i));
    assert Play(g, [Spurious(i), Lock(i)]) == Next(Next(g, Spurious(i)), Lock(i));
    assert g.threads[i := AtGate][i := Looks][i := Blocked] == g.threads;
  }

  // ----- when a thread is over -----

  /** In these steps thread i has ended an action after which it was done. */
  predicate HasEnded(g: Gate, steps: seq<Step>, i: nat) {
    steps != [] &&
      (HasEnded(g, steps[..|steps| - 1], i)
        || (steps[|steps| - 1] == End(i, true) && At(Play(g, steps[..|steps| - 1]), i, Acts)))
  }

  /** How many actions thread i ends in these steps. */
  function Ends(g: Gate, steps: seq<Step>, i: nat): nat {
    if steps == [] then 0
    else
      var before, step := Play(g, steps[..|steps| - 1]), steps[|steps| - 1];
      Ends(g, steps[..|steps| - 1], i) + (if step.End? && step.i == i && At(before, i, Acts) then 1 else 0)
  }

  lemma OneStep(g: Gate, step: Step, i: nat)
    requires i < |g.threads| && |g.begun| == |g.threads|
    ensures var h := Next(g, step);
      && |h.threads| == |h.begun| == |g.threads|
      && (h.threads[i] == Gone <==> g.threads[i] == Gone || (step == End(i, true) && At(g, i, Acts)))
      && (h.threads[i] == Acts <==>
            (g.threads[i] == Acts && !(step.End? && step.i == i)) || (step == Begin(i) && At(g, i, Passed)))
  {
  }

  /** In every state of every run: a thread is over exactly when one of its actions has
      ended with done() true, and until then it has ended every action it has begun except
      the one it is in; so a thread whose action ends with done() false comes back to the
      gate, and one that is over begins nothing more. */
  lemma {:induction false} OverWhenDone(n: nat, steps: seq<Step>, i: nat)
    requires i < n
    ensures var g := Play(Open(n), steps);
      && |g.threads| == |g.begun| == n
      && (g.threads[i] == Gone <==> HasEnded(Open(n), steps, i))
      && Begins(Open(n), steps, i) == Ends(Open(n), steps, i) + (if g.threads[i] == Acts then 1 else 0)
  {
    hide Open, Next;
    if steps == [] {
      OpenWaits(n, i);
    } else {
      OverWhenDone(n, steps[..|steps| - 1], i);
      OneStep(Play(Open(n), steps[..|steps| - 1]), steps[|steps| - 1], i);
    }
  }

  lemma OpenWaits(n: nat, i: nat)
    requires i < n
    ensures |Open(n).threads| == |Open(n).begun| == n && Open(n).threads[i] == AtGate
  {
  }
}
