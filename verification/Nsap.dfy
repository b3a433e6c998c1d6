/** The snapshot stack of Environnement: two maps and a counter that only clear_nsap
    resets, which together are a LIFO stack of whole states. */
module Nsap {
  import opened Options

  /** The attributes of every agent. */
  type World = map<string, map<string, string>>

  /** The fields of the environment that the snapshots use. */
  datatype Fields = Fields(listAttr: World, snaps: map<nat, World>, index: map<nat, string>, seqNo: nat)

  /** The abstract environment: the current state and the stack, newest last, with the
      number of pushes since the last clear. */
  datatype Stack = Stack(now: World, saved: seq<World>, pushes: nat)

  datatype Op = Push(stamp: string) | Pull | Clear | Update(agent: string, attrs: map<string, string>)

  // ----- the stack -----

  /** What push_nsap and pull_nsap return. */
  function Result(s: Stack, op: Op): int
    requires op.Push? || op.Pull?
  {
    if op.Push? then s.pushes + 1 else |s.saved| - 1
  }

  function StackNext(s: Stack, op: Op): Stack {
    match op
    case Push(_) => Stack(s.now, s.saved + [s.now], s.pushes + 1)
    case Pull => if s.saved == [] then s else s.(now := s.saved[|s.saved| - 1], saved := s.saved[..|s.saved| - 1])
    case Clear => Stack(s.now, [], 0)
    case Update(agent, attrs) => s.(now := s.now[agent := attrs])
  }

  function StackAfter(s: Stack, ops: seq<Op>): Stack {
    if ops == [] then s else StackNext(StackAfter(s, ops[..|ops| - 1]), ops[|ops| - 1])
  }

  // ----- the maps as a stack -----

  /** The saved worlds with keys below n, in the order of their keys. */
  function SavedBelow(snaps: map<nat, World>, n: nat): seq<World> {
    if n == 0 then [] else SavedBelow(snaps, n - 1) + (if n - 1 in snaps then [snaps[n - 1]] else [])
  }

  function Abstract(f: Fields): Stack {
    Stack(f.listAttr, SavedBelow(f.snaps, f.seqNo), f.seqNo)
  }

  /** Both maps have the same keys, all below the counter. */
  predicate Valid(f: Fields) {
    f.snaps.Keys == f.index.Keys && forall k :: k in f.snaps ==> k < f.seqNo
  }

  lemma SavedFrame(a: map<nat, World>, b: map<nat, World>, n: nat)
    requires forall k :: k < n ==> (k in a <==> k in b) && (k in a ==> a[k] == b[k])
    ensures SavedBelow(a, n) == SavedBelow(b, n)
  {
  }

  lemma SavedNone(snaps: map<nat, World>, n: nat, m: nat)
    requires n <= m && forall k :: n <= k < m ==> k !in snaps
    ensures SavedBelow(snaps, m) == SavedBelow(snaps, n)
  {
    if n < m {
      SavedNone(snaps, n, m - 1);
    }
  }

  lemma RemoveOne(snaps: map<nat, World>, k: nat)
    requires k in snaps
    ensures |snaps| == |snaps - {k}| + 1
  {
    assert (snaps - {k}).Keys == snaps.Keys - {k};
    assert |snaps.Keys| == |snaps| && |(snaps - {k}).Keys| == |snaps - {k}|;
  }

  lemma {:induction false} SavedSize(snaps: map<nat, World>, n: nat)
    requires forall k :: k in snaps ==> k < n
    ensures |SavedBelow(snaps, n)| == |snaps|
  {
    if n == 0 {
      assert snaps == map[];
    } else if n - 1 in snaps {
      RemoveOne(snaps, n - 1);
      SavedFrame(snaps, snaps - {n - 1}, n - 1);
      SavedSize(snaps - {n - 1}, n - 1);
    } else {
      SavedSize(snaps, n - 1);
    }
  }

  /** Removing the greatest key removes the last saved world. */
  lemma SavedLast(snaps: map<nat, World>, n: nat, top: nat)
    requires top in snaps && (forall k :: k in snaps ==> k <= top) && top < n
    ensures SavedBelow(snaps, n) == SavedBelow(snaps - {top}, n) + [snaps[top]]
  {
    hide SavedBelow;
    SavedNone(snaps, top + 1, n);
    SavedNone(snaps - {top}, top, n);
    SavedFrame(snaps, snaps - {top}, top);
    SavedStep(snaps, top);
  }

  lemma SavedStep(snaps: map<nat, World>, n: nat)
    ensures SavedBelow(snaps, n + 1) == SavedBelow(snaps, n) + (if n in snaps then [snaps[n]] else [])
  {
  }

  // ----- the class -----

  class Environnement {
    var listAttr: World
    var snaps: map<nat, World>
    var index: map<nat, string>
    var seqNo: nat

    ghost function State(): Fields
      reads this
    {
      Fields(listAttr, snaps, index, seqNo)
    }

    constructor ()
      ensures Valid(State()) && Abstract(State()) == Stack(map[], [], 0)
    {
      listAttr, snaps, index, seqNo := map[], map[], map[], 0;
    }

    method PushNsap(stamp: string) returns (r: int)
      requires Valid(State())
      modifies this
      ensures Valid(State()) && Abstract(State()) == StackNext(Abstract(old(State())), Push(stamp))
      ensures r == Result(Abstract(old(State())), Push(stamp))
      ensures snaps == old(snaps)[old(seqNo) := old(listAttr)] && index == old(index)[old(seqNo) := stamp]
    {
      var no := seqNo;
      seqNo := seqNo + 1;
      SavedFrame(snaps, snaps[no := listAttr], no);
      snaps := snaps[no := listAttr];
      index := index[no := stamp];
      return no + 1;
    }

    method PullNsap() returns (r: int)
      requires Valid(State())
      modifies this
      ensures Valid(State()) && Abstract(State()) == StackNext(Abstract(old(State())), Pull)
      ensures r == Result(Abstract(old(State())), Pull)
      ensures r == -1 <==> old(snaps) == map[]
    {
      SavedSize(snaps, seqNo);
      if snaps == map[] {
        return -1;
      }
      var top := Greatest();
      SavedLast(snaps, seqNo, top);
      listAttr := snaps[top];
      snaps := snaps - {top};
      index := index - {top};
      SavedSize(snaps, seqNo);
      return |snaps|;
    }

    /** std::prev(end()): the entry with the greatest key. */
    method Greatest() returns (top: nat)
      requires snaps != map[]
      ensures top in snaps && forall k :: k in snaps ==> k <= top
    {
      var left := snaps.Keys;
      assert left != {} by { var k :| k in snaps; assert k in left; }
      top :| top in left;
      left := left - {top};
      while left != {}
        invariant top in snaps && left <= snaps.Keys
        invariant forall k :: k in snaps && k !in left ==> k <= top
        decreases |left|
      {
        var k :| k in left;
        left := left - {k};
        if k > top {
          top := k;
        }
      }
    }

    method ClearNsap()
      modifies this
      ensures Valid(State()) && Abstract(State()) == StackNext(Abstract(old(State())), Clear)
    {
      snaps := map[];
      index := map[];
      seqNo := 0;
    }

    /** What the queue reader does with an update for an agent. */
    method UpdateAttributes(agent: string, attrs: map<string, string>)
      modifies this
      ensures Abstract(State()) == StackNext(Abstract(old(State())), Update(agent, attrs))
      ensures snaps == old(snaps) && index == old(index) && seqNo == old(seqNo)
    {
      listAttr := listAttr[agent := attrs];
    }
  }

  // ----- what the stack is for -----

  /** Stretches in which every pull meets a push of the same stretch and updates happen
      only between the two; depth is how many pushes are still to be met. */
  predicate Balanced(ops: seq<Op>, depth: nat) {
    if ops == [] then depth == 0
    else
      var before := ops[..|ops| - 1];
      match ops[|ops| - 1]
      case Push(_) => depth > 0 && Balanced(before, depth - 1)
      case Pull => Balanced(before, depth + 1)
      case Clear => false
      case Update(_, _) => depth > 0 && Balanced(before, depth)
  }

  lemma {:induction false} BalancedSaves(s: Stack, ops: seq<Op>, depth: nat)
    requires Balanced(ops, depth)
    ensures var t := StackAfter(s, ops);
      && |t.saved| == |s.saved| + depth && t.saved[..|s.saved|] == s.saved
      && (if depth == 0 then t.now == s.now else t.saved[|s.saved|] == s.now)
  {
    if ops != [] {
      var before, last := ops[..|ops| - 1], ops[|ops| - 1];
      if last.Push? {
        BalancedSaves(s, before, depth - 1);
      } else if last.Pull? {
        BalancedSaves(s, before, depth + 1);
      } else {
        BalancedSaves(s, before, depth);
      }
    }
  }

  /** A balanced stretch, whatever it updates in between, gives back the attributes of
      every agent and the stack as they were. */
  lemma BalancedRestores(s: Stack, ops: seq<Op>)
    requires Balanced(ops, 0)
    ensures StackAfter(s, ops).now == s.now && StackAfter(s, ops).saved == s.saved
  {
    BalancedSaves(s, ops, 0);
  }

  /** How many pushes there were since the last clear. */
  function PushesSinceClear(ops: seq<Op>): nat {
    if ops == [] then 0
    else
      match ops[|ops| - 1]
      case Push(_) => PushesSinceClear(ops[..|ops| - 1]) + 1
      case Clear => 0
      case _ => PushesSinceClear(ops[..|ops| - 1])
  }

  /** What push returns after any operations: not the size of the stack, as its comment
      has it, but the number of pushes since the last clear, this one included. */
  lemma {:induction false} PushCountsPushes(ops: seq<Op>, stamp: string)
    ensures Result(StackAfter(Stack(map[], [], 0), ops), Push(stamp)) == PushesSinceClear(ops) + 1
  {
    if ops != [] {
      PushCountsPushes(ops[..|ops| - 1], stamp);
    }
  }

  /** No push since the last clear has been pulled again. */
  predicate NothingPulled(ops: seq<Op>) {
    ops == [] ||
      match ops[|ops| - 1]
      case Clear => true
      case Pull => NothingPulled(ops[..|ops| - 1]) && PushesSinceClear(ops[..|ops| - 1]) == 0
      case _ => NothingPulled(ops[..|ops| - 1])
  }

  /** It is the size of the stack exactly while nothing has been pulled since then. */
  lemma {:induction false} PushReturnsSize(ops: seq<Op>, stamp: string)
    ensures var s := StackAfter(Stack(map[], [], 0), ops);
      Result(s, Push(stamp)) == |StackNext(s, Push(stamp)).saved| <==> NothingPulled(ops)
    ensures |StackAfter(Stack(map[], [], 0), ops).saved| <= PushesSinceClear(ops)
  {
    PushCountsPushes(ops, stamp);
    if ops != [] {
      PushReturnsSize(ops[..|ops| - 1], stamp);
      PushCountsPushes(ops[..|ops| - 1], stamp);
    }
  }

  /** A push, a pull and a push: the stack holds one state, and push returns 2. */
  lemma PushAfterPull(stamp: string)
    ensures var s := StackAfter(Stack(map[], [], 0), [Push(stamp), Pull]);
      Result(s, Push(stamp)) == 2 && |StackNext(s, Push(stamp)).saved| == 1
  {
    var empty := Stack(map[], [], 0);
    var ops := [Push(stamp), Pull];
    assert ops[..1] == [Push(stamp)] && [Push(stamp)][..0] == [];
    assert StackAfter(empty, []) == empty;
    assert StackAfter(empty, [Push(stamp)]) == StackNext(empty, Push(stamp));
  }

  // ----- the attributes, read off the calls -----

  /** How many saved states there are. */
  function Depth(ops: seq<Op>): nat {
    if ops == [] then 0
    else
      var before := Depth(ops[..|ops| - 1]);
      match ops[|ops| - 1]
      case Push(_) => before + 1
      case Pull => if before == 0 then 0 else before - 1
      case Clear => 0
      case Update(_, _) => before
  }

  /** The attributes of an agent in the current state, skip being 0, or in the saved state
      that is skip from the top: those of its last update before that state was made. */
  function Latest(ops: seq<Op>, agent: string, skip: nat): Option<map<string, string>> {
    if ops == [] then None
    else
      var before := ops[..|ops| - 1];
      match ops[|ops| - 1]
      case Push(_) => Latest(before, agent, if skip == 0 then 0 else skip - 1)
      case Pull => Latest(before, agent, if Depth(before) == 0 then skip else skip + 1)
      case Clear => Latest(before, agent, skip)
      case Update(who, attrs) => if skip == 0 && who == agent then Some(attrs) else Latest(before, agent, skip)
  }

  function AttributesOf(w: World, agent: string): Option<map<string, string>> {
    if agent in w then Some(w[agent]) else None
  }

  /** The current state, and the saved ones from the top. */
  function WorldAt(s: Stack, skip: nat): World
    requires skip <= |s.saved|
  {
    if skip == 0 then s.now else s.saved[|s.saved| - skip]
  }

  lemma OneOp(s: Stack, op: Op, skip: nat)
    requires skip <= |StackNext(s, op).saved|
    ensures var w := WorldAt(StackNext(s, op), skip);
      match op
      case Push(_) => |StackNext(s, op).saved| == |s.saved| + 1 && w == WorldAt(s, if skip == 0 then 0 else skip - 1)
      case Pull =>
        if s.saved == [] then StackNext(s, op) == s
        else |StackNext(s, op).saved| == |s.saved| - 1 && w == WorldAt(s, skip + 1)
      case Clear => skip == 0 && w == WorldAt(s, 0) && StackNext(s, op).saved == []
      case Update(agent, attrs) =>
        && |StackNext(s, op).saved| == |s.saved|
        && forall a :: AttributesOf(w, a) == if skip == 0 && a == agent then Some(attrs) else AttributesOf(WorldAt(s, skip), a)
  {
  }

  /** After any calls at all, in the current state and in every saved one, every agent has
      the attributes of its last update before that state was pushed, and no other: a pull
      takes everything back that came after the push it meets, a pull from the empty stack
      and a clear change no attributes. */
  lemma {:induction false} LatestAttributes(ops: seq<Op>, agent: string, skip: nat)
    ensures var s := StackAfter(Stack(map[], [], 0), ops);
      |s.saved| == Depth(ops) && (skip <= Depth(ops) ==> AttributesOf(WorldAt(s, skip), agent) == Latest(ops, agent, skip))
  {
    hide StackNext, WorldAt, AttributesOf;
    if ops == [] {
      NothingYet(agent);
    } else {
      var before, op := ops[..|ops| - 1], ops[|ops| - 1];
      var s := StackAfter(Stack(map[], [], 0), before);
      LatestAttributes(before, agent, 0);
      OneOp(s, op, 0);
      if skip <= |StackNext(s, op).saved| {
        OneOp(s, op, skip);
        LatestAttributes(before, agent, skip);
        LatestAttributes(before, agent, skip + 1);
        if skip > 0 {
          LatestAttributes(before, agent, skip - 1);
        }
      }
    }
  }

  /** pull returns how many saved states are left, and -1 exactly when there was none. */
  lemma PullCountsLeft(ops: seq<Op>)
    ensures var s := StackAfter(Stack(map[], [], 0), ops);
      && Result(s, Pull) == (if Depth(ops) == 0 then -1 else Depth(ops) - 1)
      && Depth(ops + [Pull]) == (if Depth(ops) == 0 then 0 else Depth(ops) - 1)
  {
    LatestAttributes(ops, "", 0);
    assert (ops + [Pull])[..|ops|] == ops;
  }

  lemma NothingYet(agent: string)
    ensures AttributesOf(WorldAt(Stack(map[], [], 0), 0), agent) == None
  {
  }
}
