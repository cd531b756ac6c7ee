/** Any number of supervisors, each taking its sorted locks one by one and keeping
    them until its transaction ends. */
module Deadlock {
  import opened LockOrder

  /** How many locks each supervisor has taken, and which have ended. */
  datatype State = State(taken: seq<nat>, ended: set<nat>)

  datatype Step = Take(who: nat) | End(who: nat)

  type Wants = seq<seq<Spec>>

  predicate Shaped(want: Wants, s: State) {
    |s.taken| == |want| && forall i | 0 <= i < |want| :: s.taken[i] <= |want[i]|
  }

  /** The advisory slots a supervisor that is still in its transaction holds. */
  ghost predicate Holds<S(!new)>(want: Wants, slot: Spec -> S, s: State, i: nat, a: S)
    requires Shaped(want, s)
  {
    i < |want| && i !in s.ended && exists k :: 0 <= k < s.taken[i] && slot(want[i][k]) == a
  }

  ghost predicate Waits(want: Wants, s: State, i: nat)
    requires Shaped(want, s)
  {
    i < |want| && i !in s.ended && s.taken[i] < |want[i]|
  }

  ghost function Next(want: Wants, s: State, i: nat): Spec
    requires Shaped(want, s)
  {
    if Waits(want, s, i) then want[i][s.taken[i]] else Named("")
  }

  /** Somebody else holds the slot the supervisor needs next. */
  ghost predicate Blocked<S(!new)>(want: Wants, slot: Spec -> S, s: State, i: nat)
    requires Shaped(want, s)
  {
    Waits(want, s, i) && exists j: nat :: j != i && Holds(want, slot, s, j, slot(Next(want, s, i)))
  }

  /** Somebody is unfinished, and everybody who is in a transaction is blocked. */
  ghost predicate Deadlocked<S(!new)>(want: Wants, slot: Spec -> S, s: State)
    requires Shaped(want, s)
  {
    && (exists i: nat :: i < |want| && i !in s.ended)
    && (forall i: nat | i < |want| && i !in s.ended :: Blocked(want, slot, s, i))
  }

  ghost predicate Enabled<S(!new)>(want: Wants, slot: Spec -> S, s: State, step: Step)
    requires Shaped(want, s)
  {
    match step
    case Take(i) => Waits(want, s, i) && !Blocked(want, slot, s, i)
    case End(i) => i < |want| && i !in s.ended
  }

  ghost function Apply(want: Wants, s: State, step: Step): State
    requires Shaped(want, s) && step.who < |want| && (step.Take? ==> Waits(want, s, step.who))
  {
    match step
    case Take(i) => s.(taken := s.taken[i := s.taken[i] + 1])
    case End(i) => s.(ended := s.ended + {i})
  }

  /** Takes the steps in order; one that is not enabled does nothing. */
  ghost function Run<S(!new)>(want: Wants, slot: Spec -> S, steps: seq<Step>): (s: State)
    ensures Shaped(want, s)
  {
    if steps == [] then State(seq(|want|, i => 0), {}) else
      var s := Run(want, slot, steps[..|steps| - 1]);
      var step := steps[|steps| - 1];
      if Enabled(want, slot, s, step) then Apply(want, s, step) else s
  }

  /** Each supervisor wants locks of the universe, in sorted order. */
  ghost predicate Proper(want: Wants, universe: Spec -> bool) {
    forall i | 0 <= i < |want| :: Sorted(want[i]) && forall k | 0 <= k < |want[i]| :: universe(want[i][k])
  }

  ghost predicate DeadlockFree<S(!new)>(universe: Spec -> bool, slot: Spec -> S) {
    forall want: Wants, steps: seq<Step> | Proper(want, universe) :: !Deadlocked(want, slot, Run(want, slot, steps))
  }

  /** Two slots never lie crosswise in the lock order: if one spec of slot A may
      come before one of slot B, then none of B may come before one of A. */
  ghost predicate Separated<S(!new)>(universe: Spec -> bool, slot: Spec -> S) {
    forall x, y, u, v | universe(x) && universe(y) && universe(u) && universe(v)
                        && slot(x) == slot(u) && slot(y) == slot(v) && slot(x) != slot(y) ::
      !(Leq(x, y) && Leq(v, u))
  }

  // ------------------------------------------------------------ sufficiency

  /** At most one supervisor holds a slot. */
  ghost predicate Mutex<S(!new)>(want: Wants, slot: Spec -> S, s: State)
    requires Shaped(want, s)
  {
    forall i, j, a | Holds(want, slot, s, i, a) && Holds(want, slot, s, j, a) :: i == j
  }

  lemma TakeHolds<S(!new)>(want: Wants, slot: Spec -> S, s: State, w: nat, i: nat, a: S)
    requires Shaped(want, s) && Waits(want, s, w)
    ensures Holds(want, slot, Apply(want, s, Take(w)), i, a) ==>
            Holds(want, slot, s, i, a) || (i == w && a == slot(Next(want, s, w)))
  {
  }

  lemma {:induction false} RunMutex<S(!new)>(want: Wants, slot: Spec -> S, steps: seq<Step>)
    ensures Mutex(want, slot, Run(want, slot, steps))
  {
    if steps == [] {
    } else {
      var before, step := steps[..|steps| - 1], steps[|steps| - 1];
      RunMutex(want, slot, before);
      var s := Run(want, slot, before);
      if Enabled(want, slot, s, step) { StepMutex(want, slot, s, step); }
    }
  }

  lemma StepMutex<S(!new)>(want: Wants, slot: Spec -> S, s: State, step: Step)
    requires Shaped(want, s) && Mutex(want, slot, s) && Enabled(want, slot, s, step)
    ensures Mutex(want, slot, Apply(want, s, step))
  {
    var s' := Apply(want, s, step);
    forall i: nat, j: nat, a | Holds(want, slot, s', i, a) && Holds(want, slot, s', j, a) ensures i == j {
      if step.Take? {
        TakeHolds(want, slot, s, step.who, i, a);
        TakeHolds(want, slot, s, step.who, j, a);
      } else {
        assert Holds(want, slot, s, i, a) && Holds(want, slot, s, j, a);
      }
    }
  }

  /** Some supervisor among `who` waits for a spec that none of the others exceeds. */
  lemma {:induction false} Furthest(want: Wants, s: State, who: set<nat>) returns (m: nat)
    requires Shaped(want, s) && who != {} && forall i | i in who :: Waits(want, s, i)
    ensures m in who && forall i | i in who :: Leq(Next(want, s, i), Next(want, s, m))
    decreases |who|
  {
    m :| m in who;
    LeqTotal(Next(want, s, m), Next(want, s, m));
    if who == {m} {
    } else {
      var n := Furthest(want, s, who - {m});
      LeqTotal(Next(want, s, m), Next(want, s, n));
      if Leq(Next(want, s, m), Next(want, s, n)) {
        m := n;
      } else {
        forall i | i in who - {m} ensures Leq(Next(want, s, i), Next(want, s, m)) {
          LeqTrans(Next(want, s, i), Next(want, s, n), Next(want, s, m));
        }
      }
    }
  }

  /** Whoever holds what the furthest one waits for is not blocked. */
  lemma FurthestUnblocks<S(!new)>(want: Wants, universe: Spec -> bool, slot: Spec -> S, s: State, m: nat, j: nat)
    requires Shaped(want, s) && Proper(want, universe) && Separated(universe, slot) && Mutex(want, slot, s)
    requires Waits(want, s, m) && Waits(want, s, j) && Leq(Next(want, s, j), Next(want, s, m))
    requires Holds(want, slot, s, j, slot(Next(want, s, m)))
    ensures !Blocked(want, slot, s, j)
  {
  }

  /** So the one that waits for the furthest lock is free, or its holder is. */
  lemma SeparatedIsFree<S(!new)>(want: Wants, universe: Spec -> bool, slot: Spec -> S, s: State)
    requires Shaped(want, s) && Proper(want, universe) && Separated(universe, slot) && Mutex(want, slot, s)
    ensures !Deadlocked(want, slot, s)
  {
    var who := set i: nat | 0 <= i < |want| && i !in s.ended;
    if who == {} {
      assert forall i: nat | i < |want| :: i in s.ended by {
        forall i: nat | i < |want| ensures i in s.ended { assert i !in who; }
      }
      NobodyLeft(want, slot, s);
    } else {
      var i := SomeoneMoves(want, universe, slot, s, who);
      OneFree(want, slot, s, i);
    }
  }

  lemma NobodyLeft<S(!new)>(want: Wants, slot: Spec -> S, s: State)
    requires Shaped(want, s) && forall i: nat | i < |want| :: i in s.ended
    ensures !Deadlocked(want, slot, s)
  {
  }

  lemma OneFree<S(!new)>(want: Wants, slot: Spec -> S, s: State, i: nat)
    requires Shaped(want, s) && i < |want| && i !in s.ended && !Blocked(want, slot, s, i)
    ensures !Deadlocked(want, slot, s)
  {
  }

  lemma SomeoneMoves<S(!new)>(want: Wants, universe: Spec -> bool, slot: Spec -> S, s: State, who: set<nat>)
    returns (i: nat)
    requires Shaped(want, s) && Proper(want, universe) && Separated(universe, slot) && Mutex(want, slot, s)
    requires who != {} && forall i: nat :: i in who <==> i < |want| && i !in s.ended
    ensures i in who && !Blocked(want, slot, s, i)
  {
    if exists k :: k in who && !Waits(want, s, k) {
      i :| i in who && !Waits(want, s, i);
    } else {
      i := Furthest(want, s, who);
      if Blocked(want, slot, s, i) {
        var j: nat :| j != i && Holds(want, slot, s, j, slot(Next(want, s, i)));
        assert j in who;
        FurthestUnblocks(want, universe, slot, s, i, j);
        i := j;
      }
    }
  }

  // -------------------------------------------------------------- necessity

  /** Two supervisors that take a crossed pair of slots can deadlock. */
  lemma CrossedDeadlocks<S(!new)>(slot: Spec -> S, x: Spec, y: Spec, u: Spec, v: Spec)
    requires slot(x) == slot(u) && slot(y) == slot(v) && slot(x) != slot(y) && Leq(x, y) && Leq(v, u)
    ensures var want := [[x, y], [v, u]]; Deadlocked(want, slot, Run(want, slot, [Take(0), Take(1)]))
  {
    var want := [[x, y], [v, u]];
    var s0 := State([0, 0], {});
    assert [Take(0), Take(1)][..1] == [Take(0)];
    assert seq(2, i => 0) == [0, 0];
    assert Run(want, slot, []) == s0;
    var s1 := State([1, 0], {});
    assert Run(want, slot, [Take(0)]) == s1 by {
      assert [Take(0)][..0] == [];
      assert forall j: nat, a: S :: !Holds(want, slot, s0, j, a);
      assert Enabled(want, slot, s0, Take(0));
    }
    var s2 := State([1, 1], {});
    assert Run(want, slot, [Take(0), Take(1)]) == s2 by {
      forall j: nat | j != 1 && Holds(want, slot, s1, j, slot(v)) ensures false {
        var k :| 0 <= k < s1.taken[j] && slot(want[j][k]) == slot(v);
      }
      assert !Blocked(want, slot, s1, 1);
      assert Enabled(want, slot, s1, Take(1));
    }
    assert slot(want[0][0]) == slot(Next(want, s2, 1)) && Holds(want, slot, s2, 0, slot(Next(want, s2, 1)));
    assert slot(want[1][0]) == slot(Next(want, s2, 0)) && Holds(want, slot, s2, 1, slot(Next(want, s2, 0)));
    assert Blocked(want, slot, s2, 0) && Blocked(want, slot, s2, 1);
    assert 0 !in s2.ended;
  }

  /** Sorted acquisition is free of deadlock exactly if no two advisory slots lie
      crosswise in the lock order. */
  lemma DeadlockFreedom<S(!new)>(universe: Spec -> bool, slot: Spec -> S)
    ensures DeadlockFree(universe, slot) <==> Separated(universe, slot)
  {
    if Separated(universe, slot) {
      forall want: Wants, steps: seq<Step> | Proper(want, universe)
        ensures !Deadlocked(want, slot, Run(want, slot, steps))
      {
        RunMutex(want, slot, steps);
        SeparatedIsFree(want, universe, slot, Run(want, slot, steps));
      }
    } else {
      CrossedIsNotFree(universe, slot);
    }
  }

  lemma CrossedIsNotFree<S(!new)>(universe: Spec -> bool, slot: Spec -> S)
    requires !Separated(universe, slot)
    ensures !DeadlockFree(universe, slot)
  {
    var x, y, u, v :| universe(x) && universe(y) && universe(u) && universe(v)
                      && slot(x) == slot(u) && slot(y) == slot(v) && slot(x) != slot(y) && Leq(x, y) && Leq(v, u);
    var want := [[x, y], [v, u]];
    assert Proper(want, universe);
    CrossedDeadlocks(slot, x, y, u, v);
    NotFree(universe, slot, want, [Take(0), Take(1)]);
  }

  lemma NotFree<S(!new)>(universe: Spec -> bool, slot: Spec -> S, want: Wants, steps: seq<Step>)
    requires Proper(want, universe) && Deadlocked(want, slot, Run(want, slot, steps))
    ensures !DeadlockFree(universe, slot)
  {
  }

  // ------------------------------------------------------- one slot per lock

  predicate ColonFree(s: Spec) {
    s.Claim? ==> ':' !in s.producer
  }

  function FirstColon(s: string): nat {
    if s == [] || s[0] == ':' then 0 else 1 + FirstColon(s[1..])
  }

  lemma {:induction false} ColonAfter(p: string, a: string)
    requires ':' !in p
    ensures FirstColon(p + ":" + a) == |p|
  {
    if p == [] {
    } else {
      ColonAfter(p[1..], a);
      assert (p + ":" + a)[1..] == p[1..] + ":" + a;
    }
  }

  /** Without colons in producer names the sort key tells claims apart. */
  lemma KeyTellsApart(p: string, a: string, q: string, b: string)
    requires ':' !in p && ':' !in q && p + ":" + a == q + ":" + b
    ensures p == q && a == b
  {
    ColonAfter(p, a);
    ColonAfter(q, b);
    assert p == (p + ":" + a)[..|p|] && q == (q + ":" + b)[..|q|];
    assert a == (p + ":" + a)[|p| + 1..] && b == (q + ":" + b)[|q| + 1..];
  }

  lemma SameRankSameSpec(x: Spec, y: Spec)
    requires ColonFree(x) && ColonFree(y) && Leq(x, y) && Leq(y, x)
    ensures x == y
  {
    StringTotal(SortKey(x), SortKey(y));
    if x.Claim? { KeyTellsApart(x.producer, x.selector, y.producer, y.selector); }
  }

  /** With a slot of its own for every lock and no colon in a producer name, the
      supervisors never deadlock. */
  lemma ColonFreeNeverDeadlocks()
    ensures DeadlockFree(ColonFree, (s: Spec) => s)
  {
    forall x: Spec, y: Spec | ColonFree(x) && ColonFree(y) && x != y ensures !(Leq(x, y) && Leq(y, x)) {
      if Leq(x, y) && Leq(y, x) { SameRankSameSpec(x, y); }
    }
    DeadlockFreedom(ColonFree, (s: Spec) => s);
  }

  /** With a colon in a producer name two different claims can have one key, and
      two supervisors that list them in different orders can deadlock. */
  lemma ColonsCanDeadlock()
    ensures !DeadlockFree((s: Spec) => true, (s: Spec) => s)
  {
    var x, y := Claim("a", "b:c"), Claim("a:b", "c");
    assert SortKey(x) == SortKey(y) == "a:b:c";
    StringTotal(SortKey(x), SortKey(y));
    assert Leq(x, y) && Leq(y, x);
    DeadlockFreedom((s: Spec) => true, (s: Spec) => s);
  }
}
