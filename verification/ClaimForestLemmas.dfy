/** Facts about `ClaimForest` that the engine's proof rests on. */
module ClaimForestLemmas {
  import opened Claims
  import opened ClaimForest

  /** A numbering of the handles in which every child comes after its parent:
      the table is a forest. */
  ghost predicate Levelled(t: Table, level: map<HandleId, nat>) {
    t.Keys <= level.Keys &&
    forall h, p :: ChildOf(t, h, p) && p in t ==> level[p] < level[h]
  }

  /** Settlement only moves handles from active to resolved: a resolved row is
      final, an open row keeps its holder, and the shape never changes. */
  ghost predicate Evolves(t: Table, t': Table) {
    t'.Keys == t.Keys &&
    forall h | h in t ::
      && t'[h].parent == t[h].parent && t'[h].run == t[h].run && t'[h].held == t[h].held
      && t'[h].policy == t[h].policy && t'[h].expected == t[h].expected
      && (!IsActive(t, h) ==> t'[h] == t[h])
      && (IsActive(t', h) ==> t'[h].holder == t[h].holder)
  }

  lemma EvolvesTrans(t: Table, u: Table, v: Table)
    requires Evolves(t, u) && Evolves(u, v)
    ensures Evolves(t, v)
  {
  }

  lemma EvolvesLevelled(t: Table, t': Table, level: map<HandleId, nat>)
    requires Evolves(t, t') && Levelled(t, level)
    ensures Levelled(t', level)
  {
  }

  lemma EvolvesActive(t: Table, t': Table)
    requires Evolves(t, t')
    ensures forall h :: IsActive(t', h) ==> IsActive(t, h)
    ensures |ActiveSet(t')| <= |ActiveSet(t)|
  {
    forall h | IsActive(t', h) ensures IsActive(t, h) { assert h in t; }
    ActiveGrowsNot(t, t');
  }

  // ------------------------------------------------------------- doomed sets

  lemma DoomedBelow(t: Table, me: Supervisor, level: map<HandleId, nat>, s: set<HandleId>, n: nat)
    requires Levelled(t, level) && s <= t.Keys
    requires forall h | h in s :: n <= level[h]
    ensures forall h | h in Doomed(t, me, s) :: h in t && n <= level[h] && (h in s || n < level[h])
  {
    var c := s + set h | h in t.Keys && n < level[h];
    forall h | Cancelable(t, me, h) && t[h].parent.Some? && t[h].parent.value in c
      ensures h in c
    {
      assert ChildOf(t, h, t[h].parent.value);
    }
    DoomedLeast(t, me, s, c);
  }

  lemma DoomedCancelable(t: Table, me: Supervisor, s: set<HandleId>)
    requires forall h | h in s :: Cancelable(t, me, h)
    ensures forall h | h in Doomed(t, me, s) :: Cancelable(t, me, h)
  {
    DoomedLeast(t, me, s, set h | h in t && Cancelable(t, me, h));
  }

  /** Abandoning the doomed part leaves the rest of the doomed set to the rest of
      the seeds. */
  lemma DoomedPeel(t: Table, me: Supervisor, s: set<HandleId>, a: set<HandleId>, s': set<HandleId>)
    requires a == Doomed(t, me, s)
    requires forall h | h in s + s' :: Cancelable(t, me, h)
    requires s' !! a
    ensures var u := AbandonAll(t, a);
            AbandonAll(u, Doomed(u, me, s')) == AbandonAll(t, Doomed(t, me, s + s'))
  {
    var u := AbandonAll(t, a);
    var b := Doomed(u, me, s');
    var d := Doomed(t, me, s + s');
    DoomedCancelable(t, me, s);
    DoomedCancelable(t, me, s + s');
    assert forall h :: Cancelable(u, me, h) <==> Cancelable(t, me, h) && h !in a;
    DoomedCancelable(u, me, s');
    assert Closed(t, me, d);
    assert Closed(u, me, d - a) by {
      forall h | Cancelable(u, me, h) && u[h].parent.Some? && u[h].parent.value in d - a
        ensures h in d - a
      {
        assert t[h].parent == u[h].parent;
      }
    }
    DoomedLeast(t, me, s, d);
    DoomedLeast(u, me, s', d - a);
    assert Closed(t, me, a + b) by {
      forall h | Cancelable(t, me, h) && t[h].parent.Some? && t[h].parent.value in a + b
        ensures h in a + b
      {
        if h !in a { assert u[h] == t[h]; }
      }
    }
    DoomedLeast(t, me, s + s', a + b);
    assert d == a + b;
    forall h | h in t
      ensures AbandonAll(u, b)[h] == AbandonAll(t, d)[h]
    {
    }
  }

  lemma DoomedUnfold(t: Table, me: Supervisor, h: HandleId)
    requires h in t
    ensures Doomed(t, me, {h}) == {h} + Doomed(t, me, CancelableChildren(t, me, h))
  {
    var s := CancelableChildren(t, me, h);
    var d := Doomed(t, me, {h});
    assert s <= d by { forall c | c in s ensures c in d { assert t[c].parent.value in d; } }
    assert Closed(t, me, {h} + Doomed(t, me, s)) by {
      forall c | Cancelable(t, me, c) && t[c].parent.Some? && t[c].parent.value in {h} + Doomed(t, me, s)
        ensures c in {h} + Doomed(t, me, s)
      {
        if t[c].parent.value == h { assert c in s; }
      }
    }
    DoomedLeast(t, me, s, d);
    DoomedLeast(t, me, {h}, {h} + Doomed(t, me, s));
  }

  /** A handle is not among its own doomed descendants. */
  lemma NotBelowItself(t: Table, me: Supervisor, level: map<HandleId, nat>, h: HandleId)
    requires Levelled(t, level) && h in t
    ensures h !in Doomed(t, me, CancelableChildren(t, me, h))
  {
    var s := CancelableChildren(t, me, h);
    forall c | c in s ensures level[h] + 1 <= level[c] { assert ChildOf(t, c, h); }
    DoomedBelow(t, me, level, s, level[h] + 1);
  }

  /** Cancelling one handle without telling its parent. */
  lemma ResolveAlone(t: Table, me: Supervisor, holders: Holders, level: map<HandleId, nat>, h: HandleId)
    requires Levelled(t, level) && Cancelable(t, me, h)
    ensures ResolveSpec(t, me, holders, me, h, false, false) == AbandonAll(t, Doomed(t, me, {h}))
  {
    DoomedUnfold(t, me, h);
    NotBelowItself(t, me, level, h);
  }

  // ---------------------------------------------------------------- evolution

  lemma AbandonEvolves(t: Table, me: Supervisor, s: set<HandleId>)
    requires forall h | h in s :: Cancelable(t, me, h)
    ensures Evolves(t, AbandonAll(t, Doomed(t, me, s)))
    ensures forall h | Cancelable(AbandonAll(t, Doomed(t, me, s)), me, h) :: h !in s
  {
    DoomedCancelable(t, me, s);
  }

  lemma CancelAllEvolves(t: Table, me: Supervisor, level: map<HandleId, nat>, p: HandleId)
    requires Levelled(t, level) && IsActive(t, p)
    ensures Evolves(t, CancelAll(t, me, p))
    ensures CancelableChildren(CancelAll(t, me, p), me, p) == {}
    ensures IsActive(CancelAll(t, me, p), p)
  {
    var s := CancelableChildren(t, me, p);
    var u := AbandonAll(t, Doomed(t, me, s));
    AbandonEvolves(t, me, s);
    NotBelowItself(t, me, level, p);
    assert CancelableChildren(u, me, p) == {} by {
      forall h | h in u && ChildOf(u, h, p) ensures !Cancelable(u, me, h) {
        if h !in s { assert ChildOf(t, h, p); }
      }
    }
    AddedEvolves(t, u, me, p, |s|);
  }

  lemma AddedEvolves(t: Table, u: Table, me: Supervisor, p: HandleId, n: nat)
    requires Evolves(t, u) && IsActive(t, p) && IsActive(u, p)
    ensures Evolves(t, AddAbandoned(u, p, n)) && IsActive(AddAbandoned(u, p, n), p)
    ensures CancelableChildren(AddAbandoned(u, p, n), me, p) == CancelableChildren(u, me, p)
  {
  }

  lemma {:induction false} ResolveEvolves(t: Table, me: Supervisor, holders: Holders, level: map<HandleId, nat>,
                                          sup: Supervisor, h: HandleId, commit: bool, up: bool)
    requires Levelled(t, level) && Cancelable(t, sup, h)
    ensures var t' := ResolveSpec(t, me, holders, sup, h, commit, up);
            Evolves(t, t') && h in t' && t'[h].state == Resolved(commit)
    decreases |ActiveSet(t)|, 0
  {
    var s := CancelableChildren(t, me, h);
    var t1 := if commit then t else AbandonAll(t, Doomed(t, me, s));
    var t2 := Promote(t1, h, sup, commit);
    AbandonEvolves(t, me, s);
    NotBelowItself(t, me, level, h);
    assert t1[h] == t[h];
    assert Evolves(t, t2);
    if up && t[h].parent.Some? {
      ActiveShrinks(t, t2, h);
      EvolvesLevelled(t, t2, level);
      SettleEvolves(t2, me, holders, level, t[h].parent.value, commit);
      EvolvesTrans(t, t2, SettleSpec(t2, me, holders, t[h].parent.value, commit));
    }
  }

  /** The parent's table after the child is counted and, on a strict abandon,
      the other children are cancelled. */
  function Counted(t: Table, me: Supervisor, p: HandleId, commit: bool): Table
    requires p in t
  {
    if !commit && t[p].policy.Strict? then CancelAll(Bump(t, p, commit), me, p) else Bump(t, p, commit)
  }

  lemma CountedEvolves(t: Table, me: Supervisor, level: map<HandleId, nat>, p: HandleId, commit: bool)
    requires Levelled(t, level) && IsActive(t, p)
    ensures Evolves(t, Counted(t, me, p, commit)) && IsActive(Counted(t, me, p, commit), p)
  {
    var t1 := Bump(t, p, commit);
    assert Evolves(t, t1);
    if !commit && t[p].policy.Strict? {
      EvolvesLevelled(t, t1, level);
      CancelAllEvolves(t1, me, level, p);
      EvolvesTrans(t, t1, CancelAll(t1, me, p));
    }
  }

  lemma {:induction false} SettleEvolves(t: Table, me: Supervisor, holders: Holders, level: map<HandleId, nat>,
                                         p: HandleId, commit: bool)
    requires Levelled(t, level)
    ensures Evolves(t, SettleSpec(t, me, holders, p, commit))
    decreases |ActiveSet(t)|, 2
  {
    if IsActive(t, p) && t[p].holder.Some? {
      var t2 := Counted(t, me, p, commit);
      CountedEvolves(t, me, level, p, commit);
      EvolvesLevelled(t, t2, level);
      EvolvesActive(t, t2);
      TailEvolves(t2, me, holders, level, p, commit);
      EvolvesTrans(t, t2, SettleTail(t2, me, holders, p, commit));
    }
  }

  /** The tail either stops at once or resolves the parent for good. */
  lemma {:induction false} TailEvolves(t: Table, me: Supervisor, holders: Holders, level: map<HandleId, nat>,
                                       p: HandleId, commit: bool)
    requires Levelled(t, level)
    ensures var t' := SettleTail(t, me, holders, p, commit);
            Evolves(t, t') && (IsActive(t', p) ==> t' == t && HeldOpen(t, holders, p))
    decreases |ActiveSet(t)|, 1
  {
    if IsActive(t, p) && !HeldOpen(t, holders, p) {
      var u := Reassign(t, p, me);
      assert ActiveSet(u) == ActiveSet(t);
      assert Levelled(u, level) by {
        forall x, y | ChildOf(u, x, y) && y in u ensures level[y] < level[x] { assert ChildOf(t, x, y); }
      }
      ResolveEvolves(u, me, holders, level, me, p, AggregateCommits(t[p], commit), true);
      var t' := ResolveSpec(u, me, holders, me, p, AggregateCommits(t[p], commit), true);
      forall h | h in t
        ensures !IsActive(t, h) ==> t'[h] == t[h]
        ensures IsActive(t', h) ==> t'[h].holder == t[h].holder
      {
        assert h in u;
      }
    }
  }

  /** The doomed subtree of one child holds no other child of the same parent. */
  lemma OneChildDoomed(t: Table, me: Supervisor, level: map<HandleId, nat>, p: HandleId, c: HandleId)
    requires Levelled(t, level) && p in t && c in CancelableChildren(t, me, p)
    ensures p !in Doomed(t, me, {c})
    ensures forall x | x in Doomed(t, me, {c}) && ChildOf(t, x, p) :: x == c
  {
    assert ChildOf(t, c, p);
    DoomedBelow(t, me, level, {c}, level[c]);
    forall x | x in Doomed(t, me, {c}) && ChildOf(t, x, p) ensures x == c {
      if x != c { AscentInside(t, me, {c}, x); }
    }
  }

  lemma ChildrenAfterPeel(t: Table, me: Supervisor, level: map<HandleId, nat>, p: HandleId, c: HandleId)
    requires Levelled(t, level) && IsActive(t, p) && c in CancelableChildren(t, me, p)
    ensures var u := AbandonAll(t, Doomed(t, me, {c}));
            u[p] == t[p] && CancelableChildren(Bump(u, p, false), me, p) == CancelableChildren(t, me, p) - {c}
  {
    OneChildDoomed(t, me, level, p, c);
    var u := AbandonAll(t, Doomed(t, me, {c}));
    var v := Bump(u, p, false);
    forall x | x in t
      ensures x in CancelableChildren(v, me, p) <==> x in CancelableChildren(t, me, p) - {c}
    {
      assert ChildOf(v, x, p) <==> ChildOf(t, x, p);
    }
  }

  lemma PeelTable(t: Table, me: Supervisor, level: map<HandleId, nat>, p: HandleId, c: HandleId)
    requires Levelled(t, level) && IsActive(t, p) && c in CancelableChildren(t, me, p)
    ensures var v := Bump(AbandonAll(t, Doomed(t, me, {c})), p, false);
            AbandonAll(v, Doomed(v, me, CancelableChildren(t, me, p) - {c}))
            == Bump(AbandonAll(t, Doomed(t, me, CancelableChildren(t, me, p))), p, false)
  {
    var a := Doomed(t, me, {c});
    var u := AbandonAll(t, a);
    var s' := CancelableChildren(t, me, p) - {c};
    OneChildDoomed(t, me, level, p, c);
    BumpDoomed(u, me, p, s');
    DoomedPeel(t, me, {c}, a, s');
    assert {c} + s' == CancelableChildren(t, me, p);
    BumpAbandon(u, p, Doomed(u, me, s'));
  }

  /** Resolving one sibling first and cancelling the others afterwards is
      cancelling them all. */
  lemma CancelPeel(t: Table, me: Supervisor, level: map<HandleId, nat>, p: HandleId, c: HandleId)
    requires Levelled(t, level) && IsActive(t, p) && c in CancelableChildren(t, me, p)
    ensures var u := AbandonAll(t, Doomed(t, me, {c}));
            u[p] == t[p] && CancelAll(Bump(u, p, false), me, p) == CancelAll(t, me, p)
  {
    PeelTable(t, me, level, p, c);
    ChildrenAfterPeel(t, me, level, p, c);
    var s := CancelableChildren(t, me, p);
    var v := Bump(AbandonAll(t, Doomed(t, me, {c})), p, false);
    PeelCount(s, c);
    PeelSum(AbandonAll(v, Doomed(v, me, s - {c})), AbandonAll(t, Doomed(t, me, s)), p, |s - {c}|, |s|);
  }

  lemma PeelCount(s: set<HandleId>, c: HandleId)
    requires c in s
    ensures |s| == |s - {c}| + 1
  {
  }

  lemma PeelSum(x: Table, y: Table, p: HandleId, n: nat, m: nat)
    requires p in x && p in y && x == Bump(y, p, false) && m == n + 1
    ensures AddAbandoned(x, p, n) == AddAbandoned(y, p, m)
  {
  }

  lemma BumpAbandon(u: Table, p: HandleId, d: set<HandleId>)
    requires p in u
    ensures AbandonAll(Bump(u, p, false), d) == Bump(AbandonAll(u, d), p, false)
  {
  }

  /** A doomed handle that is not a seed has its parent doomed too. */
  lemma AscentInside(t: Table, me: Supervisor, s: set<HandleId>, x: HandleId)
    requires x in Doomed(t, me, s) && x !in s
    ensures x in t && t[x].parent.Some? && t[x].parent.value in Doomed(t, me, s)
  {
    var d := Doomed(t, me, s);
    var d' := set y | y in d && (y in s || (y in t && t[y].parent.Some? && t[y].parent.value in d));
    DoomedLeast(t, me, s, d');
  }

  lemma BumpDoomed(u: Table, me: Supervisor, p: HandleId, s: set<HandleId>)
    requires p in u
    ensures Doomed(Bump(u, p, false), me, s) == Doomed(u, me, s)
  {
    var v := Bump(u, p, false);
    assert forall h :: Cancelable(v, me, h) <==> Cancelable(u, me, h);
    DoomedLeast(u, me, s, Doomed(v, me, s));
    DoomedLeast(v, me, s, Doomed(u, me, s));
  }

  /** One resolution, with the descendants already dealt with in `t1`. */
  lemma ResolveUnfold(t: Table, me: Supervisor, holders: Holders, level: map<HandleId, nat>,
                      sup: Supervisor, h: HandleId, commit: bool, up: bool, t1: Table)
    requires Levelled(t, level) && Cancelable(t, sup, h)
    requires t1 == if commit then t else AbandonAll(t, Doomed(t, me, CancelableChildren(t, me, h)))
    ensures t1.Keys == t.Keys && t1[h] == t[h]
    ensures var t2 := Promote(t1, h, sup, commit);
            !IsActive(t2, h) && t2[h].parent == t[h].parent &&
            ResolveSpec(t, me, holders, sup, h, commit, up)
            == if up && t[h].parent.Some? then SettleSpec(t2, me, holders, t[h].parent.value, commit) else t2
  {
    NotBelowItself(t, me, level, h);
  }
}
