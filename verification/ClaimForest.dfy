/** What resolving a claim handle does to the whole claim forest, said without
    any order of siblings and without re-entrancy. */
module ClaimForest {
  import opened Claims

  // ---------------------------------------------------------------- cancelling

  function CancelableChildren(t: Table, me: Supervisor, p: HandleId): set<HandleId> {
    set h | h in t && ChildOf(t, h, p) && Cancelable(t, me, h)
  }

  function Grow(t: Table, me: Supervisor, s: set<HandleId>): set<HandleId> {
    s + (set h | h in t && Cancelable(t, me, h) && t[h].parent.Some? && t[h].parent.value in s)
  }

  ghost predicate Closed(t: Table, me: Supervisor, s: set<HandleId>) {
    forall h :: Cancelable(t, me, h) && t[h].parent.Some? && t[h].parent.value in s ==> h in s
  }

  /** The seeds and everything below them that is reached through cancelable
      handles only: the least closed set above the seeds. */
  function Doomed(t: Table, me: Supervisor, s: set<HandleId>): (d: set<HandleId>)
    ensures s <= d <= s + t.Keys
    ensures Closed(t, me, d)
    decreases t.Keys - s
  {
    var g := Grow(t, me, s);
    if g == s then s else
      assert t.Keys - g < t.Keys - s by { var x :| x in g && x !in s; assert x in t.Keys - s; }
      Doomed(t, me, g)
  }

  lemma {:induction false} DoomedLeast(t: Table, me: Supervisor, s: set<HandleId>, c: set<HandleId>)
    requires s <= c && Closed(t, me, c)
    ensures Doomed(t, me, s) <= c
    decreases t.Keys - s
  {
    var g := Grow(t, me, s);
    if g == s {
    } else {
      assert t.Keys - g < t.Keys - s by { var x :| x in g && x !in s; assert x in t.Keys - s; }
      DoomedLeast(t, me, g, c);
    }
  }

  function AbandonAll(t: Table, s: set<HandleId>): Table {
    map h | h in t :: if h in s then t[h].(state := Abandoned, holder := None) else t[h]
  }

  // ----------------------------------------------------------------- settling

  function ActiveSet(t: Table): set<HandleId> {
    set h | h in t && IsActive(t, h)
  }

  /** Every cancelable child of `p` and all that hangs off it is abandoned, and
      `p` counts the children it lost. */
  function CancelAll(t: Table, me: Supervisor, p: HandleId): Table
    requires p in t
  {
    var s := CancelableChildren(t, me, p);
    AddAbandoned(AbandonAll(t, Doomed(t, me, s)), p, |s|)
  }

  function AddAbandoned(t: Table, p: HandleId, n: nat): Table
    requires p in t
  {
    t[p := t[p].(abandoned := t[p].abandoned + n)]
  }

  /** Resolving `h`: its doomed descendants are abandoned when `h` is, `h` itself
      is promoted, and then, when `up`, its parent hears of it. */
  ghost function ResolveSpec(t: Table, me: Supervisor, holders: Holders, sup: Supervisor,
                             h: HandleId, commit: bool, up: bool): Table
    requires Cancelable(t, sup, h)
    decreases |ActiveSet(t)|, 0
  {
    var t1 := if commit then t else AbandonAll(t, Doomed(t, me, CancelableChildren(t, me, h)));
    var t2 := Promote(t1, h, sup, commit);
    if up && t[h].parent.Some? then
      ActiveShrinks(t, t2, h);
      SettleSpec(t2, me, holders, t[h].parent.value, commit)
    else t2
  }

  /** The parent of a child that has just resolved: count the child, on a strict
      abandon cancel the rest, then resolve the parent if nothing holds it open. */
  ghost function SettleSpec(t: Table, me: Supervisor, holders: Holders,
                            p: HandleId, commit: bool): Table
    decreases |ActiveSet(t)|, 2
  {
    if !IsActive(t, p) || t[p].holder.None? then t
    else
      var t1 := Bump(t, p, commit);
      var t2 := if !commit && t[p].policy.Strict? then CancelAll(t1, me, p) else t1;
      ActiveGrowsNot(t, t2);
      SettleTail(t2, me, holders, p, commit)
  }

  ghost predicate HeldOpen(t: Table, holders: Holders, p: HandleId) {
    Busy(holders, p) || exists c :: ChildOf(t, c, p) && IsActive(t, c)
  }

  ghost function SettleTail(t: Table, me: Supervisor, holders: Holders,
                            p: HandleId, commit: bool): Table
    decreases |ActiveSet(t)|, 1
  {
    if !IsActive(t, p) || HeldOpen(t, holders, p) then t
    else
      assert ActiveSet(Reassign(t, p, me)) == ActiveSet(t);
      ResolveSpec(Reassign(t, p, me), me, holders, me, p, AggregateCommits(t[p], commit), true)
  }

  lemma ActiveShrinks(t: Table, t': Table, h: HandleId)
    requires IsActive(t, h) && !IsActive(t', h)
    requires forall x :: IsActive(t', x) ==> IsActive(t, x)
    ensures |ActiveSet(t')| < |ActiveSet(t)|
  {
    SubsetSmaller(ActiveSet(t') , ActiveSet(t) - {h});
  }

  lemma ActiveGrowsNot(t: Table, t': Table)
    requires forall x :: IsActive(t', x) ==> IsActive(t, x)
    ensures |ActiveSet(t')| <= |ActiveSet(t)|
  {
    SubsetSmaller(ActiveSet(t'), ActiveSet(t));
  }

  lemma {:induction false} SubsetSmaller<T>(a: set<T>, b: set<T>)
    requires a <= b
    ensures |a| <= |b|
  {
    if a == {} {
    } else {
      var x :| x in a;
      SubsetSmaller(a - {x}, b - {x});
    }
  }
}
