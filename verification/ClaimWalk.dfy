/** The cancel walk over the children of one handle, in whatever order they are
    listed: what it has done part way, and what it has done at the end. */
module ClaimWalk {
  import opened Claims
  import opened ClaimForest
  import opened ClaimForestLemmas

  /** A walk that tells the parent (`up`) cancels the children of `p` and settles
      `p`; one that does not only abandons what hangs off `p`. */
  ghost function WalkSpec(t: Table, me: Supervisor, holders: Holders, p: HandleId, up: bool): Table
    requires p in t
  {
    var s := CancelableChildren(t, me, p);
    if !up then AbandonAll(t, Doomed(t, me, s))
    else if s == {} then t
    else SettleTail(CancelAll(t, me, p), me, holders, p, false)
  }

  ghost function Newly(t: Table, t': Table): set<HandleId> {
    set h | h in t && IsActive(t, h) && !IsActive(t', h)
  }

  /** The walk after the children in `done`. A telling walk has either met no
      cancelable child yet, or has finished the whole job at the first one. */
  ghost predicate WalkInv(t0: Table, t: Table, me: Supervisor, holders: Holders, p: HandleId,
                          done: set<HandleId>, up: bool)
    requires p in t0
  {
    if up then
      || (t == t0 && done !! CancelableChildren(t0, me, p))
      || (CancelableChildren(t0, me, p) != {} && t == WalkSpec(t0, me, holders, p, true))
    else
      && t == AbandonAll(t0, Newly(t0, t))
      && Newly(t0, t) <= Doomed(t0, me, CancelableChildren(t0, me, p))
      && Closed(t0, me, Newly(t0, t))
      && done * CancelableChildren(t0, me, p) <= Newly(t0, t)
  }

  lemma WalkStart(t: Table, me: Supervisor, holders: Holders, p: HandleId, up: bool)
    requires p in t
    ensures WalkInv(t, t, me, holders, p, {}, up)
  {
  }

  lemma WalkEnd(t0: Table, t: Table, me: Supervisor, holders: Holders, p: HandleId, done: set<HandleId>, up: bool)
    requires p in t0 && WalkInv(t0, t, me, holders, p, done, up)
    requires CancelableChildren(t0, me, p) <= done
    ensures t == WalkSpec(t0, me, holders, p, up)
  {
    if !up {
      DoomedLeast(t0, me, CancelableChildren(t0, me, p), Newly(t0, t));
    }
  }

  /** A child the walk passes over: not cancelable in the listing, or resolved
      since. */
  lemma WalkSkip(t0: Table, t: Table, me: Supervisor, holders: Holders, level: map<HandleId, nat>,
                 p: HandleId, done: set<HandleId>, up: bool, c: HandleId)
    requires p in t0 && WalkInv(t0, t, me, holders, p, done, up)
    requires Cancelable(t0, me, c) ==> !IsActive(t, c)
    ensures WalkInv(t0, t, me, holders, p, done + {c}, up)
  {
  }

  /** A child the walk resolves was untouched until then. */
  lemma WalkFinds(t0: Table, t: Table, me: Supervisor, holders: Holders, level: map<HandleId, nat>,
                  p: HandleId, done: set<HandleId>, up: bool, c: HandleId)
    requires Levelled(t0, level) && IsActive(t0, p) && Evolves(t0, t)
    requires WalkInv(t0, t, me, holders, p, done, up)
    requires ChildOf(t0, c, p) && Cancelable(t0, me, c) && IsActive(t, c)
    ensures Cancelable(t, me, c) && (up ==> t == t0)
  {
    WalkLeavesNone(t0, me, holders, level, p, c);
  }

  /** A telling walk leaves no child that it could have cancelled. */
  lemma WalkLeavesNone(t0: Table, me: Supervisor, holders: Holders, level: map<HandleId, nat>, p: HandleId, c: HandleId)
    requires Levelled(t0, level) && IsActive(t0, p)
    requires ChildOf(t0, c, p) && Cancelable(t0, me, c)
    ensures !IsActive(WalkSpec(t0, me, holders, p, true), c)
  {
    assert c in CancelableChildren(t0, me, p);
    CancelAllEvolves(t0, me, level, p);
    var u := CancelAll(t0, me, p);
    EvolvesLevelled(t0, u, level);
    TailEvolves(u, me, holders, level, p, false);
    assert ChildOf(u, c, p) && c !in CancelableChildren(u, me, p);
  }

  /** Abandoning a handle abandons its doom and then tells its parent. */
  lemma AbandonTells(t: Table, me: Supervisor, holders: Holders, level: map<HandleId, nat>, h: HandleId, p: HandleId)
    requires Levelled(t, level) && Cancelable(t, me, h) && ChildOf(t, h, p)
    ensures ResolveSpec(t, me, holders, me, h, false, true)
            == SettleSpec(AbandonAll(t, Doomed(t, me, {h})), me, holders, p, false)
  {
    var t1 := AbandonAll(t, Doomed(t, me, CancelableChildren(t, me, h)));
    ResolveUnfold(t, me, holders, level, me, h, false, true, t1);
    DoomedUnfold(t, me, h);
    NotBelowItself(t, me, level, h);
    assert Promote(t1, h, me, false) == AbandonAll(t, Doomed(t, me, {h}));
  }

  /** One child of a strict parent abandoned: the whole family is cancelled at
      once, whichever child it was. */
  lemma StrictIsCancelAll(t: Table, me: Supervisor, holders: Holders, level: map<HandleId, nat>, h: HandleId,
                          p: HandleId)
    requires Levelled(t, level) && Cancelable(t, me, h) && ChildOf(t, h, p)
    requires IsActive(t, p) && t[p].policy.Strict? && t[p].holder.Some?
    ensures ResolveSpec(t, me, holders, me, h, false, true)
            == SettleTail(CancelAll(t, me, p), me, holders, p, false)
  {
    var u := AbandonAll(t, Doomed(t, me, {h}));
    AbandonTells(t, me, holders, level, h, p);
    CancelPeel(t, me, level, p, h);
    SettleUnfold(u, me, holders, p, false);
  }

  lemma WalkStepUp(t0: Table, me: Supervisor, holders: Holders, level: map<HandleId, nat>,
                   p: HandleId, done: set<HandleId>, c: HandleId)
    requires Levelled(t0, level) && IsActive(t0, p) && t0[p].policy.Strict? && t0[p].holder.Some?
    requires c in CancelableChildren(t0, me, p)
    ensures WalkInv(t0, ResolveSpec(t0, me, holders, me, c, false, true), me, holders, p, done, true)
  {
    StrictIsCancelAll(t0, me, holders, level, c, p);
  }

  /** Abandoning one more seed of `s` keeps the abandoned set closed and within
      the doom of `s`. */
  lemma DoomOneMore(t0: Table, t: Table, me: Supervisor, s: set<HandleId>, a: set<HandleId>, c: HandleId)
    requires forall h | h in s :: Cancelable(t0, me, h)
    requires t == AbandonAll(t0, a) && a <= Doomed(t0, me, s) && Closed(t0, me, a)
    requires c in s && Cancelable(t, me, c)
    ensures var b := Doomed(t, me, {c});
            a + b <= Doomed(t0, me, s) && Closed(t0, me, a + b)
  {
    var b := Doomed(t, me, {c});
    var d := Doomed(t0, me, s);
    DoomedCancelable(t0, me, s);
    assert forall h :: Cancelable(t, me, h) <==> Cancelable(t0, me, h) && h !in a;
    assert forall h | h in t0 :: t[h].parent == t0[h].parent;
    assert Closed(t, me, d);
    DoomedLeast(t, me, {c}, d);
  }

  lemma WalkStepDown(t0: Table, t: Table, me: Supervisor, holders: Holders, level: map<HandleId, nat>,
                     p: HandleId, done: set<HandleId>, c: HandleId)
    requires Levelled(t, level) && p in t0
    requires WalkInv(t0, t, me, holders, p, done, false)
    requires c in CancelableChildren(t0, me, p) && Cancelable(t, me, c)
    ensures WalkInv(t0, ResolveSpec(t, me, holders, me, c, false, false), me, holders, p, done + {c}, false)
  {
    ResolveAlone(t, me, holders, level, c);
    var a := Newly(t0, t);
    var b := Doomed(t, me, {c});
    DoomOneMore(t0, t, me, CancelableChildren(t0, me, p), a, c);
    DoomedCancelable(t, me, {c});
    var t' := AbandonAll(t, b);
    assert Newly(t0, t') == a + b;
  }

  /** The parent's table once the child is counted and the sibling walk, if there
      was one, has come back. */
  ghost function Reviewed(t: Table, me: Supervisor, holders: Holders, p: HandleId, commit: bool): Table
    requires p in t
  {
    var t1 := Bump(t, p, commit);
    if !commit && t1[p].policy.Strict? then WalkSpec(t1, me, holders, p, true) else t1
  }

  /** With nothing to cancel, cancelling changes nothing. */
  lemma CancelNone(t: Table, me: Supervisor, p: HandleId)
    requires p in t && CancelableChildren(t, me, p) == {}
    ensures CancelAll(t, me, p) == t
  {
  }

  /** The walk over the siblings, whether it found one or not, is the tail of
      cancelling them all. */
  lemma WalkIsTail(t: Table, me: Supervisor, holders: Holders, level: map<HandleId, nat>, p: HandleId)
    requires Levelled(t, level) && IsActive(t, p)
    ensures var u := WalkSpec(t, me, holders, p, true);
            Evolves(t, u) &&
            SettleTail(CancelAll(t, me, p), me, holders, p, false) == SettleTail(u, me, holders, p, false)
  {
    if CancelableChildren(t, me, p) == {} {
      CancelNone(t, me, p);
    } else {
      var t2 := CancelAll(t, me, p);
      CancelAllEvolves(t, me, level, p);
      EvolvesLevelled(t, t2, level);
      TailEvolves(t2, me, holders, level, p, false);
      EvolvesTrans(t, t2, SettleTail(t2, me, holders, p, false));
    }
  }

  lemma BumpEvolves(t: Table, p: HandleId, commit: bool)
    requires IsActive(t, p)
    ensures Evolves(t, Bump(t, p, commit)) && ActiveSet(Bump(t, p, commit)) == ActiveSet(t)
    ensures Bump(t, p, commit)[p].policy == t[p].policy && IsActive(Bump(t, p, commit), p)
  {
  }

  lemma SettleUnfold(t: Table, me: Supervisor, holders: Holders, p: HandleId, commit: bool)
    requires IsActive(t, p) && t[p].holder.Some?
    ensures var t1 := Bump(t, p, commit);
            SettleSpec(t, me, holders, p, commit)
            == SettleTail(if !commit && t[p].policy.Strict? then CancelAll(t1, me, p) else t1, me, holders, p, commit)
  {
  }

  /** Reviewing the parent after the walk is the same as never having left: if the
      walk already settled the parent nothing remains to be done. */
  lemma ReviewSettles(t: Table, me: Supervisor, holders: Holders, level: map<HandleId, nat>, p: HandleId, commit: bool)
    requires Levelled(t, level) && IsActive(t, p) && t[p].holder.Some?
    ensures var u := Reviewed(t, me, holders, p, commit);
            Evolves(t, u) && SettleSpec(t, me, holders, p, commit) == SettleTail(u, me, holders, p, commit)
  {
    var t1 := Bump(t, p, commit);
    BumpEvolves(t, p, commit);
    EvolvesLevelled(t, t1, level);
    SettleUnfold(t, me, holders, p, commit);
    if !commit && t[p].policy.Strict? {
      WalkIsTail(t1, me, holders, level, p);
      EvolvesTrans(t, t1, WalkSpec(t1, me, holders, p, true));
    }
  }
}
