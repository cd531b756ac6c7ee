/** A fan-out parent's counters are the real numbers of its children, and a
    parent that settles does so by its policy on those children. */
module ClaimCounts {
  import opened Claims
  import opened ClaimForest
  import opened ClaimForestLemmas

  function ResolvedChildren(t: Table, p: HandleId, commit: bool): set<HandleId> {
    set c | c in t && ChildOf(t, c, p) && t[c].state == Resolved(commit)
  }

  ghost predicate RowCounts(t: Table, p: HandleId)
    requires p in t
  {
    && t[p].expected == |Children(t, p)|
    && t[p].committed == |ResolvedChildren(t, p, true)|
    && t[p].abandoned == |ResolvedChildren(t, p, false)|
  }

  ghost predicate CountsRight(t: Table) {
    forall p | IsActive(t, p) :: RowCounts(t, p)
  }

  /** All counters are right but those of `p`, which has yet to count `c`. */
  ghost predicate CountsBut(t: Table, p: HandleId, c: HandleId) {
    && (forall q | IsActive(t, q) && q != p :: RowCounts(t, q))
    && (IsActive(t, p) ==>
          && t[p].expected == |Children(t, p)|
          && t[p].committed == |ResolvedChildren(t, p, true) - {c}|
          && t[p].abandoned == |ResolvedChildren(t, p, false) - {c}|)
  }

  /** The children of a row look the same in both tables. */
  ghost predicate SameChildren(t: Table, t': Table, p: HandleId) {
    && (forall c :: ChildOf(t, c, p) <==> ChildOf(t', c, p))
    && (forall c | ChildOf(t, c, p) :: t[c].state == t'[c].state)
  }

  lemma SameFamily(t: Table, t': Table, p: HandleId)
    requires SameChildren(t, t', p)
    ensures Children(t', p) == Children(t, p)
    ensures ResolvedChildren(t', p, true) == ResolvedChildren(t, p, true)
    ensures ResolvedChildren(t', p, false) == ResolvedChildren(t, p, false)
  {
  }

  lemma SameCounts(t: Table, t': Table, p: HandleId)
    requires p in t && p in t' && SameChildren(t, t', p) && RowCounts(t, p)
    requires t'[p].expected == t[p].expected && t'[p].committed == t[p].committed && t'[p].abandoned == t[p].abandoned
    ensures RowCounts(t', p)
  {
    SameFamily(t, t', p);
  }

  /** Abandoning the active children `s` of `h`, with whatever else is in `d`. */
  lemma AbandonFamily(t: Table, d: set<HandleId>, h: HandleId, s: set<HandleId>)
    requires forall c | ChildOf(t, c, h) :: c in d <==> c in s
    requires forall c | c in s :: ChildOf(t, c, h) && IsActive(t, c)
    ensures var t' := AbandonAll(t, d);
            && Children(t', h) == Children(t, h)
            && ResolvedChildren(t', h, true) == ResolvedChildren(t, h, true)
            && ResolvedChildren(t', h, false) == ResolvedChildren(t, h, false) + s
            && ResolvedChildren(t, h, false) !! s
  {
  }

  /** The children `h` loses to its doom are its cancelable ones. */
  lemma DoomTakes(t: Table, me: Supervisor, h: HandleId)
    ensures var s := CancelableChildren(t, me, h);
            forall c | ChildOf(t, c, h) :: c in Doomed(t, me, s) <==> c in s
  {
    DoomedCancelable(t, me, CancelableChildren(t, me, h));
  }

  /** Abandoning the doom of the cancelable children of `h` touches no child of
      any other handle that stays active. */
  lemma DoomSpares(t: Table, me: Supervisor, h: HandleId, q: HandleId)
    requires h in t && q != h
    requires IsActive(AbandonAll(t, Doomed(t, me, CancelableChildren(t, me, h))), q)
    ensures q in t && SameChildren(t, AbandonAll(t, Doomed(t, me, CancelableChildren(t, me, h))), q)
  {
    var s := CancelableChildren(t, me, h);
    var d := Doomed(t, me, s);
    forall c | ChildOf(t, c, q) ensures c !in d {
      if c in d && c !in s { AscentInside(t, me, s, c); }
    }
  }

  lemma SameKin(u: Table, t': Table, p: HandleId, q: HandleId)
    requires p in u && t'.Keys == u.Keys && (forall h | h in u && h != p :: t'[h] == u[h])
    requires t'[p].state == u[p].state && t'[p].parent == u[p].parent
    ensures SameChildren(u, t', q)
  {
  }

  lemma CancelAllCounts(t: Table, me: Supervisor, level: map<HandleId, nat>, p: HandleId)
    requires Levelled(t, level) && CountsRight(t) && IsActive(t, p)
    ensures CountsRight(CancelAll(t, me, p))
  {
    var s := CancelableChildren(t, me, p);
    var d := Doomed(t, me, s);
    var u := AbandonAll(t, d);
    NotBelowItself(t, me, level, p);
    DoomTakes(t, me, p);
    AbandonFamily(t, d, p, s);
    assert u[p] == t[p];
    var t' := AddAbandoned(u, p, |s|);
    forall q | IsActive(t', q)
      ensures RowCounts(t', q)
    {
      SameKin(u, t', p, q);
      if q != p {
        DoomSpares(t, me, p, q);
        SameCounts(t, u, q);
        SameCounts(u, t', q);
      } else {
        SameFamily(u, t', p);
      }
    }
  }

  lemma OneOut(a: set<HandleId>, c: HandleId)
    ensures |a| == |a - {c}| + (if c in a then 1 else 0)
  {
  }

  lemma BumpRow(t: Table, p: HandleId, c: HandleId, commit: bool)
    requires IsActive(t, p) && CountsBut(t, p, c) && ChildOf(t, c, p) && t[c].state == Resolved(commit)
    ensures RowCounts(Bump(t, p, commit), p)
  {
    SameKin(t, Bump(t, p, commit), p, p);
    SameFamily(t, Bump(t, p, commit), p);
    OneOut(ResolvedChildren(t, p, true), c);
    OneOut(ResolvedChildren(t, p, false), c);
    assert c in ResolvedChildren(t, p, commit) && c !in ResolvedChildren(t, p, !commit);
  }

  /** Counting a child that has just resolved. */
  lemma BumpCounts(t: Table, p: HandleId, c: HandleId, commit: bool)
    requires IsActive(t, p) && CountsBut(t, p, c) && ChildOf(t, c, p) && t[c].state == Resolved(commit)
    ensures CountsRight(Bump(t, p, commit))
  {
    var t' := Bump(t, p, commit);
    BumpRow(t, p, c, commit);
    forall q | IsActive(t', q) && q != p
      ensures RowCounts(t', q)
    {
      SameKin(t, t', p, q);
      SameCounts(t, t', q);
    }
  }

  // ------------------------------------------------------------ conservation

  /** Active rows always have a holder. */
  ghost predicate WellHeld(t: Table) {
    forall h | IsActive(t, h) :: t[h].holder.Some?
  }

  /** The family of `p` after its active child `h` is promoted. */
  lemma PromoteFamily(t: Table, sup: Supervisor, h: HandleId, commit: bool, p: HandleId)
    requires Cancelable(t, sup, h)
    ensures var t' := Promote(t, h, sup, commit);
            && Children(t', p) == Children(t, p)
            && ResolvedChildren(t', p, true) - {h} == ResolvedChildren(t, p, true)
            && ResolvedChildren(t', p, false) - {h} == ResolvedChildren(t, p, false)
            && (!ChildOf(t, h, p) ==> SameChildren(t, t', p))
  {
  }

  /** Promoting `h` in a table whose other counters are right leaves only its
      parent short. */
  lemma PromoteCounts(t: Table, sup: Supervisor, h: HandleId, commit: bool, p: HandleId)
    requires Cancelable(t, sup, h) && (t[h].parent.Some? ==> t[h].parent.value == p)
    requires forall q | IsActive(t, q) && q != h :: RowCounts(t, q)
    ensures CountsBut(Promote(t, h, sup, commit), p, h)
  {
    var t' := Promote(t, h, sup, commit);
    forall q | IsActive(t', q) && q != p
      ensures RowCounts(t', q)
    {
      PromoteFamily(t, sup, h, commit, q);
      SameCounts(t, t', q);
    }
    PromoteFamily(t, sup, h, commit, p);
    assert IsActive(t', p) ==> IsActive(t, p) && p != h;
  }

  lemma DoomCounts(t: Table, me: Supervisor, h: HandleId)
    requires CountsRight(t) && h in t
    ensures var t1 := AbandonAll(t, Doomed(t, me, CancelableChildren(t, me, h)));
            forall q | IsActive(t1, q) && q != h :: RowCounts(t1, q)
  {
    var t1 := AbandonAll(t, Doomed(t, me, CancelableChildren(t, me, h)));
    forall q | IsActive(t1, q) && q != h
      ensures RowCounts(t1, q)
    {
      DoomSpares(t, me, h, q);
      SameCounts(t, t1, q);
    }
  }

  /** Everything in a resolution but telling the parent. */
  ghost function Alone(t: Table, me: Supervisor, sup: Supervisor, h: HandleId, commit: bool): Table {
    Promote(if commit then t else AbandonAll(t, Doomed(t, me, CancelableChildren(t, me, h))), h, sup, commit)
  }

  lemma AloneFacts(t: Table, me: Supervisor, holders: Holders, level: map<HandleId, nat>,
                   sup: Supervisor, h: HandleId, commit: bool)
    requires Levelled(t, level) && Cancelable(t, sup, h)
    ensures var t2 := Alone(t, me, sup, h, commit);
            && Evolves(t, t2) && Levelled(t2, level) && (WellHeld(t) ==> WellHeld(t2))
            && |ActiveSet(t2)| < |ActiveSet(t)|
            && t2[h].state == Resolved(commit) && t2[h].parent == t[h].parent
            && ResolveSpec(t, me, holders, sup, h, commit, true)
               == if t[h].parent.Some? then SettleSpec(t2, me, holders, t[h].parent.value, commit) else t2
  {
    var t1 := if commit then t else AbandonAll(t, Doomed(t, me, CancelableChildren(t, me, h)));
    var t2 := Alone(t, me, sup, h, commit);
    ResolveUnfold(t, me, holders, level, sup, h, commit, true, t1);
    ResolveUnfold(t, me, holders, level, sup, h, commit, false, t1);
    ResolveEvolves(t, me, holders, level, sup, h, commit, false);
    EvolvesLevelled(t, t2, level);
    EvolvesActive(t, t2);
    ActiveShrinks(t, t2, h);
    if WellHeld(t) { EvolvesHeld(t, t2); }
  }

  lemma EvolvesHeld(t: Table, t': Table)
    requires Evolves(t, t') && WellHeld(t)
    ensures WellHeld(t')
  {
  }

  lemma AloneCounts(t: Table, me: Supervisor, level: map<HandleId, nat>, sup: Supervisor,
                    h: HandleId, commit: bool, p: HandleId)
    requires Levelled(t, level) && CountsRight(t) && Cancelable(t, sup, h)
    requires t[h].parent.Some? ==> t[h].parent.value == p
    ensures CountsBut(Alone(t, me, sup, h, commit), p, h)
  {
    DoomCounts(t, me, h);
    NotBelowItself(t, me, level, h);
    PromoteCounts(if commit then t else AbandonAll(t, Doomed(t, me, CancelableChildren(t, me, h))), sup, h, commit, p);
  }

  /** Conservation: a resolution that tells the parent keeps every active
      handle's counters equal to its real numbers of children. */
  lemma {:induction false} ResolveKeepsCounts(t: Table, me: Supervisor, holders: Holders, level: map<HandleId, nat>,
                                              sup: Supervisor, h: HandleId, commit: bool)
    requires Levelled(t, level) && CountsRight(t) && WellHeld(t) && Cancelable(t, sup, h)
    ensures CountsRight(ResolveSpec(t, me, holders, sup, h, commit, true))
    decreases |ActiveSet(t)|, 0
  {
    AloneFacts(t, me, holders, level, sup, h, commit);
    if t[h].parent.Some? {
      var p := t[h].parent.value;
      AloneCounts(t, me, level, sup, h, commit, p);
      SettleKeepsCounts(Alone(t, me, sup, h, commit), me, holders, level, p, h, commit);
    } else {
      AloneCounts(t, me, level, sup, h, commit, h);
    }
  }

  /** The parent's table with the child counted and, on a strict abandon, its
      siblings cancelled. */
  lemma CountedCounts(t: Table, me: Supervisor, level: map<HandleId, nat>, p: HandleId, c: HandleId, commit: bool)
    requires Levelled(t, level) && IsActive(t, p)
    requires CountsBut(t, p, c) && ChildOf(t, c, p) && t[c].state == Resolved(commit)
    ensures CountsRight(Counted(t, me, p, commit))
  {
    BumpCounts(t, p, c, commit);
    var t1 := Bump(t, p, commit);
    assert Evolves(t, t1);
    EvolvesLevelled(t, t1, level);
    if !commit && t[p].policy.Strict? { CancelAllCounts(t1, me, level, p); }
  }

  lemma {:induction false} SettleKeepsCounts(t: Table, me: Supervisor, holders: Holders, level: map<HandleId, nat>,
                                             p: HandleId, c: HandleId, commit: bool)
    requires Levelled(t, level) && WellHeld(t)
    requires CountsBut(t, p, c) && ChildOf(t, c, p) && t[c].state == Resolved(commit)
    ensures CountsRight(SettleSpec(t, me, holders, p, commit))
    decreases |ActiveSet(t)|, 2
  {
    if IsActive(t, p) {
      var t2 := Counted(t, me, p, commit);
      CountedCounts(t, me, level, p, c, commit);
      CountedEvolves(t, me, level, p, commit);
      EvolvesLevelled(t, t2, level);
      EvolvesHeld(t, t2);
      EvolvesActive(t, t2);
      SettleIsTail(t, me, holders, p, commit);
      TailKeepsCounts(t2, me, holders, level, p, commit);
    }
  }

  lemma SettleIsTail(t: Table, me: Supervisor, holders: Holders, p: HandleId, commit: bool)
    requires IsActive(t, p) && t[p].holder.Some?
    ensures SettleSpec(t, me, holders, p, commit) == SettleTail(Counted(t, me, p, commit), me, holders, p, commit)
  {
  }

  lemma {:induction false} TailKeepsCounts(t: Table, me: Supervisor, holders: Holders, level: map<HandleId, nat>,
                                           p: HandleId, commit: bool)
    requires Levelled(t, level) && CountsRight(t) && WellHeld(t)
    ensures CountsRight(SettleTail(t, me, holders, p, commit))
    decreases |ActiveSet(t)|, 1
  {
    if IsActive(t, p) && !HeldOpen(t, holders, p) {
      var u := Reassign(t, p, me);
      ReassignFacts(t, me, level, p);
      ResolveKeepsCounts(u, me, holders, level, me, p, AggregateCommits(t[p], commit));
    }
  }

  lemma ReassignFacts(t: Table, me: Supervisor, level: map<HandleId, nat>, p: HandleId)
    requires Levelled(t, level) && IsActive(t, p)
    ensures var u := Reassign(t, p, me);
            && Levelled(u, level) && ActiveSet(u) == ActiveSet(t)
            && (CountsRight(t) ==> CountsRight(u)) && (WellHeld(t) ==> WellHeld(u))
  {
    var u := Reassign(t, p, me);
    forall x, y | ChildOf(u, x, y) && y in u ensures level[y] < level[x] { assert ChildOf(t, x, y); }
    if CountsRight(t) {
      forall q | IsActive(u, q) ensures RowCounts(u, q) {
        SameKin(t, u, p, q);
        SameCounts(t, u, q);
      }
    }
  }
}
