/** What the settlement of a claim forest promises its users: parents settle by
    their policy on their real children, and a strict parent goes down as one. */
module ClaimVerdicts {
  import opened Claims
  import opened ClaimForest
  import opened ClaimForestLemmas
  import opened ClaimWalk
  import opened ClaimCounts

  /** The aggregation policy, read off the children themselves. */
  ghost predicate PolicyMet(t: Table, p: HandleId)
    requires p in t
  {
    match t[p].policy
    case Threshold(max) => |ResolvedChildren(t, p, false)| < (if max <= 0 then 1 else max)
    case BestEffort => ResolvedChildren(t, p, true) != {}
    case First => ResolvedChildren(t, p, true) != {}
    case _ => ResolvedChildren(t, p, false) == {}
  }

  ghost predicate FamilyResolved(t: Table, p: HandleId) {
    forall c | ChildOf(t, c, p) :: !IsActive(t, c)
  }

  /** A committed parent had children, all are resolved, and they meet its policy. */
  ghost predicate Lawful(t: Table, p: HandleId)
    requires p in t
  {
    Children(t, p) != {} && FamilyResolved(t, p) && PolicyMet(t, p)
  }

  /** The verdict drawn from the counters is the policy on the children. */
  lemma CountersDecide(t: Table, p: HandleId, seed: bool)
    requires p in t && RowCounts(t, p) && Children(t, p) != {}
    ensures AggregateCommits(t[p], seed) <==> PolicyMet(t, p)
  {
  }

  lemma LawfulLasts(t: Table, t': Table, p: HandleId)
    requires Evolves(t, t') && p in t && Lawful(t, p)
    ensures Lawful(t', p)
  {
    forall c ensures ChildOf(t, c, p) <==> ChildOf(t', c, p) { if c in t { } }
    SameFamily(t, t', p);
  }

  /** A parent that nothing holds open settles, and settles by its policy. */
  lemma TailVerdict(t: Table, me: Supervisor, holders: Holders, level: map<HandleId, nat>, p: HandleId, commit: bool)
    requires Levelled(t, level) && CountsRight(t)
    requires IsActive(t, p) && !HeldOpen(t, holders, p) && Children(t, p) != {}
    ensures var t' := SettleTail(t, me, holders, p, commit); p in t' && t'[p].state == Resolved(PolicyMet(t, p))
    ensures PolicyMet(t, p) ==> Lawful(t, p)
  {
    CountersDecide(t, p, commit);
    ReassignFacts(t, me, level, p);
    ResolveEvolves(Reassign(t, p, me), me, holders, level, me, p, AggregateCommits(t[p], commit), true);
  }

  // -------------------------------------------------- committed means lawful

  /** Every handle that a resolution commits, the one it was asked to resolve
      aside, meets its policy on its real children. */
  ghost predicate CommitsLawfully(t: Table, t': Table, but: Option<HandleId>) {
    forall q | IsActive(t, q) && q in t' && t'[q].state == Committed && but != Some(q) :: Lawful(t', q)
  }

  lemma {:induction false} ResolveCommitsLawfully(t: Table, me: Supervisor, holders: Holders, level: map<HandleId, nat>,
                                                  sup: Supervisor, h: HandleId, commit: bool)
    requires Levelled(t, level) && CountsRight(t) && WellHeld(t) && Cancelable(t, sup, h)
    ensures CommitsLawfully(t, ResolveSpec(t, me, holders, sup, h, commit, true), Some(h))
    decreases |ActiveSet(t)|, 0
  {
    AloneFacts(t, me, holders, level, sup, h, commit);
    var t2 := Alone(t, me, sup, h, commit);
    assert forall q | IsActive(t, q) && q != h && q in t2 :: t2[q].state != Committed;
    if t[h].parent.Some? {
      var p := t[h].parent.value;
      AloneCounts(t, me, level, sup, h, commit, p);
      SettleCommitsLawfully(t2, me, holders, level, p, h, commit);
      SettleEvolves(t2, me, holders, level, p, commit);
      LawfulAcross(t, t2, SettleSpec(t2, me, holders, p, commit), Some(h));
    }
  }

  lemma LawfulAcross(t: Table, t2: Table, t': Table, but: Option<HandleId>)
    requires Evolves(t, t2) && Evolves(t2, t') && CommitsLawfully(t2, t', None)
    requires forall q | IsActive(t, q) && q in t2 && but != Some(q) :: t2[q].state != Committed
    ensures CommitsLawfully(t, t', but)
  {
  }

  lemma {:induction false} SettleCommitsLawfully(t: Table, me: Supervisor, holders: Holders, level: map<HandleId, nat>,
                                                 p: HandleId, c: HandleId, commit: bool)
    requires Levelled(t, level) && WellHeld(t)
    requires CountsBut(t, p, c) && ChildOf(t, c, p) && t[c].state == Resolved(commit)
    ensures CommitsLawfully(t, SettleSpec(t, me, holders, p, commit), None)
    decreases |ActiveSet(t)|, 2
  {
    if IsActive(t, p) {
      var t2 := Counted(t, me, p, commit);
      CountedCounts(t, me, level, p, c, commit);
      CountedEvolves(t, me, level, p, commit);
      EvolvesLevelled(t, t2, level);
      EvolvesHeld(t, t2);
      EvolvesActive(t, t2);
      SettleIsTail(t, me, holders, p, commit);
      assert ChildOf(t2, c, p) && c in Children(t2, p);
      CountedCommitsNone(t, me, p, commit);
      TailCommitsLawfully(t2, me, holders, level, p, commit);
      TailEvolves(t2, me, holders, level, p, commit);
      LawfulAcross(t, t2, SettleTail(t2, me, holders, p, commit), None);
    }
  }

  lemma CountedCommitsNone(t: Table, me: Supervisor, p: HandleId, commit: bool)
    requires IsActive(t, p)
    ensures forall q | IsActive(t, q) && q in Counted(t, me, p, commit) ::
            Counted(t, me, p, commit)[q].state != Committed
  {
  }

  lemma {:induction false} TailCommitsLawfully(t: Table, me: Supervisor, holders: Holders, level: map<HandleId, nat>,
                                               p: HandleId, commit: bool)
    requires Levelled(t, level) && CountsRight(t) && WellHeld(t) && Children(t, p) != {}
    ensures CommitsLawfully(t, SettleTail(t, me, holders, p, commit), None)
    decreases |ActiveSet(t)|, 1
  {
    if IsActive(t, p) && !HeldOpen(t, holders, p) {
      var u := Reassign(t, p, me);
      ReassignFacts(t, me, level, p);
      ResolveCommitsLawfully(u, me, holders, level, me, p, AggregateCommits(t[p], commit));
      TailVerdict(t, me, holders, level, p, commit);
      TailEvolves(t, me, holders, level, p, commit);
      var t' := SettleTail(t, me, holders, p, commit);
      assert forall q :: IsActive(t, q) ==> IsActive(u, q);
      if t'[p].state == Committed { LawfulLasts(t, t', p); }
    }
  }

  // ------------------------------------------------------ waiting for children

  ghost predicate OtherChildOpen(t: Table, p: HandleId, h: HandleId) {
    exists c :: c != h && ChildOf(t, c, p) && IsActive(t, c)
  }

  /** What hangs below a resolved handle goes with it only if it is abandoned. */
  ghost predicate GoesWith(t: Table, me: Supervisor, h: HandleId, commit: bool, q: HandleId) {
    !commit && q in Doomed(t, me, CancelableChildren(t, me, h))
  }

  /** Elsewhere than at `h` and `p` only what goes down with `h` has changed. */
  ghost predicate OnlyTakesDown(t: Table, t': Table, me: Supervisor, h: HandleId, commit: bool, p: HandleId) {
    && t'.Keys == t.Keys
    && (forall q | q in t && q != h && q != p && GoesWith(t, me, h, commit, q) :: t'[q].state == Abandoned)
    && (forall q | q in t && q != h && q != p && !GoesWith(t, me, h, commit, q) :: t'[q] == t[q])
  }

  /** Resolving a handle without telling its parent writes that handle and, on an
      abandon, what hangs below it. */
  lemma AloneTouches(t: Table, me: Supervisor, level: map<HandleId, nat>, sup: Supervisor, h: HandleId, commit: bool)
    requires Levelled(t, level) && Cancelable(t, sup, h)
    ensures var t2 := Alone(t, me, sup, h, commit);
            OnlyTakesDown(t, t2, me, h, commit, h) && t2[h] == t[h].(state := Resolved(commit), holder := None)
  {
    NotBelowItself(t, me, level, h);
  }

  /** Only a strict parent that hears of an abandon resolves its other children. Any
      other parent leaves them as they are, and stays open itself exactly as long as
      a holder or another child is active; until then nothing is written but the
      handle, what goes down with it, and one counter of the parent. */
  lemma ParentWaits(t: Table, me: Supervisor, holders: Holders, level: map<HandleId, nat>, sup: Supervisor,
                    h: HandleId, commit: bool, p: HandleId)
    requires Levelled(t, level) && Cancelable(t, sup, h) && ChildOf(t, h, p)
    requires IsActive(t, p) && t[p].holder.Some? && (commit || !t[p].policy.Strict?)
    ensures var t' := ResolveSpec(t, me, holders, sup, h, commit, true);
            && (forall c | ChildOf(t, c, p) && c != h :: c in t' && t'[c] == t[c])
            && (IsActive(t', p) <==> Busy(holders, p) || OtherChildOpen(t, p, h))
            && (IsActive(t', p) ==> t'[p] == CountedOne(t[p], commit) && OnlyTakesDown(t, t', me, h, commit, p))
  {
    HeardFacts(t, me, holders, level, sup, h, commit, p);
    HeardTouches(t, me, level, sup, h, commit, p);
    var b := Heard(t, me, sup, h, commit, p);
    TailEvolves(b, me, holders, level, p, commit);
    var t' := SettleTail(b, me, holders, p, commit);
    forall c | ChildOf(t, c, p) && c != h ensures c in t' && t'[c] == t[c] {
      if !IsActive(t', p) { assert !OtherChildOpen(t, p, h) && !IsActive(b, c); }
    }
  }

  function CountedOne(row: Handle, commit: bool): Handle {
    row.(committed := row.committed + (if commit then 1 else 0), abandoned := row.abandoned + (if commit then 0 else 1))
  }

  lemma HeardTouches(t: Table, me: Supervisor, level: map<HandleId, nat>, sup: Supervisor, h: HandleId, commit: bool,
                     p: HandleId)
    requires Levelled(t, level) && Cancelable(t, sup, h) && ChildOf(t, h, p) && p in t
    ensures var b := Heard(t, me, sup, h, commit, p);
            && OnlyTakesDown(t, b, me, h, commit, p) && b[p] == CountedOne(t[p], commit)
            && forall c | ChildOf(t, c, p) && c != h :: b[c] == t[c]
  {
    AloneTouches(t, me, level, sup, h, commit);
    FamilySpared(t, me, level, sup, h, commit, p);
  }

  /** The table once the parent has counted the child. */
  ghost function Heard(t: Table, me: Supervisor, sup: Supervisor, h: HandleId, commit: bool, p: HandleId): Table {
    var t2 := Alone(t, me, sup, h, commit);
    if p in t2 then Bump(t2, p, commit) else t2
  }

  lemma HeardFacts(t: Table, me: Supervisor, holders: Holders, level: map<HandleId, nat>, sup: Supervisor,
                   h: HandleId, commit: bool, p: HandleId)
    requires Levelled(t, level) && Cancelable(t, sup, h) && ChildOf(t, h, p)
    requires IsActive(t, p) && t[p].holder.Some? && (commit || !t[p].policy.Strict?)
    ensures var b := Heard(t, me, sup, h, commit, p);
            && Levelled(b, level) && IsActive(b, p)
            && ResolveSpec(t, me, holders, sup, h, commit, true) == SettleTail(b, me, holders, p, commit)
            && (HeldOpen(b, holders, p) <==> Busy(holders, p) || OtherChildOpen(t, p, h))
  {
    var t2 := Alone(t, me, sup, h, commit);
    AloneFacts(t, me, holders, level, sup, h, commit);
    FamilySpared(t, me, level, sup, h, commit, p);
    var b := Bump(t2, p, commit);
    BumpEvolves(t2, p, commit);
    EvolvesLevelled(t2, b, level);
    SettleIsTail(t2, me, holders, p, commit);
    forall c ensures ChildOf(b, c, p) <==> ChildOf(t, c, p) { if c in t { } }
    StillOpen(t, b, holders, p, h);
  }

  /** The parent and its other children are not below the handle. */
  lemma FamilySpared(t: Table, me: Supervisor, level: map<HandleId, nat>, sup: Supervisor, h: HandleId, commit: bool,
                     p: HandleId)
    requires Levelled(t, level) && Cancelable(t, sup, h) && ChildOf(t, h, p) && p in t
    ensures var t2 := Alone(t, me, sup, h, commit);
            && t2.Keys == t.Keys && t2[p] == t[p]
            && forall c | ChildOf(t, c, p) && c != h :: t2[c] == t[c]
  {
    AloneTouches(t, me, level, sup, h, commit);
    var s := CancelableChildren(t, me, h);
    forall c | c in s ensures level[h] <= level[c] { assert ChildOf(t, c, h); }
    DoomedBelow(t, me, level, s, level[h]);
    forall c | ChildOf(t, c, p) && c != h ensures c !in Doomed(t, me, s) {
      if c in Doomed(t, me, s) {
        assert c !in s;
        AscentInside(t, me, s, c);
      }
    }
  }

  lemma StillOpen(t: Table, b: Table, holders: Holders, p: HandleId, h: HandleId)
    requires b.Keys == t.Keys && h in t && !IsActive(b, h) && p in t && p != h
    requires b[p].parent == t[p].parent && b[p].state == t[p].state && b[h].parent == t[h].parent
    requires forall c | ChildOf(t, c, p) && c != h && c != p :: b[c] == t[c]
    requires forall c :: ChildOf(b, c, p) <==> ChildOf(t, c, p)
    ensures HeldOpen(b, holders, p) <==> Busy(holders, p) || OtherChildOpen(t, p, h)
  {
    if OtherChildOpen(t, p, h) {
      var c :| c != h && ChildOf(t, c, p) && IsActive(t, c);
      assert ChildOf(b, c, p) && IsActive(b, c);
    }
    if exists c :: ChildOf(b, c, p) && IsActive(b, c) {
      var c :| ChildOf(b, c, p) && IsActive(b, c);
      assert c != h && ChildOf(t, c, p) && IsActive(t, c);
    }
  }

  /** And when it closes, it closes by its policy on its children. */
  lemma ParentCloses(t: Table, me: Supervisor, holders: Holders, level: map<HandleId, nat>, sup: Supervisor,
                     h: HandleId, commit: bool, p: HandleId)
    requires Levelled(t, level) && CountsRight(t) && Cancelable(t, sup, h) && ChildOf(t, h, p)
    requires IsActive(t, p) && t[p].holder.Some? && (commit || !t[p].policy.Strict?)
    requires !Busy(holders, p) && !OtherChildOpen(t, p, h)
    ensures var t' := ResolveSpec(t, me, holders, sup, h, commit, true);
            p in t' && FamilyResolved(t', p) && t'[p].state == Resolved(PolicyMet(t', p))
  {
    var b := Heard(t, me, sup, h, commit, p);
    HeardFacts(t, me, holders, level, sup, h, commit, p);
    HeardCounts(t, me, level, sup, h, commit, p);
    TailVerdict(b, me, holders, level, p, commit);
    TailEvolves(b, me, holders, level, p, commit);
    FamilyLasts(b, SettleTail(b, me, holders, p, commit), p);
  }

  lemma HeardCounts(t: Table, me: Supervisor, level: map<HandleId, nat>, sup: Supervisor, h: HandleId, commit: bool,
                    p: HandleId)
    requires Levelled(t, level) && CountsRight(t) && Cancelable(t, sup, h) && ChildOf(t, h, p) && IsActive(t, p)
    ensures var b := Heard(t, me, sup, h, commit, p); CountsRight(b) && Children(b, p) != {}
  {
    FamilySpared(t, me, level, sup, h, commit, p);
    AloneTouches(t, me, level, sup, h, commit);
    AloneCounts(t, me, level, sup, h, commit, p);
    BumpCounts(Alone(t, me, sup, h, commit), p, h, commit);
    assert h in Children(Heard(t, me, sup, h, commit, p), p);
  }

  /** A resolved family is as it was ever after. */
  lemma FamilyLasts(t: Table, t': Table, p: HandleId)
    requires Evolves(t, t') && p in t && FamilyResolved(t, p)
    ensures FamilyResolved(t', p) && (PolicyMet(t', p) <==> PolicyMet(t, p))
  {
    forall c ensures ChildOf(t, c, p) <==> ChildOf(t', c, p) { if c in t { } }
    SameFamily(t, t', p);
  }

  /** A root claim is resolved without a trace elsewhere, but for what it takes down. */
  lemma RootAlone(t: Table, me: Supervisor, holders: Holders, level: map<HandleId, nat>, sup: Supervisor,
                  h: HandleId, commit: bool)
    requires Levelled(t, level) && Cancelable(t, sup, h) && t[h].parent.None?
    ensures var t' := ResolveSpec(t, me, holders, sup, h, commit, true);
            OnlyTakesDown(t, t', me, h, commit, h) && t'[h] == t[h].(state := Resolved(commit), holder := None)
  {
    AloneFacts(t, me, holders, level, sup, h, commit);
    AloneTouches(t, me, level, sup, h, commit);
  }

  // -------------------------------------------------------- strict as one

  /** Which child fails first makes no difference to any handle. */
  lemma StrictTriggerIrrelevant(t: Table, me: Supervisor, holders: Holders, level: map<HandleId, nat>,
                                h1: HandleId, h2: HandleId, p: HandleId)
    requires Levelled(t, level) && IsActive(t, p) && t[p].policy.Strict? && t[p].holder.Some?
    requires Cancelable(t, me, h1) && ChildOf(t, h1, p) && Cancelable(t, me, h2) && ChildOf(t, h2, p)
    ensures ResolveSpec(t, me, holders, me, h1, false, true) == ResolveSpec(t, me, holders, me, h2, false, true)
  {
    StrictIsCancelAll(t, me, holders, level, h1, p);
    StrictIsCancelAll(t, me, holders, level, h2, p);
  }

  ghost predicate OneSupervisor(t: Table, me: Supervisor) {
    forall h | IsActive(t, h) :: t[h].holder == Some(me)
  }

  /** Under one supervisor a strict parent loses every child and all that hangs
      off them, and goes down itself unless a holder keeps it open. */
  lemma StrictCancel(t: Table, me: Supervisor, holders: Holders, level: map<HandleId, nat>, h: HandleId, p: HandleId)
    requires Levelled(t, level) && CountsRight(t) && OneSupervisor(t, me)
    requires IsActive(t, h) && ChildOf(t, h, p) && IsActive(t, p) && t[p].policy.Strict?
    ensures var t' := ResolveSpec(t, me, holders, me, h, false, true);
            && Evolves(t, t') && FamilyResolved(t', p)
            && (forall c, x | ChildOf(t, c, p) && IsActive(t, c) && x in Doomed(t, me, {c}) ::
                  x in t' && t'[x].state == Abandoned)
            && t'[p].state == if Busy(holders, p) then Active else Abandoned
  {
    StrictIsCancelAll(t, me, holders, level, h, p);
    var u := CancelAll(t, me, p);
    var t' := SettleTail(u, me, holders, p, false);
    StrictFamily(t, me, level, p);
    EvolvesLevelled(t, u, level);
    TailEvolves(u, me, holders, level, p, false);
    EvolvesTrans(t, u, t');
    forall c | ChildOf(t', c, p) ensures !IsActive(t', c) { assert ChildOf(u, c, p); }
    forall c, x | ChildOf(t, c, p) && IsActive(t, c) && x in Doomed(t, me, {c})
      ensures x in t' && t'[x].state == Abandoned
    {
      FamilyDoom(t, me, level, p, c, x);
    }
    FamilyDoom(t, me, level, p, h, h);
    CancelAllCounts(t, me, level, p);
    StrictParent(u, me, holders, level, p, h);
  }

  /** Whoever holds its children, a strict parent that hears of an abandon stays open
      exactly as long as a holder is active or a child that is not ours to cancel. */
  lemma StrictWaits(t: Table, me: Supervisor, holders: Holders, level: map<HandleId, nat>, h: HandleId, p: HandleId)
    requires Levelled(t, level) && IsActive(t, p) && t[p].policy.Strict? && t[p].holder.Some?
    requires Cancelable(t, me, h) && ChildOf(t, h, p)
    ensures var t' := ResolveSpec(t, me, holders, me, h, false, true);
            && (forall c | ChildOf(t, c, p) && Cancelable(t, me, c) :: c in t' && t'[c].state == Abandoned)
            && (IsActive(t', p) <==>
                  Busy(holders, p) || exists c :: ChildOf(t, c, p) && IsActive(t, c) && t[c].holder != Some(me))
  {
    StrictIsCancelAll(t, me, holders, level, h, p);
    var u := CancelAll(t, me, p);
    CancelAllEvolves(t, me, level, p);
    EvolvesLevelled(t, u, level);
    TailEvolves(u, me, holders, level, p, false);
    forall c | ChildOf(t, c, p) && Cancelable(t, me, c) ensures u[c].state == Abandoned {
      DoomedLeast(t, me, {c}, Doomed(t, me, {c}));
      FamilyDoom(t, me, level, p, c, c);
    }
    ForeignOpen(t, u, me, level, p);
  }

  lemma ForeignOpen(t: Table, u: Table, me: Supervisor, level: map<HandleId, nat>, p: HandleId)
    requires Levelled(t, level) && IsActive(t, p) && u == CancelAll(t, me, p)
    ensures (exists c :: ChildOf(u, c, p) && IsActive(u, c)) <==>
            exists c :: ChildOf(t, c, p) && IsActive(t, c) && t[c].holder != Some(me)
  {
    CancelAllEvolves(t, me, level, p);
    DoomedCancelable(t, me, CancelableChildren(t, me, p));
    if exists c :: ChildOf(u, c, p) && IsActive(u, c) {
      var c :| ChildOf(u, c, p) && IsActive(u, c);
      assert ChildOf(t, c, p) && IsActive(t, c) && c !in CancelableChildren(u, me, p);
      assert t[c].holder != Some(me);
    }
    if exists c :: ChildOf(t, c, p) && IsActive(t, c) && t[c].holder != Some(me) {
      var c :| ChildOf(t, c, p) && IsActive(t, c) && t[c].holder != Some(me);
      assert ChildOf(u, c, p) && IsActive(u, c);
    }
  }

  lemma StrictFamily(t: Table, me: Supervisor, level: map<HandleId, nat>, p: HandleId)
    requires Levelled(t, level) && OneSupervisor(t, me) && IsActive(t, p)
    ensures var u := CancelAll(t, me, p); Evolves(t, u) && IsActive(u, p) && FamilyResolved(u, p)
  {
    var u := CancelAll(t, me, p);
    CancelAllEvolves(t, me, level, p);
    forall c | ChildOf(u, c, p) ensures !IsActive(u, c) {
      assert c in t && c !in CancelableChildren(u, me, p);
    }
  }

  lemma StrictParent(u: Table, me: Supervisor, holders: Holders, level: map<HandleId, nat>, p: HandleId, h: HandleId)
    requires Levelled(u, level) && CountsRight(u) && IsActive(u, p) && u[p].policy.Strict? && FamilyResolved(u, p)
    requires ChildOf(u, h, p) && u[h].state == Abandoned
    ensures var t' := SettleTail(u, me, holders, p, false);
            p in t' && t'[p].state == if Busy(holders, p) then Active else Abandoned
  {
    assert h in ResolvedChildren(u, p, false) && h in Children(u, p);
    if !Busy(holders, p) { TailVerdict(u, me, holders, level, p, false); }
  }

  lemma FamilyDoom(t: Table, me: Supervisor, level: map<HandleId, nat>, p: HandleId, c: HandleId, x: HandleId)
    requires Levelled(t, level) && IsActive(t, p) && ChildOf(t, c, p) && Cancelable(t, me, c)
    requires x in Doomed(t, me, {c})
    ensures x in CancelAll(t, me, p) && CancelAll(t, me, p)[x].state == Abandoned
  {
    var s := CancelableChildren(t, me, p);
    DoomedLeast(t, me, {c}, Doomed(t, me, s));
    DoomedBelow(t, me, level, {c}, level[c]);
    NotBelowItself(t, me, level, p);
  }
}
