/** The terminals of a run: completing, giving up, and being passed by an error
    policy. Each releases what the run has and settles the run. */
module Terminals {
  import opened Claims
  import opened ClaimForest
  import opened ClaimForestLemmas
  import opened ClaimCounts
  import ClaimVerdicts
  import opened Ledger
  import opened ClaimEngine
  import opened HeldClaims
  import opened HeldLaws
  import opened HeldRuns
  import opened PlainReleases

  /** Releases everything, or nothing if a row to mark is no longer active. */
  method LetGoOfAll(e: Engine, cast: Cast, acq: Acquisition, success: bool)
    returns (ok: bool, open: bool, ghost linked: seq<HandleId>, ghost inherited: seq<HandleId>)
    requires Inv(e, cast) && IsRunning(e.runs, acq.run) && AcquiredBy(acq, e.handles, e.holders)
    modifies e`handles, e`outbox, e`holders, e`runs
    ensures ok <==> Markable(acq, old(e.handles), old(e.holders))
    ensures open <==> HasOpenClaims(old(e.handles), old(e.holders), acq.run)
    ensures !ok ==> Tables(e) == old(Tables(e))
    ensures ok ==> Transit(e, cast, acq.run)
    ensures ok ==> ReleasedAll(old(Tables(e)), Tables(e), e.me, cast, acq, success, linked, inherited)
    ensures ok ==> RootsEnd(old(Tables(e)), Tables(e), cast, acq, success)
  {
    ghost var s := Tables(e);
    ok, open, linked, inherited := ReleaseOrRollBack(e, cast, acq, success);
    if ok { ReleaseEndsRoots(s, Tables(e), e.me, cast, e.level, acq, success, linked, inherited); }
  }

  // ---------------------------------------------------------------- completing

  /** Held while something may be open, else the portfolio's verdict. */
  ghost function CompletedState(t: Table, holders: Holders, aggregating: bool, r: RunId, open: bool): RunState {
    if open then HeldOr(t, holders, aggregating, r) else Verdict(t, holders, r)
  }

  method SettleCompleted(e: Engine, cast: Cast, r: RunId, open: bool) returns (ghost state: RunState)
    requires Transit(e, cast, r) && (!open ==> FullyResolved(e.handles, e.holders, r))
    modifies e`runs
    ensures Inv(e, cast) && state == CompletedState(e.handles, e.holders, old(e.runs)[r].aggregating, r, open)
    ensures e.runs == old(e.runs)[r := old(e.runs)[r].(state := state)]
  {
    state := CompletedState(e.handles, e.holders, e.runs[r].aggregating, r, open);
    if open {
      HoldRun(e, cast, r);
    } else {
      var _, poisoned := e.EvaluatePortfolio(r);
      SettleRun(e, cast, r, if poisoned then Failed else Fresh);
    }
  }

  /** A successful completion. It errs, and changes nothing, exactly if a row the
      run has to mark is no longer active. Otherwise the run is Held as long as it
      has child runs or something open, if it had anything open; and after that
      Failed exactly if something it holds is abandoned. */
  method CompleteRun(e: Engine, cast: Cast, acq: Acquisition)
    returns (ok: bool, ghost linked: seq<HandleId>, ghost inherited: seq<HandleId>)
    requires Inv(e, cast) && IsRunning(e.runs, acq.run) && AcquiredBy(acq, e.handles, e.holders)
    modifies e`handles, e`outbox, e`holders, e`runs
    ensures Inv(e, cast)
    ensures ok <==> Markable(acq, old(e.handles), old(e.holders))
    ensures !ok ==> Tables(e) == old(Tables(e))
    ensures ok ==> acq.run in e.runs
    ensures ok ==> EndedAs(old(Tables(e)), Tables(e), e.me, cast, acq, true, linked, inherited, e.runs[acq.run].state)
    ensures ok ==> RootsEnd(old(Tables(e)), Tables(e), cast, acq, true)
    ensures ok ==>
            e.runs[acq.run].state ==
              if HasOpenClaims(old(e.handles), old(e.holders), acq.run)
                 && (e.runs[acq.run].aggregating || !FullyResolved(e.handles, e.holders, acq.run)) then Held
              else if Poisoned(e.handles, e.holders, acq.run) then Failed
              else Fresh
  {
    ghost var s := Tables(e);
    var open;
    ok, open, linked, inherited := LetGoOfAll(e, cast, acq, true);
    if !ok { return; }
    ghost var s1 := Tables(e);
    if !open { NothingOpen(s.handles, e.handles, s.holders, e.holders, s.runs, acq.run); }
    ghost var state := SettleCompleted(e, cast, acq.run, open);
    SettlingEnds(s, s1, e.me, cast, acq, true, linked, inherited, state);
  }

  // ---------------------------------------------------------------- giving up

  method SettleGivenUp(e: Engine, cast: Cast, r: RunId, open: bool) returns (ghost state: RunState)
    requires Transit(e, cast, r)
    modifies e`runs
    ensures Inv(e, cast)
    ensures state == if open then HeldOr(e.handles, e.holders, old(e.runs)[r].aggregating, r) else Failed
    ensures e.runs == old(e.runs)[r := old(e.runs)[r].(state := state)]
  {
    state := if open then HeldOr(e.handles, e.holders, e.runs[r].aggregating, r) else Failed;
    if open { HoldRun(e, cast, r); } else { SettleRun(e, cast, r, Failed); }
  }

  /** Giving up: the run's claims are abandoned, and the claims it acquired and
      shares are lost to all their holders. The run never ends Fresh. A run that ran
      out of retries over infrastructure errors fails at once, whatever is open. */
  method GiveUp(e: Engine, cast: Cast, acq: Acquisition, infra: bool)
    returns (ok: bool, ghost linked: seq<HandleId>, ghost inherited: seq<HandleId>)
    requires Inv(e, cast) && IsRunning(e.runs, acq.run) && AcquiredBy(acq, e.handles, e.holders)
    modifies e`handles, e`outbox, e`holders, e`runs
    ensures Inv(e, cast)
    ensures ok <==> Markable(acq, old(e.handles), old(e.holders))
    ensures !ok ==> Tables(e) == old(Tables(e))
    ensures ok ==> acq.run in e.runs
    ensures ok ==> EndedAs(old(Tables(e)), Tables(e), e.me, cast, acq, false, linked, inherited, e.runs[acq.run].state)
    ensures ok ==> RootsEnd(old(Tables(e)), Tables(e), cast, acq, false)
    ensures ok ==>
            e.runs[acq.run].state ==
              if !infra && HasOpenClaims(old(e.handles), old(e.holders), acq.run)
                 && (e.runs[acq.run].aggregating || !FullyResolved(e.handles, e.holders, acq.run)) then Held
              else Failed
  {
    ghost var s := Tables(e);
    var open;
    ok, open, linked, inherited := LetGoOfAll(e, cast, acq, false);
    if !ok { return; }
    ghost var s1 := Tables(e);
    GivingUpTaints(s, s1, e.me, cast, e.level, acq, linked, inherited);
    ghost var state := SettleGivenUp(e, cast, acq.run, open && !infra);
    SettlingEnds(s, s1, e.me, cast, acq, false, linked, inherited, state);
  }

  /** A failing release changes nothing, or abandons something that the run holds. */
  ghost predicate Tainted(t: Table, s: (Table, Holders), r: RunId) {
    s.0 == t || Poisoned(s.0, s.1, r)
  }

  lemma PoisonStays(s: (Table, Holders), s': (Table, Holders), r: RunId)
    requires Evolves(s.0, s'.0) && s.1.Keys <= s'.1.Keys && Poisoned(s.0, s.1, r)
    ensures Poisoned(s'.0, s'.1, r)
  {
    var h :| InPortfolio(s.0, s.1, r, h) && s.0[h].state == Abandoned;
    assert InPortfolio(s'.0, s'.1, r, h);
  }

  lemma ReleaseOneTaints(t: Table, s: (Table, Holders), me: Supervisor, cast: Cast, level: map<HandleId, nat>, r: RunId,
                         l: Lock, acquirer: bool)
    requires Levelled(s.0, level) && Tainted(t, s, r) && InPortfolio(s.0, s.1, r, l.handle)
    ensures var s' := ReleaseOne(s, me, cast, r, l, false, acquirer); s.1.Keys <= s'.1.Keys && Tainted(t, s', r)
  {
    var s' := ReleaseOne(s, me, cast, r, l, false, acquirer);
    var h := l.handle;
    ReleaseOneEvolves(s, me, cast, level, r, l, false, acquirer);
    var marked := if l.held then Marked(s.0, me, s.1, r, h, false, acquirer) else s.1;
    assert s'.1 == marked && s.1.Keys <= marked.Keys;
    if s'.0 == s.0 {
      if Poisoned(s.0, s.1, r) { PoisonStays(s, s', r); }
    } else {
      if l.held { assert (h, r) in marked && marked[(h, r)] == HolderFailed && AnyFailed(marked, h); }
      ResolveEvolves(s.0, me, marked, level, me, h, false, true);
      assert InPortfolio(s'.0, s'.1, r, h) && s'.0[h].state == Abandoned;
    }
  }

  lemma {:induction false} ReleaseManyTaints(t: Table, s: (Table, Holders), me: Supervisor, cast: Cast,
                                             level: map<HandleId, nat>, r: RunId, locks: seq<Lock>, acquirer: bool)
    requires Levelled(s.0, level) && Tainted(t, s, r)
    requires forall l | l in locks :: InPortfolio(s.0, s.1, r, l.handle)
    ensures var s' := ReleaseMany(s, me, cast, r, locks, false, acquirer);
            s.1.Keys <= s'.1.Keys && Tainted(t, s', r) && Evolves(s.0, s'.0) && Levelled(s'.0, level)
  {
    ReleaseManyEvolves(s, me, cast, level, r, locks, false, acquirer);
    if locks == [] {
    } else {
      var n := |locks| - 1;
      assert locks[n] in locks;
      ReleaseManyTaints(t, s, me, cast, level, r, locks[..n], acquirer);
      ReleaseOneTaints(t, ReleaseMany(s, me, cast, r, locks[..n], false, acquirer), me, cast, level, r, locks[n],
                       acquirer);
    }
  }

  lemma ReleaseTaints(s: State, s1: State, me: Supervisor, cast: Cast, level: map<HandleId, nat>, acq: Acquisition,
                      linked: seq<HandleId>, inherited: seq<HandleId>)
    requires AcquiredBy(acq, s.handles, s.holders) && Levelled(s.handles, level)
    requires ReleasedAll(s, s1, me, cast, acq, false, linked, inherited)
    ensures Tainted(s.handles, (s1.handles, s1.holders), acq.run)
  {
    var r, a := acq.run, (s.handles, s.holders);
    var b := ReleaseMany(a, me, cast, r, acq.locks, false, true);
    var c := ReleaseMany(b, me, cast, r, AsLocks(linked, false), false, false);
    ReleaseManyTaints(s.handles, a, me, cast, level, r, acq.locks, true);
    forall l | l in AsLocks(linked, false) ensures InPortfolio(b.0, b.1, r, l.handle) {
      InLocks(linked, false, l);
      assert LinkedTo(s.handles, acq, l.handle);
    }
    ReleaseManyTaints(s.handles, b, me, cast, level, r, AsLocks(linked, false), false);
    forall l | l in AsLocks(inherited, true) ensures InPortfolio(c.0, c.1, r, l.handle) {
      InLocks(inherited, true, l);
      assert Inherits(s.handles, s.holders, r, l.handle) && (l.handle, r) in c.1;
    }
    ReleaseManyTaints(s.handles, c, me, cast, level, r, AsLocks(inherited, true), false);
  }

  /** In any forest a run that gives up with something open is left with something
      open or something abandoned. */
  lemma GivingUpTaints(s: State, s1: State, me: Supervisor, cast: Cast, level: map<HandleId, nat>, acq: Acquisition,
                       linked: seq<HandleId>, inherited: seq<HandleId>)
    requires AcquiredBy(acq, s.handles, s.holders) && Levelled(s.handles, level)
    requires ReleasedAll(s, s1, me, cast, acq, false, linked, inherited)
    ensures HasOpenClaims(s.handles, s.holders, acq.run) ==>
            !FullyResolved(s1.handles, s1.holders, acq.run) || Poisoned(s1.handles, s1.holders, acq.run)
  {
    ReleaseTaints(s, s1, me, cast, level, acq, linked, inherited);
    if HasOpenClaims(s.handles, s.holders, acq.run) {
      OpenSomewhere(s.handles, s.holders, acq.run);
      SamePortfolio(s.handles, s1.handles, s.holders, s1.holders, acq.run);
    }
  }

  lemma OpenSomewhere(t: Table, holders: Holders, r: RunId)
    requires HasOpenClaims(t, holders, r)
    ensures exists h: HandleId :: OpenFor(t, holders, r, h)
  {
    if h: HandleId :| IsActive(t, h) && t[h].run == Some(r) {
      assert OpenFor(t, holders, r, h);
    } else {
      var h: HandleId :| (h, r) in holders && holders[(h, r)] == HolderActive && IsActive(t, h);
      assert OpenFor(t, holders, r, h);
    }
  }

  // ----------------------------------------------------------- being passed over

  /** All that the run holds is committed. */
  ghost predicate Clean(t: Table, holders: Holders, r: RunId) {
    FullyResolved(t, holders, r) && !Poisoned(t, holders, r)
  }

  /** What the run has open are root claims that nobody has split. */
  ghost predicate OpenAreRoots(t: Table, holders: Holders, r: RunId) {
    forall h: HandleId | OpenFor(t, holders, r, h) :: Childless(t, h)
  }

  /** Nothing the run holds is abandoned, and what it has open it either releases
      outright or is the last to finish. */
  ghost predicate PassesClean(t: Table, holders: Holders, cast: Cast, acq: Acquisition) {
    && !Poisoned(t, holders, acq.run)
    && forall h: HandleId | OpenFor(t, holders, acq.run, h) ::
         || Lock(h, false) in acq.locks
         || (Marks(acq, t, holders, h) && LastToFinish(holders, cast, acq.run, h))
  }

  lemma CleanMeansCommitted(t: Table, holders: Holders, r: RunId)
    ensures Clean(t, holders, r) <==> forall h: HandleId | InPortfolio(t, holders, r, h) :: t[h].state == Committed
  {
  }

  lemma SamePortfolio(t: Table, t': Table, holders: Holders, holders': Holders, r: RunId)
    requires Evolves(t, t') && holders'.Keys == holders.Keys
    ensures forall h: HandleId :: InPortfolio(t', holders', r, h) <==> InPortfolio(t, holders, r, h)
    ensures forall h: HandleId | InPortfolio(t, holders, r, h) && !OpenFor(t, holders, r, h) :: t'[h] == t[h]
  {
    forall h: HandleId ensures InPortfolio(t', holders', r, h) <==> InPortfolio(t, holders, r, h) { if h in t { } }
  }

  /** With nothing split among what the run has open, a success leaves all it holds
      committed exactly if the tables before it say so. */
  lemma PassExactly(s: State, s1: State, cast: Cast, acq: Acquisition)
    requires Evolves(s.handles, s1.handles) && s1.holders.Keys == s.holders.Keys && RootsEnd(s, s1, cast, acq, true)
    requires OpenAreRoots(s.handles, s.holders, acq.run)
    ensures Clean(s1.handles, s1.holders, acq.run) <==> PassesClean(s.handles, s.holders, cast, acq)
  {
    var t, holders, t', holders', r := s.handles, s.holders, s1.handles, s1.holders, acq.run;
    CleanMeansCommitted(t', holders', r);
    SamePortfolio(t, t', holders, holders', r);
    if PassesClean(t, holders, cast, acq) {
      forall h: HandleId | InPortfolio(t', holders', r, h) ensures t'[h].state == Committed {
        if !OpenFor(t, holders, r, h) { assert InPortfolio(t, holders, r, h); }
      }
    }
    if Clean(t', holders', r) {
      forall h: HandleId | InPortfolio(t, holders, r, h) ensures t[h].state != Abandoned {
        assert InPortfolio(t', holders', r, h);
      }
      forall h: HandleId | OpenFor(t, holders, r, h)
        ensures || Lock(h, false) in acq.locks
                || (Marks(acq, t, holders, h) && LastToFinish(holders, cast, r, h))
      {
        assert InPortfolio(t', holders', r, h) && StateAfter(t, holders, cast, acq, true, h) == Committed;
      }
    }
  }

  // ---------------------------------------------------- passes over split claims

  /** What a resolution commits on its way, the claim it is asked for aside, has no
      active holder. */
  ghost predicate CommitsIdle(t: Table, t': Table, holders: Holders, but: Option<HandleId>) {
    forall q | IsActive(t, q) && q in t' && t'[q].state == Committed && but != Some(q) :: !Busy(holders, q)
  }

  lemma {:induction false} ResolveCommitsIdle(t: Table, me: Supervisor, holders: Holders, level: map<HandleId, nat>,
                                              sup: Supervisor, h: HandleId, commit: bool)
    requires Levelled(t, level) && WellHeld(t) && Cancelable(t, sup, h)
    ensures CommitsIdle(t, ResolveSpec(t, me, holders, sup, h, commit, true), holders, Some(h))
    decreases |ActiveSet(t)|, 0
  {
    AloneFacts(t, me, holders, level, sup, h, commit);
    var t2 := Alone(t, me, sup, h, commit);
    assert forall q | IsActive(t, q) && q != h && q in t2 :: t2[q].state != Committed;
    if t[h].parent.Some? {
      SettleCommitsIdle(t2, me, holders, level, t[h].parent.value, commit);
      SettleEvolves(t2, me, holders, level, t[h].parent.value, commit);
      IdleAcross(t, t2, SettleSpec(t2, me, holders, t[h].parent.value, commit), holders, Some(h));
    }
  }

  lemma IdleAcross(t: Table, t2: Table, t': Table, holders: Holders, but: Option<HandleId>)
    requires Evolves(t, t2) && Evolves(t2, t') && CommitsIdle(t2, t', holders, None)
    requires forall q | IsActive(t, q) && q in t2 && but != Some(q) :: t2[q].state != Committed
    ensures CommitsIdle(t, t', holders, but)
  {
  }

  lemma {:induction false} SettleCommitsIdle(t: Table, me: Supervisor, holders: Holders, level: map<HandleId, nat>,
                                             p: HandleId, commit: bool)
    requires Levelled(t, level) && WellHeld(t)
    ensures CommitsIdle(t, SettleSpec(t, me, holders, p, commit), holders, None)
    decreases |ActiveSet(t)|, 2
  {
    if IsActive(t, p) {
      var t2 := Counted(t, me, p, commit);
      CountedEvolves(t, me, level, p, commit);
      EvolvesLevelled(t, t2, level);
      EvolvesHeld(t, t2);
      EvolvesActive(t, t2);
      SettleIsTail(t, me, holders, p, commit);
      ClaimVerdicts.CountedCommitsNone(t, me, p, commit);
      TailCommitsIdle(t2, me, holders, level, p, commit);
      TailEvolves(t2, me, holders, level, p, commit);
      IdleAcross(t, t2, SettleTail(t2, me, holders, p, commit), holders, None);
    }
  }

  lemma {:induction false} TailCommitsIdle(t: Table, me: Supervisor, holders: Holders, level: map<HandleId, nat>,
                                           p: HandleId, commit: bool)
    requires Levelled(t, level) && WellHeld(t)
    ensures CommitsIdle(t, SettleTail(t, me, holders, p, commit), holders, None)
    decreases |ActiveSet(t)|, 1
  {
    if IsActive(t, p) && !HeldOpen(t, holders, p) {
      var u := Reassign(t, p, me);
      ReassignFacts(t, me, level, p);
      ResolveCommitsIdle(u, me, holders, level, me, p, AggregateCommits(t[p], commit));
      assert forall q :: IsActive(t, q) ==> IsActive(u, q);
    }
  }

  /** What a pass has committed so far was shared with nobody who is still active. */
  ghost predicate NoneBereft(t: Table, holders: Holders, t1: Table, holders1: Holders, r: RunId) {
    && (forall q: HandleId | IsActive(t, q) && q in t1 && t1[q].state == Committed :: LastActive(holders, q, r))
    && OnlyOwnRows(holders, holders1, r)
  }

  lemma ReleaseOneBereaves(t: Table, holders: Holders, s: (Table, Holders), me: Supervisor, cast: Cast,
                           level: map<HandleId, nat>, r: RunId, l: Lock, acquirer: bool)
    requires Evolves(t, s.0) && Levelled(t, level) && WellHeld(t)
    requires NoneBereft(t, holders, s.0, s.1, r) && (l.held || forall k | k in holders && k.0 == l.handle :: k.1 == r)
    ensures var s' := ReleaseOne(s, me, cast, r, l, true, acquirer);
            Evolves(t, s'.0) && NoneBereft(t, holders, s'.0, s'.1, r)
  {
    var h := l.handle;
    EvolvesLevelled(t, s.0, level);
    EvolvesHeld(t, s.0);
    var marked := if l.held then s.1[(h, r) := HolderCompleted] else s.1;
    var s' := ReleaseOne(s, me, cast, r, l, true, acquirer);
    assert s'.1 == marked;
    if s'.0 != s.0 {
      var commit := if l.held then FiresCommit(s.0, marked, h) else true;
      assert Cancelable(s.0, me, h) && s'.0 == ResolveSpec(s.0, me, marked, me, h, commit, true);
      ResolveCommitsIdle(s.0, me, marked, level, me, h, commit);
      ResolveEvolves(s.0, me, marked, level, me, h, commit, true);
      EvolvesTrans(t, s.0, s'.0);
      forall q: HandleId | IsActive(t, q) && q in s'.0 && s'.0[q].state == Committed ensures LastActive(holders, q, r) {
        if IsActive(s.0, q) && (q != h || l.held) { IdleIsLast(holders, marked, q, r); }
      }
    }
  }

  lemma IdleIsLast(holders: Holders, marked: Holders, q: HandleId, r: RunId)
    requires OnlyOwnRows(holders, marked, r) && !Busy(marked, q)
    ensures LastActive(holders, q, r)
  {
  }

  lemma {:induction false} ReleaseManyBereaves(t: Table, holders: Holders, s: (Table, Holders), me: Supervisor,
                                               cast: Cast, level: map<HandleId, nat>, r: RunId, locks: seq<Lock>,
                                               acquirer: bool)
    requires Evolves(t, s.0) && Levelled(t, level) && WellHeld(t) && NoneBereft(t, holders, s.0, s.1, r)
    requires forall l | l in locks && !l.held :: forall k | k in holders && k.0 == l.handle :: k.1 == r
    ensures var s' := ReleaseMany(s, me, cast, r, locks, true, acquirer);
            Evolves(t, s'.0) && NoneBereft(t, holders, s'.0, s'.1, r)
  {
    if locks == [] {
    } else {
      var n := |locks| - 1;
      assert locks[n] in locks;
      ReleaseManyBereaves(t, holders, s, me, cast, level, r, locks[..n], acquirer);
      ReleaseOneBereaves(t, holders, ReleaseMany(s, me, cast, r, locks[..n], true, acquirer),
                         me, cast, level, r, locks[n], acquirer);
    }
  }

  /** Whatever the claims look like, a pass is right only if nothing the run holds
      was abandoned and nobody else is active on what it has open. */
  ghost predicate NobodyElse(t: Table, holders: Holders, r: RunId) {
    !Poisoned(t, holders, r) && forall h: HandleId | OpenFor(t, holders, r, h) :: LastActive(holders, h, r)
  }

  lemma ReleaseBereaves(s: State, s1: State, me: Supervisor, cast: Cast, level: map<HandleId, nat>, acq: Acquisition,
                        linked: seq<HandleId>, inherited: seq<HandleId>)
    requires AcquiredBy(acq, s.handles, s.holders) && RowsOnHeld(s.handles, s.holders)
    requires Levelled(s.handles, level) && WellHeld(s.handles)
    requires ReleasedAll(s, s1, me, cast, acq, true, linked, inherited)
    ensures NoneBereft(s.handles, s.holders, s1.handles, s1.holders, acq.run)
  {
    var t, holders, r := s.handles, s.holders, acq.run;
    var b := ReleaseMany((t, holders), me, cast, r, acq.locks, true, true);
    var c := ReleaseMany(b, me, cast, r, AsLocks(linked, false), true, false);
    ReleaseManyBereaves(t, holders, (t, holders), me, cast, level, r, acq.locks, true);
    forall l | l in AsLocks(linked, false) ensures forall k | k in holders && k.0 == l.handle :: k.1 == r {
      InLocks(linked, false, l);
      assert LinkedTo(t, acq, l.handle);
    }
    ReleaseManyBereaves(t, holders, b, me, cast, level, r, AsLocks(linked, false), false);
    ReleaseManyBereaves(t, holders, c, me, cast, level, r, AsLocks(inherited, true), false);
  }

  lemma CleanNeeds(s: State, s1: State, me: Supervisor, cast: Cast, level: map<HandleId, nat>, acq: Acquisition,
                   linked: seq<HandleId>, inherited: seq<HandleId>)
    requires AcquiredBy(acq, s.handles, s.holders) && RowsOnHeld(s.handles, s.holders)
    requires Levelled(s.handles, level) && ClaimVerdicts.OneSupervisor(s.handles, me)
    requires ReleasedAll(s, s1, me, cast, acq, true, linked, inherited)
    ensures Clean(s1.handles, s1.holders, acq.run) ==> NobodyElse(s.handles, s.holders, acq.run)
  {
    var t, holders, t', holders', r := s.handles, s.holders, s1.handles, s1.holders, acq.run;
    ReleaseBereaves(s, s1, me, cast, level, acq, linked, inherited);
    CleanMeansCommitted(t', holders', r);
    SamePortfolio(t, t', holders, holders', r);
    if Clean(t', holders', r) {
      forall h: HandleId | InPortfolio(t, holders, r, h) ensures t[h].state != Abandoned {
        assert InPortfolio(t', holders', r, h);
      }
      forall h: HandleId | OpenFor(t, holders, r, h) ensures LastActive(holders, h, r) {
        assert InPortfolio(t', holders', r, h);
      }
    }
  }

  /** When a pass leaves all that the run holds committed, told from the tables
      before it. With nothing split among what the run has open: exactly if nothing
      was abandoned and the run is the last to finish all it shares. With nothing
      open: exactly if nothing was abandoned. In any case only if nothing was
      abandoned and nobody else is active on what the run has open. */
  ghost predicate PassJudged(s: State, s': State, cast: Cast, acq: Acquisition) {
    var clean := Clean(s'.handles, s'.holders, acq.run);
    && (OpenAreRoots(s.handles, s.holders, acq.run) ==> (clean <==> PassesClean(s.handles, s.holders, cast, acq)))
    && (!HasOpenClaims(s.handles, s.holders, acq.run) ==> (clean <==> !Poisoned(s.handles, s.holders, acq.run)))
    && (clean ==> NobodyElse(s.handles, s.holders, acq.run))
  }

  lemma PassIsJudged(s: State, s1: State, me: Supervisor, cast: Cast, level: map<HandleId, nat>, acq: Acquisition,
                     linked: seq<HandleId>, inherited: seq<HandleId>)
    requires AcquiredBy(acq, s.handles, s.holders) && Markable(acq, s.handles, s.holders) && IsRunning(s.runs, acq.run)
    requires Levelled(s.handles, level) && Sound(s.handles, s.outbox, s.holders, s.runs, me, cast, None, None)
    requires ReleasedAll(s, s1, me, cast, acq, true, linked, inherited) && RootsEnd(s, s1, cast, acq, true)
    ensures PassJudged(s, s1, cast, acq)
  {
    CleanNeeds(s, s1, me, cast, level, acq, linked, inherited);
    if OpenAreRoots(s.handles, s.holders, acq.run) { PassExactly(s, s1, cast, acq); }
    if !HasOpenClaims(s.handles, s.holders, acq.run) {
      NothingOpen(s.handles, s.handles, s.holders, s.holders, s.runs, acq.run);
    }
  }

  /** The run releases as if it had completed and is shown as Fresh, whatever became
      of its claims. */
  method PassRun(e: Engine, cast: Cast, acq: Acquisition)
    returns (ok: bool, ghost linked: seq<HandleId>, ghost inherited: seq<HandleId>)
    requires Inv(e, cast) && IsRunning(e.runs, acq.run) && AcquiredBy(acq, e.handles, e.holders)
    modifies e`handles, e`outbox, e`holders, e`runs
    ensures Inv(e, cast)
    ensures ok <==> Markable(acq, old(e.handles), old(e.holders))
    ensures !ok ==> Tables(e) == old(Tables(e))
    ensures ok ==> EndedAs(old(Tables(e)), Tables(e), e.me, cast, acq, true, linked, inherited, Passed)
    ensures ok ==> RootsEnd(old(Tables(e)), Tables(e), cast, acq, true)
    ensures ok ==> PassJudged(old(Tables(e)), Tables(e), cast, acq)
  {
    ghost var s := Tables(e);
    var open;
    ok, open, linked, inherited := LetGoOfAll(e, cast, acq, true);
    if !ok { return; }
    ghost var s1 := Tables(e);
    PassIsJudged(s, s1, e.me, cast, e.level, acq, linked, inherited);
    SettlePassed(e, cast, acq.run);
    SettlingEnds(s, s1, e.me, cast, acq, true, linked, inherited, Passed);
  }

  method SettlePassed(e: Engine, cast: Cast, r: RunId)
    requires Transit(e, cast, r)
    modifies e`runs
    ensures Inv(e, cast) && e.runs == old(e.runs)[r := old(e.runs)[r].(state := Passed)]
  {
    ghost var rs := e.runs;
    e.runs := e.runs[r := e.runs[r].(state := Passed)];
    SettledSound(e.handles, e.outbox, e.holders, rs, e.runs, e.me, cast, r);
  }
}
