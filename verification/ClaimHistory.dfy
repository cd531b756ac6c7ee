/** Whole histories of the engine, and what can be read off any state they reach. */
module ClaimHistory {
  import opened Claims
  import opened ClaimForest
  import opened ClaimForestLemmas
  import opened ClaimCounts
  import ClaimWalk
  import Ledger
  import opened ClaimEngine
  import opened HeldClaims
  import opened HeldLaws
  import opened HeldRuns
  import opened Terminals
  import opened ClaimIntake

  // -------------------------------------------------------------- histories

  datatype Op =
    | Acquire(id: HandleId, run: RunId, held: bool)
    | CoHold(handle: HandleId, run: RunId)
    | FanOut(parent: HandleId, run: RunId, held: bool, policy: Option<Policy>, parts: seq<Part>, ids: seq<HandleId>)
    | Complete(acq: Acquisition)
    | Fail(acq: Acquisition, infra: bool)
    | Pass(acq: Acquisition)

  /** Whether the dispatcher would start the operation here: fresh ids for new
      rows, and a running run that owns what it acts on. */
  predicate Admissible(op: Op, cast: Cast, t: Table, holders: Holders, runs: Runs) {
    match op
    case Acquire(id, run, _) => FreshId(t, id) && IsRunning(runs, run)
    case CoHold(h, run) =>
      h in t && t[h].held && t[h].state != Abandoned && IsRunning(runs, run) && cast.invited(run, h)
    case FanOut(p, run, _, _, parts, ids) => IsRunning(runs, run) && |ids| == |parts| && FreshIds(t, p, ids)
    case Complete(acq) => IsRunning(runs, acq.run) && AcquiredBy(acq, t, holders)
    case Pass(acq) => IsRunning(runs, acq.run) && AcquiredBy(acq, t, holders)
    case Fail(acq, _) => IsRunning(runs, acq.run) && AcquiredBy(acq, t, holders)
  }

  method Perform(e: Engine, cast: Cast, conflict: (Scope, Scope) -> bool, op: Op)
    requires Inv(e, cast) && Admissible(op, cast, e.handles, e.holders, e.runs)
    modifies e`handles, e`outbox, e`holders, e`runs, e`level, e`depth
    ensures Inv(e, cast)
  {
    match op {
      case Acquire(id, run, held) => AcquireClaim(e, cast, id, run, held);
      case CoHold(h, run) => Register(e, cast, h, run);
      case FanOut(p, run, held, policy, parts, ids) =>
        var _ := AcquireSubClaims(e, cast, p, run, held, policy, parts, conflict, ids);
      case Complete(acq) => var _, _, _ := CompleteRun(e, cast, acq);
      case Fail(acq, infra) => var _, _, _ := GiveUp(e, cast, acq, infra);
      case Pass(acq) => var _, _, _ := PassRun(e, cast, acq);
    }
  }

  /** From an empty store, every sequence of acquisitions, completions, give-ups
      and passes keeps all the laws. */
  method Replay(me: Supervisor, cast: Cast, conflict: (Scope, Scope) -> bool, runs: Runs, ops: seq<Op>)
    returns (e: Engine)
    requires forall r | r in runs :: runs[r].state.Running?
    ensures Inv(e, cast)
  {
    e := new Engine(me, map[], [], map[], runs, map[], 0);
    for i := 0 to |ops|
      invariant fresh(e) && Inv(e, cast)
    {
      if Admissible(ops[i], cast, e.handles, e.holders, e.runs) { Perform(e, cast, conflict, ops[i]); }
    }
  }

  // ------------------------------------------------- what a state tells us

  /** The verdict on a held claim, and its one verb. */
  lemma HeldVerdict(t: Table, out: seq<Verb>, holders: Holders, runs: Runs, me: Supervisor, cast: Cast, h: HandleId)
    requires Sound(t, out, holders, runs, me, cast, None, None) && Simple(t, h) && HasRows(holders, h)
    ensures !Busy(holders, h) && !AnyFailed(holders, h) && !Missing(cast, holders, h) ==> t[h].state == Committed
    ensures !Busy(holders, h) && AnyFailed(holders, h) ==> !IsActive(t, h)
    ensures t[h].state == Committed ==> AnyCompleted(holders, h)
    ensures t[h].state == Committed && |cast.members(h)| > 1 ==>
              forall m | m in cast.members(h) :: MemberDone(cast, holders, h, m)
    ensures t[h].state == Abandoned ==> AnyFailed(holders, h)
    ensures IsActive(t, h) ==> forall v | v in out :: v.handle != h
    ensures !IsActive(t, h) ==> exists i :: 0 <= i < |out| && out[i] == Verb(h, t[h].state == Committed)
                                            && forall j | 0 <= j < |out| && j != i :: out[j].handle != h
  {
  }

  /** A run that leaves Held in somebody's terminal leaves it Fresh only with all
      it holds committed, and Failed only with something abandoned. */
  lemma LeavingHeld(s: State, s': State, r: RunId, q: RunId)
    requires IsRunning(s.runs, r) && Terminal(s, s', r) && q in s.runs && s.runs[q].state == Held
            && s'.runs[q].state != Held
    ensures FullyResolved(s'.handles, s'.holders, q) && (s'.runs[q].state == Fresh || s'.runs[q].state == Failed)
    ensures s'.runs[q].state == Failed <==> Poisoned(s'.handles, s'.holders, q)
  {
  }

  /** An abandoned claim in the portfolio stays there. */
  lemma PoisonLasts(t: Table, t': Table, holders: Holders, holders': Holders, r: RunId)
    requires Evolves(t, t') && holders'.Keys == holders.Keys && Poisoned(t, holders, r)
    ensures Poisoned(t', holders', r)
  {
  }

  /** Completing over an abandoned claim never ends Fresh, provided it ends. */
  method CompletePoisoned(e: Engine, cast: Cast, acq: Acquisition) returns (ok: bool)
    requires Inv(e, cast) && IsRunning(e.runs, acq.run) && AcquiredBy(acq, e.handles, e.holders)
    requires Poisoned(e.handles, e.holders, acq.run)
    modifies e`handles, e`outbox, e`holders, e`runs
    ensures Inv(e, cast)
    ensures ok <==> Markable(acq, old(e.handles), old(e.holders))
    ensures ok ==> acq.run in e.runs && (e.runs[acq.run].state == Failed || e.runs[acq.run].state == Held)
    ensures ok && (e.runs[acq.run].state == Held) ==>
      HasOpenClaims(old(e.handles), old(e.holders), acq.run)
      && (e.runs[acq.run].aggregating || !FullyResolved(e.handles, e.holders, acq.run))
    ensures !ok ==> e.runs == old(e.runs)
  {
    ghost var t, holders := e.handles, e.holders;
    var done, _, _ := CompleteRun(e, cast, acq);
    ok := done;
    if ok { PoisonLasts(t, e.handles, holders, e.holders, acq.run); }
  }

  // The case in which it does not end: run 0 acquires claim 0 and shares it with
  // run 1, and gives up, which fails both rows and abandons the claim.

  const SHARED: Table := map[0 := NewRow("s", 0, None, true)]
  const BOTH_HOLD: Holders := map[(0, 0) := HolderActive, (0, 1) := HolderActive]
  const FIRST := Acquisition(0, [Lock(0, true)])
  const SECOND := Acquisition(1, [])

  lemma SharedFacts()
    ensures AcquiredBy(FIRST, SHARED, BOTH_HOLD) && Markable(FIRST, SHARED, BOTH_HOLD)
    ensures forall h :: !LinkedTo(SHARED, FIRST, h) && !Inherits(SHARED, BOTH_HOLD, 0, h)
  {
  }

  lemma HasElement(s: seq<HandleId>)
    requires s != []
    ensures exists h :: h in s
  {
    assert s[0] in s;
  }

  /** What the give-up leaves behind. */
  lemma GivenUp(cast: Cast, t: Table, holders: Holders, linked: seq<HandleId>, inherited: seq<HandleId>)
    requires ReleasedAs((SHARED, BOTH_HOLD), (t, holders), "s", cast, FIRST, false, linked, inherited)
    ensures (0, 1) in holders && holders[(0, 1)] == HolderFailed && 0 in t && t[0].run == Some(0)
            && t[0].state == Abandoned
  {
    SharedFacts();
    if linked != [] { HasElement(linked); }
    if inherited != [] { HasElement(inherited); }
    assert FIRST.locks[..0] == [];
    var moved := Marked(SHARED, "s", BOTH_HOLD, 0, 0, false, true);
    assert ReleaseMany((SHARED, BOTH_HOLD), "s", cast, 0, FIRST.locks, false, true)
        == (Fired(SHARED, "s", moved, cast, 0), moved);
    assert holders == moved && t == Fired(SHARED, "s", moved, cast, 0);
    assert (0, 0) in moved && moved[(0, 0)] == HolderFailed && moved[(0, 1)] == HolderFailed;
    assert HasRows(moved, 0) && AnyFailed(moved, 0) && !Busy(moved, 0);
    ResolveEvolves(SHARED, "s", moved, map[0 := 0], "s", 0, false, true);
  }

  method Share(cast: Cast) returns (e: Engine)
    requires cast.invited(1, 0)
    ensures Inv(e, cast) && e.me == "s" && e.handles == SHARED && e.holders == BOTH_HOLD
    ensures e.runs == map[0 := Run(Running, false), 1 := Run(Running, false)] && fresh(e)
  {
    e := new Engine("s", map[], [], map[], map[0 := Run(Running, false), 1 := Run(Running, false)], map[], 0);
    AcquireClaim(e, cast, 0, 0, true);
    Register(e, cast, 0, 1);
  }

  method ShareAndGiveUp(cast: Cast) returns (e: Engine)
    requires cast.invited(1, 0)
    ensures Inv(e, cast) && IsRunning(e.runs, 1) && fresh(e)
    ensures (0, 1) in e.holders && e.holders[(0, 1)] == HolderFailed
    ensures 0 in e.handles && e.handles[0].run == Some(0) && e.handles[0].state == Abandoned
  {
    e := Share(cast);
    SharedFacts();
    ghost var s := Tables(e);
    var _, linked, inherited := GiveUp(e, cast, FIRST, false);
    GivenUp(cast, e.handles, e.holders, linked, inherited);
    StaysRunning(s, Tables(e), 0, 1);
  }

  lemma StaysRunning(s: State, s': State, r: RunId, q: RunId)
    requires Terminal(s, s', r) && IsRunning(s.runs, q) && q != r
    ensures IsRunning(s'.runs, q)
  {
  }

  /** The other holder can no longer complete: its run stays Running over an
      abandoned claim. */
  method StrandedHolder(cast: Cast) returns (e: Engine, ok: bool)
    requires cast.invited(1, 0)
    ensures Inv(e, cast) && !ok && IsRunning(e.runs, 1) && Poisoned(e.handles, e.holders, 1)
  {
    e := ShareAndGiveUp(cast);
    assert InPortfolio(e.handles, e.holders, 1, 0) && Marks(SECOND, e.handles, e.holders, 0);
    var done, _, _ := CompleteRun(e, cast, SECOND);
    ok := done;
  }

  lemma PassedOver(cast: Cast, t: Table, holders: Holders, linked: seq<HandleId>, inherited: seq<HandleId>)
    requires ReleasedAs((SHARED, BOTH_HOLD), (t, holders), "s", cast, SECOND, true, linked, inherited)
    ensures t == SHARED && holders == BOTH_HOLD[(0, 1) := HolderCompleted]
  {
    assert Inherits(SHARED, BOTH_HOLD, 1, 0) && forall h :: Inherits(SHARED, BOTH_HOLD, 1, h) ==> h == 0;
    if linked != [] { HasElement(linked); }
    OnlyElement(inherited, 0);
    var ls := AsLocks(inherited, true);
    assert ls == [Lock(0, true)] && ls[..0] == [];
    var moved := Marked(SHARED, "s", BOTH_HOLD, 1, 0, true, false);
    assert ReleaseMany((SHARED, BOTH_HOLD), "s", cast, 1, ls, true, false)
        == (Fired(SHARED, "s", moved, cast, 0), moved);
    assert Busy(moved, 0) by { assert (0, 0) in moved && moved[(0, 0)] == HolderActive; }
  }

  lemma OnlyElement(s: seq<HandleId>, x: HandleId)
    requires (forall h :: h in s <==> h == x) && forall i, j | 0 <= i < j < |s| :: s[i] != s[j]
    ensures s == [x]
  {
    assert x in s;
    assert s[0] in s && s[|s| - 1] in s;
  }

  /** The other holder passes while the first still works: it is shown as Fresh
      over a claim that is open, and that the first may yet abandon. */
  method PassesOverOpenClaim(cast: Cast) returns (e: Engine, ok: bool)
    requires cast.invited(1, 0)
    ensures Inv(e, cast) && ok && 1 in e.runs && e.runs[1].state == Passed
    ensures InPortfolio(e.handles, e.holders, 1, 0) && IsActive(e.handles, 0) && !Clean(e.handles, e.holders, 1)
  {
    e := Share(cast);
    SharedFacts();
    assert Markable(SECOND, SHARED, BOTH_HOLD);
    var done, linked, inherited := PassRun(e, cast, SECOND);
    ok := done;
    PassedOver(cast, e.handles, e.holders, linked, inherited);
  }

  // ------------------------------------------------------- whose claim it is

  /** A decision on an open root claim by any supervisor. Every resolved claim keeps
      exactly one verb if and only if the claim is the deciding supervisor's own:
      otherwise its verb goes out and the claim stays open. */
  method DecideRoot(e: Engine, h: HandleId, sup: Supervisor, source: Source, outcome: Outcome)
    requires e.Valid() && OutboxExact(e.handles, e.outbox) && IsActive(e.handles, h) && e.handles[h].parent.None?
    modifies e`handles, e`outbox, e`runs
    ensures e.Valid()
    ensures OutboxExact(e.handles, e.outbox) <==> Cancelable(old(e.handles), sup, h)
    ensures !Cancelable(old(e.handles), sup, h) ==> IsActive(e.handles, h) && Verb(h, outcome.Commit?) in e.outbox
  {
    ghost var t, out := e.handles, e.outbox;
    ExactIsClear(t, out, e.level);
    if e.handles[h].holder == Some(sup) {
      e.Resolve(h, sup, source, outcome, true, 0);
      OutboxExactStep(t, out, e.handles, e.outbox);
      return;
    }
    e.outbox := Enqueue(e.outbox, Verb(h, outcome.Commit?));
    ghost var out1 := e.outbox;
    assert Verb(h, outcome.Commit?) in out1;
    if outcome.IsAbandon() {
      DoomSparesRoots(t, e.me, h, h);
      e.CancelDescendants(h);
    }
    e.handles := Promote(e.handles, h, sup, outcome.Commit?);
    e.EmitDeferredHeldCascade(h, source);
    assert out1 <= e.outbox;
  }

  /** The claims after a decision on one that somebody else holds: it is not promoted,
      but its descendants are cancelled and its parent counts it all the same. */
  ghost function Skipped(t: Table, me: Supervisor, holders: Holders, h: HandleId, commit: bool): Table
    requires h in t
  {
    var t1 := if commit then t else AbandonAll(t, Doomed(t, me, CancelableChildren(t, me, h)));
    if t[h].parent.Some? then SettleSpec(t1, me, holders, t[h].parent.value, commit) else t1
  }

  ghost predicate ParentOpen(t: Table, h: HandleId) {
    h in t && t[h].parent.Some? && IsActive(t, t[h].parent.value)
  }

  /** One resolved child too many is counted. */
  ghost predicate OneTooMany(t: Table, p: HandleId, commit: bool) {
    && p in t
    && t[p].committed == |ResolvedChildren(t, p, true)| + (if commit then 1 else 0)
    && t[p].abandoned == |ResolvedChildren(t, p, false)| + (if commit then 0 else 1)
  }

  /** A decision on somebody else's open claim leaves that claim open. An open parent
      counts it as resolved, and stays open with one child too many. The counters of
      all open claims are right after it if and only if there is no open parent and
      no child of the claim was cancelled from under it. */
  lemma SkippedMiscounts(t: Table, me: Supervisor, holders: Holders, level: map<HandleId, nat>, h: HandleId,
                         commit: bool)
    requires Levelled(t, level) && CountsRight(t) && WellHeld(t) && IsActive(t, h) && t[h].holder != Some(me)
    ensures var t' := Skipped(t, me, holders, h, commit);
            && IsActive(t', h)
            && (ParentOpen(t, h) ==> ParentOpen(t', h) && OneTooMany(t', t[h].parent.value, commit))
            && (CountsRight(t') <==> !ParentOpen(t, h) && (commit || CancelableChildren(t, me, h) == {}))
  {
    if ParentOpen(t, h) {
      var p := t[h].parent.value;
      ParentSpared(t, me, level, h, p);
      var t1 := if commit then t else AbandonAll(t, Doomed(t, me, CancelableChildren(t, me, h)));
      SettleOver(t1, me, holders, level, p, h, commit);
    } else {
      SkippedAlone(t, me, h, commit);
    }
  }

  /** Cancelling what hangs off a claim leaves the claim and its parent alone. */
  lemma ParentSpared(t: Table, me: Supervisor, level: map<HandleId, nat>, h: HandleId, p: HandleId)
    requires Levelled(t, level) && CountsRight(t) && IsActive(t, h) && t[h].holder != Some(me)
    requires ChildOf(t, h, p) && IsActive(t, p)
    ensures var t1 := AbandonAll(t, Doomed(t, me, CancelableChildren(t, me, h)));
            && Levelled(t1, level) && t1[h] == t[h] && t1[p] == t[p] && RowCounts(t1, p)
  {
    var s := CancelableChildren(t, me, h);
    DoomedCancelable(t, me, s);
    forall c | c in s ensures level[h] <= level[c] { assert ChildOf(t, c, h); }
    DoomedBelow(t, me, level, s, level[h]);
    DoomCounts(t, me, h);
    AbandonLevelled(t, Doomed(t, me, s), level);
    assert IsActive(AbandonAll(t, Doomed(t, me, s)), p);
  }

  lemma AbandonLevelled(t: Table, d: set<HandleId>, level: map<HandleId, nat>)
    requires Levelled(t, level)
    ensures Levelled(AbandonAll(t, d), level)
  {
  }

  /** Without an open parent only the claim's own counters can go wrong. */
  lemma SkippedAlone(t: Table, me: Supervisor, h: HandleId, commit: bool)
    requires CountsRight(t) && IsActive(t, h) && t[h].holder != Some(me)
    ensures var s := CancelableChildren(t, me, h);
            var t1 := if commit then t else AbandonAll(t, Doomed(t, me, s));
            IsActive(t1, h) && (CountsRight(t1) <==> commit || s == {})
    ensures !ParentOpen(t, h) && t[h].parent.Some? ==>
            !IsActive(AbandonAll(t, Doomed(t, me, CancelableChildren(t, me, h))), t[h].parent.value)
  {
    var s := CancelableChildren(t, me, h);
    var d := Doomed(t, me, s);
    DoomedCancelable(t, me, s);
    DoomCounts(t, me, h);
    DoomTakes(t, me, h);
    AbandonFamily(t, d, h, s);
    var t1 := AbandonAll(t, d);
    assert IsActive(t1, h) && t1[h] == t[h];
    assert |ResolvedChildren(t1, h, false)| == |ResolvedChildren(t, h, false)| + |s|;
    assert RowCounts(t1, h) <==> s == {};
  }

  /** A settlement told by an open child of somebody else's stops at the parent, which
      counts that child with those it really loses. */
  lemma SettleOver(t: Table, me: Supervisor, holders: Holders, level: map<HandleId, nat>, p: HandleId, h: HandleId,
                   commit: bool)
    requires Levelled(t, level) && IsActive(t, p) && t[p].holder.Some? && RowCounts(t, p)
    requires ChildOf(t, h, p) && IsActive(t, h) && t[h].holder != Some(me)
    ensures var t' := SettleSpec(t, me, holders, p, commit);
            IsActive(t', h) && t'[h].parent == Some(p) && IsActive(t', p) && OneTooMany(t', p, commit)
  {
    var b := Bump(t, p, commit);
    SameKin(t, b, p, p);
    SameFamily(t, b, p);
    ClaimWalk.BumpEvolves(t, p, commit);
    EvolvesLevelled(t, b, level);
    if !commit && t[p].policy.Strict? {
      CancelOver(b, me, level, p, h);
    }
  }

  lemma CancelOver(t: Table, me: Supervisor, level: map<HandleId, nat>, p: HandleId, h: HandleId)
    requires Levelled(t, level) && IsActive(t, p) && OneTooMany(t, p, false)
    requires ChildOf(t, h, p) && IsActive(t, h) && t[h].holder != Some(me)
    ensures var t' := CancelAll(t, me, p);
            && ChildOf(t', h, p) && IsActive(t', h) && IsActive(t', p) && OneTooMany(t', p, false)
  {
    var s := CancelableChildren(t, me, p);
    var d := Doomed(t, me, s);
    var u := AbandonAll(t, d);
    NotBelowItself(t, me, level, p);
    DoomTakes(t, me, p);
    DoomedCancelable(t, me, s);
    AbandonFamily(t, d, p, s);
    assert u[p] == t[p] && u[h] == t[h];
    var t' := AddAbandoned(u, p, |s|);
    SameKin(u, t', p, p);
    SameFamily(u, t', p);
  }

  // ------------------------------------------------------ order independence

  lemma {:induction false} DistinctMultiset<T>(a: seq<T>, b: seq<T>)
    requires forall i, j | 0 <= i < j < |a| :: a[i] != a[j]
    requires forall i, j | 0 <= i < j < |b| :: b[i] != b[j]
    requires forall x :: x in a <==> x in b
    ensures multiset(a) == multiset(b)
  {
    forall x ensures multiset(a)[x] == multiset(b)[x] {
      CountsOnce(a, x);
      CountsOnce(b, x);
    }
  }

  lemma {:induction false} CountsOnce<T>(a: seq<T>, x: T)
    requires forall i, j | 0 <= i < j < |a| :: a[i] != a[j]
    ensures multiset(a)[x] == if x in a then 1 else 0
  {
    if a == [] {
    } else {
      var n := |a| - 1;
      assert a == a[..n] + [a[n]];
      CountsOnce(a[..n], x);
    }
  }

  lemma VerbIffSettled(t: Table, out: seq<Verb>, t': Table, out': seq<Verb>, v: Verb)
    requires t'.Keys == t.Keys && Ledger.ExactlyOnce(t, out, t', out')
    ensures v in out'[|out|..] <==> Ledger.Settles(t, t', v)
  {
  }

  /** The claim table determines everything else a settlement writes: the same
      verbs up to order, and the same runs. */
  lemma SettlementDetermined(t: Table, out: seq<Verb>, runs: Runs, t': Table, holders: Holders,
                             out1: seq<Verb>, runs1: Runs, out2: seq<Verb>, runs2: Runs)
    requires NoStuck(t, holders, runs)
    requires Ledger.Progress(t, out, runs, t', out1, runs1, holders)
    requires Ledger.Progress(t, out, runs, t', out2, runs2, holders)
    requires Ledger.NoNewStuck(t, runs, t', runs1, holders, None)
    requires Ledger.NoNewStuck(t, runs, t', runs2, holders, None)
    ensures multiset(out1) == multiset(out2) && runs1 == runs2
  {
    var s1, s2 := out1[|out|..], out2[|out|..];
    forall v ensures v in s1 <==> v in s2 {
      VerbIffSettled(t, out, t', out1, v);
      VerbIffSettled(t, out, t', out2, v);
    }
    DistinctMultiset(s1, s2);
    assert out1 == out + s1 && out2 == out + s2;
    forall r | r in runs ensures runs1[r] == runs2[r] {
      assert !Ledger.Stuck(t', holders, runs1, r) && !Ledger.Stuck(t', holders, runs2, r);
    }
  }

  /** Two stores that hold the same rows, whose listings come in any two orders,
      end up with the same rows, the same runs and the same verbs. */
  method ResolveTwice(a: Engine, b: Engine, h: HandleId, outcome: Outcome)
    requires a != b && a.Valid() && b.Valid() && a.me == b.me
    requires a.handles == b.handles && a.outbox == b.outbox && a.holders == b.holders && a.runs == b.runs
    requires Cancelable(a.handles, a.me, h) && OutboxExact(a.handles, a.outbox) && NoStuck(a.handles, a.holders, a.runs)
    modifies a`handles, a`outbox, a`runs, b`handles, b`outbox, b`runs
    ensures a.handles == b.handles && a.runs == b.runs && multiset(a.outbox) == multiset(b.outbox)
  {
    ghost var t, out, runs := a.handles, a.outbox, a.runs;
    ExactIsClear(t, out, a.level);
    ExactIsClear(t, out, b.level);
    a.Resolve(h, a.me, HeldTerminal, outcome, true, 0);
    b.Resolve(h, b.me, HeldTerminal, outcome, true, 0);
    SettlementDetermined(t, out, runs, a.handles, a.holders, a.outbox, a.runs, b.outbox, b.runs);
  }
}
