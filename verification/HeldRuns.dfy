/** Terminal application to a run: releasing what it acquired and co-holds, and
    settling it as Held, Fresh or Failed. */
module HeldRuns {
  import opened Claims
  import ClaimForest
  import opened ClaimForestLemmas
  import opened Ledger
  import opened ClaimEngine
  import opened HeldClaims
  import opened HeldLaws

  /** One acquired claim; `held` says that its alias roots a holding subgraph. */
  datatype Lock = Lock(handle: HandleId, held: bool)

  datatype Acquisition = Acquisition(run: RunId, locks: seq<Lock>)

  /** The locks are distinct claims that the run acquired; a root claim's alias
      is held exactly if its row says so, and nobody else holds a claim that the
      run releases outright. */
  predicate AcquiredBy(acq: Acquisition, t: Table, holders: Holders) {
    && (forall i, j | 0 <= i < j < |acq.locks| :: acq.locks[i].handle != acq.locks[j].handle)
    && (forall l | l in acq.locks :: l.handle in t && t[l.handle].run == Some(acq.run)
          && (t[l.handle].parent.None? ==> l.held == t[l.handle].held)
          && (!l.held ==> forall k | k in holders && k.0 == l.handle :: k.1 == acq.run))
  }

  /** Claims of other runs that this run co-holds. */
  ghost predicate Inherits(t: Table, holders: Holders, r: RunId, h: HandleId) {
    (h, r) in holders && h in t && t[h].run != Some(r)
  }

  /** The rows a terminal of the run has to mark. */
  ghost predicate Marks(acq: Acquisition, t: Table, holders: Holders, h: HandleId) {
    Lock(h, true) in acq.locks || Inherits(t, holders, acq.run, h)
  }

  /** Each of them is still active. */
  ghost predicate Markable(acq: Acquisition, t: Table, holders: Holders) {
    forall h: HandleId | Marks(acq, t, holders, h) :: (h, acq.run) in holders && holders[(h, acq.run)] == HolderActive
  }

  predicate IsRunning(runs: Runs, r: RunId) {
    r in runs && runs[r].state.Running?
  }

  /** Whether the run has anything open, by its own handles or its active rows. */
  ghost predicate HasOpenClaims(t: Table, holders: Holders, r: RunId) {
    || (exists h :: IsActive(t, h) && t[h].run == Some(r))
    || (exists h :: (h, r) in holders && holders[(h, r)] == HolderActive && IsActive(t, h))
  }

  ghost predicate Inv(e: Engine, cast: Cast)
    reads e
  {
    e.Valid() && Sound(e.handles, e.outbox, e.holders, e.runs, e.me, cast, None, None)
  }

  // ------------------------------------------------------------- holder rows

  /** Rows only leave Active, and rows of other runs only by failing. */
  ghost predicate RowsMove(holders: Holders, holders': Holders, r: RunId) {
    && holders'.Keys == holders.Keys
    && (forall k | k in holders && holders[k] != HolderActive :: holders'[k] == holders[k])
    && (forall k | k in holders && k.1 != r && holders'[k] != holders[k] :: holders'[k] == HolderFailed)
  }

  lemma SamePortfolios(t: Table, holders: Holders, holders': Holders, r: RunId)
    requires holders'.Keys == holders.Keys
    ensures FullyResolved(t, holders', r) <==> FullyResolved(t, holders, r)
    ensures Poisoned(t, holders', r) <==> Poisoned(t, holders, r)
  {
  }

  lemma SameRuns(t: Table, holders: Holders, holders': Holders, runs: Runs)
    requires holders'.Keys == holders.Keys
    ensures NoStuck(t, holders', runs) <==> NoStuck(t, holders, runs)
    ensures FreshClean(t, holders', runs) <==> FreshClean(t, holders, runs)
    ensures RowsOnHeld(t, holders') <==> RowsOnHeld(t, holders)
  {
    forall r ensures Stuck(t, holders', runs, r) <==> Stuck(t, holders, runs, r) {
      SamePortfolios(t, holders, holders', r);
    }
    forall r
      ensures FullyResolved(t, holders', r) == FullyResolved(t, holders, r)
              && Poisoned(t, holders', r) == Poisoned(t, holders, r)
    { SamePortfolios(t, holders, holders', r); }
  }

  lemma SameFollow(t: Table, holders: Holders, holders': Holders, runs: Runs, runs': Runs)
    requires holders'.Keys == holders.Keys && RunsFollow(t, holders, runs, runs')
    ensures RunsFollow(t, holders', runs, runs')
  {
  }

  /** Verdicts on claims whose rows did not change are still right. */
  lemma SameVerdicts(t: Table, holders: Holders, holders': Holders, cast: Cast, h: HandleId)
    requires holders'.Keys == holders.Keys && (forall k | k in holders && k.0 != h :: holders'[k] == holders[k])
    requires VerdictsRight(t, holders, cast, None)
    ensures VerdictsRight(t, holders', cast, Some(h))
  {
  }

  /** Moving rows of `h` puts the run and the handle in transit. */
  lemma MarkingSound(t: Table, out: seq<Verb>, holders: Holders, holders': Holders, runs: Runs, me: Supervisor,
                     cast: Cast, r: RunId, h: HandleId)
    requires Sound(t, out, holders, runs, me, cast, Some(r), None)
    requires holders'.Keys == holders.Keys && (forall k | k in holders && k.0 != h :: holders'[k] == holders[k])
    ensures Sound(t, out, holders', runs, me, cast, Some(r), Some(h))
  {
    SameRuns(t, holders, holders', runs);
    SameVerdicts(t, holders, holders', cast, h);
  }

  /** A verdict already given is not undone by rows that move later. */
  lemma VerdictLasts(t: Table, holders: Holders, holders': Holders, cast: Cast, h: HandleId, r: RunId)
    requires h in t && !IsActive(t, h) && RowsMove(holders, holders', r) && VerdictRight(t, holders, cast, h)
    ensures VerdictRight(t, holders', cast, h)
  {
  }

  // ---------------------------------------------------------------- releases

  /** What a release may do: settle claims, let runs leave Held by their verdict,
      and move rows. */
  ghost predicate Released(t: Table, out: seq<Verb>, holders: Holders, runs: Runs,
                           t': Table, out': seq<Verb>, holders': Holders, runs': Runs, r: RunId) {
    Progress(t, out, runs, t', out', runs', holders') && RowsMove(holders, holders', r)
  }

  lemma ReleasedTrans(t: Table, out: seq<Verb>, holders: Holders, runs: Runs,
                      t1: Table, out1: seq<Verb>, holders1: Holders, runs1: Runs,
                      t2: Table, out2: seq<Verb>, holders2: Holders, runs2: Runs, r: RunId)
    requires Released(t, out, holders, runs, t1, out1, holders1, runs1, r)
    requires Released(t1, out1, holders1, runs1, t2, out2, holders2, runs2, r)
    ensures Released(t, out, holders, runs, t2, out2, holders2, runs2, r)
  {
    SameFollow(t1, holders1, holders2, runs, runs1);
    ProgressTrans(t, out, runs, t1, out1, runs1, t2, out2, runs2, holders2);
    forall k | k in holders && k.1 != r && holders2[k] != holders[k] ensures holders2[k] == HolderFailed {
      assert k in holders1;
    }
    forall k | k in holders && holders[k] != HolderActive ensures holders2[k] == holders[k] {
      assert k in holders1;
    }
  }

  lemma ExactIsClear(t: Table, out: seq<Verb>, level: map<HandleId, nat>)
    requires OutboxExact(t, out)
    ensures OutboxClear(t, out, level, 0)
  {
  }

  ghost function Marked(t: Table, me: Supervisor, holders: Holders, r: RunId, h: HandleId, success: bool,
                        acquirer: bool): Holders {
    var own := holders[(h, r) := if success then HolderCompleted else HolderFailed];
    if acquirer && !success then FailedAll(own, t, me, h) else own
  }

  lemma RowsMarked(t: Table, me: Supervisor, holders: Holders, r: RunId, h: HandleId, success: bool, acquirer: bool)
    requires (h, r) in holders && holders[(h, r)] == HolderActive
    ensures var holders' := Marked(t, me, holders, r, h, success, acquirer);
            && RowsMove(holders, holders', r)
            && holders'[(h, r)] == (if success then HolderCompleted else HolderFailed)
            && (forall k | k in holders && k.0 != h :: holders'[k] == holders[k])
            && (success || !acquirer ==> forall k | k in holders && k.1 != r :: holders'[k] == holders[k])
            && ((forall k | k in holders && k.1 != r :: holders'[k] == holders[k])
                || (AnyFailed(holders', h) && !Busy(holders', h)))
  {
  }

  /** The claims and the holder rows after one lock is released. */
  ghost function ReleaseOne(s: (Table, Holders), me: Supervisor, cast: Cast, r: RunId, l: Lock, success: bool,
                            acquirer: bool): (Table, Holders) {
    if l.held then
      var holders' := Marked(s.0, me, s.1, r, l.handle, success, acquirer);
      (Fired(s.0, me, holders', cast, l.handle), holders')
    else (Dropped(s.0, me, s.1, l.handle, success), s.1)
  }

  ghost function Fired(t: Table, me: Supervisor, holders: Holders, cast: Cast, h: HandleId): Table {
    if Fires(t, me, holders, cast, h)
    then ClaimForest.ResolveSpec(t, me, holders, me, h, FiresCommit(t, holders, h), true)
    else t
  }

  ghost function Dropped(t: Table, me: Supervisor, holders: Holders, h: HandleId, success: bool): Table {
    if Cancelable(t, me, h) then ClaimForest.ResolveSpec(t, me, holders, me, h, success, true) else t
  }

  /** The same for a list of locks, first to last. */
  ghost function ReleaseMany(s: (Table, Holders), me: Supervisor, cast: Cast, r: RunId, locks: seq<Lock>, success: bool,
                             acquirer: bool): (Table, Holders) {
    if locks == [] then s
    else
      var s1 := ReleaseMany(s, me, cast, r, locks[..|locks| - 1], success, acquirer);
      ReleaseOne(s1, me, cast, r, locks[|locks| - 1], success, acquirer)
  }

  lemma ReleaseNext(s: (Table, Holders), me: Supervisor, cast: Cast, r: RunId, locks: seq<Lock>, i: nat, success: bool,
                    acquirer: bool)
    requires i < |locks|
    ensures ReleaseMany(s, me, cast, r, locks[..i + 1], success, acquirer)
            == ReleaseOne(ReleaseMany(s, me, cast, r, locks[..i], success, acquirer),
                          me, cast, r, locks[i], success, acquirer)
  {
    assert locks[..i + 1][..i] == locks[..i];
  }

  method MarkRows(e: Engine, r: RunId, h: HandleId, success: bool, acquirer: bool) returns (ok: bool)
    modifies e`holders
    ensures ok <==> (h, r) in old(e.holders) && old(e.holders)[(h, r)] == HolderActive
    ensures e.holders == if ok then Marked(e.handles, e.me, old(e.holders), r, h, success, acquirer) else old(e.holders)
  {
    ok := MarkHolder(e, h, r, success);
    if ok && acquirer && !success { FailAllActive(e, h); }
  }

  /** Marks the run's row on a held claim, fails the other rows if the acquirer
      failed, and fires the resolution if it is time. */
  method ReleaseHeld(e: Engine, cast: Cast, r: RunId, h: HandleId, success: bool, acquirer: bool) returns (ok: bool)
    requires e.Valid() && Sound(e.handles, e.outbox, e.holders, e.runs, e.me, cast, Some(r), None)
    requires IsRunning(e.runs, r)
    modifies e`handles, e`outbox, e`holders, e`runs
    ensures e.Valid()
    ensures ok <==> (h, r) in old(e.holders) && old(e.holders)[(h, r)] == HolderActive
    ensures ok ==> Sound(e.handles, e.outbox, e.holders, e.runs, e.me, cast, Some(r), None) && IsRunning(e.runs, r)
    ensures ok ==> Released(old(e.handles), old(e.outbox), old(e.holders), old(e.runs),
                            e.handles, e.outbox, e.holders, e.runs, r)
    ensures ok ==> e.holders == Marked(old(e.handles), e.me, old(e.holders), r, h, success, acquirer)
    ensures ok ==> e.handles == Fired(old(e.handles), e.me, e.holders, cast, h)
    ensures ok ==> e.holders[(h, r)] == if success then HolderCompleted else HolderFailed
    ensures forall k | k in old(e.holders) && k.0 != h :: k in e.holders && e.holders[k] == old(e.holders)[k]
    ensures success || !acquirer ==> forall k | k in old(e.holders) && k.1 != r ::
            k in e.holders && e.holders[k] == old(e.holders)[k]
  {
    ghost var t, out, holders, rs := e.handles, e.outbox, e.holders, e.runs;
    ok := MarkRows(e, r, h, success, acquirer);
    if !ok { return; }
    RowsMarked(t, e.me, holders, r, h, success, acquirer);
    MarkingSound(t, out, holders, e.holders, rs, e.me, cast, r, h);
    ExactIsClear(t, out, e.level);
    CheckAndFireResolution(e, cast, h);
    FiredSound(t, out, rs, e.handles, e.outbox, e.runs, holders, e.holders, e.me, cast, e.level, r, h);
  }

  lemma FiredSound(t: Table, out: seq<Verb>, runs: Runs, t': Table, out': seq<Verb>, runs': Runs,
                   holders: Holders, holders': Holders, me: Supervisor, cast: Cast, level: map<HandleId, nat>,
                   r: RunId, h: HandleId)
    requires Levelled(t, level) && IsRunning(runs, r) && RowsMove(holders, holders', r)
    requires Sound(t, out, holders, runs, me, cast, Some(r), None)
    requires Sound(t, out, holders', runs, me, cast, Some(r), Some(h))
    requires t' == if Fires(t, me, holders', cast, h)
                   then ClaimForest.ResolveSpec(t, me, holders', me, h, FiresCommit(t, holders', h), true) else t
    requires Progress(t, out, runs, t', out', runs', holders') && NoNewStuck(t, runs, t', runs', holders', None)
    requires (forall k | k in holders && k.1 != r :: holders'[k] == holders[k])
             || (AnyFailed(holders', h) && !Busy(holders', h))
    ensures Sound(t', out', holders', runs', me, cast, Some(r), None) && IsRunning(runs', r)
  {
    if Fires(t, me, holders', cast, h) {
      ResolutionSound(t, out, runs, t', out', runs', holders', me, cast, level, Some(r), h,
          FiresCommit(t, holders', h));
      ResolveEvolves(t, me, holders', level, me, h, FiresCommit(t, holders', h), true);
    } else {
      OutboxExactStep(t, out, t', out');
      FreshCleanStep(t, t', holders', runs, runs');
      RowsLiveStep(t, t', holders', runs, runs', Some(r), Some(h));
    }
    if Simple(t', h) {
      assert Children(t, h) == {} by { EvolvesChildless(t, t', h); }
      assert Simple(t, h);
      if !IsActive(t, h) { VerdictLasts(t, holders, holders', cast, h, r); }
      FiringIsRight(t, t', me, holders', cast, h);
    }
    RowsLiveBack(t, t', holders, holders', runs, runs', r, h);
  }

  lemma RowsLiveBack(t: Table, t': Table, holders: Holders, holders': Holders, runs: Runs, runs': Runs, r: RunId,
                     h: HandleId)
    requires Evolves(t, t') && RunsFollow(t', holders', runs, runs') && holders'.Keys == holders.Keys
    requires RowsLive(t, holders, runs, Some(r), None) && RowsLive(t', holders', runs', Some(r), Some(h))
    requires IsActive(t', h) ==> forall k | k in holders && k.1 != r :: holders'[k] == holders[k]
    ensures RowsLive(t', holders', runs', Some(r), None)
  {
  }

  /** A claim that is not a held root and that only this run holds. */
  ghost predicate Unshared(t: Table, holders: Holders, r: RunId, h: HandleId) {
    h in t && t[h].run == Some(r) && !(t[h].held && t[h].parent.None?)
    && forall k | k in holders && k.0 == h :: k.1 == r
  }

  /** Resolves a claim that the run lets go of, unless it is resolved already. */
  method ReleaseOutright(e: Engine, cast: Cast, r: RunId, h: HandleId, success: bool)
    requires e.Valid() && Sound(e.handles, e.outbox, e.holders, e.runs, e.me, cast, Some(r), None)
    requires IsRunning(e.runs, r) && Unshared(e.handles, e.holders, r, h)
    modifies e`handles, e`outbox, e`runs
    ensures e.Valid() && IsRunning(e.runs, r) && !IsActive(e.handles, h)
    ensures IsActive(old(e.handles), h) ==> h in e.handles && e.handles[h].state == Resolved(success)
    ensures e.handles == Dropped(old(e.handles), e.me, e.holders, h, success)
    ensures Sound(e.handles, e.outbox, e.holders, e.runs, e.me, cast, Some(r), None)
    ensures Released(old(e.handles), old(e.outbox), e.holders, old(e.runs), e.handles, e.outbox, e.holders, e.runs, r)
  {
    ghost var t, out, rs := e.handles, e.outbox, e.runs;
    ProgressNone(t, out, rs, e.holders);
    if e.handles[h].state != Active { return; }
    ExactIsClear(t, out, e.level);
    e.Resolve(h, e.me, ActiveTerminal, if success then Commit else Abandon, true, 0);
    OutrightSound(t, out, rs, e.handles, e.outbox, e.runs, e.holders, e.me, cast, e.level, r, h, success);
  }

  lemma OutrightSound(t: Table, out: seq<Verb>, runs: Runs, t': Table, out': seq<Verb>, runs': Runs, holders: Holders,
                      me: Supervisor, cast: Cast, level: map<HandleId, nat>, r: RunId, h: HandleId, success: bool)
    requires Levelled(t, level) && Sound(t, out, holders, runs, me, cast, Some(r), None)
    requires IsRunning(runs, r) && Unshared(t, holders, r, h) && Cancelable(t, me, h)
    requires t' == ClaimForest.ResolveSpec(t, me, holders, me, h, success, true)
    requires Progress(t, out, runs, t', out', runs', holders) && NoNewStuck(t, runs, t', runs', holders, Some(h))
    ensures IsRunning(runs', r) && h in t' && t'[h].state == Resolved(success)
    ensures Sound(t', out', holders, runs', me, cast, Some(r), None)
  {
    UnsharedStrandsNone(t, runs, t', runs', holders, r, h);
    ResolutionSound(t, out, runs, t', out', runs', holders, me, cast, level, Some(r), h, success);
    ResolveEvolves(t, me, holders, level, me, h, success, true);
    RowsLiveBack(t, t', holders, holders, runs, runs', r, h);
  }

  lemma UnsharedStrandsNone(t: Table, runs: Runs, t': Table, runs': Runs, holders: Holders, r: RunId, h: HandleId)
    requires IsRunning(runs, r) && Unshared(t, holders, r, h) && RunsFollow(t', holders, runs, runs')
    requires NoStuck(t, holders, runs) && NoNewStuck(t, runs, t', runs', holders, Some(h))
    ensures NoStuck(t', holders, runs') && IsRunning(runs', r)
  {
  }

  /** Sub-claims still linked to the run, other than its locks. */
  predicate LinkedTo(t: Table, acq: Acquisition, h: HandleId) {
    && h in t && t[h].run == Some(acq.run) && t[h].parent.Some? && !t[h].held
    && forall l | l in acq.locks :: l.handle != h
  }

  method ListLinked(e: Engine, acq: Acquisition) returns (ids: seq<HandleId>)
    ensures forall h :: h in ids <==> LinkedTo(e.handles, acq, h)
    ensures forall i, j | 0 <= i < j < |ids| :: ids[i] != ids[j]
  {
    var rest := set h | h in e.handles && LinkedTo(e.handles, acq, h);
    ghost var all := rest;
    ids := [];
    while rest != {}
      invariant rest <= all && forall h :: h in ids <==> h in all && h !in rest
      invariant forall i, j | 0 <= i < j < |ids| :: ids[i] != ids[j]
    {
      var h :| h in rest;
      ids, rest := ids + [h], rest - {h};
    }
  }

  /** Co-held claims, of subgraphs that the run's node is a member of. */
  method ListInherited(e: Engine, cast: Cast, r: RunId) returns (ids: seq<HandleId>)
    ensures forall h :: h in ids <==> Inherits(e.handles, e.holders, r, h) && cast.invited(r, h)
    ensures forall i, j | 0 <= i < j < |ids| :: ids[i] != ids[j]
  {
    var rest := set k | k in e.holders && k.1 == r && k.0 in e.handles && e.handles[k.0].run != Some(r)
                        && cast.invited(r, k.0);
    ghost var all := rest;
    ids := [];
    while rest != {}
      invariant rest <= all && forall h :: h in ids <==> (h, r) in all && (h, r) !in rest
      invariant forall i, j | 0 <= i < j < |ids| :: ids[i] != ids[j]
    {
      var k :| k in rest;
      ids, rest := ids + [k.0], rest - {k};
    }
  }

  lemma AllInvited(t: Table, holders: Holders, cast: Cast, r: RunId)
    requires RowsInvited(t, holders, cast)
    ensures forall h: HandleId | Inherits(t, holders, r, h) :: cast.invited(r, h)
  {
    forall h: HandleId | Inherits(t, holders, r, h) ensures cast.invited(r, h) { assert (h, r).0 in t; }
  }

  /** The rows of handles outside `done` are as they were. */
  ghost predicate RowsSince(holders: Holders, holders': Holders, done: set<HandleId>) {
    forall k | k in holders && k.0 !in done :: k in holders' && holders'[k] == holders[k]
  }

  /** The engine between two releases of one run. */
  ghost predicate Transit(e: Engine, cast: Cast, r: RunId)
    reads e
  {
    e.Valid() && Sound(e.handles, e.outbox, e.holders, e.runs, e.me, cast, Some(r), None) && IsRunning(e.runs, r)
  }

  method ReleaseLock(e: Engine, cast: Cast, r: RunId, l: Lock, success: bool, acquirer: bool) returns (ok: bool)
    requires Transit(e, cast, r) && (!l.held ==> Unshared(e.handles, e.holders, r, l.handle))
    modifies e`handles, e`outbox, e`holders, e`runs
    ensures e.Valid() && (ok ==> Transit(e, cast, r))
    ensures ok <==> (l.held ==> RowActive(old(e.holders), l.handle, r))
    ensures ok ==> Released(old(e.handles), old(e.outbox), old(e.holders), old(e.runs),
                            e.handles, e.outbox, e.holders, e.runs, r)
    ensures ok ==>
            (e.handles, e.holders) == ReleaseOne((old(e.handles), old(e.holders)), e.me, cast, r, l, success, acquirer)
    ensures ok ==> RowsSince(old(e.holders), e.holders, HeldHandles([l]))
    ensures ok && l.held ==> RowDone(e.holders, l.handle, r, success)
    ensures ok && !l.held ==> !IsActive(e.handles, l.handle)
    ensures ok && (success || !acquirer) ==> OnlyOwnRows(old(e.holders), e.holders, r)
  {
    if l.held {
      assert [l][0].held && l.handle in HeldHandles([l]);
      ok := ReleaseHeld(e, cast, r, l.handle, success, acquirer);
    } else {
      ReleaseOutright(e, cast, r, l.handle, success);
      ok := true;
    }
  }

  ghost predicate OnlyOwnRows(holders: Holders, holders': Holders, r: RunId) {
    forall k | k in holders && k.1 != r :: k in holders' && holders'[k] == holders[k]
  }

  /** Where the release of the first locks has got to. */
  ghost predicate LocksDone(holders: Holders, holders': Holders, locks: seq<Lock>, r: RunId, success: bool,
                            acquirer: bool) {
    && RowsSince(holders, holders', HeldHandles(locks))
    && (forall l | l in locks && l.held :: RowActive(holders, l.handle, r) && RowDone(holders', l.handle, r, success))
    && (success || !acquirer ==> OnlyOwnRows(holders, holders', r))
  }

  /** What was to be released outright is. */
  ghost predicate LocksClosed(t: Table, locks: seq<Lock>) {
    forall l | l in locks && !l.held :: !IsActive(t, l.handle)
  }

  lemma LocksDoneStep(holders: Holders, holders1: Holders, holders2: Holders, locks: seq<Lock>, i: nat, r: RunId,
                      success: bool, acquirer: bool)
    requires i < |locks| && (forall i, j | 0 <= i < j < |locks| :: locks[i].handle != locks[j].handle)
    requires holders1.Keys == holders.Keys && LocksDone(holders, holders1, locks[..i], r, success, acquirer)
    requires holders2.Keys == holders.Keys && RowsSince(holders1, holders2, HeldHandles([locks[i]]))
    requires locks[i].held ==> RowActive(holders1, locks[i].handle, r) && RowDone(holders2, locks[i].handle, r, success)
    requires success || !acquirer ==> OnlyOwnRows(holders1, holders2, r)
    ensures LocksDone(holders, holders2, locks[..i + 1], r, success, acquirer)
  {
  }

  /** Distinct claims, of which those released outright are nobody else's. */
  ghost predicate Releasable(r: RunId, locks: seq<Lock>, t: Table, holders: Holders) {
    && (forall i, j | 0 <= i < j < |locks| :: locks[i].handle != locks[j].handle)
    && (forall l | l in locks && !l.held :: Unshared(t, holders, r, l.handle))
  }

  /** Releases claims one by one, as their acquirer or as one that inherited them. */
  method ReleaseEach(e: Engine, cast: Cast, r: RunId, locks: seq<Lock>, success: bool, acquirer: bool)
    returns (ok: bool)
    requires Transit(e, cast, r) && Releasable(r, locks, e.handles, e.holders)
    modifies e`handles, e`outbox, e`holders, e`runs
    ensures e.Valid() && (ok ==> Transit(e, cast, r))
    ensures ok <==> forall l | l in locks && l.held :: RowActive(old(e.holders), l.handle, r)
    ensures ok ==> Released(old(e.handles), old(e.outbox), old(e.holders), old(e.runs),
                            e.handles, e.outbox, e.holders, e.runs, r)
    ensures ok ==>
            (e.handles, e.holders)
            == ReleaseMany((old(e.handles), old(e.holders)), e.me, cast, r, locks, success, acquirer)
    ensures ok ==> LocksDone(old(e.holders), e.holders, locks, r, success, acquirer) && LocksClosed(e.handles, locks)
  {
    ghost var s := Tables(e);
    ReleasedNone(s, e.me, cast, r, locks, success, acquirer);
    for i := 0 to |locks|
      invariant Transit(e, cast, r)
      invariant ReleasedUpTo(s, Tables(e), e.me, cast, r, locks, i, success, acquirer)
    {
      var marked := ReleaseNth(e, cast, r, locks, i, success, acquirer, s);
      if !marked { return false; }
    }
    assert locks[..|locks|] == locks;
    return true;
  }

  method ReleaseNth(e: Engine, cast: Cast, r: RunId, locks: seq<Lock>, i: nat, success: bool, acquirer: bool,
                    ghost s: State)
    returns (ok: bool)
    requires Transit(e, cast, r) && Releasable(r, locks, s.handles, s.holders) && i < |locks|
    requires ReleasedUpTo(s, Tables(e), e.me, cast, r, locks, i, success, acquirer)
    modifies e`handles, e`outbox, e`holders, e`runs
    ensures e.Valid() && (ok ==> Transit(e, cast, r))
    ensures ok <==> (locks[i].held ==> RowActive(s.holders, locks[i].handle, r))
    ensures ok ==> ReleasedUpTo(s, Tables(e), e.me, cast, r, locks, i + 1, success, acquirer)
  {
    ghost var s1 := Tables(e);
    LockUnshared(r, locks, s.handles, s1.handles, s.holders, s1.holders, i);
    ok := ReleaseLock(e, cast, r, locks[i], success, acquirer);
    if ok { ReleasedOneMore(s, s1, Tables(e), e.me, cast, r, locks, i, success, acquirer); }
  }

  /** The engine's tables at one moment. */
  datatype State = State(handles: Table, outbox: seq<Verb>, holders: Holders, runs: Runs)

  ghost function Tables(e: Engine): State
    reads e
  {
    State(e.handles, e.outbox, e.holders, e.runs)
  }

  ghost predicate Moved(s: State, s': State, r: RunId) {
    Released(s.handles, s.outbox, s.holders, s.runs, s'.handles, s'.outbox, s'.holders, s'.runs, r)
  }

  /** The first `i` locks have been released. */
  ghost predicate ReleasedUpTo(s: State, s': State, me: Supervisor, cast: Cast,
                               r: RunId, locks: seq<Lock>, i: nat, success: bool, acquirer: bool) {
    && i <= |locks| && Moved(s, s', r)
    && (s'.handles, s'.holders) == ReleaseMany((s.handles, s.holders), me, cast, r, locks[..i], success, acquirer)
    && LocksDone(s.holders, s'.holders, locks[..i], r, success, acquirer) && LocksClosed(s'.handles, locks[..i])
  }

  lemma ReleasedNone(s: State, me: Supervisor, cast: Cast, r: RunId, locks: seq<Lock>, success: bool, acquirer: bool)
    ensures ReleasedUpTo(s, s, me, cast, r, locks, 0, success, acquirer)
  {
  }

  lemma ReleasedOneMore(s: State, s1: State, s2: State, me: Supervisor, cast: Cast,
                        r: RunId, locks: seq<Lock>, i: nat, success: bool, acquirer: bool)
    requires Releasable(r, locks, s.handles, s.holders) && i < |locks|
    requires ReleasedUpTo(s, s1, me, cast, r, locks, i, success, acquirer) && Moved(s1, s2, r)
    requires (s2.handles, s2.holders) == ReleaseOne((s1.handles, s1.holders), me, cast, r, locks[i], success, acquirer)
    requires RowsSince(s1.holders, s2.holders, HeldHandles([locks[i]]))
    requires locks[i].held ==>
            RowActive(s1.holders, locks[i].handle, r) && RowDone(s2.holders, locks[i].handle, r, success)
    requires !locks[i].held ==> !IsActive(s2.handles, locks[i].handle)
    requires success || !acquirer ==> OnlyOwnRows(s1.holders, s2.holders, r)
    ensures ReleasedUpTo(s, s2, me, cast, r, locks, i + 1, success, acquirer)
  {
    ReleaseNext((s.handles, s.holders), me, cast, r, locks, i, success, acquirer);
    ReleasedTrans(s.handles, s.outbox, s.holders, s.runs, s1.handles, s1.outbox, s1.holders, s1.runs,
                  s2.handles, s2.outbox, s2.holders, s2.runs, r);
    LocksDoneStep(s.holders, s1.holders, s2.holders, locks, i, r, success, acquirer);
    LocksClosedStep(s1.handles, s2.handles, locks, i);
  }

  lemma LocksClosedStep(t: Table, t': Table, locks: seq<Lock>, i: nat)
    requires i < |locks| && Evolves(t, t') && LocksClosed(t, locks[..i])
    requires !locks[i].held ==> !IsActive(t', locks[i].handle)
    ensures LocksClosed(t', locks[..i + 1])
  {
    assert locks[..i + 1] == locks[..i] + [locks[i]];
  }

  lemma LockUnshared(r: RunId, locks: seq<Lock>, t: Table, t1: Table, holders: Holders, holders1: Holders, i: nat)
    requires Releasable(r, locks, t, holders) && Evolves(t, t1) && holders1.Keys == holders.Keys && i < |locks|
    requires RowsSince(holders, holders1, HeldHandles(locks[..i]))
    ensures locks[i] in locks && (!locks[i].held ==> Unshared(t1, holders1, r, locks[i].handle))
    ensures RowActive(holders1, locks[i].handle, r) <==> RowActive(holders, locks[i].handle, r)
  {
  }

  function AsLocks(ids: seq<HandleId>, held: bool): (locks: seq<Lock>)
    ensures |locks| == |ids| && forall i | 0 <= i < |ids| :: locks[i] == Lock(ids[i], held)
  {
    seq(|ids|, i requires 0 <= i < |ids| => Lock(ids[i], held))
  }

  /** The claims and rows after a release: the locks, then the linked sub-claims
      and the inherited claims, each listed once in some order. */
  ghost predicate ReleasedAs(s: (Table, Holders), s': (Table, Holders), me: Supervisor, cast: Cast, acq: Acquisition,
                             success: bool, linked: seq<HandleId>, inherited: seq<HandleId>) {
    && (forall h :: h in linked <==> LinkedTo(s.0, acq, h))
    && (forall h :: h in inherited <==> Inherits(s.0, s.1, acq.run, h))
    && (forall i, j | 0 <= i < j < |linked| :: linked[i] != linked[j])
    && (forall i, j | 0 <= i < j < |inherited| :: inherited[i] != inherited[j])
    && var s1 := ReleaseMany(s, me, cast, acq.run, acq.locks, success, true);
       var s2 := ReleaseMany(s1, me, cast, acq.run, AsLocks(linked, false), success, false);
       s' == ReleaseMany(s2, me, cast, acq.run, AsLocks(inherited, true), success, false)
  }

  /** All that a finished release promises. */
  ghost predicate ReleasedAll(s: State, s': State, me: Supervisor, cast: Cast, acq: Acquisition, success: bool,
                              linked: seq<HandleId>, inherited: seq<HandleId>) {
    && Moved(s, s', acq.run)
    && ReleasedAs((s.handles, s.holders), (s'.handles, s'.holders), me, cast, acq, success, linked, inherited)
    && (forall h: HandleId | Marks(acq, s.handles, s.holders, h) :: RowDone(s'.holders, h, acq.run, success))
    && OthersRows(s.holders, s'.holders, acq, success) && LetGo(s, s', acq)
  }

  /** Rows of other runs change only if an acquirer fails, and then only those on
      the shared claims it acquired. */
  ghost predicate OthersRows(holders: Holders, holders': Holders, acq: Acquisition, success: bool) {
    forall k | k in holders && k.1 != acq.run && (success || Lock(k.0, true) !in acq.locks) ::
      k in holders' && holders'[k] == holders[k]
  }

  /** The run is done with everything: what it acquired outright and its unheld
      sub-claims are resolved, and it is an active holder of nothing but what it
      acquired without a lock. */
  ghost predicate LetGo(s: State, s': State, acq: Acquisition) {
    && (forall l | l in acq.locks && !l.held :: !IsActive(s'.handles, l.handle))
    && (forall h | h in s.handles && s.handles[h].run == Some(acq.run) && s.handles[h].parent.Some?
                   && !s.handles[h].held && (forall l | l in acq.locks :: l.handle != h) :: !IsActive(s'.handles, h))
    && (forall h | h in s.handles && RowActive(s'.holders, h, acq.run) ::
          s.handles[h].run == Some(acq.run) && Lock(h, true) !in acq.locks)
  }

  /** Releases all that the run acquired, has linked to it, and co-holds. Fails
      exactly if a row it has to mark is no longer active. */
  method Release(e: Engine, cast: Cast, acq: Acquisition, success: bool)
    returns (ok: bool, ghost linked: seq<HandleId>, ghost inherited: seq<HandleId>)
    requires Transit(e, cast, acq.run) && AcquiredBy(acq, e.handles, e.holders)
    modifies e`handles, e`outbox, e`holders, e`runs
    ensures e.Valid() && (ok ==> Transit(e, cast, acq.run))
    ensures ok <==> Markable(acq, old(e.handles), old(e.holders))
    ensures ok ==> ReleasedAll(old(Tables(e)), Tables(e), e.me, cast, acq, success, linked, inherited)
  {
    linked, inherited := [], [];
    ghost var t, out, holders, rs := e.handles, e.outbox, e.holders, e.runs;
    AcquiredReleasable(acq, t, holders);
    ok := ReleaseEach(e, cast, acq.run, acq.locks, success, true);
    if !ok { LockUnmarkable(acq, t, holders); return; }
    ghost var t1, out1, holders1, rs1 := e.handles, e.outbox, e.holders, e.runs;
    var ids := ListLinked(e, acq);
    LinkedReleasable(acq, t1, holders1, ids);
    var _ := ReleaseEach(e, cast, acq.run, AsLocks(ids, false), success, false);
    ghost var t2, out2, holders2, rs2 := e.handles, e.outbox, e.holders, e.runs;
    ReleasedTrans(t, out, holders, rs, t1, out1, holders1, rs1, t2, out2, holders2, rs2, acq.run);
    var ids2 := ListInherited(e, cast, acq.run);
    AllInvited(t2, holders2, cast, acq.run);
    LinkedSame(acq, t, t1, holders1, holders2, ids, success);
    InheritedLater(acq, t, t2, holders, holders2, ids2);
    ok := ReleaseEach(e, cast, acq.run, AsLocks(ids2, true), success, false);
    linked, inherited := ids, ids2;
    if ok {
      ReleasedTrans(t, out, holders, rs, t2, out2, holders2, rs2, e.handles, e.outbox, e.holders, e.runs, acq.run);
      AllMarked(acq, t, holders, holders2, e.holders, ids2, success);
      AllLetGo(acq, old(Tables(e)), Tables(e), t1, t2, ids, success);
    }
  }

  lemma AllLetGo(acq: Acquisition, s: State, s': State, t1: Table, t2: Table, ids: seq<HandleId>, success: bool)
    requires Evolves(s.handles, t1) && Evolves(t1, t2) && Evolves(t2, s'.handles) && s'.holders.Keys == s.holders.Keys
    requires LocksClosed(t1, acq.locks) && LocksClosed(t2, AsLocks(ids, false))
    requires forall h :: h in ids <==> LinkedTo(s.handles, acq, h)
    requires forall h: HandleId | Marks(acq, s.handles, s.holders, h) :: RowDone(s'.holders, h, acq.run, success)
    ensures LetGo(s, s', acq)
  {
    forall h | LinkedTo(s.handles, acq, h) ensures !IsActive(s'.handles, h) {
      var i :| 0 <= i < |ids| && ids[i] == h;
      assert AsLocks(ids, false)[i] == Lock(h, false) && !IsActive(t2, h);
    }
    forall h | h in s.handles && RowActive(s'.holders, h, acq.run)
      ensures s.handles[h].run == Some(acq.run) && Lock(h, true) !in acq.locks
    {
      assert !Marks(acq, s.handles, s.holders, h);
    }
  }

  lemma LinkedReleasable(acq: Acquisition, t: Table, holders: Holders, ids: seq<HandleId>)
    requires RowsOnHeld(t, holders) && (forall i, j | 0 <= i < j < |ids| :: ids[i] != ids[j])
    requires forall h | h in ids :: LinkedTo(t, acq, h)
    ensures Releasable(acq.run, AsLocks(ids, false), t, holders)
    ensures HeldHandles(AsLocks(ids, false)) == {}
  {
    forall l | l in AsLocks(ids, false) ensures !l.held && l.handle in ids { }
    forall h | h in ids ensures Unshared(t, holders, acq.run, h) { assert LinkedTo(t, acq, h); }
  }

  lemma LinkedSame(acq: Acquisition, t: Table, t1: Table, holders1: Holders, holders2: Holders, ids: seq<HandleId>,
                   success: bool)
    requires Evolves(t, t1) && holders2.Keys == holders1.Keys
    requires LocksDone(holders1, holders2, AsLocks(ids, false), acq.run, success, false)
    ensures forall h :: LinkedTo(t1, acq, h) <==> LinkedTo(t, acq, h)
    ensures holders2 == holders1
  {
  }

  lemma AcquiredReleasable(acq: Acquisition, t: Table, holders: Holders)
    requires AcquiredBy(acq, t, holders)
    ensures Releasable(acq.run, acq.locks, t, holders)
  {
  }

  lemma LockUnmarkable(acq: Acquisition, t: Table, holders: Holders)
    requires exists l :: l in acq.locks && l.held && !RowActive(holders, l.handle, acq.run)
    ensures !Markable(acq, t, holders)
  {
  }

  /** Releasing the acquired locks leaves the inherited rows alone. */
  lemma InheritedLater(acq: Acquisition, t: Table, t2: Table, holders: Holders, holders1: Holders, ids: seq<HandleId>)
    requires AcquiredBy(acq, t, holders) && Evolves(t, t2) && holders1.Keys == holders.Keys
    requires RowsSince(holders, holders1, HeldHandles(acq.locks))
    requires forall l | l in acq.locks && l.held :: RowActive(holders, l.handle, acq.run)
    requires forall h :: h in ids <==> Inherits(t2, holders1, acq.run, h)
    ensures forall h :: h in ids <==> Inherits(t, holders, acq.run, h)
    ensures forall h | h in ids :: h !in HeldHandles(acq.locks)
    ensures (forall l | l in AsLocks(ids, true) && l.held :: RowActive(holders1, l.handle, acq.run)) <==>
            Markable(acq, t, holders)
  {
    var ls := AsLocks(ids, true);
    forall h ensures h in ids <==> Inherits(t, holders, acq.run, h) { if h in t { } }
    forall h | h in ids
      ensures Lock(h, true) in ls && h !in HeldHandles(acq.locks)
              && (RowActive(holders1, h, acq.run) <==> RowActive(holders, h, acq.run))
    {
      var i :| 0 <= i < |ids| && ids[i] == h;
      assert ls[i] == Lock(h, true);
    }
    forall l | l in ls ensures l.handle in ids && l.held { }
    if forall l | l in ls && l.held :: RowActive(holders1, l.handle, acq.run) {
      forall h: HandleId | Marks(acq, t, holders, h) ensures RowActive(holders, h, acq.run) {
        if Inherits(t, holders, acq.run, h) { assert Lock(h, true) in ls; }
      }
    } else {
      var l :| l in ls && !RowActive(holders1, l.handle, acq.run);
      assert Marks(acq, t, holders, l.handle);
    }
  }

  lemma AllMarked(acq: Acquisition, t: Table, holders: Holders, holders1: Holders, holders2: Holders,
                  ids: seq<HandleId>, success: bool)
    requires holders1.Keys == holders.Keys && holders2.Keys == holders.Keys
    requires LocksDone(holders, holders1, acq.locks, acq.run, success, true)
    requires LocksDone(holders1, holders2, AsLocks(ids, true), acq.run, success, false)
    requires forall h :: h in ids <==> Inherits(t, holders, acq.run, h)
    requires forall h | h in ids :: h !in HeldHandles(acq.locks)
    ensures forall h: HandleId | Marks(acq, t, holders, h) :: RowDone(holders2, h, acq.run, success)
    ensures OthersRows(holders, holders2, acq, success)
  {
  }

  ghost predicate RowActive(holders: Holders, h: HandleId, r: RunId) {
    (h, r) in holders && holders[(h, r)] == HolderActive
  }

  ghost predicate RowDone(holders: Holders, h: HandleId, r: RunId, success: bool) {
    (h, r) in holders && holders[(h, r)] == if success then HolderCompleted else HolderFailed
  }

  ghost function HeldHandles(locks: seq<Lock>): set<HandleId> {
    set l | l in locks && l.held :: l.handle
  }

  // --------------------------------------------------------------- terminals

  method ProbeOpenClaims(e: Engine, r: RunId) returns (b: bool)
    ensures b <==> HasOpenClaims(e.handles, e.holders, r)
  {
    var own := set h | h in e.handles && e.handles[h].run == Some(r) && e.handles[h].state.Active?;
    if own != {} {
      assert exists h :: h in own;
      return true;
    }
    assert forall h :: IsActive(e.handles, h) && e.handles[h].run == Some(r) ==> h in own;
    var rows := set k | k in e.holders && k.1 == r && e.holders[k] == HolderActive && k.0 in e.handles
        && e.handles[k.0].state.Active?;
    if rows != {} {
      var k :| k in rows;
      assert (k.0, r) in e.holders;
      return true;
    }
    assert forall h :: (h, r) in e.holders && e.holders[(h, r)] == HolderActive && IsActive(e.handles, h) ==>
        (h, r) in rows;
    return false;
  }

  /** A running run with nothing open has its whole portfolio resolved. */
  lemma NothingOpen(t: Table, t': Table, holders: Holders, holders': Holders, runs: Runs, r: RunId)
    requires RowsLive(t, holders, runs, None, None) && IsRunning(runs, r) && !HasOpenClaims(t, holders, r)
    requires Evolves(t, t') && holders'.Keys == holders.Keys
    ensures FullyResolved(t', holders', r)
  {
  }

  /** The run has left Running for good. */
  lemma SettledSound(t: Table, out: seq<Verb>, holders: Holders, runs: Runs, runs': Runs, me: Supervisor, cast: Cast,
                     r: RunId)
    requires Sound(t, out, holders, runs, me, cast, Some(r), None)
    requires runs'.Keys == runs.Keys && r in runs && (forall q | q in runs && q != r :: runs'[q] == runs[q])
    requires !runs'[r].state.Running? && !Stuck(t, holders, runs', r)
    requires runs'[r].state == Fresh ==> FullyResolved(t, holders, r) && !Poisoned(t, holders, r)
    ensures Sound(t, out, holders, runs', me, cast, None, None)
  {
    forall q ensures !Stuck(t, holders, runs', q) { if q != r { assert !Stuck(t, holders, runs, q); } }
  }

  /** Held for as long as something is open, and the portfolio's verdict after. */
  ghost function HeldOr(t: Table, holders: Holders, aggregating: bool, r: RunId): RunState {
    if aggregating || !FullyResolved(t, holders, r) then Held else Verdict(t, holders, r)
  }

  /** Parks the run in Held and lets it go on at once if nothing is open. */
  method HoldRun(e: Engine, cast: Cast, r: RunId)
    requires Transit(e, cast, r)
    modifies e`runs
    ensures Inv(e, cast)
    ensures var state := HeldOr(e.handles, e.holders, old(e.runs)[r].aggregating, r);
            e.runs == old(e.runs)[r := old(e.runs)[r].(state := state)]
  {
    ghost var rs := e.runs;
    e.runs := e.runs[r := e.runs[r].(state := Held)];
    e.TransitionHolder(r);
    SettledSound(e.handles, e.outbox, e.holders, rs, e.runs, e.me, cast, r);
  }

  /** Settles the run, which must not be left stuck. */
  method SettleRun(e: Engine, cast: Cast, r: RunId, state: RunState)
    requires Transit(e, cast, r) && (state == Fresh || state == Failed)
    requires state == Fresh ==> FullyResolved(e.handles, e.holders, r) && !Poisoned(e.handles, e.holders, r)
    modifies e`runs
    ensures Inv(e, cast)
    ensures e.runs == old(e.runs)[r := old(e.runs)[r].(state := state)]
  {
    ghost var rs := e.runs;
    e.runs := e.runs[r := e.runs[r].(state := state)];
    SettledSound(e.handles, e.outbox, e.holders, rs, e.runs, e.me, cast, r);
  }

  /** What a terminal of `r` does to everything but the state of `r` itself:
      handles resolve with one verb each, other runs only leave Held, and only
      by the verdict on a resolved portfolio. */
  ghost predicate Terminal(s: State, s': State, r: RunId) {
    && r in s.runs && s'.runs.Keys == s.runs.Keys && s'.runs[r].aggregating == s.runs[r].aggregating
    && Moved(s, s'.(runs := s'.runs[r := s.runs[r]]), r)
  }

  /** A terminal of the run that released everything and left it in `state`. */
  ghost predicate EndedAs(s: State, s': State, me: Supervisor, cast: Cast, acq: Acquisition, success: bool,
                          linked: seq<HandleId>, inherited: seq<HandleId>, state: RunState) {
    && Terminal(s, s', acq.run) && s'.runs[acq.run].state == state
    && ReleasedAs((s.handles, s.holders), (s'.handles, s'.holders), me, cast, acq, success, linked, inherited)
    && (forall h: HandleId | Marks(acq, s.handles, s.holders, h) :: RowDone(s'.holders, h, acq.run, success))
    && OthersRows(s.holders, s'.holders, acq, success) && LetGo(s, s', acq)
  }

  lemma SettlingEnds(s: State, s1: State, me: Supervisor, cast: Cast, acq: Acquisition, success: bool,
                     linked: seq<HandleId>, inherited: seq<HandleId>, state: RunState)
    requires IsRunning(s.runs, acq.run) && ReleasedAll(s, s1, me, cast, acq, success, linked, inherited)
    ensures acq.run in s1.runs && s1.runs[acq.run] == s.runs[acq.run]
    ensures EndedAs(s, s1.(runs := s1.runs[acq.run := s1.runs[acq.run].(state := state)]),
                    me, cast, acq, success, linked, inherited, state)
  {
    assert s1.runs[acq.run := s1.runs[acq.run].(state := state)][acq.run := s.runs[acq.run]] == s1.runs;
  }

  /** Probes for open claims and releases; the transaction rolls back if that
      fails. */
  method ReleaseOrRollBack(e: Engine, cast: Cast, acq: Acquisition, success: bool)
    returns (ok: bool, open: bool, ghost linked: seq<HandleId>, ghost inherited: seq<HandleId>)
    requires Inv(e, cast) && IsRunning(e.runs, acq.run) && AcquiredBy(acq, e.handles, e.holders)
    modifies e`handles, e`outbox, e`holders, e`runs
    ensures ok <==> Markable(acq, old(e.handles), old(e.holders))
    ensures open <==> HasOpenClaims(old(e.handles), old(e.holders), acq.run)
    ensures !ok ==> Tables(e) == old(Tables(e))
    ensures ok ==> Transit(e, cast, acq.run)
    ensures ok ==> ReleasedAll(old(Tables(e)), Tables(e), e.me, cast, acq, success, linked, inherited)
  {
    var handles, outbox, holders, runs := e.handles, e.outbox, e.holders, e.runs;
    open := ProbeOpenClaims(e, acq.run);
    ok, linked, inherited := Release(e, cast, acq, success);
    if !ok { e.handles, e.outbox, e.holders, e.runs := handles, outbox, holders, runs; }
  }
}
