/** How a root claim that nobody has split fares when a run lets go of what it has,
    whatever other claims the run has and whatever becomes of those. */
module PlainReleases {
  import opened Claims
  import opened ClaimForest
  import opened ClaimForestLemmas
  import opened ClaimCounts
  import ClaimVerdicts
  import opened HeldClaims
  import opened HeldLaws
  import opened HeldRuns

  ghost predicate OpenFor(t: Table, holders: Holders, r: RunId, h: HandleId) {
    InPortfolio(t, holders, r, h) && IsActive(t, h)
  }

  ghost predicate Childless(t: Table, h: HandleId) {
    h in t && t[h].parent.None? && Children(t, h) == {}
  }

  /** This run is the last to be done with a shared claim that nobody failed and
      that all members have come to. */
  ghost predicate LastToFinish(holders: Holders, cast: Cast, r: RunId, h: HandleId) {
    LastActive(holders, h, r) && !AnyFailed(holders, h) && !Missing(cast, holders, h)
  }

  /** The claim's alias is among the run's locks. */
  ghost predicate Acquired(acq: Acquisition, h: HandleId) {
    Lock(h, false) in acq.locks || Lock(h, true) in acq.locks
  }

  /** The state in which an open root claim without children is left. A run that
      succeeds commits what it releases outright, and a shared claim if it is the
      last to finish it; the last to mark a claim that somebody failed abandons it.
      A run that fails abandons all it acquired, and a claim it inherited if it is
      the last to mark it. Everything else stays open. */
  ghost function StateAfter(t: Table, holders: Holders, cast: Cast, acq: Acquisition, success: bool, h: HandleId)
    : HandleState
  {
    if success then
      if Lock(h, false) in acq.locks || (Marks(acq, t, holders, h) && LastToFinish(holders, cast, acq.run, h))
      then Committed
      else if Marks(acq, t, holders, h) && LastActive(holders, h, acq.run) && AnyFailed(holders, h) then Abandoned
      else Active
    else
      if Acquired(acq, h) || (Inherits(t, holders, acq.run, h) && LastActive(holders, h, acq.run)) then Abandoned
      else Active
  }

  /** Every open root claim without children that the run has is left in that state. */
  ghost predicate RootsEnd(s: State, s': State, cast: Cast, acq: Acquisition, success: bool) {
    forall h: HandleId | OpenFor(s.handles, s.holders, acq.run, h) && Childless(s.handles, h) ::
      h in s'.handles && s'.handles[h].state == StateAfter(s.handles, s.holders, cast, acq, success, h)
  }

  // ------------------------------------------------------------- one release

  /** An open root claim of ours that nobody has split. */
  ghost predicate Plain(t: Table, me: Supervisor, h: HandleId) {
    Cancelable(t, me, h) && Childless(t, h)
  }

  lemma {:induction false} DoomedNone(t: Table, me: Supervisor)
    ensures Doomed(t, me, {}) == {} && AbandonAll(t, {}) == t
  {
    assert Grow(t, me, {}) == {};
  }

  /** Resolving it touches no other row. */
  lemma ResolvePlain(t: Table, me: Supervisor, holders: Holders, h: HandleId, commit: bool)
    requires Plain(t, me, h)
    ensures ResolveSpec(t, me, holders, me, h, commit, true)
            == t[h := t[h].(state := Resolved(commit), holder := None)]
  {
    assert CancelableChildren(t, me, h) <= Children(t, h);
    DoomedNone(t, me);
  }

  /** The row of a released claim, from the tables before. */
  ghost function RowAfter(t: Table, me: Supervisor, holders: Holders, cast: Cast, r: RunId, l: Lock, success: bool,
                          acquirer: bool): Handle
    requires l.handle in t
  {
    var h := l.handle;
    var marked := Marked(t, me, holders, r, h, success, acquirer);
    if l.held && !Fires(t, me, marked, cast, h) then t[h]
    else t[h].(state := Resolved(if l.held then FiresCommit(t, marked, h) else success), holder := None)
  }

  lemma ReleaseOnePlain(s: (Table, Holders), me: Supervisor, cast: Cast, r: RunId, l: Lock, success: bool,
                        acquirer: bool)
    requires Plain(s.0, me, l.handle)
    ensures var s' := ReleaseOne(s, me, cast, r, l, success, acquirer);
            l.handle in s'.0 && s'.0[l.handle] == RowAfter(s.0, me, s.1, cast, r, l, success, acquirer)
  {
    var h := l.handle;
    var marked := Marked(s.0, me, s.1, r, h, success, acquirer);
    if !l.held {
      ResolvePlain(s.0, me, s.1, h, success);
    } else if Fires(s.0, me, marked, cast, h) {
      ResolvePlain(s.0, me, marked, h, FiresCommit(s.0, marked, h));
    }
  }

  /** Releasing another claim leaves it alone. */
  lemma ReleaseOneSpares(s: (Table, Holders), me: Supervisor, cast: Cast, level: map<HandleId, nat>, r: RunId, l: Lock,
                         success: bool, acquirer: bool, h: HandleId)
    requires Levelled(s.0, level) && WellHeld(s.0) && Childless(s.0, h) && h != l.handle
    ensures var s' := ReleaseOne(s, me, cast, r, l, success, acquirer);
            h in s'.0 && s'.0[h] == s.0[h] && SameHolders(s.1, s'.1, h)
  {
    var marked := if l.held then Marked(s.0, me, s.1, r, l.handle, success, acquirer) else s.1;
    if l.held && Fires(s.0, me, marked, cast, l.handle) {
      ResolveSpares(s.0, me, marked, level, me, l.handle, FiresCommit(s.0, marked, l.handle), h);
    }
    if !l.held && Cancelable(s.0, me, l.handle) { ResolveSpares(s.0, me, marked, level, me, l.handle, success, h); }
  }

  lemma ReleaseOneEvolves(s: (Table, Holders), me: Supervisor, cast: Cast, level: map<HandleId, nat>, r: RunId, l: Lock,
                          success: bool, acquirer: bool)
    requires Levelled(s.0, level)
    ensures Evolves(s.0, ReleaseOne(s, me, cast, r, l, success, acquirer).0)
  {
    var marked := if l.held then Marked(s.0, me, s.1, r, l.handle, success, acquirer) else s.1;
    if l.held && Fires(s.0, me, marked, cast, l.handle) {
      ResolveEvolves(s.0, me, marked, level, me, l.handle, FiresCommit(s.0, marked, l.handle), true);
    }
    if !l.held && Cancelable(s.0, me, l.handle) {
      ResolveEvolves(s.0, me, marked, level, me, l.handle, success, true);
    }
  }

  lemma {:induction false} ReleaseManyEvolves(s: (Table, Holders), me: Supervisor, cast: Cast,
                                              level: map<HandleId, nat>, r: RunId, locks: seq<Lock>, success: bool,
                                              acquirer: bool)
    requires Levelled(s.0, level)
    ensures var s' := ReleaseMany(s, me, cast, r, locks, success, acquirer); Evolves(s.0, s'.0) && Levelled(s'.0, level)
  {
    if locks == [] {
    } else {
      var n := |locks| - 1;
      ReleaseManyEvolves(s, me, cast, level, r, locks[..n], success, acquirer);
      var s1 := ReleaseMany(s, me, cast, r, locks[..n], success, acquirer);
      var s2 := ReleaseOne(s1, me, cast, r, locks[n], success, acquirer);
      ReleaseOneEvolves(s1, me, cast, level, r, locks[n], success, acquirer);
      EvolvesTrans(s.0, s1.0, s2.0);
      EvolvesLevelled(s1.0, s2.0, level);
    }
  }

  /** A verdict on `h` looks at nothing but its row and its holders. */
  ghost predicate SameHolders(holders: Holders, holders': Holders, h: HandleId) {
    forall r: RunId :: ((h, r) in holders <==> (h, r) in holders')
                       && ((h, r) in holders ==> holders[(h, r)] == holders'[(h, r)])
  }

  lemma FiresLocally(t: Table, t': Table, me: Supervisor, holders: Holders, holders': Holders, cast: Cast, h: HandleId)
    requires h in t && h in t' && t'[h] == t[h] && SameHolders(holders, holders', h)
    ensures Fires(t, me, holders, cast, h) <==> Fires(t', me, holders', cast, h)
    ensures FiresCommit(t, holders, h) <==> FiresCommit(t', holders', h)
  {
    assert Busy(holders, h) <==> Busy(holders', h);
    assert AnyFailed(holders, h) <==> AnyFailed(holders', h);
    assert HasRows(holders, h) <==> HasRows(holders', h);
    forall m ensures Registered(cast, holders, h, m) <==> Registered(cast, holders', h, m) { }
  }

  lemma RowAfterLocally(t: Table, t': Table, me: Supervisor, holders: Holders, holders': Holders, cast: Cast,
                        r: RunId, l: Lock, success: bool, acquirer: bool)
    requires l.handle in t && l.handle in t' && t'[l.handle] == t[l.handle] && SameHolders(holders, holders', l.handle)
    ensures RowAfter(t, me, holders, cast, r, l, success, acquirer)
            == RowAfter(t', me, holders', cast, r, l, success, acquirer)
  {
    var h := l.handle;
    var marked, marked' := Marked(t, me, holders, r, h, success, acquirer),
                           Marked(t', me, holders', r, h, success, acquirer);
    assert SameHolders(marked, marked', h);
    FiresLocally(t, t', me, marked, marked', cast, h);
  }

  // --------------------------------------------------------- a list of releases

  ghost predicate Handles(locks: seq<Lock>, h: HandleId) {
    exists l :: l in locks && l.handle == h
  }

  ghost predicate Apart(locks: seq<Lock>) {
    forall i, j | 0 <= i < j < |locks| :: locks[i].handle != locks[j].handle
  }

  lemma {:induction false} ReleaseManySpares(s: (Table, Holders), me: Supervisor, cast: Cast,
                                             level: map<HandleId, nat>, r: RunId, locks: seq<Lock>, success: bool,
                                             acquirer: bool, h: HandleId)
    requires Levelled(s.0, level) && WellHeld(s.0) && Childless(s.0, h) && !Handles(locks, h)
    ensures var s' := ReleaseMany(s, me, cast, r, locks, success, acquirer);
            h in s'.0 && s'.0[h] == s.0[h] && SameHolders(s.1, s'.1, h)
  {
    if locks == [] {
    } else {
      var n := |locks| - 1;
      assert locks[n] in locks && forall l | l in locks[..n] :: l in locks;
      ReleaseManySpares(s, me, cast, level, r, locks[..n], success, acquirer, h);
      var s1 := ReleaseMany(s, me, cast, r, locks[..n], success, acquirer);
      ReleaseManyEvolves(s, me, cast, level, r, locks[..n], success, acquirer);
      EvolvesHeld(s.0, s1.0);
      EvolvesChildless(s.0, s1.0, h);
      ReleaseOneSpares(s1, me, cast, level, r, locks[n], success, acquirer, h);
    }
  }

  /** A claim in a list of releases ends as if it were released alone. */
  lemma {:induction false} ReleaseManyPlain(s: (Table, Holders), me: Supervisor, cast: Cast,
                                            level: map<HandleId, nat>, r: RunId, locks: seq<Lock>, success: bool,
                                            acquirer: bool, l: Lock)
    requires Levelled(s.0, level) && WellHeld(s.0) && Plain(s.0, me, l.handle) && Apart(locks) && l in locks
    ensures var s' := ReleaseMany(s, me, cast, r, locks, success, acquirer);
            l.handle in s'.0 && s'.0[l.handle] == RowAfter(s.0, me, s.1, cast, r, l, success, acquirer)
  {
    var n := |locks| - 1;
    var before, h := locks[..n], l.handle;
    assert locks == before + [locks[n]];
    var s1 := ReleaseMany(s, me, cast, r, before, success, acquirer);
    ReleaseManyEvolves(s, me, cast, level, r, before, success, acquirer);
    EvolvesHeld(s.0, s1.0);
    EvolvesChildless(s.0, s1.0, h);
    if l == locks[n] {
      assert !Handles(before, h);
      ReleaseManySpares(s, me, cast, level, r, before, success, acquirer, h);
      ReleaseOnePlain(s1, me, cast, r, l, success, acquirer);
      RowAfterLocally(s.0, s1.0, me, s.1, s1.1, cast, r, l, success, acquirer);
    } else {
      ReleaseManyPlain(s, me, cast, level, r, before, success, acquirer, l);
      ReleaseOneSpares(s1, me, cast, level, r, locks[n], success, acquirer, h);
    }
  }

  // ------------------------------------------------------------ a whole release

  lemma InLocks(ids: seq<HandleId>, held: bool, l: Lock)
    ensures l in AsLocks(ids, held) <==> l.handle in ids && l.held == held
  {
    if l.handle in ids && l.held == held {
      var i :| 0 <= i < |ids| && ids[i] == l.handle;
      assert AsLocks(ids, held)[i] == l;
    }
  }

  lemma NotHandled(ids: seq<HandleId>, held: bool, h: HandleId)
    requires h !in ids
    ensures !Handles(AsLocks(ids, held), h)
  {
    forall l | l in AsLocks(ids, held) ensures l.handle != h { InLocks(ids, held, l); }
  }

  /** What the run acquired: the other two lists do not touch it. */
  lemma AcquiredEnds(s: (Table, Holders), s': (Table, Holders), me: Supervisor, cast: Cast, level: map<HandleId, nat>,
                     acq: Acquisition, success: bool, linked: seq<HandleId>, inherited: seq<HandleId>, l: Lock)
    requires ReleasedAs(s, s', me, cast, acq, success, linked, inherited) && AcquiredBy(acq, s.0, s.1)
    requires Levelled(s.0, level) && WellHeld(s.0) && Plain(s.0, me, l.handle) && l in acq.locks
    ensures l.handle in s'.0 && s'.0[l.handle] == RowAfter(s.0, me, s.1, cast, acq.run, l, success, true)
  {
    var s1 := ReleaseMany(s, me, cast, acq.run, acq.locks, success, true);
    ReleaseManyEvolves(s, me, cast, level, acq.run, acq.locks, success, true);
    ReleaseManyPlain(s, me, cast, level, acq.run, acq.locks, success, true, l);
    EvolvesHeld(s.0, s1.0);
    EvolvesChildless(s.0, s1.0, l.handle);
    assert !LinkedTo(s.0, acq, l.handle) && !Inherits(s.0, s.1, acq.run, l.handle);
    RestSpares(s1, me, cast, level, acq.run, success, linked, inherited, l.handle);
  }

  lemma RestSpares(s: (Table, Holders), me: Supervisor, cast: Cast, level: map<HandleId, nat>, r: RunId, success: bool,
                   linked: seq<HandleId>, inherited: seq<HandleId>, h: HandleId)
    requires Levelled(s.0, level) && WellHeld(s.0) && Childless(s.0, h) && h !in linked && h !in inherited
    ensures var s2 := ReleaseMany(s, me, cast, r, AsLocks(linked, false), success, false);
            var s3 := ReleaseMany(s2, me, cast, r, AsLocks(inherited, true), success, false);
            h in s3.0 && s3.0[h] == s.0[h]
  {
    var s2 := ReleaseMany(s, me, cast, r, AsLocks(linked, false), success, false);
    NotHandled(linked, false, h);
    NotHandled(inherited, true, h);
    ReleaseManySpares(s, me, cast, level, r, AsLocks(linked, false), success, false, h);
    ReleaseManyEvolves(s, me, cast, level, r, AsLocks(linked, false), success, false);
    EvolvesHeld(s.0, s2.0);
    EvolvesChildless(s.0, s2.0, h);
    ReleaseManySpares(s2, me, cast, level, r, AsLocks(inherited, true), success, false, h);
  }

  /** The tables before the inherited claims, as far as a claim that is neither
      acquired nor linked is concerned. */
  lemma FirstTwoSpare(s: (Table, Holders), me: Supervisor, cast: Cast, level: map<HandleId, nat>, acq: Acquisition,
                      success: bool, linked: seq<HandleId>, h: HandleId)
    requires Levelled(s.0, level) && WellHeld(s.0) && Childless(s.0, h) && !Handles(acq.locks, h) && h !in linked
    ensures var s1 := ReleaseMany(s, me, cast, acq.run, acq.locks, success, true);
            var s2 := ReleaseMany(s1, me, cast, acq.run, AsLocks(linked, false), success, false);
            && Levelled(s2.0, level) && WellHeld(s2.0) && Childless(s2.0, h)
            && s2.0[h] == s.0[h] && SameHolders(s.1, s2.1, h)
  {
    var s1 := ReleaseMany(s, me, cast, acq.run, acq.locks, success, true);
    var s2 := ReleaseMany(s1, me, cast, acq.run, AsLocks(linked, false), success, false);
    NotHandled(linked, false, h);
    ReleaseManySpares(s, me, cast, level, acq.run, acq.locks, success, true, h);
    ReleaseManyEvolves(s, me, cast, level, acq.run, acq.locks, success, true);
    EvolvesHeld(s.0, s1.0);
    EvolvesChildless(s.0, s1.0, h);
    ReleaseManySpares(s1, me, cast, level, acq.run, AsLocks(linked, false), success, false, h);
    ReleaseManyEvolves(s1, me, cast, level, acq.run, AsLocks(linked, false), success, false);
    EvolvesHeld(s1.0, s2.0);
    EvolvesChildless(s1.0, s2.0, h);
  }

  /** What the run did not acquire: it ends by the run's mark if the run inherited it,
      and stays as it is if not. */
  lemma OthersEnd(s: (Table, Holders), s': (Table, Holders), me: Supervisor, cast: Cast, level: map<HandleId, nat>,
                  acq: Acquisition, success: bool, linked: seq<HandleId>, inherited: seq<HandleId>, h: HandleId)
    requires ReleasedAs(s, s', me, cast, acq, success, linked, inherited)
    requires Levelled(s.0, level) && WellHeld(s.0) && Plain(s.0, me, h) && !Handles(acq.locks, h)
    ensures h in s'.0
    ensures s'.0[h] == if Inherits(s.0, s.1, acq.run, h)
                       then RowAfter(s.0, me, s.1, cast, acq.run, Lock(h, true), success, false) else s.0[h]
  {
    var s1 := ReleaseMany(s, me, cast, acq.run, acq.locks, success, true);
    var s2 := ReleaseMany(s1, me, cast, acq.run, AsLocks(linked, false), success, false);
    assert h !in linked;
    FirstTwoSpare(s, me, cast, level, acq, success, linked, h);
    var l := Lock(h, true);
    InLocks(inherited, true, l);
    if Inherits(s.0, s.1, acq.run, h) {
      ReleaseManyPlain(s2, me, cast, level, acq.run, AsLocks(inherited, true), success, false, l);
      RowAfterLocally(s.0, s2.0, me, s.1, s2.1, cast, acq.run, l, success, false);
    } else {
      NotHandled(inherited, true, h);
      ReleaseManySpares(s2, me, cast, level, acq.run, AsLocks(inherited, true), success, false, h);
    }
  }

  // ---------------------------------------------------------------- the verdict

  /** A row that counts no children. */
  lemma PlainCounts(t: Table, me: Supervisor, h: HandleId)
    requires Plain(t, me, h) && CountsRight(t)
    ensures t[h].committed + t[h].abandoned >= t[h].expected && AggregateCommits(t[h], true)
  {
    assert RowCounts(t, h);
  }

  /** How a mark ends it. */
  lemma MarkEnds(t: Table, me: Supervisor, holders: Holders, cast: Cast, r: RunId, h: HandleId, success: bool,
                 acquirer: bool)
    requires Plain(t, me, h) && CountsRight(t) && RowActive(holders, h, r)
    ensures RowAfter(t, me, holders, cast, r, Lock(h, true), success, acquirer).state ==
            if success then
              if LastToFinish(holders, cast, r, h) then Committed
              else if LastActive(holders, h, r) && AnyFailed(holders, h) then Abandoned
              else Active
            else if acquirer || LastActive(holders, h, r) then Abandoned else Active
  {
    PlainCounts(t, me, h);
    MarkFires(t, me, holders, cast, h, r, success);
    if !success && acquirer {
      var own := holders[(h, r) := HolderFailed];
      FailedAfterMark(holders, h, r, false);
      FailingAllAbandons(t, me, own, cast, h);
    }
  }

  lemma PlainEnds(s: State, s': State, me: Supervisor, cast: Cast, level: map<HandleId, nat>, acq: Acquisition,
                  success: bool, linked: seq<HandleId>, inherited: seq<HandleId>, h: HandleId)
    requires AcquiredBy(acq, s.handles, s.holders) && Markable(acq, s.handles, s.holders)
    requires Levelled(s.handles, level) && ClaimVerdicts.OneSupervisor(s.handles, me) && CountsRight(s.handles)
    requires ReleasedAll(s, s', me, cast, acq, success, linked, inherited)
    requires OpenFor(s.handles, s.holders, acq.run, h) && Childless(s.handles, h)
    ensures h in s'.handles && s'.handles[h].state == StateAfter(s.handles, s.holders, cast, acq, success, h)
  {
    var before, after := (s.handles, s.holders), (s'.handles, s'.holders);
    assert Plain(s.handles, me, h) && WellHeld(s.handles);
    if Lock(h, false) in acq.locks {
      AcquiredEnds(before, after, me, cast, level, acq, success, linked, inherited, Lock(h, false));
    } else if Lock(h, true) in acq.locks {
      AcquiredEnds(before, after, me, cast, level, acq, success, linked, inherited, Lock(h, true));
      assert Marks(acq, s.handles, s.holders, h);
      MarkEnds(s.handles, me, s.holders, cast, acq.run, h, success, true);
    } else {
      NoLock(acq, h);
      OthersEnd(before, after, me, cast, level, acq, success, linked, inherited, h);
      if Inherits(s.handles, s.holders, acq.run, h) {
        assert Marks(acq, s.handles, s.holders, h);
        MarkEnds(s.handles, me, s.holders, cast, acq.run, h, success, false);
      }
    }
  }

  lemma NoLock(acq: Acquisition, h: HandleId)
    requires !Acquired(acq, h)
    ensures !Handles(acq.locks, h)
  {
    forall l | l in acq.locks ensures l.handle != h { assert l == Lock(l.handle, l.held); }
  }

  /** A release leaves every open root claim without children as it should be left. */
  lemma ReleaseEndsRoots(s: State, s': State, me: Supervisor, cast: Cast, level: map<HandleId, nat>, acq: Acquisition,
                         success: bool, linked: seq<HandleId>, inherited: seq<HandleId>)
    requires AcquiredBy(acq, s.handles, s.holders) && Markable(acq, s.handles, s.holders)
    requires Levelled(s.handles, level) && ClaimVerdicts.OneSupervisor(s.handles, me) && CountsRight(s.handles)
    requires ReleasedAll(s, s', me, cast, acq, success, linked, inherited)
    ensures RootsEnd(s, s', cast, acq, success)
  {
    forall h: HandleId | OpenFor(s.handles, s.holders, acq.run, h) && Childless(s.handles, h)
      ensures h in s'.handles && s'.handles[h].state == StateAfter(s.handles, s.holders, cast, acq, success, h)
    {
      PlainEnds(s, s', me, cast, level, acq, success, linked, inherited, h);
    }
  }
}
