/** Auto-terminal resolution of held claims: a claim that several runs hold is
    resolved once, when the last of them is done with it. */
module HeldClaims {
  import opened Claims
  import ClaimForest
  import opened Ledger
  import opened ClaimEngine

  /** What the template and the run table say about holders: the node types that
      are expected to hold a handle, the node type of a run whose dispatch is
      known, and whether a run's node is a member of a held subgraph rooted at
      the node type that acquired the handle. */
  datatype Cast = Cast(
    members: HandleId -> seq<NodeType>,
    typeOf: RunId -> Option<NodeType>,
    invited: (RunId, HandleId) -> bool)

  ghost predicate HasRows(holders: Holders, h: HandleId) {
    exists r :: (h, r) in holders
  }

  ghost predicate AnyFailed(holders: Holders, h: HandleId) {
    exists r :: (h, r) in holders && holders[(h, r)] == HolderFailed
  }

  ghost predicate Registered(cast: Cast, holders: Holders, h: HandleId, m: NodeType) {
    exists r :: (h, r) in holders && cast.typeOf(r) == Some(m)
  }

  /** Some expected member has not registered yet. A subgraph of one expects none. */
  ghost predicate Missing(cast: Cast, holders: Holders, h: HandleId) {
    |cast.members(h)| > 1 && exists m :: m in cast.members(h) && !Registered(cast, holders, h, m)
  }

  /** All holders of `h` are done, and either one failed or nobody is missing. */
  ghost predicate Ready(cast: Cast, holders: Holders, h: HandleId) {
    HasRows(holders, h) && !Busy(holders, h) && (AnyFailed(holders, h) || !Missing(cast, holders, h))
  }

  ghost predicate Fires(t: Table, me: Supervisor, holders: Holders, cast: Cast, h: HandleId) {
    && Cancelable(t, me, h) && Ready(cast, holders, h)
    && (AnyFailed(holders, h) || t[h].committed + t[h].abandoned >= t[h].expected)
  }

  ghost predicate FiresCommit(t: Table, holders: Holders, h: HandleId)
    requires h in t
  {
    !AnyFailed(holders, h) && AggregateCommits(t[h], true)
  }

  method ExpectedMissing(e: Engine, cast: Cast, h: HandleId) returns (b: bool)
    ensures b <==> Missing(cast, e.holders, h)
  {
    var members := cast.members(h);
    if |members| <= 1 { return false; }
    var rs := e.ListHolderRuns(h);
    var seen: set<NodeType> := {};
    for i := 0 to |rs|
      invariant forall m :: m in seen <==> exists r :: r in rs[..i] && cast.typeOf(r) == Some(m)
    {
      assert rs[..i + 1] == rs[..i] + [rs[i]];
      ghost var before := seen;
      if cast.typeOf(rs[i]).Some? { seen := seen + {cast.typeOf(rs[i]).value}; }
      forall m ensures m in seen <==> exists r :: r in rs[..i + 1] && cast.typeOf(r) == Some(m) {
        if m in before { var r :| r in rs[..i] && cast.typeOf(r) == Some(m); assert r in rs[..i + 1]; }
        if m in seen && m !in before { assert rs[i] in rs[..i + 1]; }
      }
    }
    assert rs[..|rs|] == rs;
    assert forall m :: m in seen <==> Registered(cast, e.holders, h, m);
    for i := 0 to |members|
      invariant forall m | m in members[..i] :: m in seen
    {
      if members[i] !in seen { return true; }
      assert members[..i + 1] == members[..i] + [members[i]];
    }
    assert members[..|members|] == members;
    return false;
  }

  /** Fires the resolution of a held claim if it is time, and does nothing
      otherwise. */
  method CheckAndFireResolution(e: Engine, cast: Cast, h: HandleId)
    requires e.Valid() && OutboxClear(e.handles, e.outbox, e.level, 0)
    modifies e`handles, e`outbox, e`runs
    ensures e.Valid()
    ensures e.handles == if Fires(old(e.handles), e.me, e.holders, cast, h)
                         then ClaimForest.ResolveSpec(old(e.handles), e.me, e.holders, e.me, h,
                                          FiresCommit(old(e.handles), e.holders, h), true)
                         else old(e.handles)
    ensures Progress(old(e.handles), old(e.outbox), old(e.runs), e.handles, e.outbox, e.runs, e.holders)
    ensures NoNewStuck(old(e.handles), old(e.runs), e.handles, e.runs, e.holders, None)
  {
    ProgressNone(e.handles, e.outbox, e.runs, e.holders);
    if h !in e.handles || e.handles[h].holder != Some(e.me) || e.handles[h].state != Active { return; }
    var rs := e.ListHolderRuns(h);
    if |rs| == 0 { return; }
    assert rs[0] in rs && HasRows(e.holders, h);
    var anyActive, anyFailed := false, false;
    for i := 0 to |rs|
      invariant anyActive <==> exists r :: r in rs[..i] && e.holders[(h, r)] == HolderActive
      invariant anyFailed <==> exists r :: r in rs[..i] && e.holders[(h, r)] == HolderFailed
    {
      assert rs[..i + 1] == rs[..i] + [rs[i]] && rs[i] in rs;
      assert forall r :: r in rs[..i + 1] <==> r in rs[..i] || r == rs[i];
      match e.holders[(h, rs[i])] {
        case HolderActive => anyActive := true;
        case HolderFailed => anyFailed := true;
        case HolderCompleted =>
      }
    }
    assert rs[..|rs|] == rs;
    assert anyActive <==> Busy(e.holders, h);
    assert anyFailed <==> AnyFailed(e.holders, h);
    if anyActive { return; }
    if !anyFailed {
      var missing := ExpectedMissing(e, cast, h);
      if missing { return; }
    }
    var outcome := if anyFailed then Abandon else Commit;
    if e.handles[h].expected > 0 && !anyFailed {
      if e.handles[h].committed + e.handles[h].abandoned < e.handles[h].expected { return; }
      outcome := if AggregateCommits(e.handles[h], true) then Commit else Abandon;
    }
    e.Resolve(h, e.me, HeldTerminal, outcome, true, 0);
  }

  // --------------------------------------------------------- holder rows

  /** Marks a run's own row. Only an active row can be marked. */
  method MarkHolder(e: Engine, h: HandleId, r: RunId, success: bool) returns (ok: bool)
    modifies e`holders
    ensures ok <==> (h, r) in old(e.holders) && old(e.holders)[(h, r)] == HolderActive
    ensures e.holders == if ok then old(e.holders)[(h, r) := if success then HolderCompleted else HolderFailed]
                         else old(e.holders)
  {
    ok := (h, r) in e.holders && e.holders[(h, r)] == HolderActive;
    if ok { e.holders := e.holders[(h, r) := if success then HolderCompleted else HolderFailed]; }
  }

  /** Fails every active row of a handle that this supervisor still holds. */
  method FailAllActive(e: Engine, h: HandleId)
    modifies e`holders
    ensures e.holders == FailedAll(old(e.holders), e.handles, e.me, h)
  {
    if h in e.handles && e.handles[h].holder == Some(e.me) {
      e.holders := map k | k in e.holders ::
        if k.0 == h && e.holders[k] == HolderActive then HolderFailed else e.holders[k];
    }
  }

  function FailedAll(holders: Holders, t: Table, me: Supervisor, h: HandleId): Holders {
    if h in t && t[h].holder == Some(me)
    then map k | k in holders :: if k.0 == h && holders[k] == HolderActive then HolderFailed else holders[k]
    else holders
  }

  ghost predicate LastActive(holders: Holders, h: HandleId, r: RunId) {
    forall x | (h, x) in holders && holders[(h, x)] == HolderActive :: x == r
  }

  /** A mark fires the resolution exactly if it is the last one, and then a failed
      mark, now or earlier, settles it; a claim nobody failed fires only once all
      members have come and all children are counted. */
  lemma MarkFires(t: Table, me: Supervisor, holders: Holders, cast: Cast, h: HandleId, r: RunId, success: bool)
    requires Cancelable(t, me, h) && (h, r) in holders && holders[(h, r)] == HolderActive
    ensures var marked := holders[(h, r) := if success then HolderCompleted else HolderFailed];
            var failed := !success || AnyFailed(holders, h);
            && (Fires(t, me, marked, cast, h) <==>
                  && LastActive(holders, h, r)
                  && (failed || (!Missing(cast, holders, h) && t[h].committed + t[h].abandoned >= t[h].expected)))
            && (FiresCommit(t, marked, h) <==> !failed && AggregateCommits(t[h], true))
  {
    var marked := holders[(h, r) := if success then HolderCompleted else HolderFailed];
    assert HasRows(marked, h) by { assert (h, r) in marked; }
    assert Busy(marked, h) <==> !LastActive(holders, h, r);
    FailedAfterMark(holders, h, r, success);
    SameMembers(cast, holders, marked, h);
  }

  lemma FailedAfterMark(holders: Holders, h: HandleId, r: RunId, success: bool)
    requires (h, r) in holders && holders[(h, r)] == HolderActive
    ensures var marked := holders[(h, r) := if success then HolderCompleted else HolderFailed];
            AnyFailed(marked, h) <==> !success || AnyFailed(holders, h)
  {
    var marked := holders[(h, r) := if success then HolderCompleted else HolderFailed];
    if AnyFailed(holders, h) {
      var x :| (h, x) in holders && holders[(h, x)] == HolderFailed;
      assert (h, x) in marked && marked[(h, x)] == HolderFailed;
    }
    if !success { assert (h, r) in marked && marked[(h, r)] == HolderFailed; }
  }

  lemma SameMembers(cast: Cast, holders: Holders, holders': Holders, h: HandleId)
    requires holders'.Keys == holders.Keys
    ensures Missing(cast, holders', h) <==> Missing(cast, holders, h)
  {
    forall m ensures Registered(cast, holders', h, m) <==> Registered(cast, holders, h, m) {
      assert forall r :: (h, r) in holders' <==> (h, r) in holders;
    }
  }

  /** An acquirer that fails all rows of a claim still held leaves it no way but to
      be abandoned, whoever is missing or uncounted; rows that are done, and rows
      of other claims, stay as they are. */
  lemma FailingAllAbandons(t: Table, me: Supervisor, holders: Holders, cast: Cast, h: HandleId)
    requires Cancelable(t, me, h)
    ensures var failed := FailedAll(holders, t, me, h);
            && (Busy(holders, h) || AnyFailed(holders, h) ==>
                  Fires(t, me, failed, cast, h) && !FiresCommit(t, failed, h))
            && failed.Keys == holders.Keys
            && (forall k | k in holders && (k.0 != h || holders[k] != HolderActive) :: failed[k] == holders[k])
  {
    var failed := FailedAll(holders, t, me, h);
    if Busy(holders, h) || AnyFailed(holders, h) {
      var r :| (h, r) in holders && holders[(h, r)] != HolderCompleted;
      assert (h, r) in failed && failed[(h, r)] == HolderFailed;
      assert HasRows(failed, h) && AnyFailed(failed, h) && !Busy(failed, h);
    }
  }
}
