/** The laws that hold between transactions: what every completion, give-up and
    acquisition keeps about handles, holder rows, runs and the outbox. */
module HeldLaws {
  import opened Claims
  import opened ClaimForest
  import opened ClaimForestLemmas
  import opened ClaimCounts
  import ClaimVerdicts
  import opened Ledger
  import opened HeldClaims

  /** Over the whole history: every resolved handle has exactly one verb, which
      is its final state, and no other verb was ever enqueued. */
  ghost predicate OutboxExact(t: Table, out: seq<Verb>) {
    && (forall v | v in out :: v.handle in t && t[v.handle].state == Resolved(v.commit))
    && (forall i, j | 0 <= i < j < |out| :: out[i].handle != out[j].handle)
    && (forall h | h in t && !IsActive(t, h) :: Announced(out, 0, h))
  }

  /** No run without child runs rests in Held with a fully resolved portfolio. */
  ghost predicate NoStuck(t: Table, holders: Holders, runs: Runs) {
    forall r :: !Stuck(t, holders, runs, r)
  }

  /** A fresh run's whole portfolio is committed. */
  ghost predicate FreshClean(t: Table, holders: Holders, runs: Runs) {
    forall r | r in runs && runs[r].state == Fresh :: FullyResolved(t, holders, r) && !Poisoned(t, holders, r)
  }

  /** A running run has not let go of any handle that is still open, the run
      `r` and the handle `h` aside. */
  ghost predicate RowsLive(t: Table, holders: Holders, runs: Runs, r: Option<RunId>, h: Option<HandleId>) {
    forall k | k in holders && IsActive(t, k.0) && k.1 in runs && runs[k.1].state == Running && r != Some(k.1)
        && h != Some(k.0) ::
      holders[k] == HolderActive
  }

  ghost predicate RowsOnHeld(t: Table, holders: Holders) {
    forall k | k in holders :: k.0 in t && t[k.0].held
  }

  /** A run co-holds only claims of subgraphs that its node is a member of. */
  ghost predicate RowsInvited(t: Table, holders: Holders, cast: Cast) {
    forall k | k in holders && k.0 in t && t[k.0].run != Some(k.1) :: cast.invited(k.1, k.0)
  }

  /** A held claim that is neither a sub-claim nor a fan-out parent. */
  ghost predicate Simple(t: Table, h: HandleId) {
    h in t && t[h].held && t[h].parent.None? && Children(t, h) == {}
  }

  ghost predicate MemberDone(cast: Cast, holders: Holders, h: HandleId, m: NodeType) {
    exists r :: (h, r) in holders && cast.typeOf(r) == Some(m) && holders[(h, r)] == HolderCompleted
  }

  ghost predicate AnyCompleted(holders: Holders, h: HandleId) {
    exists r :: (h, r) in holders && holders[(h, r)] == HolderCompleted
  }

  /** The verdict on a held claim: committed only if a holder completed and every
      expected member did, abandoned only if a holder failed, open only while it
      is not yet time. */
  ghost predicate VerdictRight(t: Table, holders: Holders, cast: Cast, h: HandleId)
    requires h in t
  {
    match t[h].state
    case Active => !Ready(cast, holders, h)
    case Committed =>
      AnyCompleted(holders, h)
          && (|cast.members(h)| > 1 ==> forall m | m in cast.members(h) :: MemberDone(cast, holders, h, m))
    case Abandoned => AnyFailed(holders, h)
  }

  ghost predicate VerdictsRight(t: Table, holders: Holders, cast: Cast, but: Option<HandleId>) {
    forall h: HandleId | Simple(t, h) && but != Some(h) :: VerdictRight(t, holders, cast, h)
  }

  /** All the laws, the run `r` and the handle `h` being in transit. */
  ghost predicate Sound(t: Table, out: seq<Verb>, holders: Holders, runs: Runs, me: Supervisor, cast: Cast,
                        r: Option<RunId>, h: Option<HandleId>) {
    && ClaimVerdicts.OneSupervisor(t, me) && CountsRight(t) && OutboxExact(t, out)
    && NoStuck(t, holders, runs) && FreshClean(t, holders, runs)
    && RowsLive(t, holders, runs, r, h) && RowsOnHeld(t, holders) && RowsInvited(t, holders, cast)
    && VerdictsRight(t, holders, cast, h)
  }

  // ------------------------------------------------- a resolution keeps them

  lemma OutboxExactStep(t: Table, out: seq<Verb>, t': Table, out': seq<Verb>)
    requires Evolves(t, t') && OutboxExact(t, out) && ExactlyOnce(t, out, t', out')
    ensures OutboxExact(t', out')
  {
  }

  lemma FreshCleanStep(t: Table, t': Table, holders: Holders, runs: Runs, runs': Runs)
    requires Evolves(t, t') && FreshClean(t, holders, runs) && RunsFollow(t', holders, runs, runs')
    ensures FreshClean(t', holders, runs')
  {
  }

  lemma OneSupervisorStep(t: Table, t': Table, me: Supervisor)
    requires Evolves(t, t') && ClaimVerdicts.OneSupervisor(t, me)
    ensures ClaimVerdicts.OneSupervisor(t', me)
  {
  }

  lemma RowsLiveStep(t: Table, t': Table, holders: Holders, runs: Runs, runs': Runs,
                     r: Option<RunId>, h: Option<HandleId>)
    requires Evolves(t, t') && RowsLive(t, holders, runs, r, h) && RunsFollow(t', holders, runs, runs')
    ensures RowsLive(t', holders, runs', r, h)
  {
  }

  lemma RowsOnHeldStep(t: Table, t': Table, holders: Holders, cast: Cast)
    requires Evolves(t, t') && RowsOnHeld(t, holders) && RowsInvited(t, holders, cast)
    ensures RowsOnHeld(t', holders) && RowsInvited(t', holders, cast)
  {
  }

  /** A root without children is touched by nobody else's resolution. */
  lemma {:induction false} ResolveSpares(t: Table, me: Supervisor, holders: Holders, level: map<HandleId, nat>,
                                         sup: Supervisor, x: HandleId, commit: bool, y: HandleId)
    requires Levelled(t, level) && WellHeld(t) && Cancelable(t, sup, x)
    requires y in t && t[y].parent.None? && Children(t, y) == {} && y != x
    ensures var t' := ResolveSpec(t, me, holders, sup, x, commit, true); y in t' && t'[y] == t[y]
    decreases |ActiveSet(t)|, 0
  {
    AloneFacts(t, me, holders, level, sup, x, commit);
    DoomSparesRoots(t, me, x, y);
    if t[x].parent.Some? {
      var p := t[x].parent.value;
      assert x in Children(t, p);
      SettleSpares(Alone(t, me, sup, x, commit), me, holders, level, p, commit, y);
    }
  }

  lemma DoomSparesRoots(t: Table, me: Supervisor, x: HandleId, y: HandleId)
    requires y in t && t[y].parent.None?
    ensures y !in Doomed(t, me, CancelableChildren(t, me, x))
  {
    var s := CancelableChildren(t, me, x);
    if y in Doomed(t, me, s) {
      AscentInside(t, me, s, y);
      assert false;
    }
  }

  lemma {:induction false} SettleSpares(t: Table, me: Supervisor, holders: Holders, level: map<HandleId, nat>,
                                        p: HandleId, commit: bool, y: HandleId)
    requires Levelled(t, level) && WellHeld(t)
    requires y in t && t[y].parent.None? && Children(t, y) == {} && y != p
    ensures var t' := SettleSpec(t, me, holders, p, commit); y in t' && t'[y] == t[y]
    decreases |ActiveSet(t)|, 2
  {
    if IsActive(t, p) {
      var t2 := Counted(t, me, p, commit);
      CountedEvolves(t, me, level, p, commit);
      EvolvesLevelled(t, t2, level);
      EvolvesHeld(t, t2);
      EvolvesActive(t, t2);
      EvolvesChildless(t, t2, y);
      DoomSparesRoots(Bump(t, p, commit), me, p, y);
      SettleIsTail(t, me, holders, p, commit);
      TailSpares(t2, me, holders, level, p, commit, y);
    }
  }

  lemma {:induction false} TailSpares(t: Table, me: Supervisor, holders: Holders, level: map<HandleId, nat>,
                                      p: HandleId, commit: bool, y: HandleId)
    requires Levelled(t, level) && WellHeld(t)
    requires y in t && t[y].parent.None? && Children(t, y) == {} && y != p
    ensures var t' := SettleTail(t, me, holders, p, commit); y in t' && t'[y] == t[y]
    decreases |ActiveSet(t)|, 1
  {
    if IsActive(t, p) && !HeldOpen(t, holders, p) {
      ReassignFacts(t, me, level, p);
      SameKin(t, Reassign(t, p, me), p, y);
      SameFamily(t, Reassign(t, p, me), y);
      ResolveSpares(Reassign(t, p, me), me, holders, level, me, p, AggregateCommits(t[p], commit), y);
    }
  }

  lemma EvolvesChildless(t: Table, t': Table, y: HandleId)
    requires Evolves(t, t')
    ensures Children(t', y) == Children(t, y)
  {
  }

  /** A resolution of `x` leaves the verdicts on all other held claims right. */
  lemma VerdictsStep(t: Table, me: Supervisor, holders: Holders, level: map<HandleId, nat>, cast: Cast,
                     x: HandleId, commit: bool)
    requires Levelled(t, level) && WellHeld(t) && Cancelable(t, me, x) && VerdictsRight(t, holders, cast, Some(x))
    ensures VerdictsRight(ResolveSpec(t, me, holders, me, x, commit, true), holders, cast, Some(x))
  {
    var t' := ResolveSpec(t, me, holders, me, x, commit, true);
    ResolveEvolves(t, me, holders, level, me, x, commit, true);
    forall y | Simple(t', y) && y != x ensures VerdictRight(t', holders, cast, y) {
      EvolvesChildless(t, t', y);
      assert y in t;
      ResolveSpares(t, me, holders, level, me, x, commit, y);
      assert Simple(t, y);
    }
  }

  /** Everything else a resolution keeps, runs that hold only `x` aside. */
  lemma ResolutionSound(t: Table, out: seq<Verb>, runs: Runs, t': Table, out': seq<Verb>, runs': Runs,
                        holders: Holders, me: Supervisor, cast: Cast, level: map<HandleId, nat>,
                        r: Option<RunId>, x: HandleId, commit: bool)
    requires Levelled(t, level) && Cancelable(t, me, x)
    requires Sound(t, out, holders, runs, me, cast, r, Some(x))
    requires t' == ResolveSpec(t, me, holders, me, x, commit, true)
    requires Progress(t, out, runs, t', out', runs', holders) && NoStuck(t', holders, runs')
    ensures Sound(t', out', holders, runs', me, cast, r, Some(x))
  {
    OneSupervisorStep(t, t', me);
    ResolveKeepsCounts(t, me, holders, level, me, x, commit);
    OutboxExactStep(t, out, t', out');
    FreshCleanStep(t, t', holders, runs, runs');
    RowsLiveStep(t, t', holders, runs, runs', r, Some(x));
    RowsOnHeldStep(t, t', holders, cast);
    VerdictsStep(t, me, holders, level, cast, x, commit);
  }

  /** Firing gives the right verdict, and not firing means it is not time. */
  lemma FiringIsRight(t: Table, t': Table, me: Supervisor, holders: Holders, cast: Cast, h: HandleId)
    requires Simple(t, h) && ClaimVerdicts.OneSupervisor(t, me) && CountsRight(t) && RowsOnHeld(t, holders)
    requires h in t' && (Fires(t, me, holders, cast, h) ==> t'[h].state == Resolved(FiresCommit(t, holders, h)))
    requires !Fires(t, me, holders, cast, h) ==>
            t'[h] == t[h] && (!IsActive(t, h) ==> VerdictRight(t, holders, cast, h))
    ensures VerdictRight(t', holders, cast, h)
  {
  }

  /** A held fan-out parent that auto-terminal commits met its policy on its real
      children, all of them resolved. */
  lemma FiredIsLawful(t: Table, me: Supervisor, holders: Holders, cast: Cast, h: HandleId)
    requires CountsRight(t) && Fires(t, me, holders, cast, h) && FiresCommit(t, holders, h) && Children(t, h) != {}
    ensures ClaimVerdicts.Lawful(t, h)
  {
    assert RowCounts(t, h);
    ClaimVerdicts.CountersDecide(t, h, true);
    var done, lost := ResolvedChildren(t, h, true), ResolvedChildren(t, h, false);
    assert |done + lost| == |done| + |lost| by { assert done !! lost; }
    CoversAll(done + lost, Children(t, h));
    forall c | ChildOf(t, c, h) ensures !IsActive(t, c) { assert c in Children(t, h); }
  }

  lemma CoversAll(a: set<HandleId>, b: set<HandleId>)
    requires a <= b && |a| >= |b|
    ensures a == b
  {
    assert b == a + (b - a);
    assert |a + (b - a)| == |a| + |b - a|;
  }
}
