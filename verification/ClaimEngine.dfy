/** The settlement engine: the mutually recursive resolve, cancel and settle
    methods, which re-read rows under lock and re-enter one another. */
module ClaimEngine {
  import opened Claims
  import opened ClaimForest
  import opened ClaimForestLemmas
  import opened ClaimWalk
  import opened Ledger

  function Elems(s: seq<HandleId>): set<HandleId> {
    set h | h in s
  }

  /** The tables of one transaction and the supervisor that runs it. `level` and
      `depth` witness that the handle table is a finite forest. */
  class Engine {
    const me: Supervisor
    var handles: Table
    var outbox: seq<Verb>
    var holders: Holders
    var runs: Runs
    ghost var level: map<HandleId, nat>
    ghost var depth: nat

    constructor (me: Supervisor, handles: Table, outbox: seq<Verb>, holders: Holders, runs: Runs,
                 ghost level: map<HandleId, nat>, ghost depth: nat)
      requires Levelled(handles, level) && forall h | h in level :: level[h] <= depth
      ensures Valid()
      ensures this.me == me && this.handles == handles && this.outbox == outbox
      ensures this.holders == holders && this.runs == runs && this.level == level
    {
      this.me, this.handles, this.outbox, this.holders, this.runs := me, handles, outbox, holders, runs;
      this.level, this.depth := level, depth;
    }

    ghost predicate Valid()
      reads this
    {
      Levelled(handles, level) && forall h | h in level :: level[h] <= depth
    }

    ghost function Height(h: HandleId): nat
      reads this
      requires Valid()
    {
      if h in level then depth - level[h] else 0
    }

    /** The rows of one parent come back in no particular order. */
    method ListChildren(p: HandleId) returns (ids: seq<HandleId>)
      ensures forall h :: h in ids <==> ChildOf(handles, h, p)
      ensures forall i, j | 0 <= i < j < |ids| :: ids[i] != ids[j]
    {
      var rest := Children(handles, p);
      ids := [];
      while rest != {}
        invariant forall h :: h in ids || h in rest <==> ChildOf(handles, h, p)
        invariant forall h | h in ids :: h !in rest
        invariant forall i, j | 0 <= i < j < |ids| :: ids[i] != ids[j]
      {
        var h :| h in rest;
        ids := ids + [h];
        rest := rest - {h};
      }
    }

    method ListHolderRuns(h: HandleId) returns (rs: seq<RunId>)
      ensures forall r :: r in rs <==> (h, r) in holders
    {
      var rest := set k | k in holders && k.0 == h;
      rs := [];
      ghost var all := rest;
      while rest != {}
        invariant rest <= all
        invariant forall r :: r in rs <==> (h, r) in all && (h, r) !in rest
      {
        var k :| k in rest;
        rs := rs + [k.1];
        rest := rest - {k};
      }
    }

    method AnyActiveHolder(h: HandleId) returns (b: bool)
      ensures b <==> Busy(holders, h)
    {
      var rs := ListHolderRuns(h);
      b := false;
      for i := 0 to |rs|
        invariant b ==> Busy(holders, h)
        invariant !b ==> forall j | 0 <= j < i :: holders[(h, rs[j])] != HolderActive
      {
        if holders[(h, rs[i])] == HolderActive { return true; }
      }
      forall r | (h, r) in holders ensures holders[(h, r)] != HolderActive { assert r in rs; }
    }

    method AnyActiveChild(p: HandleId) returns (b: bool)
      ensures b <==> exists c :: ChildOf(handles, c, p) && IsActive(handles, c)
    {
      var ids := ListChildren(p);
      for i := 0 to |ids|
        invariant forall c | c in ids[..i] :: !IsActive(handles, c)
      {
        assert ids[i] in ids && ids[..i + 1] == ids[..i] + [ids[i]];
        if handles[ids[i]].state == Active { return true; }
      }
      assert ids[..|ids|] == ids;
      return false;
    }

    /** Whether `p` is still active with no active holder and no active child. */
    method IsClosed(p: HandleId) returns (b: bool)
      requires IsActive(handles, p) ==> handles[p].holder.Some?
      ensures b <==> IsActive(handles, p) && !HeldOpen(handles, holders, p)
    {
      if p !in handles || handles[p].holder.None? || handles[p].state != Active { return false; }
      var busy := AnyActiveHolder(p);
      if busy { return false; }
      var open := AnyActiveChild(p);
      return !open;
    }

    /** Whether all that a run acquired or co-holds is resolved, and whether any
        of it was abandoned. */
    method EvaluatePortfolio(r: RunId) returns (resolved: bool, poisoned: bool)
      ensures resolved <==> FullyResolved(handles, holders, r)
      ensures poisoned <==> Poisoned(handles, holders, r)
      ensures resolved <==> forall h | h in handles && (handles[h].run == Some(r) || (h, r) in holders) ::
                              handles[h].state != Active
      ensures poisoned <==> exists h :: h in handles && (handles[h].run == Some(r) || (h, r) in holders)
                                        && handles[h].state == Abandoned
    {
      resolved, poisoned := true, false;
      var rest := set h | h in handles && (handles[h].run == Some(r) || (h, r) in holders);
      ghost var all := rest;
      while rest != {}
        invariant rest <= all
        invariant resolved <==> forall h | h in all && h !in rest :: !IsActive(handles, h)
        invariant poisoned <==> exists h :: h in all && h !in rest && handles[h].state == Abandoned
      {
        var h :| h in rest;
        match handles[h].state {
          case Active => resolved := false;
          case Abandoned => poisoned := true;
          case Committed =>
        }
        ghost var before := rest;
        rest := rest - {h};
        assert forall x :: (x in all && x !in rest) <==> ((x in all && x !in before) || x == h);
      }
      assert forall h :: h in all <==> InPortfolio(handles, holders, r, h);
      assert resolved <==> forall h | h in all :: handles[h].state != Active;
    }

    /** Moves a held run that has no child runs to its verdict once nothing it
        holds is open. */
    method TransitionHolder(r: RunId)
      modifies this`runs
      ensures runs == if Stuck(handles, holders, old(runs), r)
                      then old(runs)[r := old(runs)[r].(state := Verdict(handles, holders, r))]
                      else old(runs)
      ensures !Stuck(handles, holders, runs, r)
    {
      if r !in runs || runs[r].state != Held || runs[r].aggregating { return; }
      var resolved, poisoned := EvaluatePortfolio(r);
      if !resolved { return; }
      runs := runs[r := runs[r].(state := if poisoned then Failed else Fresh)];
    }

    /** After a held-source resolution of `h`, every holder of `h` and the run
        that acquired it get their chance to leave Held. */
    method EmitDeferredHeldCascade(h: HandleId, source: Source)
      requires h in handles
      modifies this`runs
      ensures Cascaded(handles, holders, old(runs), runs, h, source)
      ensures source == ActiveTerminal ==> runs == old(runs)
    {
      if source == ActiveTerminal { return; }
      var rs := ListHolderRuns(h);
      for i := 0 to |rs|
        invariant RunsFollow(handles, holders, old(runs), runs)
        invariant forall r :: Stuck(handles, holders, runs, r) ==>
                    Stuck(handles, holders, old(runs), r) && r !in rs[..i]
      {
        ghost var before := runs;
        TransitionHolder(rs[i]);
        assert forall r :: Stuck(handles, holders, runs, r) ==> Stuck(handles, holders, before, r) && r != rs[i];
      }
      var acquirer := handles[h].run;
      if acquirer.Some? && acquirer.value !in rs {
        ghost var before := runs;
        TransitionHolder(acquirer.value);
        assert forall r :: Stuck(handles, holders, runs, r) ==>
            Stuck(handles, holders, before, r) && r != acquirer.value;
      }
    }

    // ------------------------------------------------------------ settlement

    method Resolve(h: HandleId, sup: Supervisor, source: Source, outcome: Outcome, up: bool, ghost bound: nat)
      requires Valid() && Cancelable(handles, sup, h)
      requires bound <= level[h] && (up ==> bound == 0)
      requires OutboxClear(handles, outbox, level, bound)
      modifies this`handles, this`outbox, this`runs
      ensures Valid()
      ensures handles == ResolveSpec(old(handles), me, holders, sup, h, outcome.Commit?, up)
      ensures Progress(old(handles), old(outbox), old(runs), handles, outbox, runs, holders)
      ensures NoNewStuck(old(handles), old(runs), handles, runs, holders, Exempt(h, source))
      decreases |ActiveSet(handles)|, Height(h), 1
    {
      ghost var t, out, rs := handles, outbox, runs;
      ResolveSelf(h, sup, source, outcome, bound);
      ResolveParts(t, me, holders, level, sup, h, outcome.Commit?, up, handles);
      if !up || handles[h].parent.None? { return; }
      ghost var t2, out2, rs2 := handles, outbox, runs;
      ProgressClear(t, out, rs, t2, out2, rs2, holders, level, 0);
      ActiveShrinks(t, t2, h);
      Settle(handles[h].parent.value, h, outcome);
      ProgressTrans(t, out, rs, t2, out2, rs2, handles, outbox, runs, holders);
      NoNewStuckTrans(t, rs, t2, rs2, handles, runs, holders, Exempt(h, source));
    }

    /** Everything in a resolution but telling the parent: announce the verb, on an
        abandon cancel the descendants, promote the row, let held runs go on. */
    method ResolveSelf(h: HandleId, sup: Supervisor, source: Source, outcome: Outcome, ghost bound: nat)
      requires Valid() && Cancelable(handles, sup, h)
      requires bound <= level[h] && OutboxClear(handles, outbox, level, bound)
      modifies this`handles, this`outbox, this`runs
      ensures Valid()
      ensures handles == ResolveSpec(old(handles), me, holders, sup, h, outcome.Commit?, false)
      ensures Progress(old(handles), old(outbox), old(runs), handles, outbox, runs, holders)
      ensures NoNewStuck(old(handles), old(runs), handles, runs, holders, Exempt(h, source))
      decreases |ActiveSet(handles)|, Height(h), 0, 2
    {
      ghost var t, out, rs := handles, outbox, runs;
      assert Verb(h, outcome.Commit?) !in out;
      outbox := Enqueue(outbox, Verb(h, outcome.Commit?));
      ProgressNone(handles, outbox, runs, holders);
      if outcome.IsAbandon() {
        CancelDescendants(h);
      }
      ghost var t1, rs1 := handles, runs;
      ResolveUnfold(t, me, holders, level, sup, h, outcome.Commit?, false, t1);
      handles := Promote(handles, h, sup, outcome.Commit?);
      EmitDeferredHeldCascade(h, source);
      ResolveHalf(t, out, rs, h, sup, outcome.Commit?, source, t1, outbox, rs1, runs, holders);
      EvolvesLevelled(t, handles, level);
    }

    method CancelDescendants(h: HandleId)
      requires Valid() && IsActive(handles, h)
      requires OutboxClear(handles, outbox, level, level[h] + 1)
      modifies this`handles, this`outbox, this`runs
      ensures Valid()
      ensures handles == AbandonAll(old(handles), Doomed(old(handles), me, CancelableChildren(old(handles), me, h)))
      ensures Progress(old(handles), old(outbox), old(runs), handles, outbox, runs, holders)
      ensures NoNewStuck(old(handles), old(runs), handles, runs, holders, None)
      decreases |ActiveSet(handles)|, Height(h), 0, 1
    {
      var ids := ListChildren(h);
      CancelWalk(ids, handles, DescendantCancel, None, false, h);
    }

    method CancelSiblings(p: HandleId, trigger: HandleId)
      requires Valid() && IsActive(handles, p) && handles[p].holder.Some?
      requires !IsActive(handles, trigger)
      requires OutboxClear(handles, outbox, level, 0)
      modifies this`handles, this`outbox, this`runs
      ensures Valid()
      ensures handles == if old(handles)[p].policy.Strict? then WalkSpec(old(handles), me, holders, p, true)
              else old(handles)
      ensures Progress(old(handles), old(outbox), old(runs), handles, outbox, runs, holders)
      ensures NoNewStuck(old(handles), old(runs), handles, runs, holders, None)
      decreases |ActiveSet(handles)|, Height(p), 3
    {
      ProgressNone(handles, outbox, runs, holders);
      if !handles[p].policy.Strict? { return; }
      var ids := ListChildren(p);
      CancelWalk(ids, handles, SiblingCancel, Some(trigger), true, p);
    }

    /** Walks a listing of the children of `p`. Rows are judged by the listing and
        read again before each is resolved, since resolving one may have resolved
        the others. */
    method CancelWalk(ids: seq<HandleId>, listing: Table, outcome: Outcome, skip: Option<HandleId>, up: bool,
                      ghost p: HandleId)
      requires Valid() && IsActive(handles, p) && listing == handles && outcome.IsAbandon()
      requires forall c :: c in ids <==> ChildOf(handles, c, p)
      requires skip.Some? ==> !IsActive(handles, skip.value)
      requires up ==> handles[p].policy.Strict? && handles[p].holder.Some?
      requires OutboxClear(handles, outbox, level, if up then 0 else level[p] + 1)
      modifies this`handles, this`outbox, this`runs
      ensures Valid()
      ensures handles == WalkSpec(old(handles), me, holders, p, up)
      ensures Progress(old(handles), old(outbox), old(runs), handles, outbox, runs, holders)
      ensures NoNewStuck(old(handles), old(runs), handles, runs, holders, None)
      decreases |ActiveSet(handles)|, Height(p), 0, 0
    {
      ghost var t, out, rs := handles, outbox, runs;
      WalkStart(t, me, holders, p, up);
      ProgressNone(t, out, rs, holders);
      for i := 0 to |ids|
        invariant Valid()
        invariant WalkInv(t, handles, me, holders, p, Elems(ids[..i]), up)
        invariant Progress(t, out, rs, handles, outbox, runs, holders)
        invariant NoNewStuck(t, rs, handles, runs, holders, None)
      {
        var c := ids[i];
        ghost var done := Elems(ids[..i]);
        assert c in ids && ids[..i + 1] == ids[..i] + [c];
        if skip == Some(c) || listing[c].state != Active || listing[c].holder != Some(me)
           || handles[c].state != Active {
          WalkSkip(t, handles, me, holders, level, p, done, up, c);
          continue;
        }
        EvolvesActive(t, handles);
        CancelRow(c, outcome, up, p, done, t, out, rs);
      }
      assert ids[..|ids|] == ids;
      WalkEnd(t, handles, me, holders, p, Elems(ids), up);
    }

    /** One row of the walk that is still active on the second reading. */
    method CancelRow(c: HandleId, outcome: Outcome, up: bool,
                     ghost p: HandleId, ghost done: set<HandleId>, ghost t: Table, ghost out: seq<Verb>, ghost rs: Runs)
      requires Valid() && Levelled(t, level) && IsActive(t, p) && outcome.IsAbandon()
      requires ChildOf(t, c, p) && Cancelable(t, me, c) && IsActive(handles, c)
      requires up ==> t[p].policy.Strict? && t[p].holder.Some?
      requires OutboxClear(t, out, level, if up then 0 else level[p] + 1)
      requires WalkInv(t, handles, me, holders, p, done, up)
      requires Progress(t, out, rs, handles, outbox, runs, holders) && NoNewStuck(t, rs, handles, runs, holders, None)
      modifies this`handles, this`outbox, this`runs
      ensures Valid() && WalkInv(t, handles, me, holders, p, done + {c}, up)
      ensures Progress(t, out, rs, handles, outbox, runs, holders) && NoNewStuck(t, rs, handles, runs, holders, None)
      decreases |ActiveSet(handles)|, Height(c), 2
    {
      ghost var bound := if up then 0 else level[p] + 1;
      ghost var t1, out1, rs1 := handles, outbox, runs;
      WalkFinds(t, t1, me, holders, level, p, done, up, c);
      ProgressClear(t, out, rs, t1, out1, rs1, holders, level, bound);
      if up { WalkStepUp(t, me, holders, level, p, done + {c}, c); }
      else { WalkStepDown(t, t1, me, holders, level, p, done, c); }
      Resolve(c, me, HeldTerminal, outcome, up, bound);
      ProgressTrans(t, out, rs, t1, out1, rs1, handles, outbox, runs, holders);
      NoNewStuckTrans(t, rs, t1, rs1, handles, runs, holders, None);
    }

    /** A child of `p` has resolved: count it, cancel its siblings if the policy
        says so, and resolve `p` itself once nothing holds it open. */
    method Settle(p: HandleId, child: HandleId, outcome: Outcome)
      requires Valid() && !IsActive(handles, child)
      requires OutboxClear(handles, outbox, level, 0)
      modifies this`handles, this`outbox, this`runs
      ensures Valid()
      ensures handles == SettleSpec(old(handles), me, holders, p, outcome.Commit?)
      ensures Progress(old(handles), old(outbox), old(runs), handles, outbox, runs, holders)
      ensures NoNewStuck(old(handles), old(runs), handles, runs, holders, None)
      decreases |ActiveSet(handles)|, Height(p), 5
    {
      ghost var t, out, rs := handles, outbox, runs;
      ProgressNone(handles, outbox, runs, holders);
      if p !in handles || handles[p].holder.None? || handles[p].state != Active { return; }
      ReviewSettles(t, me, holders, level, p, outcome.Commit?);
      CountChild(p, child, outcome);
      ghost var u, out2, rs2 := handles, outbox, runs;
      ProgressClear(t, out, rs, u, out2, rs2, holders, level, 0);
      EvolvesActive(t, u);
      ResolveIfClosed(p, outcome);
      ProgressTrans(t, out, rs, u, out2, rs2, handles, outbox, runs, holders);
      NoNewStuckTrans(t, rs, u, rs2, handles, runs, holders, None);
    }

    /** Counts a resolved child and, on an abandon, cancels its siblings. */
    method CountChild(p: HandleId, child: HandleId, outcome: Outcome)
      requires Valid() && !IsActive(handles, child) && IsActive(handles, p) && handles[p].holder.Some?
      requires OutboxClear(handles, outbox, level, 0)
      modifies this`handles, this`outbox, this`runs
      ensures Valid()
      ensures handles == Reviewed(old(handles), me, holders, p, outcome.Commit?)
      ensures Progress(old(handles), old(outbox), old(runs), handles, outbox, runs, holders)
      ensures NoNewStuck(old(handles), old(runs), handles, runs, holders, None)
      decreases |ActiveSet(handles)|, Height(p), 4
    {
      ghost var t, out, rs := handles, outbox, runs;
      BumpEvolves(t, p, outcome.Commit?);
      handles := Bump(handles, p, outcome.Commit?);
      ghost var t1 := handles;
      EvolvesLevelled(t, t1, level);
      ProgressNone(t1, out, rs, holders);
      if outcome.IsAbandon() {
        CancelSiblings(p, child);
      }
      RetouchProgress(t, t1, p, out, rs, handles, outbox, runs, holders);
    }

    /** Reads the parent again and resolves it, taking it over from another
        supervisor if need be, unless a holder or a child is still active. */
    method ResolveIfClosed(p: HandleId, outcome: Outcome)
      requires Valid() && (IsActive(handles, p) ==> handles[p].holder.Some?)
      requires OutboxClear(handles, outbox, level, 0)
      modifies this`handles, this`outbox, this`runs
      ensures Valid()
      ensures handles == SettleTail(old(handles), me, holders, p, outcome.Commit?)
      ensures Progress(old(handles), old(outbox), old(runs), handles, outbox, runs, holders)
      ensures NoNewStuck(old(handles), old(runs), handles, runs, holders, None)
      decreases |ActiveSet(handles)|, Height(p), 2
    {
      ghost var u, out, rs := handles, outbox, runs;
      ProgressNone(u, out, rs, holders);
      var closed := IsClosed(p);
      if !closed { return; }
      var commits := AggregateCommits(handles[p], outcome.Commit?);
      if handles[p].holder != Some(me) {
        handles := Reassign(handles, p, me);
      }
      ghost var v := handles;
      Takeover(u, me, holders, level, outbox, p, outcome.Commit?, v);
      Resolve(p, me, HeldTerminal, if commits then Commit else Abandon, true, 0);
      RetouchProgress(u, v, p, out, rs, handles, outbox, runs, holders);
    }
  }

  /** A resolution that tells the parent is one that does not, then settling. */
  lemma ResolveParts(t: Table, me: Supervisor, holders: Holders, level: map<HandleId, nat>, sup: Supervisor,
                     h: HandleId, commit: bool, up: bool, t2: Table)
    requires Levelled(t, level) && Cancelable(t, sup, h)
    requires t2 == ResolveSpec(t, me, holders, sup, h, commit, false)
    ensures ResolveSpec(t, me, holders, sup, h, commit, up)
            == if up && t[h].parent.Some? then SettleSpec(t2, me, holders, t[h].parent.value, commit) else t2
    ensures h in t2 && !IsActive(t2, h) && t2[h].parent == t[h].parent
  {
  }

  /** Taking a closed parent over and resolving it is what the tail asks for. */
  lemma Takeover(u: Table, me: Supervisor, holders: Holders, level: map<HandleId, nat>, out: seq<Verb>,
                 p: HandleId, commit: bool, v: Table)
    requires Levelled(u, level) && OutboxClear(u, out, level, 0) && IsActive(u, p) && !HeldOpen(u, holders, p)
    requires v == if u[p].holder != Some(me) then Reassign(u, p, me) else u
    ensures Levelled(v, level) && OutboxClear(v, out, level, 0) && Cancelable(v, me, p)
    ensures ActiveSet(v) == ActiveSet(u) && v[p] == u[p].(holder := Some(me))
    ensures v.Keys == u.Keys && forall h | h in u && h != p :: v[h] == u[h]
    ensures var t' := ResolveSpec(v, me, holders, me, p, AggregateCommits(u[p], commit), true);
            t' == SettleTail(u, me, holders, p, commit) && !IsActive(t', p)
  {
    assert v == Reassign(u, p, me);
    TakeoverKeeps(u, me, level, out, p);
    ResolveEvolves(v, me, holders, level, me, p, AggregateCommits(u[p], commit), true);
  }

  lemma TakeoverKeeps(u: Table, me: Supervisor, level: map<HandleId, nat>, out: seq<Verb>, p: HandleId)
    requires Levelled(u, level) && OutboxClear(u, out, level, 0) && IsActive(u, p)
    ensures var v := Reassign(u, p, me);
            && Levelled(v, level) && OutboxClear(v, out, level, 0) && Cancelable(v, me, p)
                 && ActiveSet(v) == ActiveSet(u)
  {
  }
}
