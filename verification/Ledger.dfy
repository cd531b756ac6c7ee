/** What one settlement writes beside the claim rows: one outbox verb for each
    handle it resolves, and the runs that leave Held because of it. */
module Ledger {
  import opened Claims
  import opened ClaimForestLemmas

  /** `out'` extends `out` by exactly one verb for each handle that went from
      active to resolved between `t` and `t'`, and the verb is the final state. */
  ghost predicate ExactlyOnce(t: Table, out: seq<Verb>, t': Table, out': seq<Verb>) {
    && out <= out'
    && (forall i | |out| <= i < |out'| :: Settles(t, t', out'[i]))
    && (forall i, j | |out| <= i < j < |out'| :: out'[i].handle != out'[j].handle)
    && (forall h | IsActive(t, h) && !IsActive(t', h) :: Announced(out', |out|, h))
  }

  ghost predicate Settles(t: Table, t': Table, v: Verb) {
    IsActive(t, v.handle) && v.handle in t' && t'[v.handle].state == Resolved(v.commit)
  }

  ghost predicate Announced(out: seq<Verb>, from: nat, h: HandleId) {
    exists i :: from <= i < |out| && out[i].handle == h
  }

  ghost predicate HeldLeaf(runs: Runs, r: RunId) {
    r in runs && runs[r].state == Held && !runs[r].aggregating
  }

  /** The state a held run takes once its whole portfolio is resolved. */
  ghost function Verdict(t: Table, holders: Holders, r: RunId): RunState {
    if Poisoned(t, holders, r) then Failed else Fresh
  }

  /** A run changes only by leaving Held, only with its portfolio resolved, and
      then to the verdict of that portfolio. */
  ghost predicate RunsFollow(t': Table, holders: Holders, runs: Runs, runs': Runs) {
    runs'.Keys == runs.Keys &&
    forall r | r in runs ::
      runs'[r] == runs[r] ||
      (HeldLeaf(runs, r) && FullyResolved(t', holders, r)
       && runs'[r] == runs[r].(state := Verdict(t', holders, r)))
  }

  /** A run that rests in Held although nothing it holds is open. */
  ghost predicate Stuck(t: Table, holders: Holders, runs: Runs, r: RunId) {
    HeldLeaf(runs, r) && FullyResolved(t, holders, r)
  }

  /** No run got stuck, the holders of `exempt` aside. */
  ghost predicate NoNewStuck(t: Table, runs: Runs, t': Table, runs': Runs, holders: Holders, exempt: Option<HandleId>) {
    forall r :: Stuck(t', holders, runs', r) ==>
      Stuck(t, holders, runs, r) || (exempt.Some? && InPortfolio(t, holders, r, exempt.value))
  }

  /** Outbox verbs of still-active handles sit strictly above `bound`: they are
      the enclosing frames of a resolution under way. */
  ghost predicate OutboxClear(t: Table, out: seq<Verb>, level: map<HandleId, nat>, bound: nat) {
    forall v | v in out && IsActive(t, v.handle) :: v.handle in level && level[v.handle] < bound
  }

  /** One settlement, or any number of them in a row. */
  ghost predicate Progress(t: Table, out: seq<Verb>, runs: Runs,
                           t': Table, out': seq<Verb>, runs': Runs, holders: Holders) {
    Evolves(t, t') && ExactlyOnce(t, out, t', out') && RunsFollow(t', holders, runs, runs')
  }

  lemma ProgressNone(t: Table, out: seq<Verb>, runs: Runs, holders: Holders)
    ensures Progress(t, out, runs, t, out, runs, holders)
  {
  }

  lemma ExactlyOnceTrans(t: Table, out: seq<Verb>, t1: Table, out1: seq<Verb>, t2: Table, out2: seq<Verb>)
    requires Evolves(t, t1) && Evolves(t1, t2)
    requires ExactlyOnce(t, out, t1, out1) && ExactlyOnce(t1, out1, t2, out2)
    ensures ExactlyOnce(t, out, t2, out2)
  {
    forall i | |out| <= i < |out2|
      ensures Settles(t, t2, out2[i])
    {
      if i < |out1| {
        assert out2[i] == out1[i] && Settles(t, t1, out1[i]);
      } else {
        assert Settles(t1, t2, out2[i]) && out2[i].handle in t;
      }
    }
    forall i, j | |out| <= i < j < |out2|
      ensures out2[i].handle != out2[j].handle
    {
      if i < |out1| <= j {
        assert out2[i] == out1[i] && Settles(t, t1, out1[i]) && Settles(t1, t2, out2[j]);
      } else if j < |out1| {
        assert out2[i] == out1[i] && out2[j] == out1[j];
      }
    }
    forall h | IsActive(t, h) && !IsActive(t2, h)
      ensures Announced(out2, |out|, h)
    {
      if IsActive(t1, h) {
        assert Announced(out2, |out1|, h);
      } else {
        var i :| |out| <= i < |out1| && out1[i].handle == h;
        assert out2[i] == out1[i];
      }
    }
  }

  lemma RunsFollowTrans(t1: Table, t2: Table, holders: Holders, runs: Runs, runs1: Runs, runs2: Runs)
    requires Evolves(t1, t2)
    requires RunsFollow(t1, holders, runs, runs1) && RunsFollow(t2, holders, runs1, runs2)
    ensures RunsFollow(t2, holders, runs, runs2)
  {
  }

  lemma ProgressTrans(t: Table, out: seq<Verb>, runs: Runs, t1: Table, out1: seq<Verb>, runs1: Runs,
                      t2: Table, out2: seq<Verb>, runs2: Runs, holders: Holders)
    requires Progress(t, out, runs, t1, out1, runs1, holders)
    requires Progress(t1, out1, runs1, t2, out2, runs2, holders)
    ensures Progress(t, out, runs, t2, out2, runs2, holders)
  {
    EvolvesTrans(t, t1, t2);
    ExactlyOnceTrans(t, out, t1, out1, t2, out2);
    RunsFollowTrans(t1, t2, holders, runs, runs1, runs2);
  }

  lemma ProgressClear(t: Table, out: seq<Verb>, runs: Runs, t': Table, out': seq<Verb>, runs': Runs,
                      holders: Holders, level: map<HandleId, nat>, bound: nat)
    requires Progress(t, out, runs, t', out', runs', holders)
    requires OutboxClear(t, out, level, bound)
    ensures OutboxClear(t', out', level, bound)
  {
    forall v | v in out' && IsActive(t', v.handle)
      ensures v.handle in level && level[v.handle] < bound
    {
      var i :| 0 <= i < |out'| && out'[i] == v;
      if i < |out| {
        assert out[i] == v;
        assert v.handle in t;
      }
    }
  }

  lemma NoNewStuckTrans(t: Table, runs: Runs, t1: Table, runs1: Runs, t2: Table, runs2: Runs,
                        holders: Holders, exempt: Option<HandleId>)
    requires Evolves(t, t1)
    requires NoNewStuck(t, runs, t1, runs1, holders, exempt) && NoNewStuck(t1, runs1, t2, runs2, holders, None)
    ensures NoNewStuck(t, runs, t2, runs2, holders, exempt)
  {
  }

  /** Announce `h`, resolve its descendants, promote `h`: one verb each. */
  lemma PromoteExactlyOnce(t: Table, out: seq<Verb>, h: HandleId, sup: Supervisor, commit: bool, t1: Table,
                           out1: seq<Verb>)
    requires Cancelable(t, sup, h) && Evolves(t, t1) && IsActive(t1, h)
    requires Verb(h, commit) !in out
    requires ExactlyOnce(t, Enqueue(out, Verb(h, commit)), t1, out1)
    ensures Evolves(t, Promote(t1, h, sup, commit))
    ensures ExactlyOnce(t, out, Promote(t1, h, sup, commit), out1)
  {
    var mid := out + [Verb(h, commit)];
    var t2 := Promote(t1, h, sup, commit);
    assert out <= mid <= out1;
    assert out1[|out|] == mid[|out|] == Verb(h, commit);
    forall i | |out| <= i < |out1|
      ensures Settles(t, t2, out1[i]) && (i > |out| ==> out1[i].handle != h)
    {
      if i > |out| { assert Settles(t, t1, out1[i]); }
    }
    forall x | IsActive(t, x) && !IsActive(t2, x)
      ensures Announced(out1, |out|, x)
    {
      if x != h { assert Announced(out1, |mid|, x); }
    }
  }

  /** Promoting `h` can only strand the runs that hold `h`. */
  lemma PromoteStrands(t: Table, h: HandleId, sup: Supervisor, commit: bool, holders: Holders, runs: Runs)
    requires Cancelable(t, sup, h)
    ensures NoNewStuck(t, runs, Promote(t, h, sup, commit), runs, holders, Some(h))
  {
    var t' := Promote(t, h, sup, commit);
    forall r | Stuck(t', holders, runs, r) && !InPortfolio(t, holders, r, h)
      ensures FullyResolved(t, holders, r)
    {
      forall x | InPortfolio(t, holders, r, x) ensures !IsActive(t, x) {
        assert InPortfolio(t', holders, r, x);
      }
    }
  }

  /** What the deferred cascade of `h` does to the runs. */
  ghost predicate Cascaded(t: Table, holders: Holders, runs: Runs, runs': Runs, h: HandleId, source: Source) {
    && RunsFollow(t, holders, runs, runs')
    && (forall r :: Stuck(t, holders, runs', r) ==>
          Stuck(t, holders, runs, r) && (source == HeldTerminal ==> !InPortfolio(t, holders, r, h)))
  }

  ghost function Exempt(h: HandleId, source: Source): Option<HandleId> {
    if source == ActiveTerminal then Some(h) else None
  }

  /** The first half of a resolution, up to telling the parent. */
  lemma ResolveHalf(t: Table, out: seq<Verb>, runs: Runs, h: HandleId, sup: Supervisor, commit: bool, source: Source,
                    t1: Table, out1: seq<Verb>, runs1: Runs, runs2: Runs, holders: Holders)
    requires Cancelable(t, sup, h) && t1.Keys == t.Keys && t1[h] == t[h] && Verb(h, commit) !in out
    requires Progress(t, Enqueue(out, Verb(h, commit)), runs, t1, out1, runs1, holders)
    requires NoNewStuck(t, runs, t1, runs1, holders, None)
    requires Cascaded(Promote(t1, h, sup, commit), holders, runs1, runs2, h, source)
    ensures var t2 := Promote(t1, h, sup, commit);
            Progress(t, out, runs, t2, out1, runs2, holders)
                && NoNewStuck(t, runs, t2, runs2, holders, Exempt(h, source))
  {
    var t2 := Promote(t1, h, sup, commit);
    PromoteExactlyOnce(t, out, h, sup, commit, t1, out1);
    PromoteStrands(t1, h, sup, commit, holders, runs1);
    assert Evolves(t1, t2);
    RunsFollowTrans(t1, t2, holders, runs, runs1, runs1);
    RunsFollowTrans(t2, t2, holders, runs, runs1, runs2);
    forall r | Stuck(t2, holders, runs2, r)
      ensures Stuck(t, holders, runs, r) || (source == ActiveTerminal && InPortfolio(t, holders, r, h))
    {
      assert Stuck(t2, holders, runs1, r);
      assert InPortfolio(t2, holders, r, h) <==> InPortfolio(t, holders, r, h);
      assert InPortfolio(t1, holders, r, h) <==> InPortfolio(t, holders, r, h);
    }
  }

  /** Changing only the counters or the holder of an active row is no settlement:
      a settlement after it that closes the row, or keeps its holder, is one of
      the original table. */
  lemma RetouchProgress(t: Table, u: Table, p: HandleId, out: seq<Verb>, runs: Runs,
                        t': Table, out': seq<Verb>, runs': Runs, holders: Holders)
    requires IsActive(t, p) && u.Keys == t.Keys && (forall h | h in t && h != p :: u[h] == t[h])
    requires u[p] == t[p].(holder := u[p].holder, committed := u[p].committed, abandoned := u[p].abandoned)
    requires u[p].holder == t[p].holder || !IsActive(t', p)
    requires Progress(u, out, runs, t', out', runs', holders) && NoNewStuck(u, runs, t', runs', holders, None)
    ensures Progress(t, out, runs, t', out', runs', holders) && NoNewStuck(t, runs, t', runs', holders, None)
  {
    assert forall h :: IsActive(u, h) <==> IsActive(t, h);
    forall h | h in t
      ensures !IsActive(t, h) ==> t'[h] == t[h]
      ensures IsActive(t', h) ==> t'[h].holder == t[h].holder
      ensures t'[h].parent == t[h].parent && t'[h].run == t[h].run && t'[h].held == t[h].held
      ensures t'[h].policy == t[h].policy && t'[h].expected == t[h].expected
    {
      assert h in u;
    }
    forall i | |out| <= i < |out'| ensures Settles(t, t', out'[i]) { assert Settles(u, t', out'[i]); }
    forall r | Stuck(t', holders, runs', r) ensures Stuck(t, holders, runs, r) {
      assert Stuck(u, holders, runs, r);
      forall h | InPortfolio(t, holders, r, h) ensures !IsActive(t, h) { assert InPortfolio(u, holders, r, h); }
    }
  }
}
