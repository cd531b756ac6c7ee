/** Acquisition: root claims, co-holder rows and fan-out sub-claims, each keeping
    the laws that settlement relies on. */
module ClaimIntake {
  import opened Claims
  import ClaimForestLemmas
  import opened ClaimCounts
  import Ledger
  import opened ClaimEngine
  import opened HeldClaims
  import opened HeldLaws
  import opened HeldRuns

  /** An id that nothing refers to yet. */
  predicate FreshId(t: Table, id: HandleId) {
    id !in t && Children(t, id) == {}
  }

  function NewRow(me: Supervisor, run: RunId, parent: Option<HandleId>, held: bool): Handle {
    Handle(Active, Some(me), parent, Some(run), held, Unrecognised, 0, 0, 0)
  }

  /** Inserts a row and counts it with the parent it names. */
  function WithRow(t: Table, id: HandleId, row: Handle): Table {
    if row.parent.Some? && row.parent.value in t && row.parent.value != id
    then t[id := row][row.parent.value := t[row.parent.value].(expected := t[row.parent.value].expected + 1)]
    else t[id := row]
  }

  // ------------------------------------------------------------ new rows

  lemma NewFamily(t: Table, id: HandleId, row: Handle, q: HandleId)
    requires FreshId(t, id) && row.state.Active? && q != id
    ensures var t' := WithRow(t, id, row);
            && Children(t', q) == (if row.parent == Some(q) then Children(t, q) + {id} else Children(t, q))
            && ResolvedChildren(t', q, true) == ResolvedChildren(t, q, true)
            && ResolvedChildren(t', q, false) == ResolvedChildren(t, q, false)
  {
  }

  lemma NewCounts(t: Table, id: HandleId, me: Supervisor, run: RunId, parent: Option<HandleId>, held: bool)
    requires FreshId(t, id) && CountsRight(t) && parent != Some(id)
    ensures CountsRight(WithRow(t, id, NewRow(me, run, parent, held)))
  {
    var row := NewRow(me, run, parent, held);
    var t' := WithRow(t, id, row);
    forall q | IsActive(t', q) ensures RowCounts(t', q) {
      if q == id {
        forall c ensures !ChildOf(t', c, id) { assert c !in Children(t, id); }
        assert Children(t', id) == {} && ResolvedChildren(t', id, true) == {} && ResolvedChildren(t', id, false) == {};
      } else {
        NewFamily(t, id, row, q);
        assert IsActive(t, q) && id !in Children(t, q);
      }
    }
  }

  lemma NewPortfolios(t: Table, holders: Holders, id: HandleId, row: Handle, q: RunId)
    requires FreshId(t, id) && RowsOnHeld(t, holders) && row.run != Some(q)
    ensures FullyResolved(WithRow(t, id, row), holders, q) <==> FullyResolved(t, holders, q)
    ensures Poisoned(WithRow(t, id, row), holders, q) <==> Poisoned(t, holders, q)
  {
    var t' := WithRow(t, id, row);
    forall h: HandleId ensures InPortfolio(t', holders, q, h) <==> InPortfolio(t, holders, q, h) {
      if (h, q) in holders { assert (h, q).0 in t; }
    }
    assert forall h: HandleId | InPortfolio(t, holders, q, h) :: t'[h].state == t[h].state;
  }

  /** A new claim of a running run breaks none of the laws. */
  lemma NewRowSound(t: Table, out: seq<Verb>, holders: Holders, runs: Runs, me: Supervisor, cast: Cast,
                    id: HandleId, run: RunId, parent: Option<HandleId>, held: bool)
    requires Sound(t, out, holders, runs, me, cast, None, None)
    requires FreshId(t, id) && parent != Some(id) && IsRunning(runs, run)
    ensures Sound(WithRow(t, id, NewRow(me, run, parent, held)), out, holders, runs, me, cast, None, None)
  {
    NewCounts(t, id, me, run, parent, held);
    NewRuns(t, holders, runs, id, NewRow(me, run, parent, held), run);
    NewVerdicts(t, holders, cast, id, NewRow(me, run, parent, held));
    NewHolders(t, holders, runs, cast, id, NewRow(me, run, parent, held));
  }

  lemma NewHolders(t: Table, holders: Holders, runs: Runs, cast: Cast, id: HandleId, row: Handle)
    requires FreshId(t, id) && RowsOnHeld(t, holders) && RowsInvited(t, holders, cast)
    requires RowsLive(t, holders, runs, None, None)
    ensures var t' := WithRow(t, id, row);
            RowsOnHeld(t', holders) && RowsInvited(t', holders, cast) && RowsLive(t', holders, runs, None, None)
  {
  }

  /** A running run's new claim is in nobody else's portfolio. */
  lemma NewRuns(t: Table, holders: Holders, runs: Runs, id: HandleId, row: Handle, run: RunId)
    requires FreshId(t, id) && RowsOnHeld(t, holders) && row.run == Some(run) && IsRunning(runs, run)
    requires NoStuck(t, holders, runs) && FreshClean(t, holders, runs)
    ensures NoStuck(WithRow(t, id, row), holders, runs) && FreshClean(WithRow(t, id, row), holders, runs)
  {
    var t' := WithRow(t, id, row);
    forall q ensures !Ledger.Stuck(t', holders, runs, q) {
      if q != run { NewPortfolios(t, holders, id, row, q); assert !Ledger.Stuck(t, holders, runs, q); }
    }
    forall q | q in runs && runs[q].state == Fresh ensures FullyResolved(t', holders, q) && !Poisoned(t', holders, q) {
      NewPortfolios(t, holders, id, row, q);
    }
  }

  lemma NoRowsYet(t: Table, holders: Holders, id: HandleId)
    requires RowsOnHeld(t, holders) && id !in t
    ensures forall r: RunId :: (id, r) !in holders
  {
  }

  lemma NewVerdicts(t: Table, holders: Holders, cast: Cast, id: HandleId, row: Handle)
    requires FreshId(t, id) && row.state.Active? && RowsOnHeld(t, holders) && VerdictsRight(t, holders, cast, None)
    ensures VerdictsRight(WithRow(t, id, row), holders, cast, None)
  {
  }

  lemma NewLevels(t: Table, level: map<HandleId, nat>, id: HandleId, row: Handle, n: nat)
    requires FreshId(t, id) && ClaimForestLemmas.Levelled(t, level) && row.parent != Some(id)
    requires row.parent.Some? && row.parent.value in t ==> level[row.parent.value] < n
    ensures ClaimForestLemmas.Levelled(WithRow(t, id, row), level[id := n])
  {
    var t' := WithRow(t, id, row);
    forall c, p | ChildOf(t', c, p) && p in t' ensures level[id := n][p] < level[id := n][c] {
      if c != id { assert ChildOf(t, c, p); assert p != id by { assert c !in Children(t, id); } }
    }
  }

  method InsertRow(e: Engine, cast: Cast, id: HandleId, run: RunId, parent: Option<HandleId>, held: bool)
    requires Inv(e, cast) && FreshId(e.handles, id) && parent != Some(id) && IsRunning(e.runs, run)
    modifies e`handles, e`level, e`depth
    ensures Inv(e, cast)
    ensures e.handles == WithRow(old(e.handles), id, NewRow(e.me, run, parent, held))
  {
    ghost var t := e.handles;
    var row := NewRow(e.me, run, parent, held);
    ghost var n := if parent.Some? && parent.value in t then e.level[parent.value] + 1 else 0;
    NewLevels(t, e.level, id, row, n);
    NewRowSound(t, e.outbox, e.holders, e.runs, e.me, cast, id, run, parent, held);
    e.handles := WithRow(e.handles, id, row);
    e.level, e.depth := e.level[id := n], if e.depth < n then n else e.depth;
  }

  // --------------------------------------------------------- co-holders

  /** Adds a holder row; one that exists already is left as it is. */
  method Register(e: Engine, cast: Cast, h: HandleId, r: RunId)
    requires Inv(e, cast) && IsRunning(e.runs, r) && h in e.handles && e.handles[h].held
    requires e.handles[h].state != Abandoned && (e.handles[h].run == Some(r) || cast.invited(r, h))
    modifies e`holders
    ensures Inv(e, cast)
    ensures e.holders == if (h, r) in old(e.holders) then old(e.holders) else old(e.holders)[(h, r) := HolderActive]
  {
    if (h, r) in e.holders { return; }
    ghost var holders := e.holders;
    e.holders := e.holders[(h, r) := HolderActive];
    RegisterSound(e.handles, e.outbox, holders, e.runs, e.me, cast, h, r);
  }

  lemma RegisterSound(t: Table, out: seq<Verb>, holders: Holders, runs: Runs, me: Supervisor, cast: Cast, h: HandleId,
                      r: RunId)
    requires Sound(t, out, holders, runs, me, cast, None, None) && IsRunning(runs, r)
    requires h in t && t[h].held && (h, r) !in holders && t[h].state != Abandoned
    requires t[h].run == Some(r) || cast.invited(r, h)
    ensures Sound(t, out, holders[(h, r) := HolderActive], runs, me, cast, None, None)
  {
    var holders' := holders[(h, r) := HolderActive];
    forall q: RunId | q != r
      ensures FullyResolved(t, holders', q) == FullyResolved(t, holders, q)
              && Poisoned(t, holders', q) == Poisoned(t, holders, q)
    {
      assert forall x: HandleId :: InPortfolio(t, holders', q, x) <==> InPortfolio(t, holders, q, x);
    }
    forall q ensures !Ledger.Stuck(t, holders', runs, q) { if q != r { assert !Ledger.Stuck(t, holders, runs, q); } }
    forall y: HandleId | Simple(t, y) ensures VerdictRight(t, holders', cast, y) {
      assert VerdictRight(t, holders, cast, y);
      if y == h {
        assert Busy(holders', h) by { assert holders'[(h, r)] == HolderActive; }
      }
      MoreRows(t, holders, holders', cast, y, h, r);
    }
  }

  lemma MoreRows(t: Table, holders: Holders, holders': Holders, cast: Cast, y: HandleId, h: HandleId, r: RunId)
    requires holders' == holders[(h, r) := HolderActive] && (h, r) !in holders
    ensures forall m :: MemberDone(cast, holders, y, m) ==> MemberDone(cast, holders', y, m)
    ensures AnyCompleted(holders, y) ==> AnyCompleted(holders', y)
    ensures AnyFailed(holders, y) ==> AnyFailed(holders', y)
    ensures y != h ==> (Ready(cast, holders', y) <==> Ready(cast, holders, y))
  {
  }

  /** Acquires a root claim; a held one starts with its acquirer's row. */
  method AcquireClaim(e: Engine, cast: Cast, id: HandleId, run: RunId, held: bool)
    requires Inv(e, cast) && FreshId(e.handles, id) && IsRunning(e.runs, run)
    modifies e`handles, e`holders, e`level, e`depth
    ensures Inv(e, cast)
    ensures e.handles == old(e.handles)[id := NewRow(e.me, run, None, held)]
    ensures IsActive(e.handles, id) && e.handles[id].holder == Some(e.me) && e.handles[id].run == Some(run)
            && e.handles[id].parent == None && e.handles[id].held == held && e.handles[id].expected == 0
    ensures e.holders == if held then old(e.holders)[(id, run) := HolderActive] else old(e.holders)
  {
    NoRowsYet(e.handles, e.holders, id);
    InsertRow(e, cast, id, run, None, held);
    if held { Register(e, cast, id, run); }
  }

  // ---------------------------------------------------------- sub-claims

  type Scope = string

  /** One part of a split scope, as the producer describes it. */
  datatype Part = Part(key: string, scope: Scope)

  /** Each part has a key and overlaps none that comes before it. */
  ghost predicate GoodPart(parts: seq<Part>, i: nat, conflict: (Scope, Scope) -> bool)
    requires i < |parts|
  {
    parts[i].key != "" && forall j | 0 <= j < i :: !conflict(parts[i].scope, parts[j].scope)
  }

  ghost predicate GoodParts(parts: seq<Part>, n: nat, conflict: (Scope, Scope) -> bool)
    requires n <= |parts|
  {
    forall i | 0 <= i < n :: GoodPart(parts, i, conflict)
  }

  function WithPolicy(t: Table, p: HandleId, policy: Option<Policy>): Table
    requires policy.Some? ==> p in t
  {
    if policy.Some? then t[p := t[p].(policy := policy.value)] else t
  }

  /** The table after a fan-out of `p` into the rows `ids`. */
  function WithChildren(t: Table, me: Supervisor, run: RunId, p: HandleId, held: bool, ids: seq<HandleId>): Table {
    if ids == [] then t
    else WithRow(WithChildren(t, me, run, p, held, ids[..|ids| - 1]), ids[|ids| - 1], NewRow(me, run, Some(p), held))
  }

  predicate FreshIds(t: Table, p: HandleId, ids: seq<HandleId>) {
    && (forall i | 0 <= i < |ids| :: FreshId(t, ids[i]) && ids[i] != p)
    && (forall i, j | 0 <= i < j < |ids| :: ids[i] != ids[j])
  }

  lemma OneChildAdded(u: Table, me: Supervisor, run: RunId, p: HandleId, held: bool, id: HandleId)
    requires p in u && id !in u
    ensures var t' := WithRow(u, id, NewRow(me, run, Some(p), held));
            && t'.Keys == u.Keys + {id} && (forall h | h in u && h != p :: t'[h] == u[h])
            && t'[p] == u[p].(expected := u[p].expected + 1) && t'[id] == NewRow(me, run, Some(p), held)
  {
  }

  /** The new rows are added to `t`, the parent counts them, and no other is touched. */
  ghost predicate Adds(t: Table, t': Table, me: Supervisor, run: RunId, p: HandleId, held: bool, ids: seq<HandleId>) {
    && p in t && p in t' && t'[p] == t[p].(expected := t[p].expected + |ids|)
    && (forall h :: h in t' <==> h in t || h in ids)
    && (forall h | h in t && h != p :: t'[h] == t[h])
    && (forall h | h in ids :: h !in t && t'[h] == NewRow(me, run, Some(p), held))
  }

  lemma AddsOneMore(t: Table, u: Table, me: Supervisor, run: RunId, p: HandleId, held: bool, ids: seq<HandleId>,
                    id: HandleId)
    requires Adds(t, u, me, run, p, held, ids) && id !in u
    ensures Adds(t, WithRow(u, id, NewRow(me, run, Some(p), held)), me, run, p, held, ids + [id])
  {
    OneChildAdded(u, me, run, p, held, id);
    assert forall h :: h in ids + [id] <==> h in ids || h == id;
  }

  /** The fan-out adds exactly the new rows, counts them, and touches no other. */
  lemma {:induction false} ChildrenAdded(t: Table, me: Supervisor, run: RunId, p: HandleId, held: bool,
                                         ids: seq<HandleId>)
    requires p in t && FreshIds(t, p, ids)
    ensures Adds(t, WithChildren(t, me, run, p, held, ids), me, run, p, held, ids)
    ensures Children(WithChildren(t, me, run, p, held, ids), p) == Children(t, p) + Elems(ids)
  {
    if ids == [] {
      assert t[p].(expected := t[p].expected + 0) == t[p];
    } else {
      var n := |ids| - 1;
      var before, id := ids[..n], ids[n];
      ChildrenAdded(t, me, run, p, held, before);
      assert ids == before + [id] && id !in before;
      assert FreshId(t, id);
      AddsOneMore(t, WithChildren(t, me, run, p, held, before), me, run, p, held, before, id);
      AddsChildren(t, WithChildren(t, me, run, p, held, ids), me, run, p, held, ids);
    }
  }

  lemma AddsChildren(t: Table, t': Table, me: Supervisor, run: RunId, p: HandleId, held: bool, ids: seq<HandleId>)
    requires Adds(t, t', me, run, p, held, ids)
    ensures Children(t', p) == Children(t, p) + Elems(ids)
  {
    forall c ensures ChildOf(t', c, p) <==> ChildOf(t, c, p) || c in ids { if c in t && c != p { } }
  }

  /** What a fan-out leaves: the parent expects one child more for each part and has
      the policy that was given, if any; each part has an open row of its own that
      nobody else has split; and no other row has changed. */
  ghost predicate FannedOut(t: Table, t': Table, me: Supervisor, run: RunId, p: HandleId, held: bool,
                            policy: Option<Policy>, ids: seq<HandleId>) {
    && p in t && p in t' && t'[p].expected == t[p].expected + |ids|
    && t'[p].policy == (if policy.Some? then policy.value else t[p].policy)
    && t'[p].state == t[p].state && t'[p].holder == t[p].holder && t'[p].parent == t[p].parent
    && (forall h | h in ids :: IsActive(t', h) && t'[h].parent == Some(p) && t'[h].run == Some(run)
                               && t'[h].holder == Some(me) && t'[h].held == held && t'[h].expected == 0)
    && (forall h | h in t && h != p :: h in t' && t'[h] == t[h])
    && (forall h | h in t' && h !in t :: h in ids)
  }

  lemma FanOutMeans(t: Table, me: Supervisor, run: RunId, p: HandleId, held: bool, policy: Option<Policy>,
                    ids: seq<HandleId>)
    requires p in t && FreshIds(t, p, ids)
    ensures FannedOut(t, WithChildren(WithPolicy(t, p, policy), me, run, p, held, ids), me, run, p, held, policy, ids)
  {
    var u := WithPolicy(t, p, policy);
    assert forall c, q :: ChildOf(u, c, q) <==> ChildOf(t, c, q);
    assert forall q :: Children(u, q) == Children(t, q);
    ChildrenAdded(u, me, run, p, held, ids);
  }

  lemma NextIdFresh(t: Table, me: Supervisor, run: RunId, p: HandleId, held: bool, ids: seq<HandleId>, i: nat)
    requires p in t && FreshIds(t, p, ids) && i < |ids|
    ensures FreshId(WithChildren(t, me, run, p, held, ids[..i]), ids[i])
    ensures WithRow(WithChildren(t, me, run, p, held, ids[..i]), ids[i], NewRow(me, run, Some(p), held))
            == WithChildren(t, me, run, p, held, ids[..i + 1])
  {
    var u := WithChildren(t, me, run, p, held, ids[..i]);
    ChildrenAdded(t, me, run, p, held, ids[..i]);
    assert ids[..i + 1][..i] == ids[..i];
    assert FreshId(t, ids[i]) && ids[i] !in ids[..i];
    forall c ensures !ChildOf(u, c, ids[i]) { assert c !in Children(t, ids[i]); }
  }

  lemma PolicySound(t: Table, out: seq<Verb>, holders: Holders, runs: Runs, me: Supervisor, cast: Cast,
                    level: map<HandleId, nat>, p: HandleId, policy: Option<Policy>)
    requires ClaimForestLemmas.Levelled(t, level) && Sound(t, out, holders, runs, me, cast, None, None) && p in t
    ensures var t' := WithPolicy(t, p, policy);
            ClaimForestLemmas.Levelled(t', level) && Sound(t', out, holders, runs, me, cast, None, None)
    ensures forall id :: FreshId(WithPolicy(t, p, policy), id) <==> FreshId(t, id)
  {
    var t' := WithPolicy(t, p, policy);
    assert forall c, q :: ChildOf(t', c, q) <==> ChildOf(t, c, q);
    assert forall q :: Children(t', q) == Children(t, q);
    forall q | IsActive(t', q) ensures RowCounts(t', q) { SameCounts(t, t', q); }
    forall q: RunId
      ensures FullyResolved(t', holders, q) == FullyResolved(t, holders, q)
              && Poisoned(t', holders, q) == Poisoned(t, holders, q)
    {
      assert forall x: HandleId :: InPortfolio(t', holders, q, x) <==> InPortfolio(t, holders, q, x);
      assert forall x: HandleId | InPortfolio(t, holders, q, x) :: t'[x].state == t[x].state;
    }
    forall q ensures !Ledger.Stuck(t', holders, runs, q) { assert !Ledger.Stuck(t, holders, runs, q); }
    forall y: HandleId | Simple(t', y) ensures VerdictRight(t', holders, cast, y) { assert Simple(t, y); }
  }

  method Overlaps(parts: seq<Part>, i: nat, conflict: (Scope, Scope) -> bool) returns (b: bool)
    requires i < |parts|
    ensures b <==> exists j :: 0 <= j < i && conflict(parts[i].scope, parts[j].scope)
  {
    for j := 0 to i
      invariant forall k | 0 <= k < j :: !conflict(parts[i].scope, parts[k].scope)
    {
      if conflict(parts[i].scope, parts[j].scope) { return true; }
    }
    return false;
  }

  /** Inserts sub-claims part by part and stops at the first bad one. */
  method InsertParts(e: Engine, cast: Cast, p: HandleId, run: RunId, held: bool,
                     parts: seq<Part>, conflict: (Scope, Scope) -> bool, ids: seq<HandleId>) returns (ok: bool)
    requires Inv(e, cast) && IsRunning(e.runs, run) && |ids| == |parts| && p in e.handles && FreshIds(e.handles, p, ids)
    modifies e`handles, e`level, e`depth
    ensures ok <==> GoodParts(parts, |parts|, conflict)
    ensures ok ==> Inv(e, cast) && e.handles == WithChildren(old(e.handles), e.me, run, p, held, ids)
  {
    ghost var t := e.handles;
    for i := 0 to |parts|
      invariant Inv(e, cast) && e.handles == WithChildren(t, e.me, run, p, held, ids[..i])
      invariant GoodParts(parts, i, conflict)
    {
      var overlaps := Overlaps(parts, i, conflict);
      if parts[i].key == "" || overlaps {
        assert !GoodPart(parts, i, conflict);
        return false;
      }
      NextIdFresh(t, e.me, run, p, held, ids, i);
      InsertRow(e, cast, ids[i], run, Some(p), held);
    }
    assert ids[..|ids|] == ids;
    return true;
  }

  /** Splits a claim into sub-claims. A part without a key, a part that overlaps
      an earlier one or a parent held by someone else rejects the whole fan-out
      and leaves no trace. */
  method AcquireSubClaims(e: Engine, cast: Cast, p: HandleId, run: RunId, held: bool, policy: Option<Policy>,
                          parts: seq<Part>, conflict: (Scope, Scope) -> bool, ids: seq<HandleId>) returns (ok: bool)
    requires Inv(e, cast) && IsRunning(e.runs, run) && |ids| == |parts| && FreshIds(e.handles, p, ids)
    modifies e`handles, e`level, e`depth
    ensures Inv(e, cast)
    ensures ok <==> GoodParts(parts, |parts|, conflict)
                    && (policy.Some? || parts != [] ==> p in old(e.handles) && old(e.handles)[p].holder == Some(e.me))
    ensures e.handles == if ok then WithChildren(WithPolicy(old(e.handles), p, policy), e.me, run, p, held, ids)
            else old(e.handles)
  {
    if p !in e.handles || e.handles[p].holder != Some(e.me) { return policy.None? && parts == []; }
    var handles := e.handles;
    ghost var level, depth := e.level, e.depth;
    PolicySound(handles, e.outbox, e.holders, e.runs, e.me, cast, e.level, p, policy);
    e.handles := WithPolicy(e.handles, p, policy);
    ok := InsertParts(e, cast, p, run, held, parts, conflict, ids);
    if !ok { e.handles, e.level, e.depth := handles, level, depth; }
  }
}
