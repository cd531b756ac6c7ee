/** Run scopes opened by child dispatch, and the bound on nested delegation. */
module Delegation {
  import opened Claims

  /** A scope, numbered in order of creation, so a parent comes before its
      children. `delegate` scopes come from delegation, the others from fan-out
      or the instance itself. */
  datatype Scope = Scope(parent: Option<nat>, run: nat, key: string, graph: string, delegate: bool, open: bool)

  predicate Rooted(scopes: seq<Scope>) {
    forall i | 0 <= i < |scopes| :: scopes[i].parent.Some? ==> scopes[i].parent.value < i
  }

  /** The scope and its ancestors, nearest first. */
  function Chain(scopes: seq<Scope>, i: nat): seq<nat>
    requires Rooted(scopes) && i < |scopes|
  {
    [i] + if scopes[i].parent.Some? then Chain(scopes, scopes[i].parent.value) else []
  }

  /** The graphs delegated to on the way from a scope to its root. */
  function Delegated(scopes: seq<Scope>, i: nat): seq<string>
    requires Rooted(scopes) && i < |scopes|
  {
    (if scopes[i].delegate then [scopes[i].graph] else [])
    + if scopes[i].parent.Some? then Delegated(scopes, scopes[i].parent.value) else []
  }

  predicate Distinct<T(==)>(s: seq<T>) {
    forall i, j | 0 <= i < j < |s| :: s[i] != s[j]
  }

  ghost predicate NoRecursion(scopes: seq<Scope>) {
    Rooted(scopes) && forall i: nat | i < |scopes| :: Distinct(Delegated(scopes, i))
  }

  /** The open scope of a run for a partition key. */
  predicate IsPartition(s: Scope, run: nat, key: string) {
    s.parent.Some? && s.open && s.run == run && s.key == key
  }

  /** A run has at most one open scope for a partition key. */
  ghost predicate OnePerPartition(scopes: seq<Scope>) {
    forall i, j | 0 <= i < j < |scopes| && scopes[i].parent.Some? && scopes[i].open ::
      !IsPartition(scopes[j], scopes[i].run, scopes[i].key)
  }

  lemma {:induction false} ChainValid(scopes: seq<Scope>, i: nat)
    requires Rooted(scopes) && i < |scopes|
    ensures forall c | c in Chain(scopes, i) :: c < |scopes|
  {
    if scopes[i].parent.None? {
    } else {
      ChainValid(scopes, scopes[i].parent.value);
    }
  }

  lemma {:induction false} LaterScopes(scopes: seq<Scope>, more: seq<Scope>, i: nat)
    requires Rooted(scopes) && Rooted(scopes + more) && i < |scopes|
    ensures Delegated(scopes + more, i) == Delegated(scopes, i)
  {
    if scopes[i].parent.None? {
    } else {
      LaterScopes(scopes, more, scopes[i].parent.value);
    }
  }

  lemma OpenScope(scopes: seq<Scope>, s: Scope)
    requires NoRecursion(scopes) && s.parent.Some? && s.parent.value < |scopes|
    requires s.delegate ==> s.graph !in Delegated(scopes, s.parent.value)
    ensures NoRecursion(scopes + [s])
  {
    var scopes' := scopes + [s];
    assert Rooted(scopes');
    forall i: nat | i < |scopes'| ensures Distinct(Delegated(scopes', i)) {
      if i < |scopes| { LaterScopes(scopes, [s], i); } else { NewestDistinct(scopes, s); }
    }
  }

  lemma NewestDistinct(scopes: seq<Scope>, s: Scope)
    requires NoRecursion(scopes) && s.parent.Some? && s.parent.value < |scopes|
    requires s.delegate ==> s.graph !in Delegated(scopes, s.parent.value)
    ensures Rooted(scopes + [s]) && Distinct(Delegated(scopes + [s], |scopes|))
  {
    var above := Delegated(scopes, s.parent.value);
    LaterScopes(scopes, [s], s.parent.value);
    assert (scopes + [s])[|scopes|] == s;
    assert Delegated(scopes + [s], |scopes|) == (if s.delegate then [s.graph] else []) + above;
    assert Distinct(above);
  }

  /** Distinct names from a finite set are no more than the set has. */
  lemma {:induction false} Pigeonhole(s: seq<string>, names: set<string>)
    requires Distinct(s) && forall x | x in s :: x in names
    ensures |s| <= |names|
  {
    if s == [] {
    } else {
      Pigeonhole(s[1..], names - {s[0]});
    }
  }

  /** Delegation nests at most as deep as the template has graphs. */
  lemma DelegationBounded(scopes: seq<Scope>, i: nat, graphs: set<string>)
    requires NoRecursion(scopes) && i < |scopes|
    requires forall j | 0 <= j < |scopes| && scopes[j].delegate :: scopes[j].graph in graphs
    ensures |Delegated(scopes, i)| <= |graphs|
  {
    DelegatedFrom(scopes, i, graphs);
    Pigeonhole(Delegated(scopes, i), graphs);
  }

  lemma {:induction false} DelegatedFrom(scopes: seq<Scope>, i: nat, graphs: set<string>)
    requires Rooted(scopes) && i < |scopes|
    requires forall j | 0 <= j < |scopes| && scopes[j].delegate :: scopes[j].graph in graphs
    ensures forall x | x in Delegated(scopes, i) :: x in graphs
  {
    if scopes[i].parent.None? {
    } else {
      DelegatedFrom(scopes, scopes[i].parent.value, graphs);
    }
  }

  class RunScopes {
    var scopes: seq<Scope>

    constructor ()
      ensures scopes == [] && NoRecursion(scopes) && OnePerPartition(scopes)
    {
      scopes := [];
    }

    /** The main scope of an instance. */
    method OpenRoot(graph: string) returns (id: nat)
      requires NoRecursion(scopes) && OnePerPartition(scopes)
      modifies this
      ensures OnePerPartition(scopes)
      ensures NoRecursion(scopes) && id == |old(scopes)|
              && scopes == old(scopes) + [Scope(None, 0, "", graph, false, true)]
    {
      id := |scopes|;
      ghost var before := scopes;
      scopes := scopes + [Scope(None, 0, "", graph, false, true)];
      forall i: nat | i < |before| ensures Distinct(Delegated(scopes, i)) {
        LaterScopes(before, [Scope(None, 0, "", graph, false, true)], i);
      }
    }

    /** Closes a scope. What it delegated to stays part of its chain. */
    method Close(id: nat)
      requires NoRecursion(scopes) && OnePerPartition(scopes)
      modifies this
      ensures NoRecursion(scopes) && OnePerPartition(scopes)
      ensures scopes == if id < |old(scopes)| then old(scopes)[id := old(scopes)[id].(open := false)] else old(scopes)
    {
      if id >= |scopes| { return; }
      ghost var before := scopes;
      scopes := scopes[id := scopes[id].(open := false)];
      forall i: nat | i < |scopes| ensures Distinct(Delegated(scopes, i)) { SameDelegated(before, scopes, i); }
    }

    /** Whether a scope or one of its ancestors, open or closed, is of a graph. */
    method GraphInChain(parent: nat, graph: string) returns (found: bool)
      requires Rooted(scopes) && parent < |scopes|
      ensures found <==> InChain(scopes, parent, graph)
    {
      var at: nat := parent;
      ChainValid(scopes, parent);
      while true
        invariant at < |scopes|
        invariant forall c | c in Chain(scopes, parent) && c < |scopes| && scopes[c].graph == graph ::
                    c in Chain(scopes, at)
        invariant forall c | c in Chain(scopes, at) :: c in Chain(scopes, parent)
        decreases at
      {
        if scopes[at].graph == graph {
          assert at in Chain(scopes, at);
          return true;
        }
        if scopes[at].parent.None? { return false; }
        at := scopes[at].parent.value;
      }
    }

    method FindPartition(run: nat, key: string) returns (id: Option<nat>)
      ensures id.Some? ==> id.value < |scopes| && IsPartition(scopes[id.value], run, key)
      ensures id.None? ==> forall i | 0 <= i < |scopes| :: !IsPartition(scopes[i], run, key)
    {
      for i := 0 to |scopes|
        invariant forall j | 0 <= j < i :: !IsPartition(scopes[j], run, key)
      {
        if IsPartition(scopes[i], run, key) { return Some(i); }
      }
      return None;
    }

    /** The scope of one partition: the one the run has open, or a new one. */
    method OpenPartition(s: Scope) returns (id: nat)
      requires NoRecursion(scopes) && OnePerPartition(scopes)
      requires s.parent.Some? && s.parent.value < |scopes| && s.open
      requires s.delegate ==> s.graph !in Delegated(scopes, s.parent.value)
      modifies this
      ensures OnePerPartition(scopes)
      ensures NoRecursion(scopes) && (scopes == old(scopes) || scopes == old(scopes) + [s])
      ensures id < |scopes| && IsPartition(scopes[id], s.run, s.key)
      ensures forall i: nat | i < |old(scopes)| :: Delegated(scopes, i) == Delegated(old(scopes), i)
    {
      var existing := FindPartition(s.run, s.key);
      if existing.Some? { return existing.value; }
      OpenScope(scopes, s);
      forall i: nat | i < |scopes| ensures Delegated(scopes + [s], i) == Delegated(scopes, i) {
        LaterScopes(scopes, [s], i);
      }
      id := |scopes|;
      scopes := scopes + [s];
    }

    /** Opens one scope per partition under `parent`, reusing those the run has open.
        Delegation to a graph in the chain is rejected, and so is a sub-claim that
        does not go to exactly one child; a rejected dispatch leaves no trace. */
    method DispatchChildren(parent: nat, run: nat, entryAbsorbed: bool, graph: string, parts: seq<Partition>,
                            children: nat)
      returns (ok: bool, ids: seq<nat>)
      requires NoRecursion(scopes) && OnePerPartition(scopes)
      modifies this
      ensures NoRecursion(scopes) && OnePerPartition(scopes)
      ensures ok <==> || parts == [] || children == 0
                      || (&& parent < |old(scopes)| && (entryAbsorbed ==> !InChain(old(scopes), parent, graph))
                          && Fit(parts, children))
      ensures !ok || children == 0 ==> scopes == old(scopes)
      ensures Opened(old(scopes), scopes, parent, run, entryAbsorbed, graph, parts)
      ensures ok && children > 0 ==> |ids| == |parts| && Found(scopes, run, parts, ids)
    {
      ids := [];
      if parts == [] || children == 0 { return true, []; }
      if parent >= |scopes| { return false, []; }
      if entryAbsorbed {
        var found := GraphInChain(parent, graph);
        if found { return false, []; }
        NotDelegated(scopes, parent, graph);
      }
      var before := scopes;
      ok, ids := OpenPartitions(parent, run, entryAbsorbed, graph, parts, children);
      if !ok { scopes := before; }
    }

    method OpenPartitions(parent: nat, run: nat, delegate: bool, graph: string, parts: seq<Partition>, children: nat)
      returns (ok: bool, ids: seq<nat>)
      requires NoRecursion(scopes) && parent < |scopes| && (delegate ==> graph !in Delegated(scopes, parent))
      requires OnePerPartition(scopes)
      modifies this
      ensures OnePerPartition(scopes)
      ensures NoRecursion(scopes) && Opened(old(scopes), scopes, parent, run, delegate, graph, parts)
      ensures ok <==> Fit(parts, children)
      ensures ok ==> |ids| == |parts| && Found(scopes, run, parts, ids)
    {
      ids := [];
      for k := 0 to |parts|
        invariant NoRecursion(scopes) && OnePerPartition(scopes) && parent < |old(scopes)| <= |scopes| && |ids| == k
        invariant delegate ==> graph !in Delegated(scopes, parent)
        invariant Opened(old(scopes), scopes, parent, run, delegate, graph, parts) && Found(scopes, run, parts, ids)
        invariant Fit(parts[..k], children)
      {
        if parts[k].subClaim && children != 1 {
          Misfit(parts, k, children);
          return false, ids;
        }
        assert parts[..k + 1] == parts[..k] + [parts[k]];
        ghost var before := scopes;
        var id := OpenPartition(Scope(Some(parent), run, parts[k].key, graph, delegate, true));
        OneMoreOpened(old(scopes), before, scopes, parent, run, delegate, graph, parts, k, ids, id);
        ids := ids + [id];
      }
      assert parts[..|parts|] == parts;
      return true, ids;
    }
  }

  /** A partition, and whether it carries a sub-claim for its one child run. */
  datatype Partition = Partition(key: string, subClaim: bool)

  /** Every sub-claim goes to exactly one child. */
  ghost predicate Fit(parts: seq<Partition>, children: nat) {
    forall p | p in parts :: p.subClaim ==> children == 1
  }

  lemma Misfit(parts: seq<Partition>, k: nat, children: nat)
    requires k < |parts| && parts[k].subClaim && children != 1
    ensures !Fit(parts, children)
  {
    assert parts[k] in parts;
  }

  ghost predicate InChain(scopes: seq<Scope>, parent: nat, graph: string)
    requires Rooted(scopes) && parent < |scopes|
  {
    exists c :: c in Chain(scopes, parent) && c < |scopes| && scopes[c].graph == graph
  }

  /** Only scopes of the asked-for kind were added. */
  ghost predicate Opened(before: seq<Scope>, after: seq<Scope>, parent: nat, run: nat, delegate: bool, graph: string,
                         parts: seq<Partition>) {
    before <= after && forall i | |before| <= i < |after| ::
      && after[i] == Scope(Some(parent), run, after[i].key, graph, delegate, true)
      && exists p :: p in parts && p.key == after[i].key
  }

  ghost predicate Found(scopes: seq<Scope>, run: nat, parts: seq<Partition>, ids: seq<nat>) {
    |ids| <= |parts| && forall i | 0 <= i < |ids| :: ids[i] < |scopes| && IsPartition(scopes[ids[i]], run, parts[i].key)
  }

  lemma OneMoreOpened(start: seq<Scope>, before: seq<Scope>, after: seq<Scope>, parent: nat, run: nat, delegate: bool,
                      graph: string, parts: seq<Partition>, k: nat, ids: seq<nat>, id: nat)
    requires k < |parts| && |ids| == k && Opened(start, before, parent, run, delegate, graph, parts)
    requires Found(before, run, parts, ids)
    requires after == before || after == before + [Scope(Some(parent), run, parts[k].key, graph, delegate, true)]
    requires id < |after| && IsPartition(after[id], run, parts[k].key)
    ensures Opened(start, after, parent, run, delegate, graph, parts) && Found(after, run, parts, ids + [id])
  {
    assert parts[k] in parts;
    forall i | 0 <= i < |ids| ensures after[ids[i]] == before[ids[i]] { }
  }

  lemma {:induction false} SameDelegated(scopes: seq<Scope>, scopes': seq<Scope>, i: nat)
    requires Rooted(scopes) && Rooted(scopes') && |scopes'| == |scopes| && i < |scopes|
    requires forall j | 0 <= j < |scopes| :: scopes'[j] == scopes[j].(open := scopes'[j].open)
    ensures Delegated(scopes', i) == Delegated(scopes, i)
  {
    if scopes[i].parent.None? {
    } else {
      SameDelegated(scopes, scopes', scopes[i].parent.value);
    }
  }

  lemma NotDelegated(scopes: seq<Scope>, parent: nat, graph: string)
    requires Rooted(scopes) && parent < |scopes|
    requires !InChain(scopes, parent, graph)
    ensures graph !in Delegated(scopes, parent)
  {
  }
}
