/** The run tree: settling a leaf and walking upwards. */
module RunTree {
  import opened Claims
  import opened RunAggregate

  /** A run, its children in listing order, and what it was settled with. */
  datatype Row = Row(parent: Option<RunId>, kids: seq<RunId>, policy: Policy, self: Child)

  type Forest = map<RunId, Row>

  ghost predicate Linked(f: Forest, level: map<RunId, nat>) {
    && f.Keys <= level.Keys
    && (forall p, c | p in f && c in f[p].kids :: c in f && f[c].parent == Some(p) && level[p] < level[c])
    && (forall c {:trigger ParentOk(f, c)} | c in f :: ParentOk(f, c))
  }

  ghost predicate ParentOk(f: Forest, c: RunId)
    requires c in f
  {
    f[c].parent.Some? ==> f[c].parent.value in f && c in f[f[c].parent.value].kids
  }

  ghost predicate Inner(f: Forest, r: RunId) {
    r in f && f[r].kids != []
  }

  ghost predicate KidsIn(f: Forest, r: RunId) {
    r in f && forall c | c in f[r].kids :: c in f
  }

  ghost function Family(f: Forest, r: RunId): (cs: seq<Child>)
    requires KidsIn(f, r)
    ensures |cs| == |f[r].kids| && forall i | 0 <= i < |cs| :: cs[i] == f[f[r].kids[i]].self
  {
    seq(|f[r].kids|, i requires 0 <= i < |f[r].kids| => f[f[r].kids[i]].self)
  }

  /** The run's own state is what its children's states add up to. */
  ghost predicate Agrees(f: Forest, r: RunId)
    requires KidsIn(f, r)
  {
    ClassOf(f[r].self) == VerdictOn(f[r].policy, Classes(Family(f, r)))
  }

  /** A run agrees with its children, or it is still open and due to be visited. */
  ghost predicate InLine(f: Forest, due: set<RunId>, r: RunId) {
    KidsIn(f, r) && (Agrees(f, r) || (r in due && ClassOf(f[r].self) == Open))
  }

  ghost predicate AllInLine(f: Forest, due: set<RunId>) {
    forall r: RunId | Inner(f, r) :: InLine(f, due, r)
  }

  /** A run's class changes only by settling; nothing else about the tree does. */
  ghost predicate Settling(f: Forest, f': Forest) {
    && f'.Keys == f.Keys
    && forall r | r in f :: f'[r] == f[r].(self := f'[r].self)
                            && (ClassOf(f[r].self) == Open || ClassOf(f'[r].self) == ClassOf(f[r].self))
  }

  // ------------------------------------------------------------ recomputing

  /** The class of a run recomputed from the leaves below it. */
  ghost function Recomputed(f: Forest, level: map<RunId, nat>, depth: nat, r: RunId): Class
    requires Linked(f, level) && r in f && forall x | x in level :: level[x] <= depth
    decreases depth - level[r], 1
  {
    if f[r].kids == [] then ClassOf(f[r].self) else VerdictOn(f[r].policy, RecomputedKids(f, level, depth, r))
  }

  ghost function RecomputedKids(f: Forest, level: map<RunId, nat>, depth: nat, r: RunId): (cs: seq<Class>)
    requires Linked(f, level) && r in f && forall x | x in level :: level[x] <= depth
    ensures |cs| == |f[r].kids|
    decreases depth - level[r], 0
  {
    seq(|f[r].kids|, i requires 0 <= i < |f[r].kids| => Recomputed(f, level, depth, f[r].kids[i]))
  }

  /** A tree in which every inner run agrees with its children is the tree that
      recomputing everything from the leaves would give, and conversely. */
  lemma {:induction false} AgreementIsRecomputation(f: Forest, level: map<RunId, nat>, depth: nat, r: RunId)
    requires Linked(f, level) && r in f && (forall x | x in level :: level[x] <= depth) && AllInLine(f, {})
    ensures ClassOf(f[r].self) == Recomputed(f, level, depth, r)
    decreases depth - level[r]
  {
    if f[r].kids == [] {
    } else {
      assert Inner(f, r) && InLine(f, {}, r);
      forall i | 0 <= i < |f[r].kids|
        ensures ClassOf(f[f[r].kids[i]].self) == Recomputed(f, level, depth, f[r].kids[i])
      {
        AgreementIsRecomputation(f, level, depth, f[r].kids[i]);
      }
      KidsMatch(f, level, depth, r);
    }
  }

  lemma KidsMatch(f: Forest, level: map<RunId, nat>, depth: nat, r: RunId)
    requires Linked(f, level) && KidsIn(f, r) && forall x | x in level :: level[x] <= depth
    requires forall i | 0 <= i < |f[r].kids| ::
            ClassOf(f[f[r].kids[i]].self) == Recomputed(f, level, depth, f[r].kids[i])
    ensures Classes(Family(f, r)) == RecomputedKids(f, level, depth, r)
  {
  }

  lemma RecomputationAgrees(f: Forest, level: map<RunId, nat>, depth: nat)
    requires Linked(f, level) && forall x | x in level :: level[x] <= depth
    requires forall r | r in f :: ClassOf(f[r].self) == Recomputed(f, level, depth, r)
    ensures AllInLine(f, {})
  {
    forall r: RunId | Inner(f, r) ensures InLine(f, {}, r) {
      assert KidsIn(f, r);
      KidsMatch(f, level, depth, r);
    }
  }

  // ------------------------------------------------------------- one step

  /** Recomputing looks at nothing but the leaves, the shape and the policies. */
  lemma {:induction false} SameRecomputed(f: Forest, g: Forest, level: map<RunId, nat>, depth: nat, r: RunId)
    requires Linked(f, level) && Linked(g, level) && r in f && forall x | x in level :: level[x] <= depth
    requires g.Keys == f.Keys && forall x | x in f ::
            g[x] == f[x].(self := g[x].self) && (f[x].kids == [] ==> g[x] == f[x])
    ensures Recomputed(g, level, depth, r) == Recomputed(f, level, depth, r)
    decreases depth - level[r]
  {
    if f[r].kids == [] {
    } else {
      forall i | 0 <= i < |f[r].kids|
        ensures Recomputed(g, level, depth, f[r].kids[i]) == Recomputed(f, level, depth, f[r].kids[i])
      {
        SameRecomputed(f, g, level, depth, f[r].kids[i]);
      }
      assert RecomputedKids(g, level, depth, r) == RecomputedKids(f, level, depth, r);
    }
  }

  lemma WrittenLinked(f: Forest, level: map<RunId, nat>, r: RunId, self: Child)
    requires Linked(f, level) && r in f
    ensures Linked(f[r := f[r].(self := self)], level)
  {
    var f' := f[r := f[r].(self := self)];
    SameShape(f, f', level);
  }

  lemma SameShape(f: Forest, f': Forest, level: map<RunId, nat>)
    requires Linked(f, level) && f'.Keys == f.Keys
    requires forall p | p in f :: f'[p].kids == f[p].kids && f'[p].parent == f[p].parent
    ensures Linked(f', level)
  {
    forall p, c | p in f' && c in f'[p].kids ensures c in f' && f'[c].parent == Some(p) && level[p] < level[c] {
      assert c in f[p].kids;
    }
    forall c | c in f' ensures ParentOk(f', c) { assert ParentOk(f, c); }
  }

  /** A run's own outcome does not enter its own family. */
  lemma OwnFamily(f: Forest, level: map<RunId, nat>, r: RunId, self: Child)
    requires Linked(f, level) && r in f
    ensures KidsIn(f, r) && KidsIn(f[r := f[r].(self := self)], r)
    ensures Family(f[r := f[r].(self := self)], r) == Family(f, r)
  {
  }

  /** The parent of a run that has just settled agrees already, or is still open. */
  lemma ParentLags(f: Forest, level: map<RunId, nat>, r: RunId, self: Child, p: RunId)
    requires Linked(f, level) && r in f && f[r].parent == Some(p) && ClassOf(f[r].self) == Open
    requires KidsIn(f, p) && Agrees(f, p)
    ensures var f' := f[r := f[r].(self := self)];
            KidsIn(f', p) && (ClassOf(f'[p].self) == Open || Agrees(f', p))
  {
    var f' := f[r := f[r].(self := self)];
    assert ParentOk(f, r) && r in f[p].kids && p != r;
    var cs, cs' := Classes(Family(f, p)), Classes(Family(f', p));
    assert Advances(cs, cs');
    if ClassOf(f[p].self) != Open { VerdictNeverFlips(f[p].policy, cs, cs'); }
  }

  /** The parent that hears of it when a run's class changes. */
  ghost function Told(f: Forest, r: RunId, self: Child): set<RunId>
    requires r in f
  {
    if f[r].parent.Some? && ClassOf(self) != ClassOf(f[r].self) then {f[r].parent.value} else {}
  }

  /** Writing an outcome that agrees with the run's own children leaves nobody out
      of line but its parent, which is due now. */
  lemma WriteInLine(f: Forest, level: map<RunId, nat>, due: set<RunId>, r: RunId, self: Child)
    requires Linked(f, level) && r in f && AllInLine(f, due)
    requires ClassOf(f[r].self) == Open || ClassOf(self) == ClassOf(f[r].self)
    requires var f' := Written(f, r, self); Inner(f', r) ==> KidsIn(f', r) && Agrees(f', r)
    ensures var f' := Written(f, r, self); Linked(f', level) && AllInLine(f', due - {r} + Told(f, r, self))
    ensures Settling(f, Written(f, r, self))
  {
    var f' := Written(f, r, self);
    WrittenLinked(f, level, r, self);
    forall x: RunId | Inner(f', x) ensures InLine(f', due - {r} + Told(f, r, self), x) {
      assert InLine(f, due, x);
      if x != r && f[r].parent == Some(x) { ParentInLine(f, level, due, r, self, x); }
      else if x != r { OtherInLine(f, level, due, r, self, x); }
    }
  }

  lemma OtherInLine(f: Forest, level: map<RunId, nat>, due: set<RunId>, r: RunId, self: Child, x: RunId)
    requires Linked(f, level) && r in f && x in f && x != r && f[r].parent != Some(x) && InLine(f, due, x)
    ensures InLine(Written(f, r, self), due - {r}, x)
  {
    assert r !in f[x].kids;
    assert Family(Written(f, r, self), x) == Family(f, x);
  }

  lemma ParentInLine(f: Forest, level: map<RunId, nat>, due: set<RunId>, r: RunId, self: Child, x: RunId)
    requires Linked(f, level) && r in f && f[r].parent == Some(x) && x != r && InLine(f, due, x)
    requires ClassOf(f[r].self) == Open || ClassOf(self) == ClassOf(f[r].self)
    ensures InLine(Written(f, r, self), due - {r} + Told(f, r, self), x)
  {
    var f' := Written(f, r, self);
    assert ParentOk(f, r) && KidsIn(f', x);
    if Agrees(f, x) {
      if ClassOf(self) == ClassOf(f[r].self) { assert Classes(Family(f', x)) == Classes(Family(f, x)); }
      else { ParentLags(f, level, r, self, x); }
    }
  }

  // --------------------------------------------------------------- the tree

  function Due(pending: multiset<RunId>): set<RunId> {
    set r | r in pending
  }

  /** Between two steps of anybody. */
  ghost predicate Steady(f: Forest, level: map<RunId, nat>, reported: seq<RunId>, due: set<RunId>) {
    Linked(f, level) && AllInLine(f, due) && Reported(f, reported) && forall p | p in due :: Inner(f, p)
  }

  /** `pending` are the parents that a walk is still to start from: a leaf settles
      in one transaction and its walk runs in a later one. */
  class Tree {
    var rows: Forest
    var reported: seq<RunId>
    var pending: multiset<RunId>
    ghost var level: map<RunId, nat>
    ghost var depth: nat

    ghost predicate Valid()
      reads this
    {
      Steady(rows, level, reported, Due(pending)) && forall x | x in level :: level[x] <= depth
    }

    constructor ()
      ensures Valid() && rows == map[] && reported == [] && pending == multiset{}
    {
      rows, reported, pending, level, depth := map[], [], multiset{}, map[], 0;
    }

    /** Adds a run that is in flight, as a root or somewhere among the children of
        a run that is still in flight itself. */
    method AddRun(id: RunId, parent: Option<RunId>, at: nat, policy: Policy)
      requires Valid() && id !in rows
      requires parent.Some? ==> parent.value in rows && rows[parent.value].self.phase == InFlight
      requires parent.Some? ==> at <= |rows[parent.value].kids|
      modifies this`rows, this`level, this`depth
      ensures Valid() && rows == Grown(old(rows), id, parent, at, policy)
    {
      ghost var n := if parent.Some? then level[parent.value] + 1 else 0;
      GrownSteady(rows, level, reported, Due(pending), id, parent, at, policy, n);
      rows := Grown(rows, id, parent, at, policy);
      level, depth := level[id := n], if depth < n then n else depth;
    }

    /** Settles a leaf and leaves the walk for later. */
    method SettleLeaf(r: RunId, self: Child)
      requires Valid() && r in rows && rows[r].kids == [] && rows[r].self.phase == InFlight && self.phase != InFlight
      modifies this`rows, this`pending
      ensures Valid() && rows == Written(old(rows), r, self)
      ensures pending == old(pending) + if rows[r].parent.Some? then multiset{rows[r].parent.value} else multiset{}
    {
      LeafSettles(rows, level, reported, Due(pending), r, self);
      rows := rows[r := rows[r].(self := self)];
      if rows[r].parent.Some? {
        ghost var due := Due(pending);
        pending := pending + multiset{rows[r].parent.value};
        assert Due(pending) == due + {rows[r].parent.value};
      }
    }

    /** One of the walks that are due, whatever else is pending. */
    method Propagate(p: RunId)
      requires Valid() && p in pending
      modifies this`rows, this`reported, this`pending
      ensures Valid() && pending == old(pending) - multiset{p}
      ensures Walked(old(rows), old(reported), rows, reported, level, None)
      ensures KidsIn(rows, p) && Speaking(rows, p)
    {
      ghost var due := Due(pending);
      pending := pending - multiset{p};
      assert due <= Due(pending) + {p} <= due + {p};
      MoreDue(rows, level, reported, due, Due(pending) + {p});
      WalkUpwards(p);
    }

    /** Settles the ancestors of a run that has just settled, as far as they follow. */
    method WalkUpwards(p: RunId)
      requires (forall x | x in level :: level[x] <= depth) && Steady(rows, level, reported, Due(pending) + {p})
      modifies this`rows, this`reported
      ensures Valid() && Walked(old(rows), old(reported), rows, reported, level, None)
      ensures KidsIn(rows, p) && Speaking(rows, p)
    {
      ghost var f, rep := rows, reported;
      var current := Some(p);
      ClimbBegins(f, rep, level, Due(pending), p);
      while current.Some?
        invariant Climbing(f, rep, rows, reported, level, Due(pending), p, current)
        decreases if current.Some? then level[current.value] + 1 else 0
      {
        ghost var g, rep1, at := rows, reported, current.value;
        current := VisitParent(current.value);
        ClimbStep(f, rep, g, rep1, rows, reported, level, Due(pending), p, at, current);
      }
      assert Due(pending) + Only(current) == Due(pending);
    }

    /** One parent on the way up; the next one only if this one has just settled. */
    method VisitParent(current: RunId) returns (next: Option<RunId>)
      requires Steady(rows, level, reported, Due(pending) + {current})
      modifies this`rows, this`reported
      ensures Steady(rows, level, reported, Due(pending) + Only(next))
      ensures Visited(old(rows), old(reported), rows, reported, level, current, next)
    {
      DueIsInner(rows, level, reported, Due(pending), current);
      var row := rows[current];
      var cs := ListChildren(current);
      var v := Aggregate(cs, row.policy);
      next := None;
      if v.Unsettled? {
        NothingToDo(rows, level, reported, Due(pending), current, v);
        return;
      }
      var signal := if row.self.signal.Some? then row.self.signal.value else "";
      OneVerdict(row.policy, cs, v, v);
      if row.self.phase == v.phase && signal == v.signal {
        NothingToDo(rows, level, reported, Due(pending), current, v);
        return;
      }
      WriteVerdict(rows, level, reported, Due(pending), current, v);
      rows := rows[current := row.(self := Child(v.phase, Some(v.signal), v.changed))];
      if row.self.phase != v.phase {
        reported := reported + [current];
        next := row.parent;
      }
    }

    method ListChildren(p: RunId) returns (cs: seq<Child>)
      requires KidsIn(rows, p)
      ensures cs == Family(rows, p)
    {
      cs := [];
      for i := 0 to |rows[p].kids|
        invariant |cs| == i && forall j | 0 <= j < i :: cs[j] == rows[rows[p].kids[j]].self
      {
        assert rows[p].kids[i] in rows[p].kids;
        cs := cs + [rows[rows[p].kids[i]].self];
      }
    }

    /** All walks that are due, in any order: every run ends up as recomputing the
        tree from its leaves has it, reported once if it settled. */
    method Drain()
      requires Valid()
      modifies this`rows, this`reported, this`pending
      ensures Valid() && pending == multiset{} && AllInLine(rows, {})
      ensures Settling(old(rows), rows) && old(reported) <= reported
      ensures Linked(old(rows), level) && forall x | x in level :: level[x] <= depth
      ensures forall r | r in rows :: ClassOf(rows[r].self) == Recomputed(old(rows), level, depth, r)
    {
      ghost var f, rep := rows, reported;
      while pending != multiset{}
        invariant Valid() && Settling(f, rows) && rep <= reported && LeavesKept(f, rows)
        decreases |pending|
      {
        var p :| p in pending;
        ghost var g, rep1 := rows, reported;
        Propagate(p);
        SettlingTrans(f, g, rows);
        WalkKeepsLeaves(f, g, rep1, rows, reported, level);
      }
      assert Due(pending) == {};
      forall r | r in rows ensures ClassOf(rows[r].self) == Recomputed(f, level, depth, r) {
        AgreementIsRecomputation(rows, level, depth, r);
        SameRecomputed(f, rows, level, depth, r);
      }
    }
  }

  function Only(r: Option<RunId>): set<RunId> {
    if r.Some? then {r.value} else {}
  }

  ghost predicate LeavesKept(f: Forest, g: Forest) {
    g.Keys == f.Keys && forall x | x in f && f[x].kids == [] :: g[x] == f[x]
  }

  lemma WalkKeepsLeaves(f: Forest, g: Forest, rep1: seq<RunId>, h: Forest, rep2: seq<RunId>, level: map<RunId, nat>)
    requires Settling(f, g) && LeavesKept(f, g) && Walked(g, rep1, h, rep2, level, None)
    ensures LeavesKept(f, h)
  {
  }

  lemma MoreDue(f: Forest, level: map<RunId, nat>, reported: seq<RunId>, due: set<RunId>, due': set<RunId>)
    requires Steady(f, level, reported, due) && due <= due' && forall p | p in due' :: Inner(f, p)
    ensures Steady(f, level, reported, due')
  {
    forall r: RunId | Inner(f, r) ensures InLine(f, due', r) { assert InLine(f, due, r); }
  }

  lemma DueIsInner(f: Forest, level: map<RunId, nat>, reported: seq<RunId>, due: set<RunId>, r: RunId)
    requires Steady(f, level, reported, due + {r})
    ensures Inner(f, r) && KidsIn(f, r)
  {
    assert r in due + {r};
  }

  /** Each inner run that has settled was reported exactly once, and no other. */
  ghost predicate Reported(f: Forest, reported: seq<RunId>) {
    && (forall i, j | 0 <= i < j < |reported| :: reported[i] != reported[j])
    && (forall r :: r in reported <==> Inner(f, r) && ClassOf(f[r].self) != Open)
  }

  /** The run carries the whole verdict on its children, signal and all. */
  ghost predicate Speaks(f: Forest, r: RunId)
    requires KidsIn(f, r)
  {
    f[r].self.signal.Some? && exists a: Action ::
      Decides(f[r].policy, Family(f, r), Settled(f[r].self.phase, f[r].self.signal.value, f[r].self.changed, a))
  }

  /** The walk so far has only settled inner runs or corrected their signals; the
      rows it wrote lie below the next parent and carry their verdicts. */
  ghost predicate Walked(f: Forest, rep: seq<RunId>, f': Forest, rep': seq<RunId>, level: map<RunId, nat>,
                         next: Option<RunId>) {
    && Settling(f, f') && rep <= rep' && f'.Keys <= level.Keys && (next.Some? ==> next.value in level)
    && forall x | x in f && f'[x] != f[x] ::
         Inner(f, x) && KidsIn(f', x) && Speaks(f', x) && (next.Some? ==> level[next.value] < level[x])
  }

  /** One parent was visited, and nothing but its own row was written. */
  ghost predicate Visited(f: Forest, rep: seq<RunId>, f': Forest, rep': seq<RunId>, level: map<RunId, nat>,
                          at: RunId, next: Option<RunId>) {
    && Settling(f, f') && rep <= rep' && Inner(f, at) && at in level
    && (next.Some? ==> next.value in level && level[next.value] < level[at])
    && (forall x | x in f && x != at :: f'[x] == f[x])
    && (f'[at] != f[at] ==> KidsIn(f', at) && Speaks(f', at)) && KidsIn(f', at) && Speaking(f', at)
  }

  /** If the children add up to a verdict, the run has its phase and its signal. */
  ghost predicate Speaking(f: Forest, r: RunId)
    requires KidsIn(f, r)
  {
    forall v: Verdict | Decides(f[r].policy, Family(f, r), v) && v.Settled? ::
      f[r].self.phase == v.phase && f[r].self.signal == Some(v.signal)
  }

  ghost predicate SpeakingBelow(f: Forest, level: map<RunId, nat>, p: RunId, next: Option<RunId>) {
    KidsIn(f, p) && Speaking(f, p) && p in level && (next.Some? ==> next.value in level && level[next.value] < level[p])
  }

  lemma SpeakingStep(g: Forest, rep1: seq<RunId>, h: Forest, rep2: seq<RunId>, level: map<RunId, nat>,
                     p: RunId, at: RunId, next: Option<RunId>)
    requires Linked(g, level) && Visited(g, rep1, h, rep2, level, at, next)
    requires at == p || SpeakingBelow(g, level, p, Some(at))
    ensures SpeakingBelow(h, level, p, next)
  {
    if at != p {
      assert at !in g[p].kids && h[p] == g[p];
      assert Family(h, p) == Family(g, p);
    }
  }

  /** A walk from `p` has got to `next`, with walks from `due` still to come. */
  ghost predicate Climbing(f: Forest, rep: seq<RunId>, g: Forest, rep1: seq<RunId>, level: map<RunId, nat>,
                           due: set<RunId>, p: RunId, next: Option<RunId>) {
    && Steady(g, level, rep1, due + Only(next)) && Walked(f, rep, g, rep1, level, next)
    && (next == Some(p) || SpeakingBelow(g, level, p, next))
  }

  lemma ClimbBegins(f: Forest, rep: seq<RunId>, level: map<RunId, nat>, due: set<RunId>, p: RunId)
    requires Steady(f, level, rep, due + {p})
    ensures Climbing(f, rep, f, rep, level, due, p, Some(p))
  {
    assert p in due + {p};
  }

  lemma ClimbStep(f: Forest, rep: seq<RunId>, g: Forest, rep1: seq<RunId>, h: Forest, rep2: seq<RunId>,
                  level: map<RunId, nat>, due: set<RunId>, p: RunId, at: RunId, next: Option<RunId>)
    requires Climbing(f, rep, g, rep1, level, due, p, Some(at)) && Visited(g, rep1, h, rep2, level, at, next)
    requires Steady(h, level, rep2, due + Only(next))
    ensures Climbing(f, rep, h, rep2, level, due, p, next)
    ensures at in level && (next.Some? ==> next.value in level && level[next.value] < level[at])
  {
    WalkStep(f, rep, g, rep1, h, rep2, level, at, next);
    SpeakingStep(g, rep1, h, rep2, level, p, at, next);
  }

  lemma OneVerdict(policy: Policy, cs: seq<Child>, v: Verdict, w: Verdict)
    requires Decides(policy, cs, v) && Decides(policy, cs, w)
    ensures v == w
    ensures v.Settled? ==> v.signal != ""
  {
  }

  lemma WalkStep(f: Forest, rep: seq<RunId>, g: Forest, rep1: seq<RunId>, h: Forest, rep2: seq<RunId>,
                 level: map<RunId, nat>, at: RunId, next: Option<RunId>)
    requires Linked(g, level) && Walked(f, rep, g, rep1, level, Some(at)) && Visited(g, rep1, h, rep2, level, at, next)
    ensures Walked(f, rep, h, rep2, level, next)
  {
    SettlingTrans(f, g, h);
    forall x | x in f && h[x] != f[x]
      ensures Inner(f, x) && KidsIn(h, x) && Speaks(h, x) && (next.Some? ==> level[next.value] < level[x])
    {
      if h[x] == g[x] { SpeaksLasts(g, h, level, at, x); }
    }
  }

  lemma SpeaksLasts(g: Forest, h: Forest, level: map<RunId, nat>, at: RunId, x: RunId)
    requires Linked(g, level) && at in g && KidsIn(g, x) && Speaks(g, x) && level[at] < level[x]
    requires h.Keys == g.Keys && h[x] == g[x] && forall y | y in g && y != at :: h[y] == g[y]
    ensures KidsIn(h, x) && Speaks(h, x)
  {
    assert at !in g[x].kids;
    assert Family(h, x) == Family(g, x);
  }

  /** An unsettled verdict, or one the run carries already. */
  lemma NothingToDo(f: Forest, level: map<RunId, nat>, reported: seq<RunId>, due: set<RunId>, r: RunId, v: Verdict)
    requires Steady(f, level, reported, due + {r}) && Inner(f, r) && KidsIn(f, r)
            && Decides(f[r].policy, Family(f, r), v)
    requires v.Settled? ==> f[r].self.phase == v.phase && f[r].self.signal == Some(v.signal)
    ensures Steady(f, level, reported, due + Only(None)) && Visited(f, reported, f, reported, level, r, None)
  {
    assert InLine(f, due + {r}, r);
    assert Agrees(f, r);
    forall x: RunId | Inner(f, x) ensures InLine(f, due + Only(None), x) { assert InLine(f, due + {r}, x); }
  }

  ghost function Written(f: Forest, r: RunId, self: Child): Forest
    requires r in f
  {
    f[r := f[r].(self := self)]
  }

  lemma SettlingTrans(f: Forest, g: Forest, h: Forest)
    requires Settling(f, g) && Settling(g, h)
    ensures Settling(f, h)
  {
  }

  lemma WinnerCounts(policy: Policy, cs: seq<Child>, v: Verdict)
    requires Decides(policy, cs, v) && v.Settled?
    ensures ClassOf(Child(v.phase, Some(v.signal), v.changed)) == VerdictOn(policy, Classes(cs)) != Open
    ensures v.phase == Phase.Fresh || v.phase == Phase.Failed
  {
  }

  /** Writing the verdict on an open run, or correcting the signal of one that
      has settled the same way, brings it in line with its children. */
  lemma WriteVerdict(f: Forest, level: map<RunId, nat>, reported: seq<RunId>, due: set<RunId>, r: RunId, v: Verdict)
    requires Steady(f, level, reported, due + {r}) && Inner(f, r) && KidsIn(f, r)
    requires Decides(f[r].policy, Family(f, r), v) && v.Settled?
    ensures var f' := Written(f, r, Child(v.phase, Some(v.signal), v.changed));
            var news := f[r].self.phase != v.phase;
            var reported', next := if news then reported + [r] else reported, if news then f[r].parent else None;
            Steady(f', level, reported', due + Only(next)) && Visited(f, reported, f', reported', level, r, next)
  {
    var self := Child(v.phase, Some(v.signal), v.changed);
    assert ParentOk(f, r) && InLine(f, due + {r}, r);
    WinnerCounts(f[r].policy, Family(f, r), v);
    OwnFamily(f, level, r, self);
    VerdictSpeaks(f, level, r, v);
    WriteInLine(f, level, due + {r}, r, self);
    if f[r].self.phase == v.phase {
      WriteSame(f, level, reported, due, r, self);
    } else {
      WriteNew(f, level, reported, due, r, self);
    }
  }

  lemma VerdictSpeaks(f: Forest, level: map<RunId, nat>, r: RunId, v: Verdict)
    requires Linked(f, level) && KidsIn(f, r) && Decides(f[r].policy, Family(f, r), v) && v.Settled?
    ensures var f' := Written(f, r, Child(v.phase, Some(v.signal), v.changed));
            KidsIn(f', r) && Speaks(f', r) && Speaking(f', r)
  {
    OwnFamily(f, level, r, Child(v.phase, Some(v.signal), v.changed));
    forall w: Verdict | Decides(f[r].policy, Family(f, r), w) ensures w == v {
      OneVerdict(f[r].policy, Family(f, r), v, w);
    }
    assert Decides(f[r].policy, Family(f, r), Settled(v.phase, v.signal, v.changed, v.action));
  }

  lemma WriteSame(f: Forest, level: map<RunId, nat>, reported: seq<RunId>, due: set<RunId>, r: RunId, self: Child)
    requires Steady(f, level, reported, due + {r}) && Inner(f, r) && ClassOf(self) == ClassOf(f[r].self)
    requires Linked(Written(f, r, self), level) && AllInLine(Written(f, r, self), due + {r} - {r} + Told(f, r, self))
    ensures Steady(Written(f, r, self), level, reported, due + Only(None))
  {
    var f' := Written(f, r, self);
    ReportedSame(f, reported, r, self);
    forall x: RunId | Inner(f', x) ensures InLine(f', due + Only(None), x) {
      assert InLine(f', due + {r} - {r} + Told(f, r, self), x);
    }
    forall p | p in due ensures Inner(f', p) { assert p in due + {r}; }
  }

  lemma ReportedSame(f: Forest, reported: seq<RunId>, r: RunId, self: Child)
    requires Reported(f, reported) && r in f && ClassOf(self) == ClassOf(f[r].self)
    ensures Reported(Written(f, r, self), reported)
  {
    forall x ensures Inner(Written(f, r, self), x) <==> Inner(f, x) { }
  }

  lemma WriteNew(f: Forest, level: map<RunId, nat>, reported: seq<RunId>, due: set<RunId>, r: RunId, self: Child)
    requires Steady(f, level, reported, due + {r}) && Inner(f, r) && ClassOf(f[r].self) == Open && ClassOf(self) != Open
    requires Linked(Written(f, r, self), level) && AllInLine(Written(f, r, self), due + {r} - {r} + Told(f, r, self))
    ensures Steady(Written(f, r, self), level, reported + [r], due + Only(f[r].parent))
  {
    var f' := Written(f, r, self);
    ReportedMore(f, reported, r, self);
    if f[r].parent.Some? { assert ParentOk(f, r) && Inner(f', f[r].parent.value); }
    forall x: RunId | Inner(f', x) ensures InLine(f', due + Only(f[r].parent), x) {
      assert InLine(f', due + {r} - {r} + Told(f, r, self), x);
    }
    forall p | p in due + Only(f[r].parent) ensures Inner(f', p) { if p in due { assert p in due + {r}; } }
  }

  lemma ReportedMore(f: Forest, reported: seq<RunId>, r: RunId, self: Child)
    requires Reported(f, reported) && Inner(f, r) && ClassOf(f[r].self) == Open && ClassOf(self) != Open
    ensures Reported(Written(f, r, self), reported + [r])
  {
  }

  // ---------------------------------------------------------- leaves and growth

  lemma LeafUnreported(f: Forest, reported: seq<RunId>, r: RunId, self: Child)
    requires Reported(f, reported) && r in f && f[r].kids == []
    ensures Reported(Written(f, r, self), reported)
  {
  }

  lemma LeafSettles(f: Forest, level: map<RunId, nat>, reported: seq<RunId>, due: set<RunId>, r: RunId, self: Child)
    requires Steady(f, level, reported, due)
    requires r in f && f[r].kids == [] && ClassOf(f[r].self) == Open && ClassOf(self) != Open
    ensures Settling(f, Written(f, r, self))
    ensures Steady(Written(f, r, self), level, reported, due + Only(f[r].parent))
  {
    var f' := Written(f, r, self);
    WriteInLine(f, level, due, r, self);
    LeafUnreported(f, reported, r, self);
    if f[r].parent.Some? { assert ParentOk(f, r) && Inner(f', f[r].parent.value); }
    forall x: RunId | Inner(f', x) ensures InLine(f', due + Only(f[r].parent), x) {
      assert InLine(f', due - {r} + Told(f, r, self), x);
    }
  }

  function Insert(s: seq<RunId>, at: nat, x: RunId): seq<RunId>
    requires at <= |s|
  {
    s[..at] + [x] + s[at..]
  }

  function Grown(f: Forest, id: RunId, parent: Option<RunId>, at: nat, policy: Policy): Forest
    requires parent.Some? ==> parent.value in f && at <= |f[parent.value].kids|
  {
    var f1 := f[id := Row(parent, [], policy, Child(InFlight, None, false))];
    if parent.None? || parent.value == id then f1
    else f1[parent.value := f[parent.value].(kids := Insert(f[parent.value].kids, at, id))]
  }

  lemma GrownSteady(f: Forest, level: map<RunId, nat>, reported: seq<RunId>, due: set<RunId>,
                    id: RunId, parent: Option<RunId>, at: nat, policy: Policy, n: nat)
    requires Steady(f, level, reported, due) && id !in f
    requires parent.Some? ==> parent.value in f && f[parent.value].self.phase == InFlight
    requires parent.Some? ==> at <= |f[parent.value].kids| && level[parent.value] < n
    ensures Steady(Grown(f, id, parent, at, policy), level[id := n], reported, due)
  {
    var f' := Grown(f, id, parent, at, policy);
    GrownLinked(f, level, id, parent, at, policy, n);
    forall x: RunId | Inner(f', x) ensures InLine(f', due, x) {
      assert x != id;
      if parent == Some(x) {
        GrownFamily(f, level, due, id, x, at, policy);
      } else {
        assert Inner(f, x) && InLine(f, due, x) && id !in f[x].kids;
        assert Family(f', x) == Family(f, x);
      }
    }
    forall x ensures (Inner(f', x) && ClassOf(f'[x].self) != Open) <==> (Inner(f, x) && ClassOf(f[x].self) != Open) { }
    forall p | p in due ensures Inner(f', p) { assert Inner(f, p); }
  }

  lemma GrownLinked(f: Forest, level: map<RunId, nat>, id: RunId, parent: Option<RunId>, at: nat, policy: Policy,
                    n: nat)
    requires Linked(f, level) && id !in f
    requires parent.Some? ==> parent.value in f && at <= |f[parent.value].kids| && level[parent.value] < n
    ensures Linked(Grown(f, id, parent, at, policy), level[id := n])
  {
    var f' := Grown(f, id, parent, at, policy);
    forall p, c | p in f' && c in f'[p].kids
      ensures c in f' && f'[c].parent == Some(p) && level[id := n][p] < level[id := n][c]
    {
      GrownDown(f, level, id, parent, at, policy, n, p, c);
    }
    forall c | c in f' ensures ParentOk(f', c) { GrownUp(f, level, id, parent, at, policy, c); }
  }

  lemma GrownDown(f: Forest, level: map<RunId, nat>, id: RunId, parent: Option<RunId>, at: nat, policy: Policy, n: nat,
                  p: RunId, c: RunId)
    requires Linked(f, level) && id !in f
    requires parent.Some? ==> parent.value in f && at <= |f[parent.value].kids| && level[parent.value] < n
    requires var f' := Grown(f, id, parent, at, policy); p in f' && c in f'[p].kids
    ensures var f' := Grown(f, id, parent, at, policy);
            c in f' && f'[c].parent == Some(p) && level[id := n][p] < level[id := n][c]
  {
  }

  lemma GrownUp(f: Forest, level: map<RunId, nat>, id: RunId, parent: Option<RunId>, at: nat, policy: Policy, c: RunId)
    requires Linked(f, level) && id !in f && (parent.Some? ==> parent.value in f && at <= |f[parent.value].kids|)
    requires c in Grown(f, id, parent, at, policy)
    ensures ParentOk(Grown(f, id, parent, at, policy), c)
  {
    if parent.Some? { Inserted(f[parent.value].kids, at, id); }
    if c != id { assert ParentOk(f, c); }
  }

  lemma Inserted(s: seq<RunId>, at: nat, x: RunId)
    requires at <= |s|
    ensures forall y :: y in Insert(s, at, x) <==> y in s || y == x
  {
  }

  lemma GrownFamily(f: Forest, level: map<RunId, nat>, due: set<RunId>, id: RunId, p: RunId, at: nat, policy: Policy)
    requires Linked(f, level) && AllInLine(f, due) && id !in f && p in f
    requires f[p].self.phase == InFlight && at <= |f[p].kids|
    ensures InLine(Grown(f, id, Some(p), at, policy), due, p)
  {
    var f' := Grown(f, id, Some(p), at, policy);
    assert KidsIn(f, p) && KidsIn(f', p);
    if f[p].kids != [] { assert Inner(f, p) && InLine(f, due, p); }
    var cs, cs' := Classes(Family(f, p)), Classes(Family(f', p));
    assert cs' == cs[..at] + [Open] + cs[at..];
    if VerdictOn(f[p].policy, cs) == Open { NewChildKeepsOpen(f[p].policy, cs, at); }
  }
}
