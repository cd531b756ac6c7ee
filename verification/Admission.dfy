/** Admission under interleaving: transactions take advisory locks, look at the
    committed rows and their own, insert, and only then commit. */
module Admission {
  import opened Claims
  import opened LockOrder
  import ClaimForest

  type Intent = string
  type Semantics = string

  /** A row of the claim-handle table. `settled` marks a committed durable claim;
      `semantics` is what the producer realized, once it has opened. */
  datatype Row =
    | NamedRow(name: string, run: RunId)
    | ClaimRow(producer: string, scope: string, run: RunId, node: nat, intent: Intent,
               semantics: Option<Semantics>, durable: bool, settled: bool, root: bool)

  type Rows = map<nat, Row>

  datatype Tx<S> = Tx(run: RunId, node: nat, held: set<S>, pending: Rows)

  /** Row ids are handed out in order of admission. */
  datatype State<S> = State(rows: Rows, next: nat, txs: map<nat, Tx<S>>)

  datatype Step =
    | Begin(tx: nat, run: RunId, node: nat)
    | Take(tx: nat, lock: Spec)
    | AdmitNamed(tx: nat, name: string)
    | AdmitClaim(tx: nat, producer: string, scope: string, intent: Intent, semantics: Option<Semantics>, durable: bool)
    | AdmitSubClaim(tx: nat, row: Row)
    | Commit(tx: nat)
    | Abort(tx: nat)
    | Settle(id: nat)
    | Remove(id: nat)

  /** The fixed surroundings: which slot a lock occupies, which named locks are
      limited, and which modes coexist. */
  datatype Rules<!S> = Rules(slot: Spec -> S, limits: map<string, int>, coexists: (Intent, Intent, Semantics) -> bool)

  function Visible<S>(s: State<S>, t: Tx<S>): Rows {
    s.rows + t.pending
  }

  function NamedIds(rows: Rows, name: string): set<nat> {
    set id | id in rows && rows[id].NamedRow? && rows[id].name == name
  }

  /** Whether a new claim has to be checked against a row at all. */
  predicate Concerns(row: Row, run: RunId, node: nat, producer: string, scope: string) {
    && row.ClaimRow? && row.producer == producer && row.scope == scope && row.run != run
    && !(row.node == node && row.settled && row.durable)
  }

  /** No visible row stands in the way of the claim. */
  predicate Admits(rows: Rows, coexists: (Intent, Intent, Semantics) -> bool,
                   run: RunId, node: nat, producer: string, scope: string, intent: Intent) {
    forall id | id in rows && Concerns(rows[id], run, node, producer, scope) ::
      rows[id].semantics.Some? && coexists(intent, rows[id].intent, rows[id].semantics.value)
  }

  ghost predicate Enabled<S>(s: State<S>, step: Step, rules: Rules<S>) {
    match step
    case Begin(x, _, _) => x !in s.txs
    case Take(x, lock) => x in s.txs && forall y | y in s.txs && y != x :: rules.slot(lock) !in s.txs[y].held
    case AdmitNamed(x, name) =>
      x in s.txs && rules.slot(Named(name)) in s.txs[x].held
      && (name in rules.limits ==> |NamedIds(Visible(s, s.txs[x]), name)| < rules.limits[name])
    case AdmitClaim(x, producer, scope, intent, _, _) =>
      x in s.txs && rules.slot(Claim(producer, scope)) in s.txs[x].held
      && Admits(Visible(s, s.txs[x]), rules.coexists, s.txs[x].run, s.txs[x].node, producer, scope, intent)
    case AdmitSubClaim(x, row) => x in s.txs && row.ClaimRow? && !row.root
    case Commit(x) => x in s.txs
    case Abort(x) => x in s.txs
    case Settle(id) => id in s.rows && s.rows[id].ClaimRow? && s.rows[id].durable
    case Remove(id) => id in s.rows
  }

  function Insert<S>(s: State<S>, x: nat, row: Row): State<S>
    requires x in s.txs
  {
    s.(next := s.next + 1, txs := s.txs[x := s.txs[x].(pending := s.txs[x].pending[s.next := row])])
  }

  ghost function Apply<S>(s: State<S>, step: Step, rules: Rules<S>): State<S>
    requires Enabled(s, step, rules)
  {
    match step
    case Begin(x, run, node) => s.(txs := s.txs[x := Tx(run, node, {}, map[])])
    case Take(x, lock) => s.(txs := s.txs[x := s.txs[x].(held := s.txs[x].held + {rules.slot(lock)})])
    case AdmitNamed(x, name) => Insert(s, x, NamedRow(name, s.txs[x].run))
    case AdmitClaim(x, producer, scope, intent, semantics, durable) =>
      Insert(s, x, ClaimRow(producer, scope, s.txs[x].run, s.txs[x].node, intent, semantics, durable, false, true))
    case AdmitSubClaim(x, row) => Insert(s, x, row)
    case Commit(x) => s.(rows := s.rows + s.txs[x].pending, txs := s.txs - {x})
    case Abort(x) => s.(txs := s.txs - {x})
    case Settle(id) => s.(rows := s.rows[id := s.rows[id].(settled := true)])
    case Remove(id) => s.(rows := s.rows - {id})
  }

  ghost function Run<S>(steps: seq<Step>, rules: Rules<S>): State<S> {
    if steps == [] then State(map[], 0, map[]) else
      var s := Run(steps[..|steps| - 1], rules);
      var step := steps[|steps| - 1];
      if Enabled(s, step, rules) then Apply(s, step, rules) else s
  }

  // ---------------------------------------------------------------- the laws

  ghost predicate WithinLimits(rows: Rows, limits: map<string, int>) {
    forall name | name in limits :: NamedIds(rows, name) == {} || |NamedIds(rows, name)| <= limits[name]
  }

  /** The later of two root claims of different runs on one scope was admitted in
      a mode that coexists with the earlier, or the earlier is its own node's
      committed durable claim. */
  ghost predicate Compatible(a: Row, b: Row, coexists: (Intent, Intent, Semantics) -> bool) {
    a.ClaimRow? && b.ClaimRow? && a.root && b.root && a.producer == b.producer && a.scope == b.scope
        && a.run != b.run ==>
      || (a.semantics.Some? && coexists(b.intent, a.intent, a.semantics.value))
      || (a.node == b.node && a.settled && a.durable)
  }

  ghost predicate AllCompatible(rows: Rows, coexists: (Intent, Intent, Semantics) -> bool) {
    forall i, j | i in rows && j in rows && i < j :: Compatible(rows[i], rows[j], coexists)
  }

  /** The transaction holds the slot of the row, sub-claims aside. */
  ghost predicate Covered<S>(t: Tx<S>, row: Row, slot: Spec -> S) {
    match row
    case NamedRow(name, _) => slot(Named(name)) in t.held
    case ClaimRow(producer, scope, run, _, _, _, _, _, root) =>
      root ==> run == t.run && slot(Claim(producer, scope)) in t.held
  }

  ghost predicate Locked<S>(t: Tx<S>, slot: Spec -> S) {
    forall id | id in t.pending :: Covered(t, t.pending[id], slot)
  }

  ghost predicate Safe<S>(rows: Rows, rules: Rules<S>) {
    WithinLimits(rows, rules.limits) && AllCompatible(rows, rules.coexists)
  }

  /** A row id belongs to the table or to one transaction. */
  ghost predicate IdsApart<S(!new)>(rows: Rows, next: nat, txs: map<nat, Tx<S>>) {
    && (forall id | id in rows :: id < next)
    && (forall x, id | x in txs && id in txs[x].pending :: id < next && id !in rows)
    && (forall x, y, id | x in txs && y in txs && x != y && id in txs[x].pending :: id !in txs[y].pending)
  }

  /** A slot belongs to one transaction, which has it for every row pending. */
  ghost predicate SlotsApart<S(!new)>(txs: map<nat, Tx<S>>, slot: Spec -> S) {
    && (forall x, y, a | x in txs && y in txs && x != y && a in txs[x].held :: a !in txs[y].held)
    && (forall x | x in txs :: Locked(txs[x], slot))
  }

  ghost predicate Apart<S(!new)>(s: State<S>, slot: Spec -> S) {
    IdsApart(s.rows, s.next, s.txs) && SlotsApart(s.txs, slot)
  }

  ghost predicate Inv<S(!new)>(s: State<S>, rules: Rules<S>) {
    Apart(s, rules.slot) && Safe(s.rows, rules) && forall x | x in s.txs :: Safe(Visible(s, s.txs[x]), rules)
  }

  // ------------------------------------------------------------------ proofs

  /** The same rows or fewer, some of them settled meanwhile. */
  ghost predicate Below(rows: Rows, rows': Rows) {
    forall id | id in rows' :: id in rows &&
      (rows'[id] == rows[id] || (rows[id].ClaimRow? && rows'[id] == rows[id].(settled := true)))
  }

  lemma SafeBelow<S>(rows: Rows, rows': Rows, rules: Rules<S>)
    requires Safe(rows, rules) && Below(rows, rows')
    ensures Safe(rows', rules)
  {
    forall name | name in rules.limits
      ensures NamedIds(rows', name) == {} || |NamedIds(rows', name)| <= rules.limits[name]
    {
      assert NamedIds(rows', name) <= NamedIds(rows, name);
      ClaimForest.SubsetSmaller(NamedIds(rows', name), NamedIds(rows, name));
    }
    forall i, j | i in rows' && j in rows' && i < j ensures Compatible(rows'[i], rows'[j], rules.coexists) {
      assert Compatible(rows[i], rows[j], rules.coexists);
    }
  }

  /** One more row under a name that is below its limit. */
  lemma LimitsGrow(rows: Rows, id: nat, row: Row, limits: map<string, int>)
    requires WithinLimits(rows, limits) && id !in rows
    requires row.NamedRow? && row.name in limits ==> |NamedIds(rows, row.name)| < limits[row.name]
    ensures WithinLimits(rows[id := row], limits)
  {
    var rows' := rows[id := row];
    forall name | name in limits ensures NamedIds(rows', name) == {} || |NamedIds(rows', name)| <= limits[name] {
      if row.NamedRow? && row.name == name {
        assert NamedIds(rows', name) == NamedIds(rows, name) + {id};
      } else {
        assert NamedIds(rows', name) == NamedIds(rows, name);
      }
    }
  }

  /** Rows that two transactions have pending never meet. */
  lemma PendingsApart<S(!new)>(s: State<S>, rules: Rules<S>, x: nat, y: nat)
    requires Inv(s, rules) && x in s.txs && y in s.txs && x != y
    ensures Safe(s.rows + s.txs[x].pending + s.txs[y].pending, rules)
  {
    var all := s.rows + s.txs[x].pending + s.txs[y].pending;
    forall i, j | i in all && j in all && i < j ensures Compatible(all[i], all[j], rules.coexists) {
      PendingsCompatible(s, rules, x, y, i, j);
    }
    forall name | name in rules.limits
      ensures NamedIds(all, name) == {} || |NamedIds(all, name)| <= rules.limits[name]
    {
      PendingsWithin(s, rules, x, y, name);
    }
  }

  lemma PendingsWithin<S(!new)>(s: State<S>, rules: Rules<S>, x: nat, y: nat, name: string)
    requires Inv(s, rules) && x in s.txs && y in s.txs && x != y && name in rules.limits
    ensures var ids := NamedIds(s.rows + s.txs[x].pending + s.txs[y].pending, name);
            ids == {} || |ids| <= rules.limits[name]
  {
    var px, py := s.txs[x].pending, s.txs[y].pending;
    assert px.Keys !! py.Keys && s.rows.Keys !! px.Keys && s.rows.Keys !! py.Keys;
    assert Safe(Visible(s, s.txs[x]), rules) && Safe(Visible(s, s.txs[y]), rules);
    NamedApart(s, rules, x, y, name);
    NamedJoin(s.rows, px, py, name);
  }

  /** Only one transaction has rows of a name pending. */
  lemma NamedApart<S(!new)>(s: State<S>, rules: Rules<S>, x: nat, y: nat, name: string)
    requires Apart(s, rules.slot) && x in s.txs && y in s.txs && x != y
    ensures NamedIds(s.txs[x].pending, name) == {} || NamedIds(s.txs[y].pending, name) == {}
  {
  }

  lemma NamedJoin(a: Rows, b: Rows, c: Rows, name: string)
    requires b.Keys !! c.Keys && a.Keys !! b.Keys && a.Keys !! c.Keys
    ensures NamedIds(c, name) == {} ==> NamedIds(a + b + c, name) == NamedIds(a + b, name)
    ensures NamedIds(b, name) == {} ==> NamedIds(a + b + c, name) == NamedIds(a + c, name)
  {
    assert NamedIds(a + b + c, name) == NamedIds(a, name) + NamedIds(b, name) + NamedIds(c, name);
    assert NamedIds(a + b, name) == NamedIds(a, name) + NamedIds(b, name);
    assert NamedIds(a + c, name) == NamedIds(a, name) + NamedIds(c, name);
  }

  lemma PendingsCompatible<S(!new)>(s: State<S>, rules: Rules<S>, x: nat, y: nat, i: nat, j: nat)
    requires Inv(s, rules) && x in s.txs && y in s.txs && x != y
    requires var all := s.rows + s.txs[x].pending + s.txs[y].pending; i in all && j in all && i < j
    ensures var all := s.rows + s.txs[x].pending + s.txs[y].pending; Compatible(all[i], all[j], rules.coexists)
  {
  }

  lemma NewCompatible(rows: Rows, id: nat, row: Row, coexists: (Intent, Intent, Semantics) -> bool)
    requires AllCompatible(rows, coexists) && forall i | i in rows :: i < id
    requires row.ClaimRow? && row.root ==>
            Admits(rows, coexists, row.run, row.node, row.producer, row.scope, row.intent)
    ensures AllCompatible(rows[id := row], coexists)
  {
  }

  lemma InsertApart<S(!new)>(s: State<S>, slot: Spec -> S, x: nat, row: Row)
    requires Apart(s, slot) && x in s.txs && Covered(s.txs[x], row, slot)
    ensures Apart(Insert(s, x, row), slot)
  {
  }

  lemma InsertKeeps<S(!new)>(s: State<S>, rules: Rules<S>, x: nat, row: Row)
    requires Inv(s, rules) && x in s.txs && Covered(s.txs[x], row, rules.slot)
    requires row.NamedRow? && row.name in rules.limits ==>
            |NamedIds(Visible(s, s.txs[x]), row.name)| < rules.limits[row.name]
    requires row.ClaimRow? && row.root ==>
      Admits(Visible(s, s.txs[x]), rules.coexists, row.run, row.node, row.producer, row.scope, row.intent)
    ensures Inv(Insert(s, x, row), rules)
  {
    InsertApart(s, rules.slot, x, row);
    InsertVisible(s, x, row);
    SafeGrows(Visible(s, s.txs[x]), s.next, row, rules);
  }

  lemma InsertVisible<S>(s: State<S>, x: nat, row: Row)
    requires x in s.txs
    ensures var s' := Insert(s, x, row);
            && s'.txs.Keys == s.txs.Keys && Visible(s', s'.txs[x]) == Visible(s, s.txs[x])[s.next := row]
            && forall y | y in s.txs && y != x :: Visible(s', s'.txs[y]) == Visible(s, s.txs[y])
  {
  }

  lemma SafeGrows<S>(rows: Rows, id: nat, row: Row, rules: Rules<S>)
    requires Safe(rows, rules) && forall i | i in rows :: i < id
    requires row.NamedRow? && row.name in rules.limits ==> |NamedIds(rows, row.name)| < rules.limits[row.name]
    requires row.ClaimRow? && row.root ==>
            Admits(rows, rules.coexists, row.run, row.node, row.producer, row.scope, row.intent)
    ensures Safe(rows[id := row], rules)
  {
    LimitsGrow(rows, id, row, rules.limits);
    NewCompatible(rows, id, row, rules.coexists);
  }

  lemma CommitKeeps<S(!new)>(s: State<S>, rules: Rules<S>, x: nat)
    requires Inv(s, rules) && x in s.txs
    ensures Inv(Apply(s, Step.Commit(x), rules), rules)
  {
    var s' := Apply(s, Step.Commit(x), rules);
    forall y | y in s'.txs ensures Safe(Visible(s', s'.txs[y]), rules) { PendingsApart(s, rules, x, y); }
    assert s'.rows == Visible(s, s.txs[x]);
  }

  /** Settling or removing a committed row. */
  lemma RowStepKeeps<S(!new)>(s: State<S>, rules: Rules<S>, step: Step)
    requires Inv(s, rules) && (step.Settle? || step.Remove?) && Enabled(s, step, rules)
    ensures Inv(Apply(s, step, rules), rules)
  {
    var s' := Apply(s, step, rules);
    assert Below(s.rows, s'.rows);
    SafeBelow(s.rows, s'.rows, rules);
    forall x | x in s'.txs ensures Safe(Visible(s', s'.txs[x]), rules) {
      assert Below(Visible(s, s.txs[x]), Visible(s', s'.txs[x]));
      SafeBelow(Visible(s, s.txs[x]), Visible(s', s'.txs[x]), rules);
    }
    RowStepApart(s, rules, step);
  }

  lemma RowStepApart<S(!new)>(s: State<S>, rules: Rules<S>, step: Step)
    requires Apart(s, rules.slot) && (step.Settle? || step.Remove?) && Enabled(s, step, rules)
    ensures Apart(Apply(s, step, rules), rules.slot)
  {
    var s' := Apply(s, step, rules);
    assert s'.txs == s.txs && s'.next == s.next && s'.rows.Keys <= s.rows.Keys;
    FewerRows(s.rows, s'.rows, s.next, s.txs);
  }

  lemma FewerRows<S(!new)>(rows: Rows, rows': Rows, next: nat, txs: map<nat, Tx<S>>)
    requires IdsApart(rows, next, txs) && rows'.Keys <= rows.Keys
    ensures IdsApart(rows', next, txs)
  {
    forall id | id in rows' ensures id < next { assert id in rows; }
    forall x, id | x in txs && id in txs[x].pending ensures id < next && id !in rows' {
      assert id !in rows;
      assert rows'.Keys <= rows.Keys;
    }
  }

  lemma TxStepApart<S(!new)>(s: State<S>, rules: Rules<S>, step: Step)
    requires Apart(s, rules.slot) && (step.Begin? || step.Take? || step.Abort?) && Enabled(s, step, rules)
    ensures Apart(Apply(s, step, rules), rules.slot)
  {
    var s' := Apply(s, step, rules);
    forall x | x in s'.txs ensures Locked(s'.txs[x], rules.slot) {
      if x in s.txs { assert Locked(s.txs[x], rules.slot); }
    }
  }

  lemma TxStepKeeps<S(!new)>(s: State<S>, rules: Rules<S>, step: Step)
    requires Inv(s, rules) && (step.Begin? || step.Take? || step.Abort?) && Enabled(s, step, rules)
    ensures Inv(Apply(s, step, rules), rules)
  {
    var s' := Apply(s, step, rules);
    TxStepApart(s, rules, step);
    forall x | x in s'.txs ensures Safe(Visible(s', s'.txs[x]), rules) {
      if x in s.txs {
        assert Visible(s', s'.txs[x]) == Visible(s, s.txs[x]);
      } else {
        assert Visible(s', s'.txs[x]) == s.rows;
      }
    }
  }

  lemma StepKeeps<S(!new)>(s: State<S>, rules: Rules<S>, step: Step)
    requires Inv(s, rules) && Enabled(s, step, rules)
    ensures Inv(Apply(s, step, rules), rules)
  {
    match step {
      case AdmitNamed(x, name) => InsertKeeps(s, rules, x, NamedRow(name, s.txs[x].run));
      case AdmitClaim(x, producer, scope, intent, semantics, durable) =>
        InsertKeeps(s, rules, x,
            ClaimRow(producer, scope, s.txs[x].run, s.txs[x].node, intent, semantics, durable, false, true));
      case AdmitSubClaim(x, row) => InsertKeeps(s, rules, x, row);
      case Commit(x) => CommitKeeps(s, rules, x);
      case Settle(_) => RowStepKeeps(s, rules, step);
      case Remove(_) => RowStepKeeps(s, rules, step);
      case _ => TxStepKeeps(s, rules, step);
    }
  }

  // --------------------------------------------------------- nothing else is refused

  /** Claims are checked against sub-claims as against root claims. */
  function AsRoot(row: Row): Row {
    if row.ClaimRow? then row.(root := true) else row
  }

  /** A root claim is admitted exactly if it goes with every row the transaction sees. */
  lemma AdmitsExactly<S>(s: State<S>, rules: Rules<S>, x: nat, producer: string, scope: string, intent: Intent,
                         semantics: Option<Semantics>, durable: bool)
    requires x in s.txs && rules.slot(Claim(producer, scope)) in s.txs[x].held
    ensures var row := ClaimRow(producer, scope, s.txs[x].run, s.txs[x].node, intent, semantics, durable, false, true);
            Enabled(s, AdmitClaim(x, producer, scope, intent, semantics, durable), rules) <==>
            forall id | id in Visible(s, s.txs[x]) ::
              Compatible(AsRoot(Visible(s, s.txs[x])[id]), row, rules.coexists)
  {
    var row := ClaimRow(producer, scope, s.txs[x].run, s.txs[x].node, intent, semantics, durable, false, true);
    var rows := Visible(s, s.txs[x]);
    forall id | id in rows
      ensures Compatible(AsRoot(rows[id]), row, rules.coexists) <==>
              (Concerns(rows[id], row.run, row.node, producer, scope) ==>
                 rows[id].semantics.Some? && rules.coexists(intent, rows[id].intent, rows[id].semantics.value))
    {
    }
  }

  /** A named lock is granted exactly if it is not limited or the limit holds with it. */
  lemma GrantsExactly<S(!new)>(s: State<S>, rules: Rules<S>, x: nat, name: string)
    requires Inv(s, rules) && x in s.txs && rules.slot(Named(name)) in s.txs[x].held
    ensures Enabled(s, AdmitNamed(x, name), rules) <==>
            WithinLimits(Visible(s, s.txs[x])[s.next := NamedRow(name, s.txs[x].run)], rules.limits)
  {
    var rows := Visible(s, s.txs[x]);
    var row := NamedRow(name, s.txs[x].run);
    var rows' := rows[s.next := row];
    assert s.next !in rows && Safe(rows, rules);
    assert NamedIds(rows', name) == NamedIds(rows, name) + {s.next};
    if Enabled(s, AdmitNamed(x, name), rules) { LimitsGrow(rows, s.next, row, rules.limits); }
  }

  /** However transactions interleave, no configured named lock is over its limit
      and any two root claims of different runs on one scope coexist. */
  lemma {:induction false} AdmissionSafe<S(!new)>(steps: seq<Step>, rules: Rules<S>)
    ensures Inv(Run(steps, rules), rules)
    ensures Safe(Run(steps, rules).rows, rules)
  {
    if steps == [] {
    } else {
      AdmissionSafe(steps[..|steps| - 1], rules);
      var s := Run(steps[..|steps| - 1], rules);
      if Enabled(s, steps[|steps| - 1], rules) { StepKeeps(s, rules, steps[|steps| - 1]); }
    }
  }
}
