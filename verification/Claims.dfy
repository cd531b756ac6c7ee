/** The claim-handle table, the verb outbox, the claim-holder table and the run
    table that claim settlement works on, with the guarded updates the store
    performs. A table is a map keyed by id; a guarded update that matches no row
    leaves the table as it was. */
module Claims {

  datatype Option<+T> = None | Some(value: T)

  type HandleId = nat
  type RunId = nat
  type Supervisor = string
  type NodeType = string

  datatype HandleState = Active | Committed | Abandoned

  /** `Unrecognised` is a policy whose kind is none of the four, as when none was
      ever set; `Malformed` is one whose stored bytes do not decode. */
  datatype Policy = Strict | Threshold(max: int) | BestEffort | First | Unrecognised | Malformed

  datatype Handle = Handle(
    state: HandleState,
    holder: Option<Supervisor>,
    parent: Option<HandleId>,
    run: Option<RunId>,
    held: bool,
    policy: Policy,
    expected: nat,
    committed: nat,
    abandoned: nat)

  type Table = map<HandleId, Handle>

  datatype Outcome = Commit | Abandon | SiblingCancel | DescendantCancel {
    predicate IsAbandon() { !Commit? }
  }

  datatype Source = ActiveTerminal | HeldTerminal

  datatype Verb = Verb(handle: HandleId, commit: bool)

  datatype HolderState = HolderActive | HolderCompleted | HolderFailed

  type Holders = map<(HandleId, RunId), HolderState>

  /** The store shows a passed run as Fresh too; its error policy said so. */
  datatype RunState = Running | Held | Fresh | Passed | Failed

  /** `aggregating` says that the run has child runs of its own. */
  datatype Run = Run(state: RunState, aggregating: bool)

  type Runs = map<RunId, Run>

  predicate IsActive(t: Table, h: HandleId) {
    h in t && t[h].state.Active?
  }

  /** What the cancel walk demands of a row before it resolves it. */
  predicate Cancelable(t: Table, me: Supervisor, h: HandleId) {
    IsActive(t, h) && t[h].holder == Some(me)
  }

  predicate ChildOf(t: Table, h: HandleId, p: HandleId) {
    h in t && t[h].parent == Some(p)
  }

  function Children(t: Table, p: HandleId): set<HandleId> {
    set h | h in t && ChildOf(t, h, p)
  }

  function Resolved(commit: bool): HandleState {
    if commit then Committed else Abandoned
  }

  /** Claimant-guarded compare-and-set: only an active row held by `sup` moves. */
  function Promote(t: Table, h: HandleId, sup: Supervisor, commit: bool): Table {
    if Cancelable(t, sup, h)
    then t[h := t[h].(state := Resolved(commit), holder := None)]
    else t
  }

  /** Adds one child outcome to a row that has a holder. */
  function Bump(t: Table, p: HandleId, commit: bool): Table
    requires p in t
  {
    if commit then t[p := t[p].(committed := t[p].committed + 1)]
    else t[p := t[p].(abandoned := t[p].abandoned + 1)]
  }

  function Reassign(t: Table, p: HandleId, to: Supervisor): Table
    requires p in t
  {
    t[p := t[p].(holder := Some(to))]
  }

  /** The outbox has a unique key (handle, verb); a second insert is ignored. */
  function Enqueue(out: seq<Verb>, v: Verb): seq<Verb> {
    if v in out then out else out + [v]
  }

  /** The verdict of a fan-out parent from its own counters. */
  function AggregateCommits(p: Handle, seedCommits: bool): bool {
    if p.expected == 0 then seedCommits
    else match p.policy
      case Threshold(max) => p.abandoned < (if max <= 0 then 1 else max)
      case BestEffort => p.committed > 0
      case First => p.committed > 0
      case _ => p.abandoned == 0
  }

  ghost predicate InPortfolio(t: Table, holders: Holders, r: RunId, h: HandleId) {
    h in t && (t[h].run == Some(r) || (h, r) in holders)
  }

  ghost predicate FullyResolved(t: Table, holders: Holders, r: RunId) {
    forall h | InPortfolio(t, holders, r, h) :: !IsActive(t, h)
  }

  ghost predicate Poisoned(t: Table, holders: Holders, r: RunId) {
    exists h :: InPortfolio(t, holders, r, h) && t[h].state == Abandoned
  }

  /** Handles that still have an active holder row. */
  ghost predicate Busy(holders: Holders, h: HandleId) {
    exists r :: (h, r) in holders && holders[(h, r)] == HolderActive
  }
}
