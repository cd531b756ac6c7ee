# Settlement and coordination in rimsky-core, in Dafny

rimsky-core lets runs claim shared state, hold claims together, fan them out into
sub-claims, and settle them: every claim ends committed or abandoned, its producer
is told once, and the runs that depend on it end accordingly. This project models
that engine, the run tree above it, and the concurrent protocols around it, and
proves what they keep.

## How the model is laid out

Claim settlement:

- `Claims`: the tables (handles, holder rows, runs, verb outbox) and the guarded
  row updates.
- `ClaimForest`: what a resolution does to the whole forest, said once and for all
  without an order of siblings (`ResolveSpec`, `SettleSpec`, `Doomed`).
- `ClaimEngine`: the engine as it runs. A class whose methods `Resolve`,
  `CancelDescendants`, `CancelSiblings`, `CancelWalk`, `Settle` re-enter each other
  and read rows again under lock. `ClaimForestLemmas`, `ClaimWalk` and `Ledger`
  carry its proof.
- `ClaimCounts`, `ClaimVerdicts`: child counts, policies, strict cancellation.
- `HeldClaims`, `HeldRuns`, `HeldLaws`: auto-terminal, release of locks, and the laws
  that hold between transactions.
- `PlainReleases`: how a root claim that nobody has split fares in a release.
  `Terminals`: completing, giving up, and error policies that pass.
- `ClaimIntake`, `ClaimHistory`: acquisition, fan-out, and whole histories.
- `HoldingRoster`: which members a held claim waits for.

Around it:

- `RunAggregate`, `RunTree`: aggregation policies and upward propagation.
- `VerbOutbox`: settling transactions, dispatcher passes and open barriers, interleaved.
- `LockOrder`, `Deadlock`, `Admission`: sorted advisory locks, deadlock, admission.
- `WaitSet`: cascade rounds. `Delegation`: nested sub-graphs.
- `HostAgentProxy`: the spawn index and the claim routes. `Publishers`: the subscription reconciler.
- `LicenseHeaders`: stamping and stripping.

Conventions. A table is a map keyed by id and a guarded update that matches no row
changes nothing; this is what the SQL in `lib/foundation/persistence/sqlite` does.
Ids that the source draws at random are parameters required to be fresh. A
transaction is atomic, and one that errs restores what it found; where
interleaving is the point (`VerbOutbox`, `Deadlock`, `Admission`, `WaitSet`,
`HostAgentProxy`, `Publishers`) every step of every participant is a step of its
own. Listings come in no particular order unless the query orders them. `level`
and `depth` on the engine and the run tree witness that parent links are acyclic.
Producers, scope conflict and mode coexistence are parameters.
A run that ends hands over the claims it acquired (`HeldRuns.AcquiredBy`): they are
distinct, a root claim's alias is held exactly if its row says so, and nobody else
holds a claim that is released outright. A run becomes a co-holder only of claims
whose holding subgraph its node is a member of. The store shows a run that its error
policy passed as Fresh; the model keeps it apart as Passed.
In `WaitSet` a transaction that emits keeps its sender's row and its receivers
locked, what it has added is unseen until it commits, and gates are evaluated at any
time and in any order.

## Where the code parts from what is promised of it

- A shared claim whose acquirer gives up has all its holder rows failed at once.
  Another holder that completes afterwards cannot mark its row, its transaction
  errs, and its run stays Running over an abandoned claim instead of settling
  Failed. `Terminals.CompleteRun` errs exactly if a row it must mark is no longer
  active; `ClaimHistory.StrandedHolder` is the case.
- The members that a held claim waits for are looked up by the first reference to
  its producer. A second alias of the same producer waits for the wrong subgraph:
  `HoldingRoster.ExpectsOwnMembers` says exactly when, `SecondAliasMisled` shows one.
- A colon in a producer name lets two claims share a sort key, and so does a
  collision of the 32-bit advisory slots. `Deadlock.DeadlockFreedom` gives the exact
  condition on slots and order; `ColonsCanDeadlock` is a case.
- Verbs of one producer and scope are meant to go out in the order of their
  sequence numbers. A number is drawn when a settling transaction enqueues and its
  row becomes visible when that transaction commits, and nothing ties the two
  orders together: on Postgres the verb of a transaction that draws later and
  commits earlier overtakes. `VerbOutbox.OutboxOrder` gives the exact condition on
  the transactions, `LaterVerbOvertakes` is a case.
- An error policy that passes shows its run as Fresh without asking what the run
  holds. `Terminals.PassRun` says, from the tables before the call, when that is right:
  exactly, if none of the run's open claims has a parent or children, and with a
  necessary condition in all cases. `ClaimHistory.PassesOverOpenClaim` is a case
  where it is not.
- A decision by a supervisor that does not hold the claim is logged and skipped at
  promotion, but its verb is enqueued before that (`ClaimHistory.DecideRoot`), and
  its parent counts it as resolved (`ClaimHistory.SkippedMiscounts`).
- A pending run may leave between two emissions of one turn, and the second then
  joins an older round. The gate's guards bar that as long as they see the sender:
  by its undrained wait row, or by its being in flight. They miss an aggregating
  co-member that leaves Held, and of the receiver's own node one that goes on after
  a delegation and one whose row is not yet committed in a round that another node
  began. `WaitSet.RoundsSeparate` is exact, `RoundsMix` and `RivalRoundsMix` are the
  cases.
- A best-effort parent run always ends Fresh, a best-effort parent claim commits
  only if a child did (`RunAggregate.AggregatorsAgree`).
- `IsSuccess` reads as a prefix test on the settling signal, but the two patterns
  have no wildcard, so it is an equality test. The model follows the code: a child
  passed with `terminal/error/<class>` is fresh but no success.
- Stripping a stamped header also strips a header line the body itself began with
  (`LicenseHeaders.StripUndoesSplice`, both directions).

## Model

| member | source | states |
|---|---|---|
| ClaimForest.Doomed | lib/runtime/terminal_decision_cancel.go:25-101 | what a cancel walk reaches is closed under active children of the same supervisor and stays within the seeds and the table |
| ClaimForest.DoomedLeast | lib/runtime/terminal_decision_cancel.go:25-101 | and is the least such set |
| ClaimForestLemmas.ResolveEvolves | lib/runtime/terminal_decision.go:113-172 | a resolution resolves its handle to its outcome, moves rows only from active to resolved, leaves resolved rows final and open rows with their holder, and never changes shape, policy or expected counts |
| ClaimForestLemmas.DoomedPeel | lib/runtime/terminal_decision_cancel.go:25-101 | abandoning one seed's doom and then the others' is abandoning the doom of all |
| ClaimForestLemmas.CancelPeel | lib/runtime/terminal_decision_cancel.go:106-144 | cancelling one sibling, counting it, and cancelling the rest equals cancelling all siblings at once |
| ClaimWalk.WalkStepUp | lib/runtime/terminal_decision_cancel.go:25-101 | resolving the first sibling of a strict parent from inside the walk already completes the whole walk, so the outer frames find nothing to do |
| ClaimWalk.WalkStepDown | lib/runtime/terminal_decision_cancel.go:149-160 | resolving one descendant advances the walk by exactly its doom |
| ClaimWalk.ReviewSettles | lib/runtime/child_execution.go:388-552 | counting, cancelling siblings re-entrantly and re-reading the parent gives the same table as settling it once |
| ClaimEngine.Engine.constructor | lib/runtime/terminal_decision.go:113-172 | any acyclic claim forest is a valid start |
| ClaimEngine.Engine.ListChildren | lib/runtime/terminal_decision_cancel.go:106-160 | lists exactly the children, each once, in any order |
| ClaimEngine.Engine.Resolve | lib/runtime/terminal_decision.go:113-172 | terminates; the table is `ResolveSpec`; exactly one verb, matching the final state, is appended for each handle that went from active to resolved and none for any other; runs change only by leaving Held with the verdict of a resolved portfolio, and none is left stuck |
| ClaimEngine.Engine.CancelDescendants | lib/runtime/terminal_decision_cancel.go:149-160 | abandons exactly the doomed descendants, one verb each |
| ClaimEngine.Engine.CancelSiblings | lib/runtime/terminal_decision_cancel.go:106-144 | does nothing unless the policy is strict; otherwise the whole family is cancelled and the parent settled, once |
| ClaimEngine.Engine.CancelWalk | lib/runtime/terminal_decision_cancel.go:25-101 | walking any listing, judged stale and re-read, gives the order-free result |
| ClaimEngine.Engine.Settle | lib/runtime/child_execution.go:388-552 | the table is `SettleSpec`, with one verb for each handle resolved on the way up |
| ClaimEngine.Engine.ResolveIfClosed | lib/runtime/child_execution.go:424-552 | resolves the re-read parent, taking it over if need be, exactly if no holder and no child is active |
| ClaimEngine.Engine.AnyActiveHolder | lib/runtime/child_execution.go:430-447 | finds an active holder row exactly if there is one |
| ClaimEngine.Engine.EvaluatePortfolio | lib/runtime/held_cascade_defer.go:137-181 | fully resolved and poisoned, read off all handles a run acquired or co-holds |
| ClaimEngine.Engine.TransitionHolder | lib/runtime/held_cascade_defer.go:263-357 | a held run without child runs and with a resolved portfolio, and no other, moves to the verdict |
| ClaimEngine.Engine.EmitDeferredHeldCascade | lib/runtime/held_cascade_defer.go:186-219 | after a held-source resolution no holder and no acquirer of the handle is left stuck in Held |
| Ledger.PromoteExactlyOnce | lib/runtime/terminal_decision.go:125-150 | enqueueing first and promoting after the descendants still gives one verb per handle |
| Ledger.ExactlyOnceTrans | lib/runtime/producer_verb_outbox.go:50-90 | exactly-once composes over consecutive settlements |
| Ledger.ProgressTrans | lib/runtime/terminal_decision.go:113-172 | and so does all a settlement promises |
| ClaimCounts.ResolveKeepsCounts | lib/runtime/child_execution.go:401-447 | a resolution keeps expected, committed and abandoned of every active handle equal to its real numbers of children, committed and abandoned children |
| ClaimCounts.SettleKeepsCounts | lib/runtime/child_execution.go:388-552 | counting one resolved child repairs the parent's count and keeps all others |
| ClaimCounts.CancelAllCounts | lib/runtime/terminal_decision_cancel.go:106-144 | cancelling a family counts exactly the children lost |
| ClaimVerdicts.CountersDecide | lib/runtime/child_execution.go:619-658 | with right counts the aggregate outcome is the policy applied to the children themselves |
| ClaimVerdicts.TailVerdict | lib/runtime/child_execution.go:424-552 | a parent nothing holds open settles, and commits exactly if its policy is met |
| ClaimVerdicts.ParentWaits | lib/runtime/child_execution.go:401-447 | unless a strict parent hears of an abandon, a resolved child leaves its siblings as they are; the parent stays open exactly if a holder or another child is active, and then nothing is written but the handle, what it takes down with it, and one count |
| ClaimVerdicts.ParentCloses | lib/runtime/child_execution.go:448-552 | otherwise it closes, committed exactly if its children, all resolved, meet its policy |
| ClaimVerdicts.RootAlone | lib/runtime/terminal_decision.go:113-172 | a root claim is resolved with the given outcome, and only an abandon takes anything else down: what hangs below it |
| ClaimVerdicts.ResolveCommitsLawfully | lib/runtime/child_execution.go:388-552 | every handle a resolution commits on its way, the requested one aside, has children, all resolved, that meet its policy |
| ClaimWalk.StrictIsCancelAll | lib/runtime/terminal_decision_cancel.go:106-144 | one abandoned child of a strict parent has the effect of cancelling the whole family and settling the parent |
| ClaimVerdicts.StrictTriggerIrrelevant | lib/runtime/terminal_decision_cancel.go:106-144 | whichever child fails first, all rows end the same |
| ClaimVerdicts.StrictCancel | lib/runtime/terminal_decision_cancel.go:106-160 | under one supervisor no child stays active, every cancelled child's active descendants are abandoned, resolved rows are untouched, and the parent is abandoned unless a holder is active |
| ClaimVerdicts.StrictWaits | lib/runtime/terminal_decision_cancel.go:33-47 | whoever holds the children: all that are the supervisor's own are abandoned, and the parent stays open exactly if a holder is active or an open child is another supervisor's |
| HeldClaims.ExpectedMissing | lib/runtime/auto_terminal.go:127-196 | true exactly if more than one member is expected and one has no holder row |
| HeldClaims.CheckAndFireResolution | lib/runtime/auto_terminal.go:17-125 | fires exactly if the claim is active and ours, has rows, none active, and one failed or nobody is missing and all children are counted; abandons if one failed, else follows the children's policy |
| HeldClaims.MarkFires | lib/runtime/auto_terminal.go:43-84 | a mark fires the resolution exactly if no other holder is active and either somebody failed, or all members have come and all children are counted; it commits exactly if nobody failed and the children's policy is met |
| HeldClaims.FailingAllAbandons | lib/runtime/runner_terminal_release.go:146-158 | an acquirer that fails all rows of its claim leaves it ready and bound to be abandoned, whoever is missing, and touches no row that was done and no other claim's |
| HeldLaws.OutboxExactStep | lib/runtime/producer_verb_outbox.go:50-90 | over the history every resolved handle has exactly one verb, its final state, and no other verb exists |
| HeldLaws.ResolveSpares | lib/runtime/terminal_decision.go:113-172 | a root without children is touched by nobody else's resolution |
| HeldLaws.ResolutionSound | lib/runtime/terminal_decision.go:113-172 | a resolution keeps all laws between transactions |
| HeldLaws.FiringIsRight | lib/runtime/auto_terminal.go:43-84 | firing gives the right verdict on a held claim, and not firing means it is not yet time |
| HeldLaws.FiredIsLawful | lib/runtime/auto_terminal.go:77-84 | a held fan-out parent that auto-terminal commits has all children resolved and its policy met |
| HeldRuns.ReleaseHeld | lib/runtime/runner_terminal_release.go:143-164 | marks the row, fails the others if the acquirer failed, fires when due, and keeps the laws; errs exactly if the row is not active |
| HeldRuns.ReleaseOutright | lib/runtime/runner_terminal_release.go:165-235 | an unshared claim that is open ends committed on success and abandoned on failure, one that is resolved is left alone, and no run is stranded |
| HeldRuns.ListLinked | lib/runtime/runner_terminal_release.go:52-69 | the run's own unheld sub-claims other than its locks |
| HeldRuns.ListInherited | lib/runtime/runner_held_claims.go:44-95 | the claims of other runs that the run co-holds and whose subgraph its node is a member of; the laws make that all it co-holds |
| HeldRuns.Release | lib/runtime/runner_terminal_release.go:21-45 | locks, then linked sub-claims, then inherited claims; errs exactly if a row to mark is not active; afterwards what was acquired outright and every unheld sub-claim is resolved, every row of the run is marked, and rows of others change only if an acquirer fails, on the claims it acquired |
| HeldRuns.ProbeOpenClaims | lib/runtime/held_cascade_defer.go:66-126 | whether the run acquired or actively holds anything open |
| HeldRuns.HoldRun | lib/runtime/runner_terminal.go:223-251 | a run parked in Held stays there exactly as long as it has child runs or something open |
| Terminals.CompleteRun | lib/runtime/runner_terminal.go:200-300 | errs and changes nothing exactly if a row it must mark is not active; otherwise the run is Held exactly if it had something open and has child runs or something open now, else Failed exactly if something it holds is abandoned, else Fresh; keeps the laws |
| Terminals.GiveUp | lib/runtime/runner_error_policy.go:116-232 | the same with rows failed; in any forest the run never ends Fresh: Held while it has child runs or something open, unless infrastructure retries ran out, and Failed otherwise |
| Terminals.GivingUpTaints | lib/runtime/runner_terminal_release.go:21-45 | a failing release of a run with something open leaves something open or something abandoned, whatever the forest settles on the way |
| PlainReleases.ReleaseManyPlain | lib/runtime/runner_terminal_release.go:21-45 | in any list of releases a root claim without children ends as if it were released alone |
| PlainReleases.ReleaseEndsRoots | lib/runtime/runner_terminal_release.go:133-260 | the state every open root claim without children is left in, from the tables before. On success: committed if released outright, or if the run is the last active holder, nobody failed and nobody is missing; abandoned if it is the last and somebody failed. On failure: abandoned if acquired, or if inherited and the run is the last. Open otherwise |
| Terminals.ResolveCommitsIdle | lib/runtime/child_execution.go:424-447 | whatever a resolution commits on its way, the requested claim aside, has no active holder |
| Terminals.PassExactly | lib/runtime/runner_error_policy.go:122-185 | if all the run has open are root claims without children, everything it holds is committed after a pass exactly if nothing was abandoned before it and each open claim is either released outright or one whose last active holder is this run, with no failed holder and nobody missing |
| Terminals.CleanNeeds | lib/runtime/runner_error_policy.go:122-185 | in any forest: only if nothing was abandoned and nobody else is active on what the run has open |
| Terminals.PassRun | lib/runtime/runner_error_policy.go:122-185 | errs and changes nothing exactly if a row it must mark is not active; otherwise rows are completed and the run is shown as Fresh; both conditions on the tables before the call hold, and with nothing open before, all it holds is committed exactly if nothing was abandoned; all other laws are kept |
| ClaimIntake.InsertRow | lib/runtime/runner_subclaim.go:177-204 | a new active row, counted by its parent, keeps the laws |
| ClaimIntake.Register | lib/runtime/runner_acquire_holders.go:34-64 | a co-holder row keeps the laws; an existing row is left alone |
| ClaimIntake.AcquireClaim | lib/runtime/runner_acquire_claims.go:79-167 | a root claim, with its acquirer's row if held, keeps the laws |
| ClaimIntake.ChildrenAdded | lib/runtime/runner_subclaim.go:130-213 | a fan-out adds exactly the new rows, raises expected by their number, and touches no other row |
| ClaimIntake.FanOutMeans | lib/runtime/runner_subclaim.go:130-213 | after a fan-out the parent has the given policy, if one was given, and expects one child more for each part; each part has an open row of its run and supervisor under it |
| ClaimIntake.Overlaps | lib/runtime/runner_subclaim.go:149-160 | finds an earlier overlapping part exactly if there is one |
| ClaimIntake.AcquireSubClaims | lib/runtime/runner_subclaim.go:62-216 | succeeds exactly if every part has a key and overlaps none before it and the parent is ours to change; otherwise leaves no trace; keeps the laws |
| ClaimHistory.Replay | lib/runtime/runner_terminal.go:169-343 | from an empty store every sequence of acquisitions, fan-outs, completions, give-ups and passes keeps all laws |
| ClaimHistory.HeldVerdict | lib/runtime/auto_terminal.go:17-125 | for a held root claim without children, in any state reached: all holders done, none failed and none missing means committed; one failed and none active means not open; committed means some holder and every expected member completed, abandoned means one failed; no verb while open, exactly one after |
| ClaimHistory.LeavingHeld | lib/runtime/held_cascade_defer.go:263-357 | a run that leaves Held has everything it acquired or co-holds resolved, and is Failed exactly if something was abandoned |
| ClaimHistory.CompletePoisoned | lib/runtime/runner_terminal.go:275-285 | completing over an abandoned claim never ends Fresh, and ends Held only while something is open or the run has child runs |
| ClaimHistory.StrandedHolder | lib/runtime/runner_terminal_release.go:245-248 | from an empty store: a claim is acquired and shared, the acquirer gives up, the other holder's completion errs and its run stays Running over the abandoned claim |
| ClaimHistory.PassesOverOpenClaim | lib/runtime/runner_error_policy.go:157-173 | from an empty store: a claim is acquired and shared, the other holder passes, and is shown as Fresh over a claim that is still open |
| ClaimHistory.DecideRoot | lib/runtime/terminal_decision.go:125-150 | whoever decides on an open root claim, exactly one verb per resolved claim is kept if and only if the claim is the deciding supervisor's; otherwise the verb goes out and the claim stays open |
| ClaimHistory.SkippedMiscounts | lib/runtime/terminal_decision.go:135-170 | a decision on an open claim of another supervisor leaves it open; an open parent stays open and counts one child too many; all counters stay right exactly if there is no open parent and no child was cancelled from under the claim |
| ClaimHistory.SettlementDetermined | lib/runtime/terminal_decision_cancel.go:25-160 | equal rows before and after mean equal runs and the same verbs up to order |
| ClaimHistory.ResolveTwice | lib/runtime/terminal_decision_cancel.go:25-160 | two stores with the same rows, listing siblings in any two orders, end with the same rows, runs and verbs |
| HoldingRoster.ExpectsOwnMembers | lib/runtime/auto_terminal.go:159-174 | a claim waits for its own subgraph's members, for all subgraphs, exactly if its reference shares the alias of the first one to its producer |
| HoldingRoster.SecondAliasMisled | lib/runtime/auto_terminal.go:159-174 | two aliases of one producer: the second claim waits for the first one's members |
| RunAggregate.VerdictNeverFlips | lib/runtime/run_tree.go:102-220 | as children settle, a verdict once given stays the same |
| RunAggregate.NewChildKeepsOpen | lib/runtime/run_tree.go:253-282 | dispatching another child does not settle an open parent |
| RunAggregate.ThresholdDue | lib/runtime/run_tree.go:145-176 | a threshold parent is settled as failed exactly if the failed children reach the limit, whatever is in flight, and as fresh exactly if all have settled below it |
| RunAggregate.StrictDue | lib/runtime/run_tree.go:119-143 | a strict parent, and one without a known policy, fails exactly if a child failed, whatever is in flight |
| RunAggregate.FirstDue | lib/runtime/run_tree.go:192-220 | a first-wins parent succeeds exactly if a child is a success, whatever is in flight, and fails exactly if all failed |
| RunAggregate.BestEffortDue | lib/runtime/run_tree.go:178-190 | a best-effort parent settles exactly if no child is in flight, and as fresh |
| RunAggregate.VerdictTells | lib/runtime/run_tree.go:102-220 | signal, changed flag and action of a settled parent, and which child they come from |
| RunAggregate.Aggregate | lib/runtime/run_tree.go:102-117 | phase, signal, changed flag and action are those of the family's verdict under the policy |
| RunAggregate.AggregateStrict | lib/runtime/run_tree.go:119-143 | one failure fails; all settled succeeds; otherwise open |
| RunAggregate.AggregateThreshold | lib/runtime/run_tree.go:145-176 | the number of failures against the limit, at least one |
| RunAggregate.AggregateBestEffort | lib/runtime/run_tree.go:178-190 | fresh once all are settled |
| RunAggregate.AggregateFirst | lib/runtime/run_tree.go:192-220 | the first success in listing order gives signal and changed flag; all failed fails |
| RunAggregate.AggregatorsAgree | lib/runtime/child_execution.go:619-658 | claim and run verdicts coincide for strict, threshold and first; for best effort they differ exactly if no child committed |
| RunTree.AgreementIsRecomputation | lib/runtime/state_propagation.go:70-152 | a tree whose inner runs agree with their children is the one recomputed from the leaves |
| RunTree.RecomputationAgrees | lib/runtime/state_propagation.go:70-152 | and conversely |
| RunTree.ParentLags | lib/runtime/state_propagation.go:88-106 | the parent of a run that has just settled agrees already or is still open |
| RunTree.WriteInLine | lib/runtime/state_propagation.go:88-150 | writing an outcome that agrees with the run's own children puts nobody out of line but its parent, whatever else is still to be walked |
| RunTree.Tree.VisitParent | lib/runtime/state_propagation.go:77-150 | one parent is brought in line with its children in phase and signal; the walk goes on only if it has just settled |
| RunTree.Tree.WalkUpwards | lib/runtime/state_propagation.go:70-152 | despite its early returns and whatever other walks are pending, the walk leaves out of line only open runs that another walk is to start from; it only settles open runs or corrects signals, and every row it writes carries the whole verdict on its children; the first parent has the verdict's phase and signal in any case |
| RunTree.Tree.Propagate | lib/runtime/state_propagation.go:176-280 | one pending walk, in a transaction of its own |
| RunTree.Tree.SettleLeaf | lib/runtime/state_propagation.go:43-68 | a leaf settles and its walk is left pending: every inner run agrees with its children, or is open and due, and each settled inner run has been reported exactly once |
| RunTree.Tree.Drain | lib/runtime/state_propagation.go:176-280 | after all pending walks, in any order, every run is as recomputing the tree from its leaves has it |
| RunTree.Tree.AddRun | lib/runtime/run_tree.go:253-282 | growing the tree under a run in flight keeps agreement |
| VerbOutbox.TurnHasCome | lib/runtime/producer_verb_outbox.go:212-257 | the row about to be delivered has nothing undelivered of its scope before it |
| VerbOutbox.RunKeepsInv | lib/runtime/producer_verb_outbox.go:212-384 | every step of transactions, passes and barriers keeps the outbox laws, those on order as long as rows are published in order |
| VerbOutbox.OutboxSound | lib/runtime/producer_verb_outbox.go:212-384 | over every interleaving, in whatever order transactions commit, with refused deliveries, failed deletes and roll-backs: no published verb is removed undelivered, no other is delivered |
| VerbOutbox.BarrierClears | lib/runtime/producer_verb_outbox.go:350-384 | whatever happens between its opening and its commit, a barrier that can commit has delivered, and deletes, exactly the rows of its producer that were in the table when it opened and whose scope conflicts with its candidate |
| VerbOutbox.PassDelivers | lib/runtime/producer_verb_outbox.go:212-300 | a pass that has come to its end has delivered and deleted every row that was in the table when it began, but for keys it gave up on; without a refusal or a row put off it gives up on none |
| VerbOutbox.OutboxOrder | lib/foundation/persistence/postgres/producer_verb_outbox.go:49-66 | for any schedule of settling transactions: whatever passes and barriers do in between, a verb is delivered only after every published one of its producer and scope with a smaller number, exactly if the transactions publish those in the order of their numbers |
| VerbOutbox.LaterVerbOvertakes | lib/runtime/terminal_decision.go:127-130 | a run in which a transaction draws its number second and commits first, and its verb is delivered first |
| VerbOutbox.WaitersPublishInOrder | lib/foundation/persistence/postgres/migrations/027-producer-verb-outbox.sql:14-15 | transactions that commit only while no smaller number of their keys is open publish in order |
| VerbOutbox.MustWait | lib/foundation/persistence/postgres/migrations/027-producer-verb-outbox.sql:14-15 | and one that does not wait is out of order if the other commits next |
| VerbOutbox.Backoff | lib/runtime/producer_verb_outbox.go:191-209 | the wait is base times two to the number of earlier attempts, capped |
| LockOrder.SortSpecsSorts | lib/runtime/runner_locks.go:34-63 | the sort orders by kind and key, loses and invents nothing, and is stable |
| LockOrder.StringLeqMeans | lib/runtime/runner_locks.go:34-42 | the order of keys: a prefix comes first, and else the first difference decides |
| Deadlock.RunMutex | lib/runtime/runner_acquire_named_locks.go:20-31 | a slot has one holder at a time |
| Deadlock.DeadlockFreedom | lib/runtime/runner_acquire.go:489-507 | for any number of supervisors, sorted acquisition held to transaction end is deadlock-free exactly if no two slots lie crosswise in the order |
| Deadlock.KeyTellsApart | lib/runtime/runner_locks.go:55-63 | without colons in producer names the key determines the claim |
| Deadlock.ColonFreeNeverDeadlocks | lib/runtime/runner_locks.go:34-63 | one slot per lock and colon-free producer names: never a deadlock |
| Deadlock.ColonsCanDeadlock | lib/runtime/runner_locks.go:55-63 | with a colon two supervisors can deadlock |
| Admission.AdmissionSafe | lib/runtime/runner_acquire_named_locks.go:59-95 | however transactions interleave, no configured named lock is over its limit, and any two root claims of different runs on one scope coexist, or the earlier is the node's own committed durable claim |
| Admission.AdmitsExactly | lib/runtime/runner_acquire_claims.go:175-227 | under its lock a root claim is admitted exactly if it may coexist with every row the transaction sees |
| Admission.GrantsExactly | lib/runtime/runner_acquire_named_locks.go:59-95 | under its lock a named lock is granted exactly if the limits hold with it |
| Admission.PendingsApart | lib/runtime/runner_acquire_claims.go:175-227 | what two open transactions have pending is safe together with the table, since they hold different locks |
| Admission.InsertKeeps | lib/runtime/runner_acquire_claims.go:46-104 | an admitted row keeps limits and compatibility |
| WaitSet.Latest | lib/runtime/cascade_walker.go:22-25 | the pending run of a receiver with the highest sequence |
| WaitSet.EmitLands | lib/runtime/cascade_walker.go:16-81 | every emission to an open scope leaves the sender run in the receiver's latest pending run |
| WaitSet.RoundBegins | lib/runtime/cascade_walker.go:16-81 | an emission creates a run exactly if the scope is open, the turn has not come to the receiver yet, and its latest pending run, if any, waits for another run of the sender's node; at most the latest run gets a row |
| WaitSet.EmitOnePerSender | lib/runtime/cascade_walker.go:37-51 | no emission gives a run two runs of one sender node |
| WaitSet.RoundsSeparate | lib/runtime/gate_evaluator.go:45-104 | with all guards of the gate, after no history of turns, gates, drops, settlements and closings does a run wait for two runs of one sender node, exactly if no gate overlooks a sender: no node that aggregates emits to a co-member, and no node that delegates, or that is not the only one to emit to itself, emits to itself |
| WaitSet.RoundsMix | lib/runtime/state_propagation.go:240-280 | the history that mixes two rounds if the sender's rows are drained before its last emission: an aggregating co-member that rests in Held, or the node itself after a delegation |
| WaitSet.RivalRoundsMix | lib/runtime/gate_evaluator.go:70-77 | and the one for a node that emits to itself while another node emits to it: the round leaves by failing at the gate while the node's own row in it is not committed |
| WaitSet.NextEmitLands | lib/runtime/runner_terminal.go:477-541 | if none is overlooked, any emission to an open scope, after any history, lands in the latest round |
| WaitSet.GateOpensAgain | lib/runtime/gate_evaluator.go:45-104 | after any history, under any rules, a pending run whose round is over can leave: settled senders have left no undrained row |
| WaitSet.PinnedSenderRuns | lib/runtime/substitution_context.go:175-203 | for each sender node the latest of its runs among the rows |
| WaitSet.PinnedIsUnique | lib/runtime/substitution_context.go:175-203 | which, if no gate overlooks a sender, is the only one in every state reached |
| Delegation.DelegationBounded | lib/runtime/child_execution.go:143-158 | delegation nests at most as deep as the template has graphs |
| Delegation.RunScopes.GraphInChain | lib/runtime/child_execution.go:143-158 | whether a scope or one of its ancestors, open or closed, is of a graph |
| Delegation.RunScopes.Close | lib/foundation/persistence/sqlite/run_scopes.go:86-94 | closing a scope keeps delegated graphs distinct and one open scope per run and partition |
| Delegation.RunScopes.DispatchChildren | lib/runtime/child_execution.go:66-139 | rejects, without a trace, exactly a missing parent, delegation to a graph in the chain, and a sub-claim for other than one child; otherwise every partition gets the one scope its run has open for it, and delegated graphs stay distinct along every root path |
| HostAgentProxy.OneSpawnPerKey | cmd/rimsky-host-agent-proxy/dispatch.go:104-131 | at most one live spawn exists for a scope and binding |
| HostAgentProxy.ProxyState.RegisterAgent | cmd/rimsky-host-agent-proxy/state.go:217-230 | a displaced connection's spawns go, with index entries and claim routes |
| HostAgentProxy.ProxyState.DropAgent | cmd/rimsky-host-agent-proxy/state.go:244-260 | removes all spawns of the identity, even for a displaced connection, with index entries and all routes to them |
| HostAgentProxy.ProxyState.DropSpawnsForRunScope | cmd/rimsky-host-agent-proxy/state.go:312-327 | the same for a run scope |
| HostAgentProxy.ProxyState.DropSpawn | cmd/rimsky-host-agent-proxy/state.go:329-339 | the same for one spawn |
| HostAgentProxy.ProxyState.DropSpawns | cmd/rimsky-host-agent-proxy/state.go:232-275 | spawns go together with their index entries and the routes to them, so that every route left leads to a live spawn unless it was recorded too late |
| HostAgentProxy.ProxyState.RecordClaimRoute | cmd/rimsky-host-agent-proxy/state.go:365-372 | a route leads to a live spawn from now on exactly if its spawn is live when it is recorded |
| HostAgentProxy.ProxyState.RouteByClaim | cmd/rimsky-host-agent-proxy/claim_producer_handler.go:146-159 | three lookups with anything in between: a verb that is forwarded goes to the spawn that opened the claim, which has been live since the route was read, and to the connection its agent still has; undisturbed, it is forwarded exactly if the route was recorded in time, no drop has purged it, and the agent is connected |
| HostAgentProxy.ProxyState.Probe | cmd/rimsky-host-agent-proxy/dispatch.go:109-112 | the second lookup ends the flight on a hit |
| HostAgentProxy.ProxyState.RecordSpawn | cmd/rimsky-host-agent-proxy/state.go:284-296 | a fresh spawn of a probed flight keeps index and spawn map inverse |
| HostAgentProxy.ProxyState.Interleave | cmd/rimsky-host-agent-proxy/dispatch.go:104-131 | any interleaving of callers and drops keeps both laws; no spawn comes back, and an agent whose connection goes or is displaced has lost its spawns |
| Publishers.SettledIsStable | lib/runtime/publishers.go:252-390 | the table a pass aims at has no mounting row and no active row of a gone instance for a registered publisher, and is its own target |
| Publishers.Reconciler.ReconcileRow | lib/runtime/publishers.go:287-346 | undisturbed, one row ends active and live, or stopped and not live if its instance is gone; disturbed in any way, no stopped row changes, nothing becomes live whose row is stopped, and only what is stopped or gone ceases to be live; a refused subscription changes nothing |
| Publishers.Reconciler.RecoverUnknown | lib/runtime/publishers.go:392-426 | exactly the rows that failed for want of a now registered publisher go back to mounting |
| Publishers.Reconciler.DropOrphans | lib/runtime/publishers.go:347-386 | drops exactly the listed subscriptions without a wanted row |
| Publishers.Reconciler.ReconcilePublisher | lib/runtime/publishers.go:274-387 | one publisher's rows reach their targets and its live set is its active rows |
| Publishers.Reconciler.Resync | lib/runtime/publishers.go:252-390 | one undisturbed pass: every wanted row of a registered publisher, and every one that failed for want of it, ends active and live, unless its instance is gone: then stopped and not live; no other row changes, and every registered publisher's live set is exactly its active rows |
| Publishers.Reconciler.ResyncTwice | lib/runtime/publishers.go:252-390 | a second pass changes nothing |
| Publishers.Reconciler.StopInstance | lib/runtime/publishers.go:211-250 | stops exactly the instance's wanted rows but the active ones whose publisher refuses, and drops exactly the subscriptions that were not refused |
| Publishers.Reconciler.StopAndResync | lib/runtime/publishers.go:211-390 | of a gone instance nothing is wanted or live after the next undisturbed pass, whoever refused |
| Publishers.Reconciler.Interleave | lib/runtime/publishers.go:581-620 | over any mix of passes on stale listings, stops and other writers a stopped row never changes |
| LicenseHeaders.StripLeadingHeader | tools/license-check/headers.go:207-246 | the index loop computes `Strip` |
| LicenseHeaders.HeaderStampable | tools/license-check/headers.go:248-289 | the lines of every stamped header are header lines and no preamble |
| LicenseHeaders.StampedLines | tools/license-check/headers.go:291-340 | the lines of a stamped text: what stays above, the header, a blank line, the rest |
| LicenseHeaders.FirstLineStays | tools/license-check/headers.go:291-340 | an interpreter line and a generated-code mark stay the first line of a stamped text, which otherwise begins with the copyright line |
| LicenseHeaders.StripUndoesSplice | tools/license-check/headers.go:173-184 | stripping a stamped header gives back the body exactly if the first line below the header is not a header line; otherwise the result is shorter |
| LicenseHeaders.RestampIsStamp | tools/license-check/headers.go:173-184 | restamping under another license equals stamping the original in exactly the same cases |

## Left out

- ClaimEngine.Engine.Resolve: is stated for a handle that is active and held by the deciding supervisor. Callers lock the row and check that it is active; what becomes of claims and counters if somebody else holds it is in ClaimHistory.DecideRoot and SkippedMiscounts; the verbs of the siblings cancelled then are not modelled.
- Terminals.CompleteRun: covers runs whose acquisition carries the holding subgraphs; the callback path that builds an acquisition without them (lib/runtime/callback.go:625-636) is not modelled.
- Terminals.GiveUp: retry, which releases nothing, and release-and-requeue, which deletes abandoned rows, are not modelled.
- ClaimVerdicts.StrictCancel: is stated for a tree held by one supervisor, as the held-claim laws are.
- RunTree.Tree.WalkUpwards: a corrected signal is not carried further up, so ancestors may keep an older signal and changed flag; the cancel actions it collects are not executed.
- VerbOutbox.OutboxOrder: a barrier sees committed rows only; its own transaction enqueues nothing.
- VerbOutbox.Backoff: integers are unbounded, so a cap above half the largest 64-bit duration is outside it.
- Deadlock.DeadlockFreedom: advisory locks only; the dispatch-row lock and other row locks are not part of it.
- WaitSet.RoundsSeparate: templates without hard-dependency edges; a turn does not roll back.
- HostAgentProxy.ProxyState.RecordSpawn: scopes and bindings without NUL characters share no flight.
- Publishers.Reconciler.Resync: refused calls and retries enter only through the laws on single rows and interleavings.
- Named-lock rows in a run's portfolio, row expiry, and lock reuse after parking.
- Relinking of sub-claims to child runs and holder restamping.
- Orphan reaping, ownership bail, retention, record-only abandon and deletion of abandoned rows for a requeue.
- Subtree cancellation after a first-wins settlement.
- Events, lineage, metrics, signals and attribute values; data-processing candidates and producer metadata.
- Which attributes fail at a gate and which runs a cascade mode drops: a pending run may fail or be dropped whenever the guards before that let it.
- Header detection in the first ten lines and file walking.
- The command line, HTTP and gRPC handlers, peer authentication and deadlines.
