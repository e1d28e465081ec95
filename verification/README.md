# Microflows in Dafny

Microflows is a durable saga coordinator. Workers claim workflows under fenced leases, drive a pure control-flow
graph one remote operation at a time, and on failure unwind the checkpoints newest first; workflows can call other
workflows. Singular is the idempotency and lease protocol of the participants it drives. This project models both,
together with the graph language, its build gates, its source lowering and the operator's diagnostic walks, and proves
what they are for: safety over all runs, resumption by replay, exactly-once execution, and type soundness.

`dafny verify dfyconfig.toml` checks the whole project.

## How the model is laid out

* **Rows.** `Rows` holds the durable rows. Everything the store keys by one workflow id (workflow, plan pin, arguments,
  operations, checkpoints, call sidecars, event log) is one `Workflow` value; a `Db` maps ids to them.
* **Procedures.** `Procedures` and `Coordinator` give each stored procedure as a function from rows and command to
  outcome and rows, in the guard order of its SQL body; `Apply` is one call, `Run` any interleaving of calls by any
  drivers.
* **The store in place.** `Tables` holds the workflow, operation, checkpoint, call and event tables, keyed as the schema
  keys them, and what they stand for as aggregate rows. `StoreMethods.Store` updates these tables one statement after
  another. Every procedure requires and re-establishes `Valid`, the foreign keys together with the store invariant, is
  proved to be the atomic step, and names in its `modifies` clause the tables it writes. The status hints beside the
  call sidecars are a table of their own, outside the aggregate rows: no guard reads them, and `Hints` says what they
  promise.
* **The invariant.** `Soundness` says what one workflow's rows owe each other, `Invariant` adds the call forest and the
  unique operation ids, `Evolution` says how rows may differ between any two moments. `SoundSteps`, `StackSteps`,
  `OpSteps` and `InvariantSteps` prove them for every command. `Reachable` stores are those that runs from the empty
  store lead to; the theorems about them are in `Unwinding`, `Betrayal`, `Fencing`,
  `Replay`, `CallForest`, `Budgets`, `Lifecycle` and `Timeline`.
* **What commands leave behind.** `Replay` keeps what a commit stored over every run, `Schedule` says when the next claim
  is granted, `Resumption` where a driver takes a workflow up, `Ledger` and `EventLog` that the log accounts for the
  rows, `Counting` that budgets and timers count what happened and decide by it, `Replies` that every reply is true of
  the rows, `Progress` what can still be reached from any store.
* **Participants.** `Singular` is one work item; `Participant` composes the coordinator, any number of participant
  handlers, the effect store keyed by operation id, process restarts that empty it, and a network that loses answers;
  `Delivery` ties the executed input to the stored row and shows that an answer can always be had.
* **Graphs.** `Graph` is the interpreter, `Loops` what its loops and expressions mean element by element, `Resume` replay after a crash, `Lowering` the structured source and its
  lowering, `OpDepth` and `Driving` the plan length and what it guarantees in the store, `Dominance` and `Scoping` the
  reference checks, `Types`, `Inference` and `Typing` the type system, `Gate` that it refuses no more than it has to, `NeverFaults` type soundness, `Gaps` the accepted
  graphs that need its extra conditions. `NeverFaults.Built` is what the build accepts: the type, scope and
  operation-depth gates together.
* **Diagnostics.** `Diagnostics`, `Timeline` and `Stuck` are the tree, timeline and verdict walks.

Clocks, random ids, participant answers and the schedule are parameters of the commands, so every theorem holds for
all of them. A clock that steps back is allowed everywhere; where a bound needs spacing, the bound says so. JSON values
are trees, hashes are compared as values, and a number literal carries whether its machine type can hold it.

## Where the code and its own texts disagree

The model follows the code.

* The schema comment says that every publication re-validates an unexpired lease. No publishing procedure looks at the
  deadline; only the heartbeat does (`Fencing.ExpiryDoesNotFence`, `Fencing.HeartbeatChecksExpiry`). Safety rests on the
  token alone (`Fencing.SinglePublisher`).
* `sp_mf_checkpoint_reverse_request` and `sp_mf_checkpoint_reverse_settle` do not ask whether the checkpoint belongs to
  a call, and `sp_mf_operation_settle` does not ask whether the child is finished. So "a reversed workflow has only
  unwound children" is a property of the runner's discipline, not of the store: `Unwinding.DisciplinedRunUnwound` proves
  it under the discipline, `Unwinding.UnwoundExactly` gives the guard of the one step that can break it, and
  `Betrayal.GuaranteeCanBeLost` is a run that does.
* The re-dispatch pace holds unless the threshold is zero and the clock steps back: elapsed milliseconds are truncated
  toward zero (`Budgets.EscalationPacedExactly`).
* Singular's `resume` does not check that the offered token is fresh. A superseded token publishes in a run if and only
  if that run grants it again (`Singular.ReclaimedTokenPowerless`, with the run `Singular.ReusedTokenPublishes`); a run
  that never offers it is safe (`Singular.NeverOfferedNeverPublishes`).
* The participant's effect store lives in its process. The body of a settled operation was executed once more for
  every restart between an execution and the completion of its item, and never otherwise (`Participant.ExactlyOnce`,
  `Participant.OnceExactlyWithoutLoss`, with the run `Participant.RestartExecutesAgain`); a durable store has no such
  restart.
* The type checker looks through optional fields, trusts the shape of integer literals inside constructed objects, lets
  anything be projected from an imprecise literal, types the elements of such a literal as unknown, and takes the body
  type for a fold from `null`. Each lets a graph with an operation that the build accepts fault or answer with a wrong
  type (`Gaps`).
  `NeverFaults.AdvanceProper` proves soundness once these are closed. For single expressions the condition is exact
  (`Typing.NeverFaultsExactly`). For whole graphs it is sufficient only: a projection in a branch that no arguments
  select cannot fault, and which branches are selected is not a matter of types.
* The type gate refuses some values that would fit: inside arrays and for a source that is optional itself it asks for
  the same type (`Gate.RefusesMore`); elsewhere it accepts exactly what is included (`Gate.AssignableExactly`).
* `sp_mf_operation_settle` does not ask that the last settle of a plan be the final one. After one that is not, no
  command completes the workflow any more (`Progress.CompletesExactly`).
* The diagnostic verdict counts a lease as over when it expires at this instant, the claim rule only afterwards
  (`Stuck.ClaimableVerdictExactly`).
* The comment above `CHECKPOINT_RESOLUTION_REQUIRED` in `dbq.py` lists checkpoint codes the procedures do not use; the
  model has active, undone, resolution required and the unused fourth state.
* The lifecycle machine has no arrow for a child reopen and shows an authored failure before any checkpoint as a
  reversal. The refinement leaves out the reopen only: nothing leaves the machine's completed state
  (`Lifecycle.StepRefines`). The empty failure is matched by a rejection event instead of the failure signal, which
  matches every other authored failure (`Lifecycle.FailSignalExactly`).

## Model

| member | source | states |
|---|---|---|
| StoreMethods.Store.PlanAbove | microflows/db/procs/sp_mf_call_submit.sql:64-380 | the bounded walk over parent links finds the plan exactly when it occurs on the lineage the recursion guard is about |
| StoreMethods.Store.CreatePlanned | microflows/db/procs/sp_mf_workflow_create_planned.sql:44-173 | on the tables, outcome and what the tables then stand for are those of the atomic step, and the store invariant is kept: the first create pins, later ones answer from that pin or conflict |
| StoreMethods.Store.Claim | microflows/db/procs/sp_mf_workflow_claim_by_id.sql:15-75 | the atomic step: granted only when claimable, with a token one higher |
| StoreMethods.Store.Heartbeat | microflows/db/procs/sp_mf_workflow_heartbeat.sql:19-70 | the atomic step: the only command that compares the lease deadline with the clock |
| StoreMethods.Store.Release | microflows/db/procs/sp_mf_workflow_release.sql:17-74 | the atomic step: lease given up, next attempt scheduled, token kept |
| StoreMethods.Store.RequestOperation | microflows/db/procs/sp_mf_operation_request.sql:32-194 | the atomic step, fence before plan order before replay, and a duplicate operation id rolled back; what the row then holds is `Replay.CommitStores` |
| StoreMethods.Store.SettleOperation | microflows/db/procs/sp_mf_operation_settle.sql:49-254 | the atomic step, replay recognised before the fence; result, checkpoint and, when final, completion in one commit; what they hold is `Replay.CommitStores` |
| StoreMethods.Store.BeginReversal | microflows/db/procs/sp_mf_workflow_begin_reversal.sql:29-182 | the atomic step: failed with nothing to unwind, reversing from the top checkpoint otherwise |
| StoreMethods.Store.AuthoredFail | microflows/db/procs/sp_mf_workflow_authored_fail.sql:30-151 | the atomic step of a failure the script itself raises |
| StoreMethods.Store.RequestReverse | microflows/db/procs/sp_mf_checkpoint_reverse_request.sql:25-181 | the atomic step: one immutable binding, top checkpoint only |
| StoreMethods.Store.SettleReverse | microflows/db/procs/sp_mf_checkpoint_reverse_settle.sql:24-183 | the atomic step: top checkpoint undone, then descend or finish |
| StoreMethods.Store.BlockReverse | microflows/db/procs/sp_mf_checkpoint_reverse_block.sql:24-159 | the atomic step: one checkpoint and its workflow parked together |
| StoreMethods.Store.DeferRoute404 | microflows/db/procs/sp_mf_workflow_reconcile_defer.sql:35-198 | the atomic step: charge the budget, defer or park |
| StoreMethods.Store.DeferReverseRoute404 | microflows/db/procs/sp_mf_checkpoint_reconcile_defer.sql:30-214 | the same budget on the compensation side |
| StoreMethods.Store.DeferPending | microflows/db/procs/sp_mf_operation_pending_defer.sql:40-197 | the atomic step: observe the pending timer or escalate to a re-dispatch |
| StoreMethods.Store.DeferReversePending | microflows/db/procs/sp_mf_checkpoint_pending_defer.sql:29-201 | the same timer on the compensation side |
| StoreMethods.Store.DeferDispatch | microflows/db/procs/sp_mf_operation_dispatch_defer.sql:31-137 | the atomic step: reschedule, logging a reason once per streak |
| StoreMethods.Store.SubmitCall | microflows/db/procs/sp_mf_call_submit.sql:64-380 | the atomic step: guards in order, then the parent operation, the child with its first event, the sidecar and the parent event, statement by statement |
| StoreMethods.Store.ReopenChild | microflows/db/procs/sp_mf_checkpoint_reverse_child_reopen.sql:37-241 | the atomic two-workflow step that sends a completed child into reversal; the child is another row than its parent |
| StoreMethods.Store.SettleChild | microflows/db/procs/sp_mf_checkpoint_reverse_child_settle.sql:32-244 | the atomic step that undoes a call checkpoint once its child is over |
| StoreMethods.Store.NotifyTerminal | microflows/db/procs/sp_mf_child_terminal_notify.sql:29-76 | the atomic wake-up: the one caller of the child is scheduled no later than now, its hint takes the report unless it shows a later one, nothing else moves |
| StoreMethods.Store.RefreshHint | microflows/db/procs/sp_mf_call_hint_refresh.sql:24-65 | the hint of an existing call takes the report unless it shows a later one; no other row moves |
| Hints.FreshestShown | microflows/db/procs/sp_mf_call_hint_refresh.sql:10-14 | whatever the order of arrival, the hint shows the first of the latest reports |
| Hints.OrderIrrelevant | microflows/db/procs/sp_mf_child_terminal_notify.sql:14-20 | the same reports, repeated or reordered, end in the same hint |
| Tables.IndexedIsTaken | microflows/db/schema/tb_mf_workflow_operation.sql:70 | the unique index on operation ids over the operation table is the uniqueness over all workflows that the procedures rely on |
| InvariantSteps.ApplyInv | microflows/db-tests/sp_operation_test.py:78-113 | every command keeps the store invariant and only grows rows, whoever sends it |
| InvariantSteps.RunInv | microflows/db-tests/sp_operation_test.py:387-447 | so does every run, by any number of interleaved drivers |
| InvariantSteps.ReachableInv | microflows/db-tests/sp_operation_test.py:387-447 | every store that some run from the empty store leads to satisfies the invariant |
| InvariantSteps.NotifyIsOneRow | microflows/db/procs/sp_mf_child_terminal_notify.sql:29-76 | a child has at most one caller, so the wake-up touches at most one workflow |
| SoundSteps.LocalSound | microflows/packages/microflows/src/state.drift:226-246 | every command on one workflow keeps its rows mutually consistent |
| Evolution.LocalGrows | microflows/packages/microflows/src/state.drift:288-362 | states move only along the legal transitions; identities, results, bindings, logs and terminal states, once written, stay; counters never go down |
| OpSteps.LocalOpChange | microflows/db/procs/sp_mf_operation_settle.sql:49-254 | each column of an operation row has one author, with its exact new value |
| StackSteps.LocalStackChange | microflows/db/procs/sp_mf_checkpoint_reverse_settle.sql:24-183 | each column of a checkpoint row has one author, with its exact new value |
| Unwinding.UpperSegment | microflows/db-tests/sp_operation_test.py:549-629 | in every reachable store the checkpoints above an undone or parked one are all undone |
| Unwinding.NoEmptyUnwindNoEarlyCompletion | microflows/db-tests/sp_operation_test.py:671-707 | reversing with nothing active, and completed with an operation missing or unsettled, are unreachable |
| Unwinding.StepMovesTop | integration/coordinator-singular/test.py:580-593 | a checkpoint leaves the active state only as the topmost active one, one per step |
| Unwinding.CompensatedAtMostOnce | integration/coordinator-singular/test.py:724-761 | a checkpoint that left the active state never moves again |
| Unwinding.BindingImmutable | microflows/db/procs/sp_mf_checkpoint_reverse_request.sql:25-181 | a written reverse binding is the binding after every run |
| Unwinding.DisciplinedRunUnwound | microflows/db-tests/sp_call_test.py:459-750 | if call checkpoints are never dispatched as participants, every run keeps: an undone call has a child that is reversed or resolved |
| Unwinding.UnwoundExactly | microflows/db/procs/sp_mf_checkpoint_reverse_settle.sql:24-183 | the procedures alone keep that guarantee in a step unless it passes every guard of the participant settle on a call checkpoint whose child is not over |
| Betrayal.GuaranteeCanBeLost | microflows/db/procs/sp_mf_checkpoint_reverse_request.sql:25-181 | a run of seven commands from the empty store reverses a parent while its child still runs forward |
| Unwinding.SubtreeUnwound | microflows/db-tests/call_integration_test.py:416-594 | below a reversed workflow every settled call is unwound, all the way down to an accepted exception |
| Unwinding.DisciplinedCallTree | microflows/db-tests/call_integration_test.py:416-594 | in every disciplined run from the empty store: below a reversed workflow every settled call is unwound, and no workflow is parked on a call checkpoint |
| Unwinding.OverForGood | microflows/db-tests/sp_call_test.py:519-537 | no run reopens what is reversed or resolved |
| Unwinding.NeverParkedOnCall | microflows/db-tests/call_integration_test.py:416-594 | a workflow is never blocked on one of its call checkpoints |
| Unwinding.BlockedChildIsPolled | microflows/db-tests/sp_call_test.py:459-750 | while a child is blocked or unwinding, the settle of its caller changes nothing |
| Fencing.PublishingNeedsFence | microflows/db-tests/sp_operation_test.py:78-113 | a fenced command that writes anything carries the current owner and token of a live workflow |
| Fencing.SinglePublisher | microflows/db-tests/sp_operation_test.py:414-431 | at any store at most one owner and token pair can publish for a workflow |
| Fencing.ClaimSupersedes | microflows/db-tests/sp_operation_test.py:495-498 | a claim hands out a strictly higher token and makes its holder the publisher |
| Fencing.StaleForever | microflows/db-tests/sp_call_test.py:471-489 | a superseded token leaves every row of every workflow unchanged, after any run |
| Fencing.IntermediateSettleKeepsDriver | microflows/db-tests/sp_operation_test.py:414-431 | an intermediate settle keeps owner, token and expiry |
| Fencing.ExpiryDoesNotFence | microflows/db/schema/tb_mf_workflow.sql:43-45 | moving the lease deadline changes the outcome of no command but claim and heartbeat, calls, reopens and child settles included, so an expired holder still publishes |
| Fencing.HeartbeatChecksExpiry | microflows/db/procs/sp_mf_workflow_heartbeat.sql:19-70 | the heartbeat refuses the holder exactly when the deadline has passed |
| Replay.LostAckHarmless | microflows/db-tests/failpoint_resilience_test.py:205-497 | for ten commands: commit, lose the answer, let any run happen, send again: nothing is written and the original commit is reported |
| Replay.CommitStores | microflows/db/procs/sp_mf_operation_settle.sql:190-240 | what a commit stored is what the command carried, after every run: the name, schema, input and hash of an operation, its result and the payload of its checkpoint, a binding, the call rows and the pinned child |
| Replay.RefusalWritesNothing | microflows/db-tests/sp_call_test.py:171-228 | every outcome that is not a commit leaves the whole store as it was |
| Replay.CreateRace | microflows/db-tests/sp_operation_test.py:211-220 | whatever happened since, creating again reports the first pin or a conflict and writes nothing |
| Schedule.NextClaim | microflows/db/procs/sp_mf_workflow_heartbeat.sql:19-70 | the next claim is granted exactly after the deadline a claim or a heartbeat set, and exactly from the time a release or a deferral set |
| Schedule.NewClaim | microflows/db/procs/sp_mf_call_submit.sql:322-345 | new workflows, new children and reopened children can be claimed exactly from the time their command set; a reopened one under a higher token |
| Schedule.WokenClaim | microflows/db/procs/sp_mf_child_terminal_notify.sql:66-72 | a wake-up delays no claim and opens an idle caller from its own time on |
| Schedule.LeaseExclusive | microflows/db-tests/sp_operation_test.py:161-185 | whatever run the others make of it, no claim is granted before the deadline and the holder still holds |
| Schedule.StillDriving | microflows/db-tests/sp_operation_test.py:414-431 | after every commit that goes on, the driver holds the same lease under the same token |
| Schedule.FinishedNeverClaimed | microflows/packages/microflows/src/state.drift:226-246 | what failed, was reversed or is blocked is never claimed again |
| Resumption.ResumesWhereItStopped | integration/coordinator-singular/test.py:1579-1606 | in every run a workflow at a script position stands at the continuation the last create, request, settle or submission handed to it |
| Ledger.LogAccountsForRows | microflows/db/schema/tb_mf_workflow_event.sql:1-30 | in every reachable store the log has one event per operation, call, settle, compensation, turn, completion and block that the rows show |
| EventLog.EventsSigned | microflows/db/schema/tb_mf_workflow_event.sql:1-30 | every event after the first has the time of its command and the name of its sender, who held the lease |
| EventLog.CommitLogged | microflows-viz/src/mfviz/dbq.py:358-408 | every commit is logged once under its own kind; only a deferral that comes too late or repeats the last word is not |
| EventLog.DeferralsLoggedOnce | microflows/db/procs/sp_mf_operation_dispatch_defer.sql:31-137 | no deferral is logged twice in a row for one reason |
| Counting.ClocksCount | microflows/db/procs/sp_mf_workflow_reconcile_defer.sql:35-198 | in every run a budget holds how many attempts were charged and when the first and last were, a timer when the dispatch was first found pending, how often it was sent again and when last |
| Counting.ParksExactly | microflows/db-tests/sp_operation_test.py:785-871 | a position is parked exactly on the first charged attempt that is one of enough and late enough after the first of the run |
| Counting.RedispatchesExactly | microflows/db-tests/sp_operation_test.py:881-985 | a pending dispatch is sent again exactly when the threshold has passed since it was last sent or first found pending |
| Replies.RepliesTellRows | microflows/db/procs/sp_mf_checkpoint_reverse_settle.sql:24-183 | every reply is true of the rows: a commit tells what is stored, a refusal or a replay names something that is the case |
| Replies.SkewClears | microflows/db/procs/sp_mf_operation_request.sql:150-170 | a command refused for skew is not refused for it again with the time the reply names |
| Progress.CompletesExactly | microflows/db-tests/sp_operation_test.py:146-159 | from a reachable store a forward workflow can be driven to completion if and only if some position of its plan is unsettled |
| Progress.UnwindsToTheEnd | microflows/db-tests/sp_operation_test.py:549-629 | from a reachable store an unwind without calls left can be driven to its end |
| CallForest.OneCallRow | microflows/db/schema/tb_mf_workflow_operation_call.sql:1-40 | a child is named by exactly one call row, its parent's |
| CallForest.CallsDescend | microflows/db-tests/sp_call_test.py:171-228 | a call leads exactly one level down, so the relation has no cycle |
| CallForest.DepthBounds | microflows/db-tests/sp_call_test.py:265-298 | depth is at most the configured limit and less than the number of distinct plans |
| CallForest.CycleGuardExact | microflows/db/procs/sp_mf_call_submit.sql:64-380 | a submission is refused as a cycle if and only if the plan runs somewhere on the caller's whole chain |
| CallForest.ForestInEveryRun | microflows/db-tests/sp_call_test.py:171-228 | in every run depths are bounded and plans pairwise distinct along every ancestor chain |
| Budgets.UnspentBelowBound | microflows/db-tests/sp_operation_test.py:785-871 | an attempt that does not park is below max(min attempts, ceiling(elapsed / spacing) + 1) |
| Budgets.ClocksInEveryRun | microflows/db-tests/sp_operation_test.py:881-985 | budget and timer clocks of any position survive every run of any drivers |
| Budgets.BudgetsBound | integration/coordinator-singular/test.py:3499-3558 | in every run attempts stay within that bound, meet it only by parking, and re-dispatches of operations and of compensations never outpace their threshold |
| Budgets.EscalationPacedExactly | microflows/db/procs/sp_mf_operation_pending_defer.sql:40-197 | an escalation keeps count times threshold within the elapsed time exactly when the threshold is positive or the clock is not behind the anchor |
| Budgets.ZeroThresholdOutpacesItself | microflows/db/procs/sp_mf_operation_pending_defer.sql:40-197 | the exception exists: threshold zero and a clock stepping back half a millisecond |
| Budgets.SpendingTouchesOne | microflows/db-tests/sp_operation_test.py:785-871 | spending a budget leaves every other checkpoint as it was |
| Lifecycle.StepRefines | microflows-viz/microflows.machine.js:30-105 | each durable step of a reachable store other than a reopen is matched by the listed machine events, at most two, between the abstracted states; a reopen by none |
| Lifecycle.CoordinatorRefinesMachine | microflows-viz/microflows.machine.js:30-105 | each run, seen through a workflow that is not reopened, is a run of the machine |
| Lifecycle.FailSignalExactly | integration/coordinator-singular/test.py:3372-3386 | the failure signal matches an authored failure if and only if a checkpoint is active; otherwise the rows say failed where the machine shows a reversal |
| Singular.WorkItem.Start | singular/db/procs/sp_singular_start.sql:22-137 | reply and rows are those of the atomic step |
| Singular.WorkItem.Resume | singular/db/procs/sp_singular_resume.sql:34-169 | the same: terminal replay first, live lease refused, expired lease granted anew |
| Singular.WorkItem.ExtendLease | singular/db/procs/sp_singular_extend_lease.sql:20-196 | the same, for the live token only |
| Singular.WorkItem.Settle | singular/db/procs/sp_singular_complete.sql:21-173 | the same for complete and fail, which differ in the event written |
| Singular.RunCoherent | singular/drift/packages/singular/tests/sql/sp_invariants_test.py:342-408 | in every run the head names the latest history row, only it can be terminal, and the live token is its token |
| Singular.NeverDangling | singular/drift/packages/singular/tests/sql/sp_invariants_test.py:342-408 | the dangling-head error and an event-time conflict on reclaim are unreachable |
| Singular.HistoryAppends | singular/drift/packages/singular/tests/sql/sp_invariants_test.py:161-226 | a change appends one strictly later row and keeps all others |
| Singular.TerminalForever | singular/db/procs/sp_singular_complete.sql:21-173 | a settled item is the same after every run |
| Singular.OneTerminalEvent | singular/drift/packages/singular/tests/sql/sp_invariants_test.py:161-226 | the terminal rows of a key are the head once settled, none before |
| Singular.AttemptIsClaimsMinusOne | singular/db/procs/sp_singular_resume.sql:34-169 | the attempt number is the number of claims minus one |
| Singular.ReclaimExactlyWhenExpired | singular/db/procs/sp_singular_resume.sql:34-169 | a working lease is granted anew exactly when its deadline has strictly passed |
| Singular.PromiseKept | singular/db/procs/sp_singular_extend_lease.sql:130-170 | a lease lasts as long as the reply of start, resume or extend promised: until then others change nothing and are told that deadline, and a claim is granted exactly after it |
| Singular.SettledAnswerRepeated | singular/db/procs/sp_singular_complete.sql:21-173 | a settle stores the kind and payload sent, and every later answer repeats them |
| Singular.InputBound | singular/drift/packages/singular/tests/sql/sp_invariants_test.py:161-226 | every row of an item carries the input it was started with |
| Singular.ReclaimedTokenPowerless | singular/drift/packages/singular/tests/sql/sp_invariants_test.py:161-226 | a token that is not current publishes at some point of a run if and only if that run grants it again |
| Singular.NeverOfferedNeverPublishes | singular/drift/packages/singular/tests/sql/sp_invariants_test.py:161-226 | a token that is not current and that no later start or resume offers never publishes |
| Singular.ReusedTokenPublishes | singular/db/procs/sp_singular_resume.sql:34-169 | granting an old token again does revive it: resume does not ask for a fresh one |
| Participant.WorldInv | microflows/participant-stub/src/app.drift:291-430 | every move of coordinator, participants and network keeps the product invariant |
| Participant.ExactlyOnce | integration/coordinator-singular/stress.py:86-99 | in every run of the product each body executes at most once more than a restart dropped its unfinished effect, on the bound input, so at most once exactly as long as no lost effect was made again; for every settled operation exactly that often, and the latest execution gave the stored result. On a durable effect store that is exactly once |
| Participant.OnceExactlyWithoutLoss | microflows/participant-stub/src/app.drift:514-538 | a settled operation was executed exactly once if and only if no restart came between an execution and the completion of its item |
| Participant.RestartExecutesAgain | microflows/participant-stub/src/app.drift:76-82 | such a restart does make the body execute a second time |
| Delivery.ExecutedOnStoredInput | microflows/runner/src/runner.drift:2198-2205 | when PUTs are sent from the operation row, a settled operation was executed on the row's input and gave the row's result |
| Delivery.AnswerCanBeHad | microflows/participant-stub/src/app.drift:291-430 | from every world a PUT with the bound input can be brought to a success, over crashes, restarts and expired leases |
| Participant.LeaseAloneIsNotEnough | microflows/participant-stub/src/app.drift:520-535 | two granted holders do go through the body; only the effect store makes it one execution |
| Loops.FilterLoop | microflows/runner/src/ir.drift:1363-1372 | a filter keeps, in order, exactly the elements at which its body is true, and faults exactly when its body is not a boolean somewhere |
| Loops.MapLoop | microflows/runner/src/ir.drift:1338-1385 | a map answers its body at each element, and faults exactly when its body does |
| Loops.FoldLoop | microflows/runner/src/ir.drift:1338-1385 | a fold answers exactly with the last accumulator of the sequence that starts at the initial value |
| Loops.ObjectFields | microflows/runner/src/ir.drift:1252-1323 | at a key of an object expression stands the value of the last field that gives it |
| Loops.ArrayPointwise | microflows/runner/src/ir.drift:1252-1323 | an array expression answers pointwise and faults exactly when an element does |
| Loops.FirstArm | microflows/runner/src/ir.drift:1109-1249 | a case goes to the first arm whose literal is the value, or to the default |
| Graph.RunLoop | microflows/runner/src/ir.drift:1338-1385 | the loop over the elements computes the recursive value of map, filter and fold, faults included |
| Graph.Replay | microflows/runner/src/ir.drift:1109-1249 | the interpreter loop computes the recursive replay under the node-visit budget |
| Resume.ResumeIsUninterrupted | integration/coordinator-singular/test.py:1579-1606 | replaying from durable arguments and results after every answer yields the same sequence of outcomes as never stopping |
| Resume.NeverAskedAgain | integration/coordinator-singular/test.py:822-839 | no drive asks twice for the same node or for a settled one |
| Lowering.LoweringPreservesMeaning | microflows/runner/src/parser.drift:1291-1502 | for every source, arguments and answers, replaying the lowered graph does what the source means |
| Lowering.DrivesAgree | integration/coordinator-singular/test.py:2149-2240 | and so do whole drives: same operations, inputs and end |
| Lowering.FlatPlanAgrees | microflows/runner/src/ir.drift:431-452 | the flat plan form of a straight-line source means the same as its graph form |
| OpDepth.NodeDepths | microflows/runner/src/ir.drift:2966-3037 | Kahn's order yields depths exactly when all paths to every node agree, and then that common count |
| OpDepth.PlanLength | microflows/runner/src/ir.drift:1739-1758 | the plan length is the depth of all returns, or of the deepest failure when nothing returns |
| OpDepth.OpDepth | integration/coordinator-singular/test.py:3303-3316 | accepted with a length exactly when such uniform depths exist, and refused otherwise |
| Driving.DriveFollowsPlan | integration/coordinator-singular/test.py:1414-1429 | operation number i of every drive sits at plan position i, and returns come at the end of the plan |
| Driving.NoPlanViolation | microflows/db-tests/sp_operation_test.py:146-159 | driving an accepted graph, neither requests nor settles nor call submissions meet a plan violation in the store |
| Driving.SettledArePrefix | microflows/db-tests/sp_operation_test.py:146-159 | in every reachable store the settled operations are the first ones of the plan, so a driver that read the rows knows which answers to replay |
| Driving.CompletionExact | integration/coordinator-singular/test.py:1687-1703 | completed if and only if a return value is stored, and then the whole plan is settled and checkpointed |
| Driving.FinalSettleCompletes | microflows/db/procs/sp_mf_operation_settle.sql:49-254 | a final settle completes in that very commit with its return value |
| Dominance.ReachableWithout | microflows/runner/src/ir.drift:1784-1806 | the worklist walk marks exactly the nodes some path reaches without the removed one |
| Dominance.DecideDominates | microflows/runner/src/ir.drift:1809-1815 | the two-walk test is path dominance on reachable nodes |
| Types.ProjectionTotalExactly | microflows/runner/src/ir.drift:2739-2754 | a projection succeeds on all values of a type if and only if its path follows required fields |
| Types.ProjectTyped | microflows/runner/src/ir.drift:2739-2754 | what a path leads to has the projected type, optionals looked through |
| Types.LiteralTyped | microflows/runner/src/ir.drift:2760-2814 | a literal with numbers in range has its inferred type |
| Types.AssignableSound | microflows/runner/src/ir.drift:2419-2458 | every value of an assignable type is a value of the expected type |
| Gate.AssignableExactly | microflows/runner/src/ir.drift:2419-2458 | on types without arrays and optionals, assignable is exactly that every value of the one is a value of the other |
| Gate.RefusesMore | microflows/runner/src/ir.drift:2419-2458 | inside arrays and from an optional source the gate refuses what would fit |
| Gate.BoundaryExactly | microflows/runner/tests/unit/ir_exec_test.drift:719-728 | at a typed boundary a literal passes exactly when it is a value of the declared type, a known type exactly when it is included, an untyped source always |
| Gate.ProjectionRefusedExactly | microflows/runner/src/ir.drift:2739-2754 | a path is refused exactly when no value of the type has anything there |
| Gate.LiteralExactly | microflows/runner/src/ir.drift:2760-2814 | a literal has a precise type exactly when it shows one, and then that one |
| Gate.ArrayInferred | microflows/runner/src/ir.drift:2589-2734 | an array expression has a type exactly when it is not empty and all its elements have that one |
| Gate.MergeInferred | microflows/runner/src/ir.drift:2589-2734 | a merge has a type exactly when some source has it and no source another; it is an error exactly when a source is or two differ |
| Gate.LoopInferred | microflows/runner/src/ir.drift:2461-2548 | the type of a loop whose body has one, and exactly when it is an error |
| Gate.BranchExactly | microflows/runner/src/ir.drift:2236-2247 | branches, failures and cases pass exactly on booleans, strings and matching literals |
| Inference.TypeCheck | microflows/runner/src/ir.drift:2166-2342 | the node-by-node loop accepts exactly when the recursive check does |
| Typing.NeverFaultsExactly | microflows/runner/src/ir.drift:1252-1323 | an expression evaluates in every well-typed world if and only if its projections are solid |
| Typing.InferSound | microflows/runner/src/ir.drift:2589-2734 | what evaluates has the inferred type |
| Typing.HasTypeSound | microflows/runner/src/ir.drift:2348-2373 | what passes a typed boundary has the declared type there |
| Typing.LoopSound | microflows/runner/src/ir.drift:2461-2548 | an accepted, firm loop never faults and its result has the inferred type |
| Scoping.DominatorRanksLower | microflows/runner/src/ir.drift:2864-2896 | a dominator comes earlier in every topological order |
| NeverFaults.NodeSourced | microflows/runner/src/ir.drift:2909-2945 | in an accepted, tight graph no expression is untyped at its node |
| NeverFaults.AdvanceProper | integration/coordinator-singular/test.py:1835-1903 | replay of an accepted and tight graph never faults, for any arguments and results of the declared types; inputs, return value and reasons have their types |
| NeverFaults.DriveProper | integration/coordinator-singular/test.py:2539-2559 | the same for every replay of a whole drive |
| Gaps.OneFieldExactly | microflows/runner/src/ir.drift:2739-2754 | a graph with one operation that returns an argument field is built for every field type, and free of faults exactly when the field is not optional |
| Gaps.OutOfRangeEscapes | microflows/runner/src/ir.drift:2760-2768 | on a built graph, an integer literal out of range passes inside a constructed object |
| Gaps.ImpreciseProjectionFaults | microflows/runner/src/ir.drift:2655-2673 | on a built graph, projecting out of an imprecise literal faults |
| Gaps.ReasonNotAString | microflows/runner/src/ir.drift:2236-2247 | a built graph can fail with an imprecise literal for a reason |
| Gaps.NullFoldReturnsNull | integration/coordinator-singular/test.py:2696-2701 | on a built graph, a fold from null over an empty array returns null where an object type was accepted |
| Gaps.UntypedElementsEscape | microflows/runner/src/ir.drift:2478-2490 | on a built graph, elements of an imprecise literal are untyped and pass any typed boundary |
| Diagnostics.TreeWorkflow | microflows-viz/src/mfviz/dbq.py:320-355 | the walk with its growing child list computes the tree, and terminates on any call table |
| Diagnostics.TreeIsProjectedInspect | microflows-viz/src/mfviz/dbq.py:255-288 | inspect and tree have the same shape on any call table |
| Diagnostics.TreeShowsEveryCall | microflows-viz/src/mfviz/dbq.py:311-355 | exactly one child entry per call row at every expanded node |
| Diagnostics.TreeExpandsForestOnce | microflows-viz/src/mfviz/dbq.py:320-355 | on every reachable store each descendant within the limit is expanded exactly once, and nothing else |
| Timeline.EventTimesAscend | microflows/db-tests/sp_call_test.py:547-561 | in every run a workflow's event times strictly increase, two-workflow commands included, and the log only grows |
| Timeline.TimelineRestricts | microflows-viz/src/mfviz/dbq.py:376-408 | any sorted listing of the visited events, restricted to one workflow, is that workflow's own log |
| Timeline.TimelineWorkflow | microflows-viz/src/mfviz/dbq.py:358-408 | the timeline is the sorted permutation of all events of the expanded workflows |
| Stuck.StuckWorkflow | microflows-viz/src/mfviz/dbq.py:443-570 | the descent computes the verdict and terminates on any call table, cyclic ones included |
| Stuck.PathIsRealChain | microflows-viz/src/mfviz/dbq.py:524-539 | the reported path is a real chain of distinct non-terminal workflows, each but the last waiting on a child |
| Stuck.RefusingVerdicts | microflows/db-tests/sp_operation_test.py:161-185 | terminal, blocked, leased and scheduled verdicts imply that a claim is refused |
| Stuck.VerdictExactly | microflows-viz/src/mfviz/dbq.py:443-570 | unknown, terminal, blocked, leased and waiting verdicts are given exactly where they belong |
| Stuck.VerdictTellsRun | microflows-viz/src/mfviz/dbq.py:541-570 | the other four tell what happened in the run: a pending sighting, else a charged attempt, else neither |
| Stuck.ClaimableVerdictExactly | microflows/db/procs/sp_mf_workflow_claim_by_id.sql:15-75 | a claimable verdict is right exactly when no lease expires at this very instant |
| Stuck.ExpiringLeaseMisjudged | microflows-viz/src/mfviz/dbq.py:515-518 | the instant exists: verdict claimable, claim refused |

## Left out

* The legacy path without a plan, where a rejection blocks the workflow, and `sp_mf_operation_fail`.
* Audit columns (created, updated and reversed timestamps, reconcile reason): written, never read by a guard.
* The ordered scan of `sp_mf_workflow_claim` with its skipped locks: claiming by id is modelled, so any order is covered.
* Waiting, deadlocks and isolation levels of the database: a procedure is one atomic step.
* HTTP, processes, configuration, service reload, admission and draining, test-plan emitters, packaging and static UI.
* JSON text, number parsing, hashing, identifier syntax, lexing and parse errors: source is an abstract syntax tree with
  the node numbering the parser assigns.
* The 190-byte limit on failure reasons and the canonical spelling of constants.
* Compensation bodies at the participant: the product theorem counts forward operations; a compensation runs under its
  own operation id through the same handler.
* Operator resolution of a blocked workflow has no procedure; its transition is taken from the state module.
* Liveness: `Progress` and `Delivery` say what can be reached from every store and world, not that anybody takes the
  steps; the budgets bound attempts.
* `export_events.py`: it uses an undefined name and its event mapping cannot separate two of the machine's signals.
* Upper-case and other non-normal id spellings in `dbq.py`: ids are values.
- NeverFaults.AdvanceProper: states a sufficient condition for a whole graph, because a faulty expression in a branch no
  arguments select does no harm; per expression the condition is exact.
- Budgets.BudgetsBound: assumes attempts at one position at least `spacing` apart with fixed limits, as a deployment sets
  them; without spacing no bound on attempts exists.
- Participant.ExactlyOnce: assumes that a driver settles a participant operation only with an answer some participant
  gave, which is the runner's code path and not a check of the store.
