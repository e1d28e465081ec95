/** The stored procedures, as functions from (rows, command) to (outcome, rows).
  *
  * Every procedure keeps the guard order of its SQL body: an outcome other than
  * a success leaves the rows exactly as they were.
  */
module Procedures {
  import opened Options
  import opened Rows

  datatype PlanReason = SeqOutOfRange | PredecessorIncomplete | CheckpointMismatch | FinalityEarly

  datatype Outcome =
    // refused before anything is read, or rolled back by a unique key
    | Invalid | DuplicateKey
    // refusals shared by many procedures
    | NotFound | FenceLost | Skew(deferUntil: Ts) | PlanViolation(why: PlanReason)
    | OperationNotFound | OperationConflict | OperationNotRequested | OperationNotFailed
    | CheckpointNotFound | CheckpointInactive | NotRequested | ReverseIdMismatch | OutOfOrder(top: Option<nat>)
    | CheckpointNotSettleable | CheckpointNotBlockable | CheckpointNotActive | BindingConflict | TriggerMismatch
    | PlanConflict | WorkflowConflict | NotClaimable
    | CallConflict | MaxCallDepthExceeded | CallCycle
    | NotCallCheckpoint | SidecarNotFound | ChildNotFound | ChildStateInconsistent
    | ChildNoActiveCheckpoint | ChildNotTerminal(child: State) | ChildNotCompensated(child: State)
    // replays of an already committed command
    | PlanExists(pin: Pin) | AlreadyRequested(id: Id) | AlreadySettled(result: Doc)
    | AlreadyBegun(state: State, reason: Option<string>) | AlreadyDispatched(binding: Binding)
    | AlreadyReversed | AlreadyBlocked | AlreadySubmitted(childId: Id) | AlreadyReopened(child: State)
    // commits
    | Created(pin: Pin) | Claimed(token: nat) | Extended | Released | Deferred(attempts: nat)
    | Requested(id: Id) | Settled(result: Doc) | BegunFailed(reason: Option<string>) | BegunReversing(top: Option<nat>)
    | Dispatched(id: Id) | Descended(top: Option<nat>) | FullyReversed(reason: Option<string>)
    | BlockedNow | Redispatch(count: nat) | PendingDefer(count: nat) | DispatchDeferred(appended: bool)
    | Submitted(childId: Id) | Reopened(childId: Id) | Notified | Resolved

  datatype Cmd =
    | CreatePlanned(wf: Id, script: string, pin: Pin, ts: Ts, nextAttempt: Ts, cursor: Doc, args: Doc)
    | Claim(wf: Id, executor: Id, now: Ts, expires: Ts)
    | Heartbeat(wf: Id, executor: Id, token: nat, now: Ts, expires: Ts)
    | Release(wf: Id, executor: Id, token: nat, nextAttempt: Ts)
    | OperationRequest(wf: Id, executor: Id, token: nat, pos: nat, opId: Id, name: string, schema: nat,
                       input: Doc, inputHash: string, cursor: Doc, ts: Ts)
    | OperationSettle(wf: Id, executor: Id, token: nat, pos: nat, opId: Id, cpPos: nat, result: Doc, payload: Doc,
                      ret: Option<Doc>, cursor: Doc, ts: Ts, final: bool)
    | BeginReversal(wf: Id, executor: Id, token: nat, pos: nat, opId: Id, ts: Ts, why: string)
    | AuthoredFail(wf: Id, executor: Id, token: nat, opId: Id, ts: Ts, why: string)
    | ReverseRequest(wf: Id, executor: Id, token: nat, pos: nat, binding: Binding, ts: Ts)
    | ReverseSettle(wf: Id, executor: Id, token: nat, pos: nat, revId: Id, ts: Ts)
    | ReverseBlock(wf: Id, executor: Id, token: nat, pos: nat, revId: Id, disposition: Disposition, ts: Ts)
    | ReconcileDefer(wf: Id, executor: Id, token: nat, pos: nat, opId: Id, now: Ts, nextAttempt: Ts, ts: Ts,
                     maxElapsed: nat, minAttempts: nat)
    | ReverseReconcileDefer(wf: Id, executor: Id, token: nat, pos: nat, revId: Id, now: Ts, nextAttempt: Ts, ts: Ts,
                            maxElapsed: nat, minAttempts: nat)
    | PendingDefer(wf: Id, executor: Id, token: nat, pos: nat, opId: Id, now: Ts, nextAttempt: Ts, ts: Ts, after: nat)
    | ReversePendingDefer(wf: Id, executor: Id, token: nat, pos: nat, revId: Id, now: Ts, nextAttempt: Ts, ts: Ts,
                          after: nat)
    | DispatchDefer(wf: Id, executor: Id, token: nat, now: Ts, nextAttempt: Ts, ts: Ts, why: string)
    | CallSubmit(wf: Id, executor: Id, token: nat, pos: nat, opId: Id, input: Doc, inputHash: string, cursor: Doc,
                 ts: Ts, childId: Id, childScript: string, childPin: Pin, childCursor: Doc, childNext: Ts,
                 node: string, maxDepth: nat)
    | ChildReopen(wf: Id, executor: Id, token: nat, pos: nat, ts: Ts)
    | ChildSettle(wf: Id, executor: Id, token: nat, pos: nat, ts: Ts)
    | TerminalNotify(childId: Id, ts: Ts)
    | OperatorResolve(wf: Id)

  datatype Step = Step(out: Outcome, next: Workflow)

  /** Argument checks that SIGNAL before the first read. */
  predicate Malformed(c: Cmd) {
    match c
    case CreatePlanned(_, script, pin, _, _, _, _) => script == "" || pin.length < 1
    case Claim(_, _, now, expires) => expires <= now
    case Heartbeat(_, _, token, now, expires) => token < 1 || expires <= now
    case OperationRequest(_, _, token, pos, _, name, schema, _, hash, _, _) =>
      token < 1 || pos < 1 || name == "" || schema < 1 || hash == ""
    case OperationSettle(_, _, token, pos, _, cpPos, _, _, ret, _, _, final) =>
      token < 1 || pos < 1 || cpPos < 1 || final != ret.Some?
    case BeginReversal(_, _, token, pos, _, _, why) => token < 1 || pos < 1 || why == ""
    case AuthoredFail(_, _, token, _, _, why) => token < 1 || why == ""
    case ReverseRequest(_, _, token, pos, b, _) =>
      token < 1 || pos < 1 || b.name == "" || b.schema < 1 || b.hash == ""
    case ReverseBlock(_, _, token, pos, _, d, _) => token < 1 || pos < 1 || !(d.Rejected? || d.Indeterminate?)
    case ReconcileDefer(_, _, token, pos, _, now, next, _, _, least) =>
      token < 1 || pos < 1 || least < 1 || next <= now
    case ReverseReconcileDefer(_, _, token, pos, _, now, next, _, _, least) =>
      token < 1 || pos < 1 || least < 1 || next <= now
    case PendingDefer(_, _, token, pos, _, now, next, _, _) => token < 1 || pos < 1 || next <= now
    case ReversePendingDefer(_, _, token, pos, _, now, next, _, _) => token < 1 || pos < 1 || next <= now
    case DispatchDefer(_, _, token, now, next, _, why) => token < 1 || why == "" || next <= now
    case CallSubmit(_, _, token, pos, opId, _, hash, _, _, childId, script, pin, _, _, node, depth) =>
      token < 1 || pos < 1 || hash == "" || opId != childId || script == "" || pin.length < 1 || node == "" || depth < 1
    case ChildReopen(_, _, token, pos, _) => token < 1 || pos < 1
    case ChildSettle(_, _, token, pos, _) => token < 1 || pos < 1
    case ReverseSettle(_, _, token, pos, _, _) => token < 1 || pos < 1
    case Release(_, _, token, _) => token < 1
    case TerminalNotify(_, _) => false
    case OperatorResolve(_) => false
  }

  /** The publication fence. Lease expiry is not part of it: only a heartbeat reads it. */
  predicate Holds(w: Workflow, executor: Id, token: nat) {
    w.lease.Some? && w.lease.value.owner == executor && w.token == token
  }

  predicate Claimable(w: Workflow, now: Ts) {
    (w.state.Forward? || w.state.Reversing?) && w.nextAttempt <= now
    && (w.lease.None? || w.lease.value.expires < now)
  }

  /** TIMESTAMPDIFF(MICROSECOND, a, b) DIV 1000: milliseconds, truncated toward zero. */
  function ElapsedMs(a: Ts, b: Ts): (ms: int)
    ensures ms >= 0 ==> ms * 1000 <= b - a || (ms == 0 && b < a)
    ensures a <= b ==> ms * 1000 <= b - a < ms * 1000 + 1000
  {
    if a <= b then (b - a) / 1000 else -((a - b) / 1000)
  }

  function Stamp(w: Workflow, ts: Ts, kind: EventKind, actor: Option<Id>): Workflow {
    w.(eventTs := ts, events := w.events + [Event(ts, kind, actor)])
  }

  /** Append unless the timestamp cannot be ordered after the log. */
  function StampIfLater(w: Workflow, ts: Ts, kind: EventKind, actor: Id): Workflow {
    if ts <= w.eventTs then w else Stamp(w, ts, kind, Some(actor))
  }

  function Refuse(out: Outcome, w: Workflow): Step { Step(out, w) }

  // ---------------------------------------------------------------- leases

  function DoClaim(w: Workflow, c: Cmd): Step
    requires c.Claim?
  {
    if !Claimable(w, c.now) then Refuse(NotClaimable, w)
    else Step(Claimed(w.token + 1), w.(lease := Some(Lease(c.executor, c.expires)), token := w.token + 1))
  }

  function DoHeartbeat(w: Workflow, c: Cmd): Step
    requires c.Heartbeat?
  {
    if !Holds(w, c.executor, c.token) || w.lease.value.expires < c.now || !(w.state.Forward? || w.state.Reversing?)
    then Refuse(FenceLost, w)
    else Step(Extended, w.(lease := Some(Lease(c.executor, c.expires))))
  }

  function DoRelease(w: Workflow, c: Cmd): Step
    requires c.Release?
  {
    if !Holds(w, c.executor, c.token) || !(w.state.Forward? || w.state.Reversing?) then Refuse(FenceLost, w)
    else Step(Released, w.(lease := None, nextAttempt := c.nextAttempt))
  }

  // ---------------------------------------------------------------- forward

  /** The plan-order guards shared by operation and call submission. */
  function OrderGuard(w: Workflow, pos: nat): Option<PlanReason> {
    if pos < 1 || pos > w.pin.length then Some(SeqOutOfRange)
    else if pos > 1 && !w.IsSettled(pos - 1) then Some(PredecessorIncomplete)
    else None
  }

  function DoOperationRequest(w: Workflow, c: Cmd): Step
    requires c.OperationRequest?
  {
    if !Holds(w, c.executor, c.token) || !w.state.Forward? then Refuse(FenceLost, w)
    else if OrderGuard(w, c.pos).Some? then Refuse(PlanViolation(OrderGuard(w, c.pos).value), w)
    else if c.pos in w.ops then
      var op := w.ops[c.pos];
      if op.id != c.opId || op.name != c.name || op.schema != c.schema || op.inputHash != c.inputHash
      then Refuse(OperationConflict, w)
      else Refuse(AlreadyRequested(op.id), w)
    else if c.ts <= w.eventTs then Refuse(Skew(w.eventTs + SKEW_DEFER), w)
    else
      var op := Operation(c.opId, c.name, c.schema, c.input, c.inputHash, Participant, None, FRESH_BUDGET, FRESH_TIMER);
      Step(Requested(c.opId),
           Stamp(w.(ops := w.ops[c.pos := op], cursor := Script(c.cursor)), c.ts, EvOperationRequested,
                 Some(c.executor)))
  }

  function DoOperationSettle(w: Workflow, c: Cmd): Step
    requires c.OperationSettle?
  {
    if c.pos < 1 || c.pos > w.pin.length then Refuse(PlanViolation(SeqOutOfRange), w)
    else if c.cpPos != c.pos then Refuse(PlanViolation(CheckpointMismatch), w)
    else if c.final && c.pos != w.pin.length then Refuse(PlanViolation(FinalityEarly), w)
    else if c.pos !in w.ops then Refuse(OperationNotFound, w)
    else if w.ops[c.pos].id != c.opId then Refuse(OperationConflict, w)
    else if w.ops[c.pos].Settled() then Refuse(AlreadySettled(w.ops[c.pos].result.value), w)
    else if !Holds(w, c.executor, c.token) || !w.state.Forward? then Refuse(FenceLost, w)
    else if c.ts <= w.eventTs then Refuse(Skew(w.eventTs + SKEW_DEFER), w)
    else
      var op := w.ops[c.pos];
      var cp := Checkpoint(op.name, op.id, c.payload, Active, None, FRESH_BUDGET, FRESH_TIMER);
      var w1 := w.(ops := w.ops[c.pos := op.(result := Some(c.result))], cps := w.cps[c.pos := cp],
                   cursor := Script(c.cursor));
      if c.final then
        Step(Settled(c.result),
             Stamp(w1.(state := Completed, disposition := Succeeded, lease := None, returned := c.ret),
                   c.ts, EvWorkflowCompleted, Some(c.executor)))
      else
        Step(Settled(c.result), Stamp(w1, c.ts, EvOperationSettled, Some(c.executor)))
  }

  // ---------------------------------------------------------------- turning back

  /** The common tail of begin_reversal and authored_fail. */
  function TurnBack(w: Workflow, executor: Id, trigger: Id, ts: Ts, why: string): Step {
    var w1 := w.(direction := Back, disposition := Rejected, trigger := Some(trigger), reason := Some(why));
    if w.Top().None? then
      Step(BegunFailed(Some(why)),
           Stamp(w1.(state := Failed, cursor := NothingToUnwind, lease := None), ts, EvFailed, Some(executor)))
    else
      Step(BegunReversing(w.Top()),
           Stamp(w1.(state := Reversing, cursor := ReverseAt(w.Top().value)), ts, EvReversalBegun, Some(executor)))
  }

  function DoBeginReversal(w: Workflow, c: Cmd): Step
    requires c.BeginReversal?
  {
    if w.trigger.Some? then
      if w.trigger.value != c.opId then Refuse(TriggerMismatch, w) else Refuse(AlreadyBegun(w.state, w.reason), w)
    else if c.pos !in w.ops then Refuse(OperationNotFound, w)
    else if w.ops[c.pos].id != c.opId then Refuse(OperationConflict, w)
    else if w.ops[c.pos].Settled() then Refuse(OperationNotFailed, w)
    else if !Holds(w, c.executor, c.token) || !w.state.Forward? then Refuse(FenceLost, w)
    else if c.ts <= w.eventTs then Refuse(Skew(w.eventTs + SKEW_DEFER), w)
    else TurnBack(w, c.executor, c.opId, c.ts, c.why)
  }

  function DoAuthoredFail(w: Workflow, c: Cmd): Step
    requires c.AuthoredFail?
  {
    if w.trigger.Some? then
      if w.trigger.value != c.opId then Refuse(TriggerMismatch, w) else Refuse(AlreadyBegun(w.state, w.reason), w)
    else if !Holds(w, c.executor, c.token) || !w.state.Forward? then Refuse(FenceLost, w)
    else if c.ts <= w.eventTs then Refuse(Skew(w.eventTs + SKEW_DEFER), w)
    else TurnBack(w, c.executor, c.opId, c.ts, c.why)
  }

  // ---------------------------------------------------------------- unwinding

  function DoReverseRequest(w: Workflow, c: Cmd): Step
    requires c.ReverseRequest?
  {
    if c.pos !in w.cps then Refuse(CheckpointNotFound, w)
    else if !w.cps[c.pos].reversal.Active? then Refuse(CheckpointInactive, w)
    else if w.cps[c.pos].binding.Some? then
      if w.cps[c.pos].binding.value != c.binding then Refuse(BindingConflict, w)
      else Refuse(AlreadyDispatched(c.binding), w)
    else if !Holds(w, c.executor, c.token) || !w.state.Reversing? then Refuse(FenceLost, w)
    else if w.Top() != Some(c.pos) then Refuse(OutOfOrder(w.Top()), w)
    else if c.ts <= w.eventTs then Refuse(Skew(w.eventTs + SKEW_DEFER), w)
    else
      Step(Dispatched(c.binding.id),
           Stamp(w.(cps := w.cps[c.pos := w.cps[c.pos].(binding := Some(c.binding))],
                    cursor := ReverseDispatched(c.pos)),
                 c.ts, EvCompensationRequested, Some(c.executor)))
  }

  /** Mark one checkpoint reversed and descend, or finish the unwind. */
  function Unwind(w: Workflow, pos: nat, ts: Ts, executor: Id): Step
    requires pos in w.cps
  {
    var w1 := w.(cps := w.cps[pos := w.cps[pos].(reversal := Undone)]);
    if w1.Top().None? then
      Step(FullyReversed(w.reason),
           Stamp(w1.(state := Reversed, cursor := UnwindDone, lease := None), ts, EvCompensationSettled,
                 Some(executor)))
    else
      Step(Descended(w1.Top()),
           Stamp(w1.(cursor := ReverseAt(w1.Top().value)), ts, EvCompensationSettled, Some(executor)))
  }

  function DoReverseSettle(w: Workflow, c: Cmd): Step
    requires c.ReverseSettle?
  {
    if c.pos !in w.cps then Refuse(CheckpointNotFound, w)
    else if w.cps[c.pos].binding.None? then Refuse(NotRequested, w)
    else if w.cps[c.pos].binding.value.id != c.revId then Refuse(ReverseIdMismatch, w)
    else if w.cps[c.pos].reversal.Undone? then Refuse(AlreadyReversed, w)
    else if !w.cps[c.pos].reversal.Active? then Refuse(CheckpointNotSettleable, w)
    else if !Holds(w, c.executor, c.token) || !w.state.Reversing? then Refuse(FenceLost, w)
    else if w.Top() != Some(c.pos) then Refuse(OutOfOrder(w.Top()), w)
    else if c.ts <= w.eventTs then Refuse(Skew(w.eventTs + SKEW_DEFER), w)
    else Unwind(w, c.pos, c.ts, c.executor)
  }

  /** Park the unwind on one checkpoint; the direction stays reverse. */
  function BlockAt(w: Workflow, pos: nat, d: Disposition, ts: Ts, kind: EventKind, executor: Id): Workflow
    requires pos in w.cps
  {
    Stamp(w.(cps := w.cps[pos := w.cps[pos].(reversal := ResolutionRequired)], state := Blocked, disposition := d,
             cursor := StuckReverse(pos), lease := None),
          ts, kind, Some(executor))
  }

  function DoReverseBlock(w: Workflow, c: Cmd): Step
    requires c.ReverseBlock?
  {
    if c.pos !in w.cps then Refuse(CheckpointNotFound, w)
    else if w.cps[c.pos].binding.None? then Refuse(NotRequested, w)
    else if w.cps[c.pos].binding.value.id != c.revId then Refuse(ReverseIdMismatch, w)
    else if w.cps[c.pos].reversal.ResolutionRequired? then Refuse(AlreadyBlocked, w)
    else if !w.cps[c.pos].reversal.Active? then Refuse(CheckpointNotBlockable, w)
    else if !Holds(w, c.executor, c.token) || !w.state.Reversing? then Refuse(FenceLost, w)
    else if w.Top() != Some(c.pos) then Refuse(OutOfOrder(w.Top()), w)
    else if c.ts <= w.eventTs then Refuse(Skew(w.eventTs + SKEW_DEFER), w)
    else Step(BlockedNow, BlockAt(w, c.pos, c.disposition, c.ts, EvCompensationBlocked, c.executor))
  }

  // ---------------------------------------------------------------- route-404 budget

  function Anchor(first: Option<Ts>, now: Ts): Ts { if first.Some? then first.value else now }

  function Charge(b: Budget, now: Ts): Budget { Budget(b.attempts + 1, Some(Anchor(b.firstSeen, now)), Some(now)) }

  predicate Exhausted(b: Budget, now: Ts, maxElapsed: nat, minAttempts: nat) {
    ElapsedMs(Anchor(b.firstSeen, now), now) >= maxElapsed && b.attempts + 1 >= minAttempts
  }

  function DoReconcileDefer(w: Workflow, c: Cmd): Step
    requires c.ReconcileDefer?
  {
    if !Holds(w, c.executor, c.token) || !w.state.Forward? then Refuse(FenceLost, w)
    else if c.pos !in w.ops then Refuse(OperationNotFound, w)
    else if w.ops[c.pos].id != c.opId then Refuse(OperationConflict, w)
    else if w.ops[c.pos].Settled() then Refuse(OperationNotRequested, w)
    else
      var op := w.ops[c.pos];
      var spent := Exhausted(op.budget, c.now, c.maxElapsed, c.minAttempts);
      if spent && c.ts <= w.eventTs then Refuse(Skew(w.eventTs + SKEW_DEFER), w)
      else
        var w1 := w.(ops := w.ops[c.pos := op.(budget := Charge(op.budget, c.now))], lease := None);
        if spent then
          Step(BlockedNow,
               Stamp(w1.(state := Blocked, direction := Ahead, disposition := Indeterminate,
                         cursor := StuckForward(c.pos)),
                     c.ts, EvRouteUnknown, Some(c.executor)))
        else
          Step(Deferred(op.budget.attempts + 1),
               StampIfLater(w1.(nextAttempt := c.nextAttempt), c.ts, EvRoute404, c.executor))
  }

  function DoReverseReconcileDefer(w: Workflow, c: Cmd): Step
    requires c.ReverseReconcileDefer?
  {
    if c.pos !in w.cps then Refuse(CheckpointNotFound, w)
    else if w.cps[c.pos].binding.None? then Refuse(NotRequested, w)
    else if w.cps[c.pos].binding.value.id != c.revId then Refuse(ReverseIdMismatch, w)
    else if w.cps[c.pos].reversal.ResolutionRequired? then Refuse(AlreadyBlocked, w)
    else if !w.cps[c.pos].reversal.Active? then Refuse(CheckpointNotActive, w)
    else if !Holds(w, c.executor, c.token) || !w.state.Reversing? then Refuse(FenceLost, w)
    else if w.Top() != Some(c.pos) then Refuse(OutOfOrder(w.Top()), w)
    else
      var cp := w.cps[c.pos];
      var spent := Exhausted(cp.budget, c.now, c.maxElapsed, c.minAttempts);
      if spent && c.ts <= w.eventTs then Refuse(Skew(w.eventTs + SKEW_DEFER), w)
      else
        var w1 := w.(cps := w.cps[c.pos := cp.(budget := Charge(cp.budget, c.now))]);
        if spent then
          Step(BlockedNow, BlockAt(w1, c.pos, Indeterminate, c.ts, EvRouteUnknown, c.executor))
        else
          Step(Deferred(cp.budget.attempts + 1),
               StampIfLater(w1.(lease := None, nextAttempt := c.nextAttempt), c.ts, EvRoute404, c.executor))
  }

  // ---------------------------------------------------------------- pending timer

  function Since(t: Timer, now: Ts): Ts { if t.lastAt.Some? then t.lastAt.value else Anchor(t.firstSeen, now) }

  predicate Overdue(t: Timer, now: Ts, after: nat) { ElapsedMs(Since(t, now), now) >= after }

  function Escalate(t: Timer, now: Ts): Timer { Timer(Some(Anchor(t.firstSeen, now)), Some(now), t.count + 1) }

  function Observe(t: Timer, now: Ts): Timer { t.(firstSeen := Some(Anchor(t.firstSeen, now))) }

  function DoPendingDefer(w: Workflow, c: Cmd): Step
    requires c.PendingDefer?
  {
    if !Holds(w, c.executor, c.token) || !w.state.Forward? then Refuse(FenceLost, w)
    else if c.pos !in w.ops then Refuse(OperationNotFound, w)
    else if w.ops[c.pos].id != c.opId then Refuse(OperationConflict, w)
    else if w.ops[c.pos].Settled() then Refuse(OperationNotRequested, w)
    else
      var op := w.ops[c.pos];
      if Overdue(op.timer, c.now, c.after) then
        Step(Redispatch(op.timer.count + 1),
             StampIfLater(w.(ops := w.ops[c.pos := op.(timer := Escalate(op.timer, c.now))]),
                          c.ts, EvPendingRedispatch, c.executor))
      else
        Step(Outcome.PendingDefer(op.timer.count),
             StampIfLater(w.(ops := w.ops[c.pos := op.(timer := Observe(op.timer, c.now))], lease := None,
                             nextAttempt := c.nextAttempt),
                          c.ts, EvPendingDeferred, c.executor))
  }

  function DoReversePendingDefer(w: Workflow, c: Cmd): Step
    requires c.ReversePendingDefer?
  {
    if c.pos !in w.cps then Refuse(CheckpointNotFound, w)
    else if w.cps[c.pos].binding.None? then Refuse(NotRequested, w)
    else if w.cps[c.pos].binding.value.id != c.revId then Refuse(ReverseIdMismatch, w)
    else if w.cps[c.pos].reversal.ResolutionRequired? then Refuse(AlreadyBlocked, w)
    else if !w.cps[c.pos].reversal.Active? then Refuse(CheckpointNotActive, w)
    else if !Holds(w, c.executor, c.token) || !w.state.Reversing? then Refuse(FenceLost, w)
    else if w.Top() != Some(c.pos) then Refuse(OutOfOrder(w.Top()), w)
    else
      var cp := w.cps[c.pos];
      if Overdue(cp.timer, c.now, c.after) then
        Step(Redispatch(cp.timer.count + 1),
             StampIfLater(w.(cps := w.cps[c.pos := cp.(timer := Escalate(cp.timer, c.now))]),
                          c.ts, EvPendingRedispatch, c.executor))
      else
        Step(Outcome.PendingDefer(cp.timer.count),
             StampIfLater(w.(cps := w.cps[c.pos := cp.(timer := Observe(cp.timer, c.now))], lease := None,
                             nextAttempt := c.nextAttempt),
                          c.ts, EvPendingDeferred, c.executor))
  }

  function DoDispatchDefer(w: Workflow, c: Cmd): Step
    requires c.DispatchDefer?
  {
    if !Holds(w, c.executor, c.token) || !(w.state.Forward? || w.state.Reversing?) then Refuse(FenceLost, w)
    else
      var repeated := |w.events| > 0 && w.events[|w.events| - 1].kind == EvDispatchDeferred(c.why);
      var append := !repeated && c.ts > w.eventTs;
      var w1 := w.(lease := None, nextAttempt := c.nextAttempt);
      Step(DispatchDeferred(append),
           if append then Stamp(w1, c.ts, EvDispatchDeferred(c.why), Some(c.executor)) else w1)
  }

  /** Operator resolution of a block; direction and disposition are kept. No procedure
    * implements it yet: the transition is the one the state module allows. */
  function DoOperatorResolve(w: Workflow): Step {
    if w.state.Blocked? then Step(Resolved, w.(state := ResolvedException)) else Refuse(FenceLost, w)
  }

  /** Commands that read and write one workflow's rows only. */
  predicate IsLocal(c: Cmd) {
    !(c.CreatePlanned? || c.CallSubmit? || c.ChildReopen? || c.ChildSettle? || c.TerminalNotify?)
  }

  function LocalStep(w: Workflow, c: Cmd): Step
    requires IsLocal(c)
  {
    match c
    case Claim(_, _, _, _) => DoClaim(w, c)
    case Heartbeat(_, _, _, _, _) => DoHeartbeat(w, c)
    case Release(_, _, _, _) => DoRelease(w, c)
    case OperationRequest(_, _, _, _, _, _, _, _, _, _, _) => DoOperationRequest(w, c)
    case OperationSettle(_, _, _, _, _, _, _, _, _, _, _, _) => DoOperationSettle(w, c)
    case BeginReversal(_, _, _, _, _, _, _) => DoBeginReversal(w, c)
    case AuthoredFail(_, _, _, _, _, _) => DoAuthoredFail(w, c)
    case ReverseRequest(_, _, _, _, _, _) => DoReverseRequest(w, c)
    case ReverseSettle(_, _, _, _, _, _) => DoReverseSettle(w, c)
    case ReverseBlock(_, _, _, _, _, _, _) => DoReverseBlock(w, c)
    case ReconcileDefer(_, _, _, _, _, _, _, _, _, _) => DoReconcileDefer(w, c)
    case ReverseReconcileDefer(_, _, _, _, _, _, _, _, _, _) => DoReverseReconcileDefer(w, c)
    case PendingDefer(_, _, _, _, _, _, _, _, _) => DoPendingDefer(w, c)
    case ReversePendingDefer(_, _, _, _, _, _, _, _, _) => DoReversePendingDefer(w, c)
    case DispatchDefer(_, _, _, _, _, _, _) => DoDispatchDefer(w, c)
    case OperatorResolve(_) => DoOperatorResolve(w)
  }
}
