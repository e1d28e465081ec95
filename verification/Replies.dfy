/** What a reply tells is what the rows show. */
module Replies {
  import opened Options
  import opened Rows
  import opened Procedures
  import opened Coordinator
  import opened Soundness
  import opened Invariant
  import opened InvariantSteps
  import opened Fencing
  import opened Unwinding
  import opened Replay

  // ---------------------------------------------------------------- one workflow

  /** The commands that may be told to wait for the clock. */
  predicate Timed(c: Cmd) {
    c.OperationRequest? || c.OperationSettle? || c.BeginReversal? || c.AuthoredFail? || c.ReverseRequest?
    || c.ReverseSettle? || c.ReverseBlock? || c.ReconcileDefer? || c.ReverseReconcileDefer? || c.CallSubmit?
    || c.ChildReopen? || c.ChildSettle?
  }

  /** What a step answers, against the rows before and after it. */
  predicate Truthful(w: Workflow, c: Cmd, s: Step)
    requires IsLocal(c)
  {
    var n := s.next;
    match s.out
    case Requested(id) => c.OperationRequest? && c.pos !in w.ops && c.pos in n.ops && n.ops[c.pos].id == id
    case Settled(result) => c.OperationSettle? && Aimed(w, c) && c.pos in n.ops && n.ops[c.pos].result == Some(result)
    case BegunFailed(reason) => (c.BeginReversal? ==> Aimed(w, c)) && n.state.Failed? && n.reason == reason
    case BegunReversing(top) =>
      (c.BeginReversal? ==> Aimed(w, c)) && n.state.Reversing? && top.Some? && n.Top() == top
    case Dispatched(id) =>
      c.ReverseRequest? && c.pos in w.cps && w.cps[c.pos].binding.None? && w.Top() == Some(c.pos)
      && c.pos in n.cps && n.cps[c.pos].binding.Some? && n.cps[c.pos].binding.value.id == id
    case Descended(top) => Aimed(w, c) && top.Some? && n.Top() == top
    case FullyReversed(reason) => Aimed(w, c) && n.state.Reversed? && n.Top().None? && n.reason == reason
    case BlockedNow =>
      Aimed(w, c) && n.state.Blocked? && n.disposition == if c.ReverseBlock? then c.disposition else Indeterminate
    case Deferred(_) => Aimed(w, c)
    case Redispatch(_) => Aimed(w, c)
    case PendingDefer(_) => Aimed(w, c)
    case OutOfOrder(top) => OnCheckpoint(c) && w.Top() == top && top != Some(c.pos)
    case AlreadyBegun(state, reason) =>
      (c.BeginReversal? || c.AuthoredFail?) && w.trigger == Some(c.opId) && w.state == state && w.reason == reason
    case AlreadySettled(result) =>
      c.OperationSettle? && c.pos in w.ops && w.ops[c.pos].id == c.opId && w.ops[c.pos].result == Some(result)
    case AlreadyRequested(id) =>
      c.OperationRequest? && c.pos in w.ops && id == c.opId
      && (w.ops[c.pos].id, w.ops[c.pos].name, w.ops[c.pos].schema, w.ops[c.pos].inputHash)
         == (c.opId, c.name, c.schema, c.inputHash)
    case AlreadyDispatched(b) =>
      c.ReverseRequest? && b == c.binding && c.pos in w.cps && w.cps[c.pos].binding == Some(b)
    case Skew(until) => Timed(c) && c.ts <= w.eventTs < until
    case FenceLost => Unfenced(w, c)
    case NotClaimable => c.Claim? && !Claimable(w, c.now)
    case PlanViolation(why) =>
      ((c.OperationRequest? || c.OperationSettle?) && Disordered(w, c.pos, why))
      || (c.OperationSettle? && why.CheckpointMismatch? && c.cpPos != c.pos)
      || (c.OperationSettle? && why.FinalityEarly? && c.final && c.pos != w.pin.length)
    case OperationNotFound => OnOperation(c) && c.pos !in w.ops
    case OperationConflict =>
      OnOperation(c) && c.pos in w.ops
      && (w.ops[c.pos].id != c.opId
          || (c.OperationRequest? && (w.ops[c.pos].name != c.name || w.ops[c.pos].schema != c.schema
                                      || w.ops[c.pos].inputHash != c.inputHash)))
    case OperationNotRequested => OnOperation(c) && w.IsSettled(c.pos)
    case OperationNotFailed => OnOperation(c) && w.IsSettled(c.pos)
    case CheckpointNotFound => OnCheckpoint(c) && c.pos !in w.cps
    case CheckpointInactive => Stands(w, c, {Undone, ResolutionRequired, Disposed})
    case CheckpointNotSettleable => Stands(w, c, {ResolutionRequired, Disposed})
    case CheckpointNotBlockable => Stands(w, c, {Undone, Disposed})
    case CheckpointNotActive => Stands(w, c, {Undone, Disposed})
    case NotRequested => OnCheckpoint(c) && c.pos in w.cps && w.cps[c.pos].binding.None?
    case ReverseIdMismatch =>
      OnCheckpoint(c) && !c.ReverseRequest? && c.pos in w.cps && w.cps[c.pos].binding.Some?
      && w.cps[c.pos].binding.value.id != c.revId
    case BindingConflict =>
      c.ReverseRequest? && c.pos in w.cps && w.cps[c.pos].binding.Some? && w.cps[c.pos].binding.value != c.binding
    case TriggerMismatch =>
      (c.BeginReversal? || c.AuthoredFail?) && w.trigger.Some? && w.trigger.value != c.opId
    case AlreadyReversed => Stands(w, c, {Undone}) && BoundAs(w, c)
    case AlreadyBlocked => Stands(w, c, {ResolutionRequired}) && BoundAs(w, c)
    case _ => true
  }

  predicate OnOperation(c: Cmd) {
    c.OperationRequest? || c.OperationSettle? || c.BeginReversal? || c.ReconcileDefer? || c.PendingDefer?
  }

  predicate OnCheckpoint(c: Cmd) {
    c.ReverseRequest? || c.ReverseSettle? || c.ReverseBlock? || c.ReverseReconcileDefer? || c.ReversePendingDefer?
  }

  /** The checkpoint of the command is in one of these states. */
  predicate Stands(w: Workflow, c: Cmd, states: set<ReversalState>) {
    OnCheckpoint(c) && c.pos in w.cps && w.cps[c.pos].reversal in states
  }

  /** The checkpoint of the command is bound to the compensation it names. */
  predicate BoundAs(w: Workflow, c: Cmd) {
    OnCheckpoint(c) && !c.ReverseRequest? && c.pos in w.cps && w.cps[c.pos].binding.Some?
    && w.cps[c.pos].binding.value.id == c.revId
  }

  /** The command names the unsettled operation at its position, or the compensation its top checkpoint is bound to. */
  predicate Aimed(w: Workflow, c: Cmd) {
    if OnOperation(c) then c.pos in w.ops && w.ops[c.pos].id == c.opId && !w.IsSettled(c.pos)
    else BoundAs(w, c) && w.cps[c.pos].reversal.Active? && w.Top() == Some(c.pos)
  }

  predicate Disordered(w: Workflow, pos: nat, why: PlanReason) {
    match why
    case SeqOutOfRange => pos < 1 || pos > w.pin.length
    case PredecessorIncomplete => pos > 1 && !w.IsSettled(pos - 1)
    case _ => false
  }

  /** The sender does not hold the workflow, or the workflow is not in a state for the command. */
  predicate Unfenced(w: Workflow, c: Cmd) {
    if c.OperatorResolve? then !w.state.Blocked?
    else
      (Fenced(c) && !Holds(w, c.executor, c.token))
      || (c.Heartbeat? && (w.lease.None? || w.lease.value.expires < c.now))
      || (if OnCheckpoint(c) then !w.state.Reversing?
          else if c.Heartbeat? || c.Release? || c.DispatchDefer? then !w.state.Forward? && !w.state.Reversing?
          else !w.state.Forward?)
  }

  lemma ForwardTruthful(w: Workflow, c: Cmd)
    ensures c.OperationRequest? ==> Truthful(w, c, DoOperationRequest(w, c))
    ensures c.OperationSettle? ==> Truthful(w, c, DoOperationSettle(w, c))
  {
    hide Holds, TopOf;
  }

  lemma TurnTruthful(w: Workflow, c: Cmd)
    ensures c.BeginReversal? ==> Truthful(w, c, DoBeginReversal(w, c))
    ensures c.AuthoredFail? ==> Truthful(w, c, DoAuthoredFail(w, c))
  {
    hide Holds, TopOf;
  }

  lemma DispatchTruthful(w: Workflow, c: Cmd)
    ensures c.ReverseRequest? ==> Truthful(w, c, DoReverseRequest(w, c))
  {
    hide Holds, TopOf;
  }

  lemma ReverseTruthful(w: Workflow, c: Cmd)
    ensures c.ReverseSettle? ==> Truthful(w, c, DoReverseSettle(w, c))
    ensures c.ReverseBlock? ==> Truthful(w, c, DoReverseBlock(w, c))
  {
    hide Holds, TopOf;
  }

  lemma DeferTruthful(w: Workflow, c: Cmd)
    ensures c.ReconcileDefer? ==> Truthful(w, c, DoReconcileDefer(w, c))
    ensures c.ReverseReconcileDefer? ==> Truthful(w, c, DoReverseReconcileDefer(w, c))
  {
    hide Holds, TopOf, Exhausted, Charge;
  }

  lemma PendingTruthful(w: Workflow, c: Cmd)
    ensures c.PendingDefer? ==> Truthful(w, c, DoPendingDefer(w, c))
    ensures c.ReversePendingDefer? ==> Truthful(w, c, DoReversePendingDefer(w, c))
    ensures c.DispatchDefer? ==> Truthful(w, c, DoDispatchDefer(w, c))
  {
    hide Holds, TopOf, Overdue, Escalate, Observe;
  }

  lemma LeaseTruthful(w: Workflow, c: Cmd)
    ensures c.Claim? ==> Truthful(w, c, DoClaim(w, c))
    ensures c.Heartbeat? ==> Truthful(w, c, DoHeartbeat(w, c))
    ensures c.Release? ==> Truthful(w, c, DoRelease(w, c))
    ensures c.OperatorResolve? ==> Truthful(w, c, DoOperatorResolve(w))
  {
    hide Claimable;
  }

  lemma LocalTruthful(w: Workflow, c: Cmd)
    requires IsLocal(c)
    ensures Truthful(w, c, LocalStep(w, c))
  {
    hide DoOperationRequest, DoOperationSettle, DoBeginReversal, DoAuthoredFail, DoReverseRequest, DoReverseSettle,
      DoReverseBlock, DoReconcileDefer, DoReverseReconcileDefer, DoPendingDefer, DoReversePendingDefer, DoDispatchDefer,
      DoClaim, DoHeartbeat, DoRelease, DoOperatorResolve, Truthful;
    LeaseTruthful(w, c);
    ForwardTruthful(w, c);
    TurnTruthful(w, c);
    DispatchTruthful(w, c);
    ReverseTruthful(w, c);
    DeferTruthful(w, c);
    PendingTruthful(w, c);
  }

  // ---------------------------------------------------------------- the store

  /** The same for commands on several workflows. */
  predicate TruthfulCall(db: Db, c: Cmd, s: DbStep)
    requires !IsLocal(c)
  {
    match s.out
    case Created(pin) => c.CreatePlanned? && c.wf in s.db && s.db[c.wf].pin == pin
    case PlanExists(pin) =>
      c.CreatePlanned? && c.wf in db && db[c.wf].pin == pin && db[c.wf].script == c.script && db[c.wf].args == c.args
    case Submitted(child) =>
      c.CallSubmit? && c.wf in s.db && c.pos in s.db[c.wf].calls && s.db[c.wf].calls[c.pos].child == child
      && child in s.db
    case AlreadySubmitted(child) =>
      c.CallSubmit? && child == c.childId && c.wf in db && c.pos in db[c.wf].calls && c.pos in db[c.wf].ops
      && db[c.wf].calls[c.pos] == Call(child, c.childScript, c.childPin.version, c.childPin.hash)
      && db[c.wf].ops[c.pos].id == c.opId && db[c.wf].ops[c.pos].inputHash == c.inputHash
      && child in db && db[child].args == c.input && db[child].pin.length == c.childPin.length
    case Reopened(child) =>
      c.ChildReopen? && c.wf in db && c.pos in db[c.wf].calls && db[c.wf].calls[c.pos].child == child
      && child in db && db[child].state.Completed? && child in s.db && s.db[child].state.Reversing?
    case AlreadyReopened(state) => c.ChildReopen? && ChildState(db, c) == Some(state)
    case ChildNotTerminal(state) => c.ChildSettle? && ChildState(db, c) == Some(state)
    case ChildNotCompensated(state) => c.ChildSettle? && ChildState(db, c) == Some(state)
    case Descended(top) => c.ChildSettle? && c.wf in s.db && top.Some? && s.db[c.wf].Top() == top
    case FullyReversed(reason) =>
      c.ChildSettle? && c.wf in s.db && s.db[c.wf].state.Reversed? && s.db[c.wf].Top().None?
      && s.db[c.wf].reason == reason
    case OutOfOrder(top) =>
      (c.ChildReopen? || c.ChildSettle?) && c.wf in db && db[c.wf].Top() == top && top != Some(c.pos)
    case Skew(until) =>
      Timed(c) && c.wf in db && until > db[c.wf].eventTs
      && (c.ts <= db[c.wf].eventTs || (c.ChildReopen? && ChildOf(db, c).Some? && c.ts <= ChildOf(db, c).value.eventTs))
    case PlanConflict => c.CreatePlanned? && c.wf in db && db[c.wf].script != c.script
    case WorkflowConflict => c.CreatePlanned? && c.wf in db && db[c.wf].args != c.args
    case NotFound => if c.TerminalNotify? then forall id :: id in db ==> !IsCallerOf(db[id], c.childId) else c.wf !in db
    case FenceLost =>
      OnCall(c) && c.wf in db && (!Holds(db[c.wf], c.executor, c.token)
                                  || (if c.CallSubmit? then !db[c.wf].state.Forward? else !db[c.wf].state.Reversing?))
    case PlanViolation(why) => c.CallSubmit? && c.wf in db && Disordered(db[c.wf], c.pos, why)
    case CallConflict => c.CallSubmit? && c.wf in db && c.pos in db[c.wf].ops && !SameSubmission(db, db[c.wf], c)
    case MaxCallDepthExceeded => c.CallSubmit? && c.wf in db && db[c.wf].Depth() + 1 > c.maxDepth
    case DuplicateKey => c.CallSubmit? && (OpIdTaken(db, c.opId) || c.childId in db)
    case CheckpointNotFound => (c.ChildReopen? || c.ChildSettle?) && c.wf in db && c.pos !in db[c.wf].cps
    case NotCallCheckpoint =>
      (c.ChildReopen? || c.ChildSettle?) && c.wf in db
      && (c.pos in db[c.wf].ops ==> !db[c.wf].ops[c.pos].kind.ChildWorkflow?)
    case SidecarNotFound => (c.ChildReopen? || c.ChildSettle?) && c.wf in db && c.pos !in db[c.wf].calls
    case ChildNotFound => (c.ChildReopen? || c.ChildSettle?) && ChildOf(db, c).None?
    case ChildStateInconsistent => c.ChildReopen? && ChildState(db, c) in {Some(Forward), Some(Failed)}
    case ChildNoActiveCheckpoint => c.ChildReopen? && ChildOf(db, c).Some? && ChildOf(db, c).value.Top().None?
    case CheckpointNotSettleable =>
      c.ChildSettle? && c.wf in db && c.pos in db[c.wf].cps
      && db[c.wf].cps[c.pos].reversal in {ResolutionRequired, Disposed}
    case AlreadyReversed =>
      c.ChildSettle? && c.wf in db && c.pos in db[c.wf].cps && db[c.wf].cps[c.pos].reversal.Undone?
    case Invalid => Malformed(c)
    case _ => true
  }

  predicate OnCall(c: Cmd) { c.CallSubmit? || c.ChildReopen? || c.ChildSettle? }

  /** The child a call position leads to. */
  function ChildOf(db: Db, c: Cmd): Option<Workflow>
    requires c.ChildReopen? || c.ChildSettle?
  {
    if c.wf in db && c.pos in db[c.wf].calls && db[c.wf].calls[c.pos].child in db
    then Some(db[db[c.wf].calls[c.pos].child]) else None
  }

  function ChildState(db: Db, c: Cmd): Option<State>
    requires c.ChildReopen? || c.ChildSettle?
  {
    if ChildOf(db, c).Some? then Some(ChildOf(db, c).value.state) else None
  }

  lemma SameNames(db: Db, c: Cmd)
    requires c.CallSubmit? && c.wf in db && c.pos in db[c.wf].ops && SameSubmission(db, db[c.wf], c)
    ensures c.pos in db[c.wf].calls
    ensures TruthfulCall(db, c, DbStep(AlreadySubmitted(db[c.wf].calls[c.pos].child), db))
  {}

  lemma CreateTruthful(db: Db, c: Cmd)
    requires c.CreatePlanned? || c.CallSubmit? || c.TerminalNotify?
    ensures TruthfulCall(db, c, Apply(db, c))
  {
    hide Malformed, Holds, InLineage, OpIdTaken, TopOf, SameSubmission;
    if c.CallSubmit? && c.wf in db && c.pos in db[c.wf].ops && SameSubmission(db, db[c.wf], c) { SameNames(db, c); }
  }

  lemma ReopenTruthful(db: Db, c: Cmd)
    requires c.ChildReopen?
    ensures TruthfulCall(db, c, Apply(db, c))
  {
    hide Malformed, Holds, TopOf, DoChildSettle, DoCallSubmit, DoCreate, DoNotify, LocalStep;
  }

  lemma SettleTruthful(db: Db, c: Cmd)
    requires c.ChildSettle?
    ensures TruthfulCall(db, c, Apply(db, c))
  {
    hide Malformed, Holds, TopOf, DoChildReopen, DoCallSubmit, DoCreate, DoNotify, LocalStep;
  }

  /** A local command that does not get to its procedure, or whose insert meets the unique key. */
  predicate TurnedAway(db: Db, c: Cmd, out: Outcome)
    requires IsLocal(c)
  {
    (out.Invalid? && Malformed(c)) || (out.NotFound? && c.wf !in db)
    || (out.DuplicateKey? && c.OperationRequest? && OpIdTaken(db, c.opId))
  }

  /** Every reply of the store is true of its rows: a commit answers with what is stored from then on (ids,
    * results, the new top of the stack, the reason of the failure), and every refusal and every replay names
    * something that is the case: nobody is refused without the reason given. */
  lemma RepliesTellRows(db: Db, c: Cmd)
    ensures if !IsLocal(c) then TruthfulCall(db, c, Apply(db, c))
            else TurnedAway(db, c, Apply(db, c).out)
                 || (c.wf in db && c.wf in Apply(db, c).db
                     && Truthful(db[c.wf], c, Step(Apply(db, c).out, Apply(db, c).db[c.wf])))
  {
    if !IsLocal(c) {
      hide TruthfulCall, Apply;
      if c.ChildReopen? { ReopenTruthful(db, c); } else if c.ChildSettle? { SettleTruthful(db, c); }
      else { CreateTruthful(db, c); }
    } else {
      hide Truthful, Malformed, OpIdTaken, LocalStep;
      if c.wf in db { LocalTruthful(db[c.wf], c); }
    }
  }

  // ---------------------------------------------------------------- skew

  /** The same command with another time. */
  predicate Retimed(c: Cmd, d: Cmd) { Timed(c) && Timed(d) && d == c.(ts := d.ts) }

  lemma ForwardClears(w: Workflow, c: Cmd, d: Cmd)
    requires Retimed(c, d) && IsLocal(c) && d.ts > w.eventTs
    ensures c.OperationRequest? ==> !DoOperationRequest(w, d).out.Skew?
    ensures c.OperationSettle? ==> !DoOperationSettle(w, d).out.Skew?
    ensures c.BeginReversal? ==> !DoBeginReversal(w, d).out.Skew?
    ensures c.AuthoredFail? ==> !DoAuthoredFail(w, d).out.Skew?
    ensures c.ReconcileDefer? ==> !DoReconcileDefer(w, d).out.Skew?
  {
    hide Holds, TopOf, Exhausted, Charge;
  }

  lemma ReverseClears(w: Workflow, c: Cmd, d: Cmd)
    requires Retimed(c, d) && IsLocal(c) && d.ts > w.eventTs
    ensures c.ReverseRequest? ==> !DoReverseRequest(w, d).out.Skew?
    ensures c.ReverseSettle? ==> !DoReverseSettle(w, d).out.Skew?
    ensures c.ReverseBlock? ==> !DoReverseBlock(w, d).out.Skew?
    ensures c.ReverseReconcileDefer? ==> !DoReverseReconcileDefer(w, d).out.Skew?
  {
    hide Holds, TopOf, Exhausted, Charge;
  }

  lemma LocalClears(w: Workflow, c: Cmd, d: Cmd)
    requires Retimed(c, d) && IsLocal(c) && d.ts > w.eventTs
    ensures !LocalStep(w, d).out.Skew?
  {
    hide DoOperationRequest, DoOperationSettle, DoBeginReversal, DoAuthoredFail, DoReverseRequest, DoReverseSettle,
      DoReverseBlock, DoReconcileDefer, DoReverseReconcileDefer;
    ForwardClears(w, c, d);
    ReverseClears(w, c, d);
  }

  lemma SkewNamesRow(db: Db, c: Cmd)
    requires IsLocal(c) && Apply(db, c).out.Skew?
    ensures c.wf in db && Apply(db, c).out.deferUntil > db[c.wf].eventTs
  {
    RepliesTellRows(db, c);
    hide Apply;
  }

  lemma CallClears(db: Db, c: Cmd, d: Cmd)
    requires (c.CallSubmit? || c.ChildReopen? || c.ChildSettle?) && Retimed(c, d)
    requires Apply(db, c).out.Skew? && d.ts >= Apply(db, c).out.deferUntil
    ensures !Apply(db, d).out.Skew?
  {
    hide Holds, TopOf, InLineage, OpIdTaken, OrderGuard, SameSubmission, Malformed, DoCreate, DoNotify, LocalStep;
  }

  lemma LocalOutcomes(db: Db, d: Cmd)
    requires IsLocal(d)
    ensures Apply(db, d).out in {Invalid, NotFound, DuplicateKey}
            || (d.wf in db && Apply(db, d).out == LocalStep(db[d.wf], d).out)
  {
    hide Malformed, OpIdTaken, LocalStep;
  }

  /** The time a skew reply names is late enough: the same command, sent again with that or a later time to an
    * unchanged store, is not held back for its time again. */
  lemma SkewClears(db: Db, c: Cmd, d: Cmd)
    requires Retimed(c, d) && Apply(db, c).out.Skew? && d.ts >= Apply(db, c).out.deferUntil
    ensures !Apply(db, d).out.Skew?
  {
    hide Apply, LocalStep;
    if IsLocal(c) {
      SkewNamesRow(db, c);
      LocalClears(db[c.wf], c, d);
      LocalOutcomes(db, d);
    } else {
      CallClears(db, c, d);
    }
  }
}
