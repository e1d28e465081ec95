/** Every procedure keeps the local invariant, on any arguments. */
module SoundSteps {
  import opened Options
  import opened Rows
  import opened Procedures
  import opened Soundness

  lemma LeaseSound(w: Workflow, c: Cmd)
    requires Sound(w) && (c.Claim? || c.Heartbeat? || c.Release? || c.OperatorResolve?)
    ensures Sound(LocalStep(w, c).next)
  {
    hide Spine, Lifo;
  }

  lemma DispatchDeferSound(w: Workflow, c: Cmd)
    requires Sound(w) && c.DispatchDefer?
    ensures Sound(DoDispatchDefer(w, c).next)
  {
    hide Spine, Lifo, Chronology;
    if c.ts > w.eventTs {
      LogGrows(w.events, w.eventTs, Event(c.ts, EvDispatchDeferred(c.why), Some(c.executor)));
    }
  }

  lemma RequestSound(w: Workflow, c: Cmd)
    requires Sound(w) && c.OperationRequest?
    ensures Sound(DoOperationRequest(w, c).next)
  {
    hide Spine, Lifo, Chronology;
    if DoOperationRequest(w, c).out.Requested? {
      var op := Operation(c.opId, c.name, c.schema, c.input, c.inputHash, Participant, None, FRESH_BUDGET, FRESH_TIMER);
      SpineInsert(w.pin.length, w.ops, w.cps, w.calls, c.pos, op);
      LogGrows(w.events, w.eventTs, Event(c.ts, EvOperationRequested, Some(c.executor)));
    }
  }

  lemma SettleSound(w: Workflow, c: Cmd)
    requires Sound(w) && c.OperationSettle? && !Malformed(c)
    ensures Sound(DoOperationSettle(w, c).next)
  {
    hide Spine, Lifo, Chronology;
    if DoOperationSettle(w, c).out.Settled? {
      var op := w.ops[c.pos];
      var cp := Checkpoint(op.name, op.id, c.payload, Active, None, FRESH_BUDGET, FRESH_TIMER);
      SpineSettle(w.pin.length, w.ops, w.cps, w.calls, c.pos, c.result, cp);
      PristineLifo(w.cps[c.pos := cp], w.calls);
      LogGrows(w.events, w.eventTs,
               Event(c.ts, if c.final then EvWorkflowCompleted else EvOperationSettled, Some(c.executor)));
    }
  }

  lemma TurnBackSound(w: Workflow, executor: Id, trigger: Id, ts: Ts, why: string)
    requires Sound(w) && w.state.Forward? && ts > w.eventTs
    ensures Sound(TurnBack(w, executor, trigger, ts, why).next)
  {
    hide Spine, Lifo, Chronology;
    PristineLifo(w.cps, w.calls);
    LogGrows(w.events, w.eventTs, Event(ts, if w.Top().None? then EvFailed else EvReversalBegun, Some(executor)));
  }

  lemma ReverseRequestSound(w: Workflow, c: Cmd)
    requires Sound(w) && c.ReverseRequest?
    ensures Sound(DoReverseRequest(w, c).next)
  {
    hide Spine, Lifo, Chronology;
    if DoReverseRequest(w, c).out.Dispatched? {
      var cp := w.cps[c.pos].(binding := Some(c.binding));
      SpineTouchCp(w.pin.length, w.ops, w.cps, w.calls, c.pos, cp);
      LifoBind(w.cps, w.calls, c.pos, c.binding);
      TopTouch(w.cps, c.pos, cp);
      LogGrows(w.events, w.eventTs, Event(c.ts, EvCompensationRequested, Some(c.executor)));
    }
  }

  lemma UnwindSound(w: Workflow, pos: nat, ts: Ts, executor: Id)
    requires Sound(w) && w.state.Reversing? && w.Top() == Some(pos) && ts > w.eventTs
    requires w.cps[pos].binding.Some? || pos in w.calls
    ensures Sound(Unwind(w, pos, ts, executor).next)
  {
    hide Spine, Lifo, Chronology;
    SpineTouchCp(w.pin.length, w.ops, w.cps, w.calls, pos, w.cps[pos].(reversal := Undone));
    LifoUndo(w.cps, w.calls, pos);
    NextTop(w.cps, w.calls, pos);
    LogGrows(w.events, w.eventTs, Event(ts, EvCompensationSettled, Some(executor)));
  }

  lemma BlockSound(w: Workflow, pos: nat, d: Disposition, ts: Ts, kind: EventKind, executor: Id)
    requires Sound(w) && w.state.Reversing? && w.Top() == Some(pos) && ts > w.eventTs
    requires w.cps[pos].binding.Some? && (d.Rejected? || d.Indeterminate?)
    ensures Sound(BlockAt(w, pos, d, ts, kind, executor))
  {
    hide Spine, Lifo, Chronology;
    SpineTouchCp(w.pin.length, w.ops, w.cps, w.calls, pos, w.cps[pos].(reversal := ResolutionRequired));
    LifoPark(w.cps, w.calls, pos);
    LogGrows(w.events, w.eventTs, Event(ts, kind, Some(executor)));
  }

  lemma StampIfLaterSound(w: Workflow, ts: Ts, kind: EventKind, executor: Id)
    requires Sound(w)
    ensures Sound(StampIfLater(w, ts, kind, executor))
  {
    hide Spine, Lifo, Chronology;
    if ts > w.eventTs { LogGrows(w.events, w.eventTs, Event(ts, kind, Some(executor))); }
  }

  /** Charging a budget or a timer, with or without giving the lease back. */
  lemma TouchOpSound(w: Workflow, pos: nat, op: Operation, lease: Option<Lease>, next: Ts)
    requires Sound(w) && pos in w.ops && (lease == w.lease || lease.None?)
    requires op.id == w.ops[pos].id && op.name == w.ops[pos].name && op.kind == w.ops[pos].kind
    requires op.result == w.ops[pos].result
    ensures Sound(w.(ops := w.ops[pos := op], lease := lease, nextAttempt := next))
  {
    hide Lifo, Chronology;
    SpineTouchOp(w.pin.length, w.ops, w.cps, w.calls, pos, op);
  }

  lemma TouchCpSound(w: Workflow, pos: nat, cp: Checkpoint, lease: Option<Lease>, next: Ts)
    requires Sound(w) && w.state.Reversing? && pos in w.cps && (lease == w.lease || lease.None?)
    requires cp.opId == w.cps[pos].opId && cp.name == w.cps[pos].name
    requires cp.reversal == w.cps[pos].reversal && cp.binding == w.cps[pos].binding
    ensures Sound(w.(cps := w.cps[pos := cp], lease := lease, nextAttempt := next))
  {
    hide Lifo, Chronology;
    SpineTouchCp(w.pin.length, w.ops, w.cps, w.calls, pos, cp);
    LifoTouch(w.cps, w.calls, pos, cp);
  }

  lemma SettledBelow(w: Workflow)
    requires Sound(w)
    ensures forall i: nat :: i in w.cps ==> w.IsSettled(i)
  {
    hide Lifo, Chronology, Agrees, Fields;
  }

  lemma ReconcileSound(w: Workflow, c: Cmd)
    requires Sound(w) && c.ReconcileDefer?
    ensures Sound(DoReconcileDefer(w, c).next)
  {
    hide Spine, Lifo, Chronology, Charge, Exhausted;
    SettledBelow(w);
    var out := DoReconcileDefer(w, c).out;
    if out.Deferred? || out.BlockedNow? {
      var op := w.ops[c.pos].(budget := Charge(w.ops[c.pos].budget, c.now));
      TouchOpSound(w, c.pos, op, None, c.nextAttempt);
      TouchOpSound(w, c.pos, op, None, w.nextAttempt);
      if out.Deferred? {
        StampIfLaterSound(w.(ops := w.ops[c.pos := op], lease := None, nextAttempt := c.nextAttempt),
                          c.ts, EvRoute404, c.executor);
      } else {
        LogGrows(w.events, w.eventTs, Event(c.ts, EvRouteUnknown, Some(c.executor)));
      }
    }
  }

  lemma ReverseReconcileSound(w: Workflow, c: Cmd)
    requires Sound(w) && c.ReverseReconcileDefer?
    ensures Sound(DoReverseReconcileDefer(w, c).next)
  {
    hide Sound;
    var out := DoReverseReconcileDefer(w, c).out;
    if out.Deferred? || out.BlockedNow? {
      var cp := w.cps[c.pos].(budget := Charge(w.cps[c.pos].budget, c.now));
      TouchCpSound(w, c.pos, cp, None, c.nextAttempt);
      TouchCpSound(w, c.pos, cp, w.lease, w.nextAttempt);
      if out.Deferred? {
        StampIfLaterSound(w.(cps := w.cps[c.pos := cp], lease := None, nextAttempt := c.nextAttempt),
                          c.ts, EvRoute404, c.executor);
      } else {
        var w1 := w.(cps := w.cps[c.pos := cp]);
        TopTouch(w.cps, c.pos, cp);
        BlockSound(w1, c.pos, Indeterminate, c.ts, EvRouteUnknown, c.executor);
      }
    }
  }

  lemma PendingSound(w: Workflow, c: Cmd)
    requires Sound(w) && c.PendingDefer?
    ensures Sound(DoPendingDefer(w, c).next)
  {
    hide Sound;
    var out := DoPendingDefer(w, c).out;
    if out.Redispatch? {
      var op := w.ops[c.pos].(timer := Escalate(w.ops[c.pos].timer, c.now));
      TouchOpSound(w, c.pos, op, w.lease, w.nextAttempt);
      StampIfLaterSound(w.(ops := w.ops[c.pos := op]), c.ts, EvPendingRedispatch, c.executor);
    } else if out.PendingDefer? {
      var op := w.ops[c.pos].(timer := Observe(w.ops[c.pos].timer, c.now));
      TouchOpSound(w, c.pos, op, None, c.nextAttempt);
      StampIfLaterSound(w.(ops := w.ops[c.pos := op], lease := None, nextAttempt := c.nextAttempt),
                        c.ts, EvPendingDeferred, c.executor);
    }
  }

  lemma ReversePendingSound(w: Workflow, c: Cmd)
    requires Sound(w) && c.ReversePendingDefer?
    ensures Sound(DoReversePendingDefer(w, c).next)
  {
    hide Sound;
    var out := DoReversePendingDefer(w, c).out;
    if out.Redispatch? {
      var cp := w.cps[c.pos].(timer := Escalate(w.cps[c.pos].timer, c.now));
      TouchCpSound(w, c.pos, cp, w.lease, w.nextAttempt);
      StampIfLaterSound(w.(cps := w.cps[c.pos := cp]), c.ts, EvPendingRedispatch, c.executor);
    } else if out.PendingDefer? {
      var cp := w.cps[c.pos].(timer := Observe(w.cps[c.pos].timer, c.now));
      TouchCpSound(w, c.pos, cp, None, c.nextAttempt);
      StampIfLaterSound(w.(cps := w.cps[c.pos := cp], lease := None, nextAttempt := c.nextAttempt),
                        c.ts, EvPendingDeferred, c.executor);
    }
  }

  lemma BeginReversalSound(w: Workflow, c: Cmd)
    requires Sound(w) && c.BeginReversal?
    ensures Sound(DoBeginReversal(w, c).next)
  {
    hide Sound;
    if DoBeginReversal(w, c).next != w { TurnBackSound(w, c.executor, c.opId, c.ts, c.why); }
  }

  lemma AuthoredFailSound(w: Workflow, c: Cmd)
    requires Sound(w) && c.AuthoredFail?
    ensures Sound(DoAuthoredFail(w, c).next)
  {
    hide Sound;
    if DoAuthoredFail(w, c).next != w { TurnBackSound(w, c.executor, c.opId, c.ts, c.why); }
  }

  lemma ReverseSettleSound(w: Workflow, c: Cmd)
    requires Sound(w) && c.ReverseSettle?
    ensures Sound(DoReverseSettle(w, c).next)
  {
    hide Sound;
    if DoReverseSettle(w, c).next != w { UnwindSound(w, c.pos, c.ts, c.executor); }
  }

  lemma ReverseBlockSound(w: Workflow, c: Cmd)
    requires Sound(w) && c.ReverseBlock? && !Malformed(c)
    ensures Sound(DoReverseBlock(w, c).next)
  {
    hide Sound;
    if DoReverseBlock(w, c).next != w { BlockSound(w, c.pos, c.disposition, c.ts, EvCompensationBlocked, c.executor); }
  }

  lemma LocalSound(w: Workflow, c: Cmd)
    requires Sound(w) && IsLocal(c) && !Malformed(c)
    ensures Sound(LocalStep(w, c).next)
  {
    hide Sound;
    match c
    case Claim(_, _, _, _) => LeaseSound(w, c);
    case Heartbeat(_, _, _, _, _) => LeaseSound(w, c);
    case Release(_, _, _, _) => LeaseSound(w, c);
    case OperatorResolve(_) => LeaseSound(w, c);
    case DispatchDefer(_, _, _, _, _, _, _) => DispatchDeferSound(w, c);
    case OperationRequest(_, _, _, _, _, _, _, _, _, _, _) => RequestSound(w, c);
    case OperationSettle(_, _, _, _, _, _, _, _, _, _, _, _) => SettleSound(w, c);
    case BeginReversal(_, _, _, _, _, _, _) => BeginReversalSound(w, c);
    case AuthoredFail(_, _, _, _, _, _) => AuthoredFailSound(w, c);
    case ReverseRequest(_, _, _, _, _, _) => ReverseRequestSound(w, c);
    case ReverseSettle(_, _, _, _, _, _) => ReverseSettleSound(w, c);
    case ReverseBlock(_, _, _, _, _, _, _) => ReverseBlockSound(w, c);
    case ReconcileDefer(_, _, _, _, _, _, _, _, _, _) => ReconcileSound(w, c);
    case ReverseReconcileDefer(_, _, _, _, _, _, _, _, _, _) => ReverseReconcileSound(w, c);
    case PendingDefer(_, _, _, _, _, _, _, _, _) => PendingSound(w, c);
    case ReversePendingDefer(_, _, _, _, _, _, _, _, _) => ReversePendingSound(w, c);
  }
}
