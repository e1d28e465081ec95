/** How a local command may change one checkpoint of the stack. */
module StackSteps {
  import opened Options
  import opened Rows
  import opened Procedures

  predicate TouchesStack(c: Cmd) {
    c.OperationSettle? || c.ReverseRequest? || c.ReverseSettle? || c.ReverseBlock? || c.ReverseReconcileDefer?
    || c.ReversePendingDefer?
  }

  /** A checkpoint appears, active, unbound and with the payload sent, when its operation settles. Afterwards one
    * checkpoint at most changes per step: it is bound by a reverse request, undone by a reverse
    * settle, parked by a block or an exhausted budget, charged or timed by a defer, and always
    * as the active top of the stack. */
  predicate CheckpointChange(w: Workflow, c: Cmd, n: Workflow, p: nat)
    requires p in n.cps
  {
    var b := n.cps[p];
    if p !in w.cps then
      c.OperationSettle? && p == c.pos && p in w.ops && b.name == w.ops[p].name && b.opId == c.opId
      && b.payload == c.payload && b.reversal.Active? && b.binding.None? && b.budget == FRESH_BUDGET
      && b.timer == FRESH_TIMER
    else
      var a := w.cps[p];
      b == a
      || (TouchesStack(c) && p == c.pos && a.reversal.Active? && w.Top() == Some(p)
          && ((c.ReverseRequest? && a.binding.None? && b == a.(binding := Some(c.binding)))
              || (c.ReverseSettle? && a.binding.Some? && b == a.(reversal := Undone))
              || (c.ReverseBlock? && a.binding.Some? && b == a.(reversal := ResolutionRequired))
              || (c.ReverseReconcileDefer? && a.binding.Some?
                  && b == a.(budget := Charge(a.budget, c.now),
                             reversal := if Exhausted(a.budget, c.now, c.maxElapsed, c.minAttempts)
                                         then ResolutionRequired else Active))
              || (c.ReversePendingDefer? && a.binding.Some?
                  && b == a.(timer := if Overdue(a.timer, c.now, c.after) then Escalate(a.timer, c.now)
                                      else Observe(a.timer, c.now)))))
  }

  lemma SettleChange(w: Workflow, c: Cmd, p: nat)
    requires c.OperationSettle? && p in DoOperationSettle(w, c).next.cps
             && (forall q: nat :: q in w.cps ==> w.IsSettled(q))
    ensures CheckpointChange(w, c, DoOperationSettle(w, c).next, p)
  {
    hide TopOf, Holds, Exhausted, Overdue, Charge, Escalate, Observe, OrderGuard;
  }

  lemma DispatchChange(w: Workflow, c: Cmd, p: nat)
    requires c.ReverseRequest? && p in DoReverseRequest(w, c).next.cps 
    ensures CheckpointChange(w, c, DoReverseRequest(w, c).next, p)
  {
    hide TopOf, Holds, Exhausted, Overdue, Charge, Escalate, Observe, OrderGuard;
  }

  lemma UndoChange(w: Workflow, c: Cmd, p: nat)
    requires c.ReverseSettle? && p in DoReverseSettle(w, c).next.cps 
    ensures CheckpointChange(w, c, DoReverseSettle(w, c).next, p)
  {
    hide TopOf, Holds, Exhausted, Overdue, Charge, Escalate, Observe, OrderGuard;
  }

  lemma BlockChange(w: Workflow, c: Cmd, p: nat)
    requires c.ReverseBlock? && p in DoReverseBlock(w, c).next.cps 
    ensures CheckpointChange(w, c, DoReverseBlock(w, c).next, p)
  {
    hide TopOf, Holds, Exhausted, Overdue, Charge, Escalate, Observe, OrderGuard;
  }

  lemma ReconcileChange(w: Workflow, c: Cmd, p: nat)
    requires c.ReverseReconcileDefer? && p in DoReverseReconcileDefer(w, c).next.cps 
    ensures CheckpointChange(w, c, DoReverseReconcileDefer(w, c).next, p)
  {
    hide TopOf, Holds, Exhausted, Overdue, Charge, Escalate, Observe, OrderGuard;
  }

  lemma PendingChange(w: Workflow, c: Cmd, p: nat)
    requires c.ReversePendingDefer? && p in DoReversePendingDefer(w, c).next.cps 
    ensures CheckpointChange(w, c, DoReversePendingDefer(w, c).next, p)
  {
    hide TopOf, Holds, Exhausted, Overdue, Charge, Escalate, Observe, OrderGuard;
  }

  lemma StackKept(w: Workflow, c: Cmd)
    requires IsLocal(c) && !TouchesStack(c)
    ensures LocalStep(w, c).next.cps == w.cps
  {
    hide TopOf, Exhausted, Overdue, Claimable, Holds, OrderGuard;
  }

  lemma LocalStackChange(w: Workflow, c: Cmd, p: nat)
    requires IsLocal(c) && p in LocalStep(w, c).next.cps && forall q: nat :: q in w.cps ==> w.IsSettled(q)
    ensures CheckpointChange(w, c, LocalStep(w, c).next, p)
  {
    if !TouchesStack(c) {
      StackKept(w, c);
      hide LocalStep;
    } else {
      hide DoOperationSettle, DoReverseRequest, DoReverseSettle, DoReverseBlock, DoReverseReconcileDefer,
        DoReversePendingDefer, CheckpointChange;
      match c
      case OperationSettle(_, _, _, _, _, _, _, _, _, _, _, _) => SettleChange(w, c, p);
      case ReverseRequest(_, _, _, _, _, _) => DispatchChange(w, c, p);
      case ReverseSettle(_, _, _, _, _, _) => UndoChange(w, c, p);
      case ReverseBlock(_, _, _, _, _, _, _) => BlockChange(w, c, p);
      case ReverseReconcileDefer(_, _, _, _, _, _, _, _, _, _) => ReconcileChange(w, c, p);
      case ReversePendingDefer(_, _, _, _, _, _, _, _, _) => PendingChange(w, c, p);
    }
  }
}
