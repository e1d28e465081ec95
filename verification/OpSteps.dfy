/** How a local command may change one operation row. */
module OpSteps {
  import opened Options
  import opened Rows
  import opened Procedures

  predicate TouchesOps(c: Cmd) { c.OperationRequest? || c.OperationSettle? || c.ReconcileDefer? || c.PendingDefer? }

  /** A row appears fresh by a request, with what the request carries. Afterwards each of its columns has
    * one author: a settle stores the result, a reconcile defer charges the budget, a pending defer turns
    * the timer. */
  predicate OperationChange(w: Workflow, c: Cmd, n: Workflow, p: nat)
    requires p in n.ops
  {
    var b := n.ops[p];
    if p !in w.ops then
      c.OperationRequest? && p == c.pos && b.id == c.opId && b.name == c.name && b.schema == c.schema
      && b.input == c.input && b.inputHash == c.inputHash && b.kind.Participant? && b.result.None?
      && b.budget == FRESH_BUDGET && b.timer == FRESH_TIMER && DoOperationRequest(w, c).out.Requested?
    else
      var a := w.ops[p];
      b == a
      || (TouchesOps(c) && p == c.pos
          && ((c.OperationSettle? && a.result.None? && b == a.(result := Some(c.result)))
              || (c.ReconcileDefer? && a.result.None? && b == a.(budget := Charge(a.budget, c.now))
                  && (Exhausted(a.budget, c.now, c.maxElapsed, c.minAttempts) <==> n.state.Blocked?)
                  && (n.state.Blocked? ==> n.cursor == StuckForward(p)))
              || (c.PendingDefer? && a.result.None?
                  && b == a.(timer := if Overdue(a.timer, c.now, c.after) then Escalate(a.timer, c.now)
                                      else Observe(a.timer, c.now)))))
  }

  lemma RequestChange(w: Workflow, c: Cmd, p: nat)
    requires c.OperationRequest? && p in DoOperationRequest(w, c).next.ops
    ensures OperationChange(w, c, DoOperationRequest(w, c).next, p)
  {
    hide TopOf, Holds, Exhausted, Overdue, OrderGuard, Charge, Escalate, Observe;
  }

  lemma SettleChange(w: Workflow, c: Cmd, p: nat)
    requires c.OperationSettle? && p in DoOperationSettle(w, c).next.ops
    ensures OperationChange(w, c, DoOperationSettle(w, c).next, p)
  {
    hide TopOf, Holds, Exhausted, Overdue, OrderGuard, Charge, Escalate, Observe;
  }

  lemma ReconcileChange(w: Workflow, c: Cmd, p: nat)
    requires c.ReconcileDefer? && p in DoReconcileDefer(w, c).next.ops
    ensures OperationChange(w, c, DoReconcileDefer(w, c).next, p)
  {
    hide TopOf, Holds, Exhausted, Overdue, OrderGuard, Charge, Escalate, Observe;
  }

  lemma PendingChange(w: Workflow, c: Cmd, p: nat)
    requires c.PendingDefer? && p in DoPendingDefer(w, c).next.ops
    ensures OperationChange(w, c, DoPendingDefer(w, c).next, p)
  {
    hide TopOf, Holds, Exhausted, Overdue, OrderGuard, Charge, Escalate, Observe;
  }

  lemma OpsKept(w: Workflow, c: Cmd)
    requires IsLocal(c) && !TouchesOps(c)
    ensures LocalStep(w, c).next.ops == w.ops
  {
    hide TopOf, Exhausted, Overdue, Claimable, Holds, OrderGuard;
  }

  lemma LocalOpChange(w: Workflow, c: Cmd, p: nat)
    requires IsLocal(c) && p in LocalStep(w, c).next.ops
    ensures OperationChange(w, c, LocalStep(w, c).next, p)
  {
    if !TouchesOps(c) {
      OpsKept(w, c);
      hide LocalStep;
    } else {
      hide DoOperationRequest, DoOperationSettle, DoReconcileDefer, DoPendingDefer, OperationChange;
      match c
      case OperationRequest(_, _, _, _, _, _, _, _, _, _, _) => RequestChange(w, c, p);
      case OperationSettle(_, _, _, _, _, _, _, _, _, _, _, _) => SettleChange(w, c, p);
      case ReconcileDefer(_, _, _, _, _, _, _, _, _, _) => ReconcileChange(w, c, p);
      case PendingDefer(_, _, _, _, _, _, _, _, _) => PendingChange(w, c, p);
    }
  }
}
