/** Who may publish: one (owner, token) pair at a time, tokens that never go back. */
module Fencing {
  import opened Options
  import opened Rows
  import opened Procedures
  import opened Coordinator
  import opened Soundness
  import opened Evolution
  import opened Invariant
  import opened InvariantSteps

  /** Commands that carry a fencing token. */
  predicate Fenced(c: Cmd) { !(c.CreatePlanned? || c.Claim? || c.TerminalNotify? || c.OperatorResolve?) }

  lemma LocalNeedsFence(w: Workflow, c: Cmd)
    requires IsLocal(c) && Fenced(c) && LocalStep(w, c).next != w
    ensures Holds(w, c.executor, c.token) && (w.state.Forward? || w.state.Reversing?)
  {
    hide TopOf, Exhausted, Overdue, Stamp, StampIfLater, Charge, Escalate, Observe, BlockAt, OrderGuard, TurnBack,
      Unwind;
  }

  lemma CallNeedsFence(db: Db, c: Cmd)
    requires (c.CallSubmit? || c.ChildReopen? || c.ChildSettle?) && Apply(db, c).db != db
    ensures c.wf in db && Holds(db[c.wf], c.executor, c.token)
    ensures db[c.wf].state.Forward? || db[c.wf].state.Reversing?
  {
    hide TopOf, OrderGuard, Unwind, SubmittedParent, SubmittedChild, ReopenedChild, SameSubmission, InLineage,
      OpIdTaken, Malformed;
  }

  /** Nothing is written without the current owner and token of a live workflow. */
  lemma PublishingNeedsFence(db: Db, c: Cmd)
    requires Fenced(c) && Apply(db, c).db != db
    ensures c.wf in db && Holds(db[c.wf], c.executor, c.token)
    ensures db[c.wf].state.Forward? || db[c.wf].state.Reversing?
  {
    hide Malformed, OpIdTaken, LocalStep;
    if IsLocal(c) {
      LocalNeedsFence(db[c.wf], c);
    } else {
      hide Apply;
      CallNeedsFence(db, c);
    }
  }

  /** At any store at most one (owner, token) pair can publish for a workflow. */
  lemma SinglePublisher(db: Db, c: Cmd, d: Cmd)
    requires Fenced(c) && Fenced(d) && c.wf == d.wf
    requires Apply(db, c).db != db && Apply(db, d).db != db
    ensures c.executor == d.executor && c.token == d.token
  {
    hide Apply;
    PublishingNeedsFence(db, c);
    PublishingNeedsFence(db, d);
  }

  /** A claim makes every earlier token of the workflow stale. */
  lemma ClaimSupersedes(db: Db, c: Cmd, t: nat)
    requires c.Claim? && Apply(db, c).out == Claimed(t)
    ensures c.wf in db && db[c.wf].token < t && Apply(db, c).db[c.wf].token == t
    ensures Holds(Apply(db, c).db[c.wf], c.executor, t)
  {}

  /** A token once superseded stays powerless: after any run, a command that carries it
    * leaves every row of every workflow as it was. */
  lemma StaleForever(db: Db, maxDepth: nat, cmds: seq<Cmd>, c: Cmd)
    requires Reachable(db, maxDepth) && forall i :: 0 <= i < |cmds| ==> Bounded(cmds[i], maxDepth)
    requires Fenced(c) && c.wf in db && c.token < db[c.wf].token
    ensures Apply(Run(db, cmds), c).db == Run(db, cmds)
    ensures c.wf in Run(db, cmds) && db[c.wf].token <= Run(db, cmds)[c.wf].token
  {
    hide Reachable, Inv, Apply, Run, OpsGrow, CpsGrow, CallsGrow;
    ReachableInv(db, maxDepth);
    RunInv(db, maxDepth, cmds);
    var db' := Run(db, cmds);
    assert Grows(db[c.wf], db'[c.wf]);
    if Apply(db', c).db != db' { PublishingNeedsFence(db', c); }
  }

  /** An intermediate settle keeps the driver in place: same owner, same token, same expiry. */
  lemma IntermediateSettleKeepsDriver(w: Workflow, c: Cmd)
    requires c.OperationSettle? && !c.final
    ensures LocalStep(w, c).next.lease == w.lease && LocalStep(w, c).next.token == w.token
  {
    hide TopOf;
  }

  // ---------------------------------------------------------------- lease expiry

  /** Two pictures of a workflow that differ in nothing but when its lease runs out. */
  predicate SameButExpiry(w: Workflow, v: Workflow) {
    w.lease.Some? && v.lease.Some? && v == w.(lease := Some(Lease(w.lease.value.owner, v.lease.value.expires)))
  }

  lemma ForwardIgnoresExpiry(w: Workflow, v: Workflow, c: Cmd)
    requires SameButExpiry(w, v)
    ensures c.Release? ==> DoRelease(v, c).out == DoRelease(w, c).out
    ensures c.OperationRequest? ==> DoOperationRequest(v, c).out == DoOperationRequest(w, c).out
    ensures c.OperationSettle? ==> DoOperationSettle(v, c).out == DoOperationSettle(w, c).out
  {
    hide Stamp;
  }

  lemma TurningIgnoresExpiry(w: Workflow, v: Workflow, c: Cmd)
    requires SameButExpiry(w, v)
    ensures c.BeginReversal? ==> DoBeginReversal(v, c).out == DoBeginReversal(w, c).out
    ensures c.AuthoredFail? ==> DoAuthoredFail(v, c).out == DoAuthoredFail(w, c).out
  {
    hide TopOf, Stamp;
  }

  lemma ReverseIgnoresExpiry(w: Workflow, v: Workflow, c: Cmd)
    requires SameButExpiry(w, v)
    ensures c.ReverseRequest? ==> DoReverseRequest(v, c).out == DoReverseRequest(w, c).out
    ensures c.ReverseBlock? ==> DoReverseBlock(v, c).out == DoReverseBlock(w, c).out
  {
    hide TopOf, Stamp, BlockAt;
  }

  lemma DeferIgnoresExpiry(w: Workflow, v: Workflow, c: Cmd)
    requires SameButExpiry(w, v)
    ensures c.ReconcileDefer? ==> DoReconcileDefer(v, c).out == DoReconcileDefer(w, c).out
    ensures c.PendingDefer? ==> DoPendingDefer(v, c).out == DoPendingDefer(w, c).out
    ensures c.DispatchDefer? ==> DoDispatchDefer(v, c).out == DoDispatchDefer(w, c).out
  {
    hide Exhausted, Overdue, Stamp, StampIfLater, Charge, Escalate, Observe;
  }

  lemma ReverseDeferIgnoresExpiry(w: Workflow, v: Workflow, c: Cmd)
    requires SameButExpiry(w, v)
    ensures c.ReverseReconcileDefer? ==> DoReverseReconcileDefer(v, c).out == DoReverseReconcileDefer(w, c).out
    ensures c.ReversePendingDefer? ==> DoReversePendingDefer(v, c).out == DoReversePendingDefer(w, c).out
  {
    hide TopOf, Exhausted, Overdue, Stamp, StampIfLater, Charge, Escalate, Observe, BlockAt;
  }

  lemma LocalIgnoresExpiry(w: Workflow, v: Workflow, c: Cmd)
    requires SameButExpiry(w, v) && IsLocal(c) && !c.Claim? && !c.Heartbeat?
    ensures LocalStep(v, c).out == LocalStep(w, c).out
  {
    hide DoRelease, DoOperationRequest, DoOperationSettle, DoBeginReversal, DoAuthoredFail, DoReverseRequest,
      DoReverseSettle, DoReverseBlock, DoReconcileDefer, DoReverseReconcileDefer, DoPendingDefer, DoReversePendingDefer,
      DoDispatchDefer;
    ForwardIgnoresExpiry(w, v, c);
    TurningIgnoresExpiry(w, v, c);
    ReverseIgnoresExpiry(w, v, c);
    DeferIgnoresExpiry(w, v, c);
    ReverseDeferIgnoresExpiry(w, v, c);
    if c.ReverseSettle? { UndoIgnoresExpiry(w, v, c); }
  }

  lemma UndoIgnoresExpiry(w: Workflow, v: Workflow, c: Cmd)
    requires SameButExpiry(w, v) && c.ReverseSettle?
    ensures DoReverseSettle(v, c).out == DoReverseSettle(w, c).out
  {
    hide Unwind, TopOf;
    UnwindSameOutcome(w, v, c.pos, c.ts, c.executor);
  }

  lemma UnwindSameOutcome(w: Workflow, v: Workflow, pos: nat, ts: Ts, executor: Id)
    requires v.cps == w.cps && v.reason == w.reason
    ensures pos in w.cps ==> Unwind(v, pos, ts, executor).out == Unwind(w, pos, ts, executor).out
  {
    hide TopOf;
  }

  lemma TakenIgnoresExpiry(db: Db, id: Id, v: Workflow, opId: Id)
    requires id in db && SameButExpiry(db[id], v)
    ensures OpIdTaken(db[id := v], opId) <==> OpIdTaken(db, opId)
  {
    var db' := db[id := v];
    if i, p :| i in db && p in db[i].ops && db[i].ops[p].id == opId { assert i in db' && p in db'[i].ops; }
    if i, p :| i in db' && p in db'[i].ops && db'[i].ops[p].id == opId { assert i in db && p in db[i].ops; }
  }

  lemma {:induction false} LineageIgnoresExpiry(db: Db, id: Id, v: Workflow, at: Id, hops: nat)
    requires id in db && SameButExpiry(db[id], v)
    ensures Lineage(db[id := v], at, hops) == Lineage(db, at, hops)
    decreases hops
  {
    if at in db && hops > 0 && db[at].ancestry.Some? {
      LineageIgnoresExpiry(db, id, v, db[at].ancestry.value.parent, hops - 1);
    }
  }

  /** A submission's guards read the same. */
  lemma GuardsIgnoreExpiry(db: Db, id: Id, v: Workflow, c: Cmd, plan: PlanId)
    requires c.CallSubmit? && id in db && SameButExpiry(db[id], v) && c.wf in db
    ensures InLineage(db[id := v], c.wf, c.maxDepth, plan) == InLineage(db, c.wf, c.maxDepth, plan)
    ensures c.pos in db[c.wf].ops ==>
              SameSubmission(db[id := v], db[id := v][c.wf], c) == SameSubmission(db, db[c.wf], c)
  {
    hide Lineage;
    LineageIgnoresExpiry(db, id, v, c.wf, c.maxDepth);
  }

  lemma SubmitIgnoresExpiry(db: Db, id: Id, v: Workflow, c: Cmd)
    requires c.CallSubmit? && id in db && SameButExpiry(db[id], v)
    ensures DoCallSubmit(db[id := v], c).out == DoCallSubmit(db, c).out
  {
    hide OpIdTaken, OrderGuard, SubmittedParent, SubmittedChild, InLineage, SameSubmission;
    TakenIgnoresExpiry(db, id, v, c.opId);
    if c.wf in db {
      GuardsIgnoreExpiry(db, id, v, c, PlanId(c.childScript, c.childPin.version, c.childPin.hash));
      OrderIgnoresExpiry(db, id, v, c);
    }
  }

  lemma OrderIgnoresExpiry(db: Db, id: Id, v: Workflow, c: Cmd)
    requires c.CallSubmit? && id in db && SameButExpiry(db[id], v) && c.wf in db
    ensures OrderGuard(db[id := v][c.wf], c.pos) == OrderGuard(db[c.wf], c.pos)
  {}

  /** Every row of the store reads the same, its deadline apart. */
  lemma RowIgnoresExpiry(db: Db, id: Id, v: Workflow, i: Id)
    requires id in db && SameButExpiry(db[id], v) && i in db
    ensures var w, w' := db[i], db[id := v][i];
            && w'.state == w.state && w'.eventTs == w.eventTs && w'.reason == w.reason
            && w'.ops == w.ops && w'.cps == w.cps && w'.calls == w.calls
            && forall executor, token :: Holds(w', executor, token) <==> Holds(w, executor, token)
  {}

  lemma ReopenIgnoresExpiry(db: Db, id: Id, v: Workflow, c: Cmd)
    requires c.ChildReopen? && id in db && SameButExpiry(db[id], v)
    ensures DoChildReopen(db[id := v], c).out == DoChildReopen(db, c).out
  {
    hide TopOf, Stamp, ReopenedChild, SameButExpiry, Holds;
    if c.wf in db {
      RowIgnoresExpiry(db, id, v, c.wf);
      if c.pos in db[c.wf].calls && db[c.wf].calls[c.pos].child in db {
        RowIgnoresExpiry(db, id, v, db[c.wf].calls[c.pos].child);
      }
    }
  }

  lemma ChildSettleIgnoresExpiry(db: Db, id: Id, v: Workflow, c: Cmd)
    requires c.ChildSettle? && id in db && SameButExpiry(db[id], v)
    ensures DoChildSettle(db[id := v], c).out == DoChildSettle(db, c).out
  {
    hide TopOf, Unwind, SameButExpiry, Holds;
    if c.wf in db {
      RowIgnoresExpiry(db, id, v, c.wf);
      UnwindSameOutcome(db[c.wf], db[id := v][c.wf], c.pos, c.ts, c.executor);
      if c.pos in db[c.wf].calls && db[c.wf].calls[c.pos].child in db {
        RowIgnoresExpiry(db, id, v, db[c.wf].calls[c.pos].child);
      }
    }
  }

  lemma NotifyIgnoresExpiry(db: Db, id: Id, v: Workflow, c: Cmd)
    requires c.TerminalNotify? && id in db && SameButExpiry(db[id], v)
    ensures DoNotify(db[id := v], c).out == DoNotify(db, c).out
  {
    hide Woken;
    var db' := db[id := v];
    forall i | i in db ensures IsCallerOf(db'[i], c.childId) <==> IsCallerOf(db[i], c.childId) {}
    if i :| i in db && IsCallerOf(db[i], c.childId) { assert i in db' && IsCallerOf(db'[i], c.childId); }
  }

  /** Apart from claim and heartbeat no command looks at a deadline: moving the deadline of any lease
    * changes no outcome, calls included, so a driver whose lease has run out still publishes until
    * somebody else claims. */
  lemma ExpiryDoesNotFence(db: Db, id: Id, v: Workflow, c: Cmd)
    requires id in db && SameButExpiry(db[id], v) && !c.Claim? && !c.Heartbeat?
    ensures Apply(db[id := v], c).out == Apply(db, c).out
  {
    hide LocalStep, Malformed, OpIdTaken, DoCallSubmit, DoChildReopen, DoChildSettle, DoNotify;
    if c.CallSubmit? {
      SubmitIgnoresExpiry(db, id, v, c);
    } else if c.ChildReopen? {
      ReopenIgnoresExpiry(db, id, v, c);
    } else if c.ChildSettle? {
      ChildSettleIgnoresExpiry(db, id, v, c);
    } else if c.TerminalNotify? {
      NotifyIgnoresExpiry(db, id, v, c);
    } else if !c.CreatePlanned? {
      if c.OperationRequest? { TakenIgnoresExpiry(db, id, v, c.opId); }
      if c.wf == id { LocalIgnoresExpiry(db[id], v, c); }
    }
  }

  /** The heartbeat alone refuses an expired holder, and refuses it exactly then. */
  lemma HeartbeatChecksExpiry(w: Workflow, c: Cmd)
    requires c.Heartbeat? && Holds(w, c.executor, c.token) && (w.state.Forward? || w.state.Reversing?)
    ensures LocalStep(w, c).out == Extended <==> w.lease.value.expires >= c.now
  {}
}
