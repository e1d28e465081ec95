/** What each command leaves in the event log: whose event, of which kind, and how often. */
module EventLog {
  import opened Options
  import opened Rows
  import opened Procedures
  import opened Coordinator
  import opened Soundness
  import opened Invariant
  import opened InvariantSteps
  import opened Fencing
  import opened Unwinding
  import opened Ledger

  // ---------------------------------------------------------------- signatures

  /** The commands that append to a log: all of them carry a time and a fence. */
  predicate Logs(c: Cmd) {
    Fenced(c) && !c.Claim? && !c.Heartbeat? && !c.Release?
  }

  /** The log is as it was, or has one more event: of the command's own time, signed by its sender, and not
    * the deferral the log ends with already. */
  predicate SignedBy(a: seq<Event>, b: seq<Event>, c: Cmd) {
    b == a
    || (Logs(c) && |b| == |a| + 1 && b[..|a|] == a && b[|a|].ts == c.ts && b[|a|].actor == Some(c.executor)
        && (b[|a|].kind.EvDispatchDeferred? ==> a == [] || a[|a| - 1].kind != b[|a|].kind))
  }

  lemma ForwardSigned(w: Workflow, c: Cmd)
    ensures c.OperationRequest? ==> SignedBy(w.events, DoOperationRequest(w, c).next.events, c)
    ensures c.OperationSettle? ==> SignedBy(w.events, DoOperationSettle(w, c).next.events, c)
    ensures c.DispatchDefer? ==> SignedBy(w.events, DoDispatchDefer(w, c).next.events, c)
  {
    hide TopOf, Holds, OrderGuard;
  }

  lemma TurnSigned(w: Workflow, c: Cmd)
    ensures c.BeginReversal? ==> SignedBy(w.events, DoBeginReversal(w, c).next.events, c)
    ensures c.AuthoredFail? ==> SignedBy(w.events, DoAuthoredFail(w, c).next.events, c)
  {
    hide TopOf, Holds;
  }

  lemma ReverseSigned(w: Workflow, c: Cmd)
    ensures c.ReverseRequest? ==> SignedBy(w.events, DoReverseRequest(w, c).next.events, c)
    ensures c.ReverseSettle? ==> SignedBy(w.events, DoReverseSettle(w, c).next.events, c)
    ensures c.ReverseBlock? ==> SignedBy(w.events, DoReverseBlock(w, c).next.events, c)
  {
    hide TopOf, Holds;
  }

  lemma DeferSigned(w: Workflow, c: Cmd)
    ensures c.ReconcileDefer? ==> SignedBy(w.events, DoReconcileDefer(w, c).next.events, c)
    ensures c.ReverseReconcileDefer? ==> SignedBy(w.events, DoReverseReconcileDefer(w, c).next.events, c)
  {
    hide TopOf, Holds, Exhausted, Charge;
  }

  lemma PendingSigned(w: Workflow, c: Cmd)
    ensures c.PendingDefer? ==> SignedBy(w.events, DoPendingDefer(w, c).next.events, c)
    ensures c.ReversePendingDefer? ==> SignedBy(w.events, DoReversePendingDefer(w, c).next.events, c)
  {
    hide TopOf, Holds, Overdue, Escalate, Observe;
  }

  lemma LocalSigned(w: Workflow, c: Cmd)
    requires IsLocal(c)
    ensures SignedBy(w.events, LocalStep(w, c).next.events, c)
  {
    hide SignedBy, DoOperationRequest, DoOperationSettle, DoBeginReversal, DoAuthoredFail, DoReverseRequest,
      DoReverseSettle, DoReverseBlock, DoReconcileDefer, DoReverseReconcileDefer, DoPendingDefer, DoReversePendingDefer,
      DoDispatchDefer, Claimable, Holds;
    ForwardSigned(w, c);
    TurnSigned(w, c);
    ReverseSigned(w, c);
    DeferSigned(w, c);
    PendingSigned(w, c);
    Unsigned(w, c);
  }

  lemma Unsigned(w: Workflow, c: Cmd)
    ensures SignedBy(w.events, w.events, c)
  {}

  lemma SubmitSigned(db: Db, c: Cmd, id: Id)
    requires c.CallSubmit? && id in db
    ensures id in Apply(db, c).db && SignedBy(db[id].events, Apply(db, c).db[id].events, c)
  {
    hide Malformed, OpIdTaken, InLineage, SameSubmission, OrderGuard, Holds, SubmittedChild;
  }

  lemma SpanSigned(db: Db, c: Cmd, id: Id)
    requires !IsLocal(c) && id in db
    ensures id in Apply(db, c).db && SignedBy(db[id].events, Apply(db, c).db[id].events, c)
  {
    hide Malformed, Holds, TopOf, IsCallerOf, DoCallSubmit, LocalStep, OpIdTaken;
    if c.CallSubmit? { SubmitSigned(db, c, id); }
  }

  /** Every event after the first is signed: a command that appends one, to its own workflow or to the child
    * it turns back, is signed by its sender and of its time, and its sender held the lease. */
  lemma EventsSigned(db: Db, c: Cmd, id: Id)
    requires id in db
    ensures id in Apply(db, c).db && SignedBy(db[id].events, Apply(db, c).db[id].events, c)
    ensures Apply(db, c).db[id].events != db[id].events ==> c.wf in db && Holds(db[c.wf], c.executor, c.token)
  {
    hide Apply, SignedBy, LocalStep, Holds;
    if IsLocal(c) {
      Lands(db, c);
      Unsigned(db[id], c);
      if c.wf == id { LocalSigned(db[id], c); }
    } else {
      SpanSigned(db, c, id);
    }
    if Apply(db, c).db[id].events != db[id].events {
      SignedLogs(db[id].events, Apply(db, c).db[id].events, c);
      PublishingNeedsFence(db, c);
    }
  }

  lemma SignedLogs(a: seq<Event>, b: seq<Event>, c: Cmd)
    requires SignedBy(a, b, c) && b != a
    ensures Logs(c)
  {}

  /** What a commit is logged as, in the log of the workflow it commands. */
  function LoggedAs(c: Cmd, out: Outcome): Option<EventKind> {
    if c.OperationRequest? && out.Requested? then Some(EvOperationRequested)
    else if c.OperationSettle? && out.Settled? then Some(if c.final then EvWorkflowCompleted else EvOperationSettled)
    else if c.CallSubmit? && out.Submitted? then Some(EvCallSubmitted)
    else if out.BegunFailed? then Some(EvFailed)
    else if out.BegunReversing? then Some(EvReversalBegun)
    else if out.Dispatched? || out.Reopened? then Some(EvCompensationRequested)
    else if out.Descended? || out.FullyReversed? then Some(EvCompensationSettled)
    else if out.BlockedNow? then Some(if c.ReverseBlock? then EvCompensationBlocked else EvRouteUnknown)
    else if out.Deferred? then Some(EvRoute404)
    else if out.PendingDefer? then Some(EvPendingDeferred)
    else if out.Redispatch? then Some(EvPendingRedispatch)
    else if c.DispatchDefer? && out == DispatchDeferred(true) then Some(EvDispatchDeferred(c.why))
    else None
  }

  /** The deferrals of a budget or a timer, which are committed even when their time is not later than the log. */
  predicate MayBeLate(out: Outcome) { out.Deferred? || out.PendingDefer? || out.Redispatch? }

  /** The last event is the one the commit is logged as, unless it comes too late for the log. */
  predicate Written(w: Workflow, n: Workflow, c: Cmd, out: Outcome) {
    var kind := LoggedAs(c, out);
    if kind.None? then n.events == w.events
    else if MayBeLate(out) && Logs(c) && c.ts <= w.eventTs then n.events == w.events
    else |n.events| == |w.events| + 1 && n.events[|w.events|].kind == kind.value
  }

  lemma ForwardWritten(w: Workflow, c: Cmd)
    ensures c.OperationRequest? ==> Written(w, DoOperationRequest(w, c).next, c, DoOperationRequest(w, c).out)
    ensures c.OperationSettle? ==> Written(w, DoOperationSettle(w, c).next, c, DoOperationSettle(w, c).out)
    ensures c.DispatchDefer? ==> Written(w, DoDispatchDefer(w, c).next, c, DoDispatchDefer(w, c).out)
  {
    hide TopOf, Holds, OrderGuard;
  }

  lemma TurnWritten(w: Workflow, c: Cmd)
    ensures c.BeginReversal? ==> Written(w, DoBeginReversal(w, c).next, c, DoBeginReversal(w, c).out)
    ensures c.AuthoredFail? ==> Written(w, DoAuthoredFail(w, c).next, c, DoAuthoredFail(w, c).out)
  {
    hide TopOf, Holds;
  }

  lemma DispatchWritten(w: Workflow, c: Cmd)
    requires c.ReverseRequest?
    ensures Written(w, DoReverseRequest(w, c).next, c, DoReverseRequest(w, c).out)
  {
    hide TopOf, Holds;
  }

  lemma UndoWritten(w: Workflow, c: Cmd)
    requires c.ReverseSettle?
    ensures Written(w, DoReverseSettle(w, c).next, c, DoReverseSettle(w, c).out)
  {
    hide TopOf, Holds;
  }

  lemma BlockWritten(w: Workflow, c: Cmd)
    requires c.ReverseBlock?
    ensures Written(w, DoReverseBlock(w, c).next, c, DoReverseBlock(w, c).out)
  {
    hide TopOf, Holds;
  }

  lemma ReconcileWritten(w: Workflow, c: Cmd)
    requires c.ReconcileDefer?
    ensures Written(w, DoReconcileDefer(w, c).next, c, DoReconcileDefer(w, c).out)
  {
    hide Holds, Exhausted, Charge;
  }

  lemma ReverseReconcileWritten(w: Workflow, c: Cmd)
    requires c.ReverseReconcileDefer?
    ensures Written(w, DoReverseReconcileDefer(w, c).next, c, DoReverseReconcileDefer(w, c).out)
  {
    hide TopOf, Holds, Exhausted, Charge;
  }

  lemma PendingWritten(w: Workflow, c: Cmd)
    requires c.PendingDefer?
    ensures Written(w, DoPendingDefer(w, c).next, c, DoPendingDefer(w, c).out)
  {
    hide Holds, Overdue, Escalate, Observe;
  }

  lemma ReversePendingWritten(w: Workflow, c: Cmd)
    requires c.ReversePendingDefer?
    ensures Written(w, DoReversePendingDefer(w, c).next, c, DoReversePendingDefer(w, c).out)
  {
    hide TopOf, Holds, Overdue, Escalate, Observe;
  }

  lemma LeaseWritten(w: Workflow, c: Cmd)
    ensures c.Claim? ==> Written(w, DoClaim(w, c).next, c, DoClaim(w, c).out)
    ensures c.Heartbeat? ==> Written(w, DoHeartbeat(w, c).next, c, DoHeartbeat(w, c).out)
    ensures c.Release? ==> Written(w, DoRelease(w, c).next, c, DoRelease(w, c).out)
    ensures c.OperatorResolve? ==> Written(w, DoOperatorResolve(w).next, c, DoOperatorResolve(w).out)
  {
    hide Claimable, Holds;
  }

  lemma LocalWritten(w: Workflow, c: Cmd)
    requires IsLocal(c)
    ensures Written(w, LocalStep(w, c).next, c, LocalStep(w, c).out)
  {
    hide Written, DoOperationRequest, DoOperationSettle, DoBeginReversal, DoAuthoredFail, DoReverseRequest,
      DoReverseSettle, DoReverseBlock, DoReconcileDefer, DoReverseReconcileDefer, DoPendingDefer, DoReversePendingDefer,
      DoDispatchDefer, DoClaim, DoHeartbeat, DoRelease, DoOperatorResolve;
    match c
    case BeginReversal(_, _, _, _, _, _, _) => TurnWritten(w, c);
    case AuthoredFail(_, _, _, _, _, _) => TurnWritten(w, c);
    case ReverseRequest(_, _, _, _, _, _) => DispatchWritten(w, c);
    case ReverseSettle(_, _, _, _, _, _) => UndoWritten(w, c);
    case ReverseBlock(_, _, _, _, _, _, _) => BlockWritten(w, c);
    case ReconcileDefer(_, _, _, _, _, _, _, _, _, _) => ReconcileWritten(w, c);
    case ReverseReconcileDefer(_, _, _, _, _, _, _, _, _, _) => ReverseReconcileWritten(w, c);
    case PendingDefer(_, _, _, _, _, _, _, _, _) => PendingWritten(w, c);
    case ReversePendingDefer(_, _, _, _, _, _, _, _, _) => ReversePendingWritten(w, c);
    case OperationRequest(_, _, _, _, _, _, _, _, _, _, _) => ForwardWritten(w, c);
    case OperationSettle(_, _, _, _, _, _, _, _, _, _, _, _) => ForwardWritten(w, c);
    case DispatchDefer(_, _, _, _, _, _, _) => ForwardWritten(w, c);
    case _ => LeaseWritten(w, c);
  }

  lemma SubmitWritten(db: Db, c: Cmd)
    requires c.CallSubmit? && c.wf in db
    ensures c.wf in Apply(db, c).db && Written(db[c.wf], Apply(db, c).db[c.wf], c, Apply(db, c).out)
  {
    hide Malformed, OpIdTaken, InLineage, SameSubmission, OrderGuard, Holds, SubmittedChild;
  }

  lemma ReopenWritten(db: Db, c: Cmd)
    requires c.ChildReopen? && c.wf in db && (c.pos in db[c.wf].calls ==> db[c.wf].calls[c.pos].child != c.wf)
    ensures c.wf in Apply(db, c).db && Written(db[c.wf], Apply(db, c).db[c.wf], c, Apply(db, c).out)
  {
    hide Malformed, Holds, TopOf, ReopenedChild;
  }

  lemma UnwindWritten(w: Workflow, pos: nat, ts: Ts, executor: Id)
    requires pos in w.cps
    ensures var s := Unwind(w, pos, ts, executor);
            (s.out.Descended? || s.out.FullyReversed?)
            && s.next.events == w.events + [Event(ts, EvCompensationSettled, Some(executor))]
  {
    hide TopOf;
  }

  lemma ChildSettleWritten(db: Db, c: Cmd)
    requires c.ChildSettle? && c.wf in db
    ensures c.wf in Apply(db, c).db && Written(db[c.wf], Apply(db, c).db[c.wf], c, Apply(db, c).out)
  {
    hide Malformed, Holds, TopOf, Unwind, DoChildReopen, DoCallSubmit, DoNotify, DoCreate, LocalStep;
    if c.pos in db[c.wf].cps { UnwindWritten(db[c.wf], c.pos, c.ts, c.executor); }
  }

  /** Every commit on a workflow is logged under its own kind, exactly once, and nothing else is; only a
    * deferral that comes too late to be ordered after the log, or repeats its last word, is not. */
  lemma CommitLogged(db: Db, maxDepth: nat, c: Cmd)
    requires Reachable(db, maxDepth) && (IsLocal(c) || c.CallSubmit? || c.ChildReopen? || c.ChildSettle?) && c.wf in db
    ensures c.wf in Apply(db, c).db && Written(db[c.wf], Apply(db, c).db[c.wf], c, Apply(db, c).out)
  {
    hide Reachable, Inv, Written;
    ReachableInv(db, maxDepth);
    if IsLocal(c) {
      hide LocalStep, Malformed, OpIdTaken;
      LocalWritten(db[c.wf], c);
      TurnedUnwritten(db[c.wf], c);
    } else {
      hide Apply;
      match c
      case CallSubmit(_, _, _, _, _, _, _, _, _, _, _, _, _, _, _, _) => SubmitWritten(db, c);
      case ChildReopen(_, _, _, _, _) =>
        if c.pos in db[c.wf].calls { ParentDiffers(db, maxDepth, c); }
        ReopenWritten(db, c);
      case ChildSettle(_, _, _, _, _) => ChildSettleWritten(db, c);
    }
  }

  lemma TurnedUnwritten(w: Workflow, c: Cmd)
    ensures Written(w, w, c, Invalid) && Written(w, w, c, NotFound) && Written(w, w, c, DuplicateKey)
  {}

  /** No deferral is logged twice in a row for the same reason. */
  ghost predicate NoEcho(es: seq<Event>) {
    forall i :: 0 < i < |es| && es[i].kind.EvDispatchDeferred? ==> es[i - 1].kind != es[i].kind
  }

  lemma SignedNoEcho(a: seq<Event>, b: seq<Event>, c: Cmd)
    requires SignedBy(a, b, c) && NoEcho(a)
    ensures NoEcho(b)
  {
    if b != a { assert forall i :: 0 <= i < |a| ==> b[i] == b[..|a|][i]; }
  }

  lemma NewLog(db: Db, c: Cmd, id: Id)
    requires id !in db && id in Apply(db, c).db
    ensures NoEcho(Apply(db, c).db[id].events)
  {
    hide Malformed, OpIdTaken, InLineage, SameSubmission, OrderGuard, Holds, TopOf, IsCallerOf, LocalStep;
  }

  lemma {:induction false} RunNoEcho(db: Db, cmds: seq<Cmd>)
    requires forall id :: id in db ==> NoEcho(db[id].events)
    ensures forall id :: id in Run(db, cmds) ==> NoEcho(Run(db, cmds)[id].events)
    decreases |cmds|
  {
    hide Apply, NoEcho, SignedBy;
    if cmds != [] {
      var n := Apply(db, cmds[0]).db;
      forall id | id in n ensures NoEcho(n[id].events) {
        if id in db {
          EventsSigned(db, cmds[0], id);
          SignedNoEcho(db[id].events, n[id].events, cmds[0]);
        } else {
          NewLog(db, cmds[0], id);
        }
      }
      RunNoEcho(n, cmds[1..]);
    }
  }

  /** However often a dispatch is deferred for one reason, the log says it once per streak. */
  lemma DeferralsLoggedOnce(db: Db, maxDepth: nat, id: Id)
    requires Reachable(db, maxDepth) && id in db
    ensures NoEcho(db[id].events)
  {
    hide Run, NoEcho;
    var cmds :| (forall i :: 0 <= i < |cmds| ==> Bounded(cmds[i], maxDepth)) && db == Run(map[], cmds);
    RunNoEcho(map[], cmds);
  }
}
