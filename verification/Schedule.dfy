/** When a workflow can be claimed next, as its commands set it. */
module Schedule {
  import opened Options
  import opened Rows
  import opened Procedures
  import opened Coordinator
  import opened Soundness
  import opened Evolution
  import opened Invariant
  import opened InvariantSteps
  import opened Fencing
  import opened Unwinding
  import opened Replay

  /** Somebody who asks at this time, for a lease that ends later, is granted one. */
  predicate Grants(db: Db, id: Id, executor: Id, now: Ts, expires: Ts) {
    Apply(db, Claim(id, executor, now, expires)).out.Claimed?
  }

  lemma GrantsClaimable(db: Db, id: Id, executor: Id, now: Ts, expires: Ts)
    requires expires > now
    ensures Grants(db, id, executor, now, expires) <==> id in db && Claimable(db[id], now)
  {}

  // ---------------------------------------------------------------- after one command

  lemma LeaseNext(w: Workflow, c: Cmd, now: Ts)
    ensures c.Claim? && c.expires > c.now && DoClaim(w, c).out.Claimed? ==>
              (Claimable(DoClaim(w, c).next, now) <==> now > c.expires)
    ensures c.Heartbeat? && DoHeartbeat(w, c).out.Extended? ==>
              (Claimable(DoHeartbeat(w, c).next, now) <==> now > c.expires && now >= w.nextAttempt)
    ensures c.Release? && DoRelease(w, c).out.Released? ==>
              (Claimable(DoRelease(w, c).next, now) <==> now >= c.nextAttempt)
    ensures c.DispatchDefer? && DoDispatchDefer(w, c).out.DispatchDeferred? ==>
              (Claimable(DoDispatchDefer(w, c).next, now) <==> now >= c.nextAttempt)
  {
    hide Holds;
  }

  lemma DeferNext(w: Workflow, c: Cmd, now: Ts)
    ensures c.ReconcileDefer? && DoReconcileDefer(w, c).out.Deferred? ==>
              (Claimable(DoReconcileDefer(w, c).next, now) <==> now >= c.nextAttempt)
    ensures c.ReverseReconcileDefer? && DoReverseReconcileDefer(w, c).out.Deferred? ==>
              (Claimable(DoReverseReconcileDefer(w, c).next, now) <==> now >= c.nextAttempt)
    ensures c.PendingDefer? && DoPendingDefer(w, c).out.PendingDefer? ==>
              (Claimable(DoPendingDefer(w, c).next, now) <==> now >= c.nextAttempt)
    ensures c.ReversePendingDefer? && DoReversePendingDefer(w, c).out.PendingDefer? ==>
              (Claimable(DoReversePendingDefer(w, c).next, now) <==> now >= c.nextAttempt)
  {
    hide Holds, TopOf, Exhausted, Overdue, Charge, Observe, Escalate;
  }

  /** The commands that give a lease, extend it, or give it back until a later time. */
  predicate Schedules(c: Cmd, out: Outcome) {
    (c.Claim? && out.Claimed?) || (c.Heartbeat? && out.Extended?) || (c.Release? && out.Released?)
    || (c.DispatchDefer? && out.DispatchDeferred?)
    || ((c.ReconcileDefer? || c.ReverseReconcileDefer?) && out.Deferred?)
    || ((c.PendingDefer? || c.ReversePendingDefer?) && out.PendingDefer?)
  }

  /** A lease lasts exactly as long as the command that gave or extended it said, and a workflow given back
    * can be claimed exactly from the time its command set. */
  lemma NextClaim(db: Db, c: Cmd, executor: Id, now: Ts, expires: Ts)
    requires Schedules(c, Apply(db, c).out) && expires > now
    ensures c.wf in db
    ensures Grants(Apply(db, c).db, c.wf, executor, now, expires) <==>
              if c.Claim? then now > c.expires
              else if c.Heartbeat? then now > c.expires && now >= db[c.wf].nextAttempt
              else now >= c.nextAttempt
  {
    hide LocalStep, Malformed, OpIdTaken, Claimable;
    ClaimTimes(c);
    var w := db[c.wf];
    LocalNext(w, c, now);
    GrantsClaimable(Apply(db, c).db, c.wf, executor, now, expires);
  }

  lemma ClaimTimes(c: Cmd)
    ensures c.Claim? && !Malformed(c) ==> c.expires > c.now
  {}

  lemma LocalNext(w: Workflow, c: Cmd, now: Ts)
    requires IsLocal(c) && Schedules(c, LocalStep(w, c).out) && (c.Claim? ==> c.expires > c.now)
    ensures Claimable(LocalStep(w, c).next, now) <==>
              if c.Claim? then now > c.expires
              else if c.Heartbeat? then now > c.expires && now >= w.nextAttempt
              else now >= c.nextAttempt
  {
    hide DoClaim, DoHeartbeat, DoRelease, DoDispatchDefer, DoReconcileDefer, DoReverseReconcileDefer, DoPendingDefer,
      DoReversePendingDefer, Claimable;
    LeaseNext(w, c, now);
    DeferNext(w, c, now);
  }

  // ---------------------------------------------------------------- new, reopened and waiting workflows

  /** A new workflow, and a new child, can be claimed exactly from the time its command set; a child sent back
    * into reversal from that moment on, under a token above all before. */
  lemma NewClaim(db: Db, maxDepth: nat, c: Cmd, executor: Id, now: Ts, expires: Ts)
    requires Reachable(db, maxDepth) && expires > now
    ensures c.CreatePlanned? && Apply(db, c).out.Created? ==>
              (Grants(Apply(db, c).db, c.wf, executor, now, expires) <==> now >= c.nextAttempt)
    ensures c.CallSubmit? && Apply(db, c).out.Submitted? ==>
              (Grants(Apply(db, c).db, c.childId, executor, now, expires) <==> now >= c.childNext)
    ensures c.ChildReopen? && Apply(db, c).out.Reopened? ==>
              var child := Apply(db, c).out.childId;
              && (Grants(Apply(db, c).db, child, executor, now, expires) <==> now >= c.ts)
              && child in db && child in Apply(db, c).db && Apply(db, c).db[child].token > db[child].token
  {
    hide Grants, Claimable, Reachable, Apply;
    ReachableInv(db, maxDepth);
    NewRows(db, maxDepth, c, now);
    NewExists(db, c);
    if c.CreatePlanned? { GrantsClaimable(Apply(db, c).db, c.wf, executor, now, expires); }
    if c.CallSubmit? { GrantsClaimable(Apply(db, c).db, c.childId, executor, now, expires); }
    if c.ChildReopen? && Apply(db, c).out.Reopened? {
      GrantsClaimable(Apply(db, c).db, Apply(db, c).out.childId, executor, now, expires);
    }
  }

  lemma NewExists(db: Db, c: Cmd)
    ensures c.CreatePlanned? && Apply(db, c).out.Created? ==> c.wf in Apply(db, c).db
    ensures c.CallSubmit? && Apply(db, c).out.Submitted? ==> c.childId in Apply(db, c).db
    ensures c.ChildReopen? && Apply(db, c).out.Reopened? ==>
              Apply(db, c).out.childId in db && Apply(db, c).out.childId in Apply(db, c).db
  {
    hide LocalStep, Malformed, OpIdTaken, InLineage, SameSubmission, OrderGuard, Holds, TopOf, DoNotify;
  }

  lemma NewRows(db: Db, maxDepth: nat, c: Cmd, now: Ts)
    requires Inv(db, maxDepth)
    ensures c.CreatePlanned? && Apply(db, c).out.Created? && c.wf in Apply(db, c).db ==>
              (Claimable(Apply(db, c).db[c.wf], now) <==> now >= c.nextAttempt)
    ensures c.CallSubmit? && Apply(db, c).out.Submitted? && c.childId in Apply(db, c).db ==>
              (Claimable(Apply(db, c).db[c.childId], now) <==> now >= c.childNext)
    ensures c.ChildReopen? && Apply(db, c).out.Reopened? ==>
              var child := Apply(db, c).out.childId;
              child in db && child in Apply(db, c).db ==>
                (Claimable(Apply(db, c).db[child], now) <==> now >= c.ts)
                && Apply(db, c).db[child].token > db[child].token
  {
    hide LocalStep, Malformed, OpIdTaken, InLineage, SameSubmission, OrderGuard, Holds, TopOf, DoNotify, Inv, Sound;
    if c.ChildReopen? && Apply(db, c).out.Reopened? {
      InvSound(db, maxDepth, Apply(db, c).out.childId);
      NoLease(db[Apply(db, c).out.childId]);
    }
  }

  lemma NoLease(w: Workflow)
    requires Sound(w)
    ensures w.lease.Some? ==> w.state.Forward? || w.state.Reversing?
  {}

  predicate Idle(w: Workflow) { w.lease.None? && (w.state.Forward? || w.state.Reversing?) }

  /** A wake-up never delays: whoever could claim still can, and an unleased live caller can be claimed from
    * the moment of the notification on. */
  lemma WokenClaim(db: Db, maxDepth: nat, c: Cmd, id: Id, executor: Id, now: Ts, expires: Ts)
    requires Reachable(db, maxDepth) && expires > now && c.TerminalNotify? && id in db
    ensures Grants(db, id, executor, now, expires) ==> Grants(Apply(db, c).db, id, executor, now, expires)
    ensures Idle(db[id]) && IsCallerOf(db[id], c.childId) && now >= c.ts ==>
              Grants(Apply(db, c).db, id, executor, now, expires)
    ensures Grants(Apply(db, c).db, id, executor, now, expires) && now < c.ts ==>
              Grants(db, id, executor, now, expires)
  {
    hide Reachable, Grants, Apply, IsCallerOf;
    GrantsClaimable(db, id, executor, now, expires);
    GrantsClaimable(Apply(db, c).db, id, executor, now, expires);
    NotifiedRow(db, c, id);
  }

  lemma NotifiedRow(db: Db, c: Cmd, id: Id)
    requires c.TerminalNotify? && id in db
    ensures id in Apply(db, c).db
    ensures Apply(db, c).db[id] == if IsCallerOf(db[id], c.childId) then Woken(db[id], c.ts) else db[id]
  {
    hide IsCallerOf, Woken;
  }

  // ---------------------------------------------------------------- between commands

  /** The lease, and until when it is held. */
  predicate Held(db: Db, id: Id, owner: Id, token: nat, until: Ts) {
    id in db && Holds(db[id], owner, token) && db[id].lease.value.expires == until
    && (db[id].state.Forward? || db[id].state.Reversing?)
  }

  /** A command of somebody else: not under this lease, and a claim only before it runs out. */
  predicate Foreign(c: Cmd, id: Id, owner: Id, token: nat, until: Ts) {
    && (Fenced(c) && c.wf == id ==> !(c.executor == owner && c.token == token))
    && (c.Claim? && c.wf == id ==> c.now <= until)
  }

  lemma ForeignStep(db: Db, c: Cmd, id: Id, owner: Id, token: nat, until: Ts)
    requires Held(db, id, owner, token, until) && Foreign(c, id, owner, token, until)
    ensures Held(Apply(db, c).db, id, owner, token, until)
  {
    if Fenced(c) && c.wf == id {
      hide Apply;
      if Apply(db, c).db != db { PublishingNeedsFence(db, c); }
    } else if IsLocal(c) {
      hide LocalStep, Malformed, OpIdTaken;
      if c.wf == id { ForeignLocal(db[id], c, until); }
    } else {
      ForeignSpan(db, c, id, owner, token, until);
    }
  }

  lemma ForeignLocal(w: Workflow, c: Cmd, until: Ts)
    requires (c.Claim? && c.now <= until) || c.OperatorResolve?
    requires w.lease.Some? && w.lease.value.expires == until && (w.state.Forward? || w.state.Reversing?)
    ensures LocalStep(w, c).next == w
  {}

  lemma ForeignSpan(db: Db, c: Cmd, id: Id, owner: Id, token: nat, until: Ts)
    requires Held(db, id, owner, token, until) && !IsLocal(c) && (Fenced(c) ==> c.wf != id)
    ensures Held(Apply(db, c).db, id, owner, token, until)
  {
    hide Malformed, OpIdTaken, InLineage, SameSubmission, OrderGuard, TopOf, SubmittedParent, SubmittedChild, Unwind,
      IsCallerOf;
  }

  /** A lease is exclusive until it runs out: whatever run the others make of it, no claim made before the
    * deadline is granted, and the holder still holds it. */
  lemma {:induction false} LeaseExclusive(db: Db, cmds: seq<Cmd>, id: Id, owner: Id, token: nat, until: Ts,
                                          executor: Id, now: Ts, expires: Ts)
    requires Held(db, id, owner, token, until) && now <= until
    requires forall i :: 0 <= i < |cmds| ==> Foreign(cmds[i], id, owner, token, until)
    ensures Held(Run(db, cmds), id, owner, token, until)
    ensures !Grants(Run(db, cmds), id, executor, now, expires)
    decreases |cmds|
  {
    if cmds == [] {
      hide LocalStep, Run;
      assert Run(db, []) == db;
      NotGranted(db, id, owner, token, until, executor, now, expires);
    } else {
      hide Held, Foreign, Apply, Grants;
      assert Foreign(cmds[0], id, owner, token, until);
      ForeignStep(db, cmds[0], id, owner, token, until);
      LeaseExclusive(Apply(db, cmds[0]).db, cmds[1..], id, owner, token, until, executor, now, expires);
    }
  }

  lemma NotGranted(db: Db, id: Id, owner: Id, token: nat, until: Ts, executor: Id, now: Ts, expires: Ts)
    requires Held(db, id, owner, token, until) && now <= until
    ensures !Grants(db, id, executor, now, expires)
  {}

  /** The lease a claim or a heartbeat answers with is the one that is then held. */
  lemma LeaseHeld(db: Db, c: Cmd)
    ensures c.Claim? && Apply(db, c).out.Claimed? ==>
              Held(Apply(db, c).db, c.wf, c.executor, Apply(db, c).out.token, c.expires)
    ensures c.Heartbeat? && Apply(db, c).out.Extended? ==>
              Held(Apply(db, c).db, c.wf, c.executor, c.token, c.expires)
  {
    if c.Claim? || c.Heartbeat? { hide OpIdTaken; }
  }

  /** The commits after which the driver goes on. */
  predicate GoesOn(c: Cmd, out: Outcome) {
    (c.OperationRequest? && out.Requested?) || (c.OperationSettle? && !c.final && out.Settled?)
    || ((c.BeginReversal? || c.AuthoredFail?) && out.BegunReversing?) || (c.ReverseRequest? && out.Dispatched?)
    || ((c.ReverseSettle? || c.ChildSettle?) && out.Descended?)
    || ((c.PendingDefer? || c.ReversePendingDefer?) && out.Redispatch?)
    || (c.CallSubmit? && out.Submitted?) || (c.ChildReopen? && out.Reopened?)
  }

  /** After each of them the driver still holds the same lease. */
  lemma StillDriving(db: Db, maxDepth: nat, c: Cmd, owner: Id, token: nat, until: Ts)
    requires Reachable(db, maxDepth) && !c.CreatePlanned? && !c.TerminalNotify?
    requires Held(db, c.wf, owner, token, until) && GoesOn(c, Apply(db, c).out)
    ensures Held(Apply(db, c).db, c.wf, owner, token, until)
  {
    hide Reachable, Apply, Held, Inv;
    ReachableInv(db, maxDepth);
    if IsLocal(c) {
      LocalDriving(db, c, owner, token, until);
    } else {
      SpanDriving(db, maxDepth, c, owner, token, until);
    }
  }

  lemma LocalDriving(db: Db, c: Cmd, owner: Id, token: nat, until: Ts)
    requires IsLocal(c) && Held(db, c.wf, owner, token, until) && GoesOn(c, Apply(db, c).out)
    ensures Held(Apply(db, c).db, c.wf, owner, token, until)
  {
    hide LocalStep, Malformed, OpIdTaken;
    LocalStillDriving(db[c.wf], c);
  }

  lemma SpanDriving(db: Db, maxDepth: nat, c: Cmd, owner: Id, token: nat, until: Ts)
    requires Inv(db, maxDepth) && (c.CallSubmit? || c.ChildReopen? || c.ChildSettle?)
    requires Held(db, c.wf, owner, token, until) && GoesOn(c, Apply(db, c).out)
    ensures Held(Apply(db, c).db, c.wf, owner, token, until)
  {
    hide Inv, Malformed, TopOf, SameSubmission, InLineage, OpIdTaken, OrderGuard, SubmittedChild, ReopenedChild,
      DoNotify, Unwind, LocalStep;
    if c.ChildReopen? && c.pos in db[c.wf].calls { ParentDiffers(db, maxDepth, c); }
    if c.ChildSettle? && c.pos in db[c.wf].cps { UnwindDriving(db[c.wf], c.pos, c.ts, c.executor); }
  }

  lemma UnwindDriving(w: Workflow, pos: nat, ts: Ts, executor: Id)
    requires pos in w.cps
    ensures var s := Unwind(w, pos, ts, executor);
            (s.out.Descended? || s.out.FullyReversed?)
            && (s.out.Descended? ==> s.next.lease == w.lease && s.next.token == w.token && s.next.state == w.state)
  {
    hide TopOf;
  }

  lemma LocalStillDriving(w: Workflow, c: Cmd)
    requires IsLocal(c) && GoesOn(c, LocalStep(w, c).out)
    ensures LocalStep(w, c).next.lease == w.lease && LocalStep(w, c).next.token == w.token
    ensures LocalStep(w, c).next.state.Forward? || LocalStep(w, c).next.state.Reversing?
  {
    hide DoOperationRequest, DoOperationSettle, DoBeginReversal, DoAuthoredFail, DoReverseRequest, DoReverseSettle,
      DoPendingDefer, DoReversePendingDefer, DoClaim, DoHeartbeat, DoRelease, DoReverseBlock, DoReconcileDefer,
      DoReverseReconcileDefer, DoDispatchDefer, DoOperatorResolve;
    ForwardGoesOn(w, c);
    ReverseGoesOn(w, c);
  }

  lemma ForwardGoesOn(w: Workflow, c: Cmd)
    ensures c.OperationRequest? && DoOperationRequest(w, c).out.Requested? ==> Drives(w, DoOperationRequest(w, c).next)
    ensures c.OperationSettle? && !c.final && DoOperationSettle(w, c).out.Settled? ==>
              Drives(w, DoOperationSettle(w, c).next)
    ensures c.BeginReversal? && DoBeginReversal(w, c).out.BegunReversing? ==> Drives(w, DoBeginReversal(w, c).next)
    ensures c.AuthoredFail? && DoAuthoredFail(w, c).out.BegunReversing? ==> Drives(w, DoAuthoredFail(w, c).next)
    ensures c.PendingDefer? && DoPendingDefer(w, c).out.Redispatch? ==> Drives(w, DoPendingDefer(w, c).next)
  {
    hide TopOf, Overdue, Escalate, Observe, OrderGuard, Holds;
  }

  lemma ReverseGoesOn(w: Workflow, c: Cmd)
    ensures c.ReverseRequest? && DoReverseRequest(w, c).out.Dispatched? ==> Drives(w, DoReverseRequest(w, c).next)
    ensures c.ReverseSettle? && DoReverseSettle(w, c).out.Descended? ==> Drives(w, DoReverseSettle(w, c).next)
    ensures c.ReversePendingDefer? && DoReversePendingDefer(w, c).out.Redispatch? ==>
              Drives(w, DoReversePendingDefer(w, c).next)
  {
    hide TopOf, Overdue, Escalate, Observe, Holds;
  }

  predicate Drives(w: Workflow, n: Workflow) {
    n.lease == w.lease && n.token == w.token && (n.state.Forward? || n.state.Reversing?)
  }

  /** The commits that end a drive without completing the workflow. */
  predicate Ends(c: Cmd, out: Outcome) {
    ((c.BeginReversal? || c.AuthoredFail?) && out.BegunFailed?)
    || ((c.ReverseSettle? || c.ChildSettle?) && out.FullyReversed?)
    || ((c.ReverseBlock? || c.ReconcileDefer? || c.ReverseReconcileDefer?) && out.BlockedNow?)
  }

  /** What has failed, is reversed or is blocked is never claimed again. */
  lemma FinishedNeverClaimed(db: Db, maxDepth: nat, c: Cmd, cmds: seq<Cmd>, executor: Id, now: Ts, expires: Ts)
    requires Reachable(db, maxDepth) && Bounded(c, maxDepth) && Ends(c, Apply(db, c).out)
    requires forall i :: 0 <= i < |cmds| ==> Bounded(cmds[i], maxDepth)
    ensures !Grants(Run(Apply(db, c).db, cmds), c.wf, executor, now, expires)
  {
    hide Reachable, Inv, Run, Apply, OpsGrow, CpsGrow, CallsGrow, Grants;
    ReachableInv(db, maxDepth);
    var db1 := Apply(db, c).db;
    ApplyInv(db, maxDepth, c);
    RunInv(db1, maxDepth, cmds);
    Finishes(db, c);
    assert Grows(db1[c.wf], Run(db1, cmds)[c.wf]);
    NotLive(Run(db1, cmds), c.wf, executor, now, expires);
  }

  lemma NotLive(db: Db, id: Id, executor: Id, now: Ts, expires: Ts)
    requires id in db && !db[id].state.Forward? && !db[id].state.Reversing?
    ensures !Grants(db, id, executor, now, expires)
  {}

  lemma Finishes(db: Db, c: Cmd)
    requires Ends(c, Apply(db, c).out)
    ensures c.wf in Apply(db, c).db
    ensures var s := Apply(db, c).db[c.wf].state; s.Failed? || s.Reversed? || s.Blocked?
  {
    hide Malformed, OpIdTaken, TopOf, Holds, LocalStep, Unwind;
    if IsLocal(c) {
      LocalFinishes(db[c.wf], c);
    } else if c.pos in db[c.wf].cps {
      UnwindFinishes(db[c.wf], c.pos, c.ts, c.executor);
    }
  }

  lemma LocalFinishes(w: Workflow, c: Cmd)
    requires IsLocal(c) && Ends(c, LocalStep(w, c).out)
    ensures var s := LocalStep(w, c).next.state; s.Failed? || s.Reversed? || s.Blocked?
  {
    hide DoClaim, DoHeartbeat, DoRelease, DoOperationRequest, DoOperationSettle, DoReverseRequest, DoPendingDefer,
      DoReversePendingDefer, DoDispatchDefer, DoOperatorResolve, TopOf, Holds, Exhausted, Charge;
  }

  lemma UnwindFinishes(w: Workflow, pos: nat, ts: Ts, executor: Id)
    requires pos in w.cps
    ensures var s := Unwind(w, pos, ts, executor);
            !s.out.BegunFailed? && !s.out.BlockedNow? && (s.out.FullyReversed? ==> s.next.state.Reversed?)
  {
    hide TopOf;
  }
}
