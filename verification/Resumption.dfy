/** Where a driver takes a workflow up: at the continuation the last forward commit left. */
module Resumption {
  import opened Options
  import opened Rows
  import opened Procedures
  import opened Coordinator

  /** The continuation a commit hands to a workflow. */
  function Given(c: Cmd, out: Outcome, id: Id): Option<Doc> {
    if c.CreatePlanned? && out.Created? && c.wf == id then Some(c.cursor)
    else if c.OperationRequest? && out.Requested? && c.wf == id then Some(c.cursor)
    else if c.OperationSettle? && out.Settled? && c.wf == id then Some(c.cursor)
    else if c.CallSubmit? && out.Submitted? && c.childId == id then Some(c.childCursor)
    else if c.CallSubmit? && out.Submitted? && c.wf == id then Some(c.cursor)
    else None
  }

  /** The last continuation a run hands to a workflow. */
  function LastGiven(db: Db, cmds: seq<Cmd>, id: Id): Option<Doc>
    decreases |cmds|
  {
    if cmds == [] then None
    else
      var s := Apply(db, cmds[0]);
      var later := LastGiven(s.db, cmds[1..], id);
      if later.Some? then later else Given(cmds[0], s.out, id)
  }

  // ---------------------------------------------------------------- one command

  /** A script position is the one handed over, or was there before. */
  predicate KeepsScript(w: Workflow, c: Cmd, s: Step)
    requires IsLocal(c)
  {
    s.next.cursor.Script? ==>
      s.next.cursor == if Given(c, s.out, c.wf).Some? then Script(Given(c, s.out, c.wf).value) else w.cursor
  }

  lemma ForwardScript(w: Workflow, c: Cmd)
    ensures c.OperationRequest? ==> KeepsScript(w, c, DoOperationRequest(w, c))
    ensures c.OperationSettle? ==> KeepsScript(w, c, DoOperationSettle(w, c))
    ensures c.ReconcileDefer? ==> KeepsScript(w, c, DoReconcileDefer(w, c))
    ensures c.PendingDefer? ==> KeepsScript(w, c, DoPendingDefer(w, c))
    ensures c.DispatchDefer? ==> KeepsScript(w, c, DoDispatchDefer(w, c))
  {
    hide OrderGuard, Holds, Exhausted, Overdue, Charge, Escalate, Observe;
  }

  lemma TurnScript(w: Workflow, c: Cmd)
    ensures c.BeginReversal? ==> KeepsScript(w, c, DoBeginReversal(w, c))
    ensures c.AuthoredFail? ==> KeepsScript(w, c, DoAuthoredFail(w, c))
    ensures c.ReverseRequest? ==> KeepsScript(w, c, DoReverseRequest(w, c))
    ensures c.ReverseSettle? ==> KeepsScript(w, c, DoReverseSettle(w, c))
  {
    hide TopOf, Holds;
  }

  lemma ReverseScript(w: Workflow, c: Cmd)
    ensures c.ReverseBlock? ==> KeepsScript(w, c, DoReverseBlock(w, c))
    ensures c.ReverseReconcileDefer? ==> KeepsScript(w, c, DoReverseReconcileDefer(w, c))
    ensures c.ReversePendingDefer? ==> KeepsScript(w, c, DoReversePendingDefer(w, c))
  {
    hide TopOf, Holds, Exhausted, Overdue, Charge, Escalate, Observe;
  }

  lemma LocalScript(w: Workflow, c: Cmd)
    requires IsLocal(c)
    ensures KeepsScript(w, c, LocalStep(w, c))
  {
    hide DoOperationRequest, DoOperationSettle, DoBeginReversal, DoAuthoredFail, DoReverseRequest, DoReverseSettle,
      DoReverseBlock, DoReconcileDefer, DoReverseReconcileDefer, DoPendingDefer, DoReversePendingDefer, DoDispatchDefer,
      Claimable, Holds;
    ForwardScript(w, c);
    TurnScript(w, c);
    ReverseScript(w, c);
  }

  lemma SpanScript(db: Db, c: Cmd, id: Id)
    requires !IsLocal(c) && id in Apply(db, c).db && Apply(db, c).db[id].cursor.Script?
    ensures var s := Apply(db, c);
            if Given(c, s.out, id).Some? then s.db[id].cursor == Script(Given(c, s.out, id).value)
            else id in db && s.db[id].cursor == db[id].cursor
  {
    hide Malformed, OpIdTaken, InLineage, SameSubmission, OrderGuard, Holds, TopOf;
  }

  lemma ApplyScript(db: Db, c: Cmd, id: Id)
    requires id in Apply(db, c).db && Apply(db, c).db[id].cursor.Script?
    ensures var s := Apply(db, c);
            if Given(c, s.out, id).Some? then s.db[id].cursor == Script(Given(c, s.out, id).value)
            else id in db && s.db[id].cursor == db[id].cursor
  {
    if IsLocal(c) {
      hide Malformed, OpIdTaken, LocalStep;
      if c.wf in db { LocalScript(db[c.wf], c); }
    } else {
      SpanScript(db, c, id);
    }
  }

  // ---------------------------------------------------------------- every run

  lemma {:induction false} RunScript(db: Db, cmds: seq<Cmd>, id: Id)
    requires id in Run(db, cmds) && Run(db, cmds)[id].cursor.Script?
    ensures var last := LastGiven(db, cmds, id);
            if last.Some? then Run(db, cmds)[id].cursor == Script(last.value)
            else id in db && Run(db, cmds)[id].cursor == db[id].cursor
    decreases |cmds|
  {
    hide Apply, Given;
    if cmds != [] {
      var s := Apply(db, cmds[0]);
      RunScript(s.db, cmds[1..], id);
      if LastGiven(s.db, cmds[1..], id).None? { ApplyScript(db, cmds[0], id); }
    }
  }

  /** In every run a workflow that stands at a script position stands at the continuation that the last
    * create, request, settle or submission handed to it, whoever drove it then and whatever deferrals,
    * claims and lost leases lie in between. */
  lemma ResumesWhereItStopped(cmds: seq<Cmd>, id: Id)
    requires id in Run(map[], cmds) && Run(map[], cmds)[id].cursor.Script?
    ensures LastGiven(map[], cmds, id) == Some(Run(map[], cmds)[id].cursor.doc)
  {
    hide Run, LastGiven;
    RunScript(map[], cmds, id);
  }
}
