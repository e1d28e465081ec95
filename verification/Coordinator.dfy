/** The coordinator store: one atomic step per stored-procedure call, and runs. */
module Coordinator {
  import opened Options
  import opened Rows
  import opened Procedures

  datatype DbStep = DbStep(out: Outcome, db: Db)

  /** The unique key on operation_id spans all workflows. */
  predicate OpIdTaken(db: Db, opId: Id) {
    exists id, pos :: id in db && pos in db[id].ops && db[id].ops[pos].id == opId
  }

  // ---------------------------------------------------------------- creation

  function NewWorkflow(script: string, pin: Pin, args: Doc, ancestry: Option<Ancestry>, cursor: Doc,
                       nextAttempt: Ts, ts: Ts): Workflow {
    Workflow(script, pin, args, ancestry, Forward, Ahead, Unset, ts, 0, None, nextAttempt,
             Script(cursor), None, None, None, map[], map[], map[], [Event(ts, EvCreated, None)])
  }

  function DoCreate(db: Db, c: Cmd): DbStep
    requires c.CreatePlanned?
  {
    if c.wf in db then
      if db[c.wf].script != c.script then DbStep(PlanConflict, db)
      else if db[c.wf].args != c.args then DbStep(WorkflowConflict, db)
      else DbStep(PlanExists(db[c.wf].pin), db)
    else
      DbStep(Created(c.pin), db[c.wf := NewWorkflow(c.script, c.pin, c.args, None, c.cursor, c.nextAttempt, c.ts)])
  }

  // ---------------------------------------------------------------- calls

  /** The bounded recursive query over parent links: at most `hops` steps up from `id`. */
  function Lineage(db: Db, id: Id, hops: nat): seq<Id>
    decreases hops
  {
    if id !in db then []
    else if hops == 0 || db[id].ancestry.None? then [id]
    else [id] + Lineage(db, db[id].ancestry.value.parent, hops - 1)
  }

  predicate InLineage(db: Db, id: Id, hops: nat, plan: PlanId) {
    exists i :: 0 <= i < |Lineage(db, id, hops)| && Lineage(db, id, hops)[i] in db
                && db[Lineage(db, id, hops)[i]].Identity() == plan
  }

  /** Every stored field of an earlier submission agrees with this one. */
  predicate SameSubmission(db: Db, w: Workflow, c: Cmd)
    requires c.CallSubmit? && c.pos in w.ops
  {
    var op := w.ops[c.pos];
    c.pos in w.calls && w.calls[c.pos].child in db &&
    var call := w.calls[c.pos];
    op.id == c.opId && op.kind.ChildWorkflow? && op.inputHash == c.inputHash
    && call == Call(c.childId, c.childScript, c.childPin.version, c.childPin.hash)
    && db[call.child].pin.length == c.childPin.length && db[call.child].args == c.input
  }

  function SubmittedParent(w: Workflow, c: Cmd): Workflow
    requires c.CallSubmit?
  {
    var op := Operation(c.opId, c.childScript, 1, c.input, c.inputHash, ChildWorkflow, None, FRESH_BUDGET, FRESH_TIMER);
    var call := Call(c.childId, c.childScript, c.childPin.version, c.childPin.hash);
    Stamp(w.(ops := w.ops[c.pos := op], calls := w.calls[c.pos := call], cursor := Script(c.cursor)),
          c.ts, EvCallSubmitted, Some(c.executor))
  }

  function SubmittedChild(w: Workflow, c: Cmd): Workflow
    requires c.CallSubmit?
  {
    var root := if w.ancestry.Some? then w.ancestry.value.root else c.wf;
    NewWorkflow(c.childScript, c.childPin, c.input, Some(Ancestry(c.wf, c.node, root, w.Depth() + 1)),
                c.childCursor, c.childNext, c.ts)
  }

  function DoCallSubmit(db: Db, c: Cmd): DbStep
    requires c.CallSubmit?
  {
    if c.wf !in db then DbStep(NotFound, db)
    else
      var w := db[c.wf];
      if !Holds(w, c.executor, c.token) || !w.state.Forward? then DbStep(FenceLost, db)
      else if OrderGuard(w, c.pos).Some? then DbStep(PlanViolation(OrderGuard(w, c.pos).value), db)
      else if c.pos in w.ops then
        if SameSubmission(db, w, c) then DbStep(AlreadySubmitted(w.calls[c.pos].child), db)
        else DbStep(CallConflict, db)
      else if w.Depth() + 1 > c.maxDepth then DbStep(MaxCallDepthExceeded, db)
      else if InLineage(db, c.wf, c.maxDepth, PlanId(c.childScript, c.childPin.version, c.childPin.hash)) then
        DbStep(CallCycle, db)
      else if c.ts <= w.eventTs then DbStep(Skew(w.eventTs + SKEW_DEFER), db)
      else if OpIdTaken(db, c.opId) || c.childId in db then DbStep(DuplicateKey, db)
      else DbStep(Submitted(c.childId), db[c.wf := SubmittedParent(w, c)][c.childId := SubmittedChild(w, c)])
  }

  function ReopenedChild(child: Workflow, ts: Ts, executor: Id): Workflow
    requires child.Top().Some?
  {
    Stamp(child.(state := Reversing, direction := Back, disposition := Rejected, cursor := ReverseAt(child.Top().value),
                 token := child.token + 1, reason := Some("parent_compensation"), returned := None, nextAttempt := ts),
          ts, EvRequestedByParent, Some(executor))
  }

  function DoChildReopen(db: Db, c: Cmd): DbStep
    requires c.ChildReopen?
  {
    if c.wf !in db then DbStep(NotFound, db)
    else
      var w := db[c.wf];
      if c.pos !in w.cps then DbStep(CheckpointNotFound, db)
      else if c.pos !in w.ops || !w.ops[c.pos].kind.ChildWorkflow? then DbStep(NotCallCheckpoint, db)
      else if c.pos !in w.calls then DbStep(SidecarNotFound, db)
      else if w.calls[c.pos].child !in db then DbStep(ChildNotFound, db)
      else
        var childId := w.calls[c.pos].child;
        var child := db[childId];
        if child.state in {Reversing, Blocked, Reversed, ResolvedException} then
          DbStep(AlreadyReopened(child.state), db)
        else if child.state != Completed then DbStep(ChildStateInconsistent, db)
        else if !Holds(w, c.executor, c.token) || !w.state.Reversing? then DbStep(FenceLost, db)
        else if w.Top() != Some(c.pos) then DbStep(OutOfOrder(w.Top()), db)
        else if child.Top().None? then DbStep(ChildNoActiveCheckpoint, db)
        else if c.ts <= w.eventTs || c.ts <= child.eventTs then
          DbStep(Skew((if w.eventTs < child.eventTs then child.eventTs else w.eventTs) + SKEW_DEFER), db)
        else
          DbStep(Reopened(childId),
                 db[c.wf := Stamp(w, c.ts, EvCompensationRequested, Some(c.executor))]
                   [childId := ReopenedChild(child, c.ts, c.executor)])
  }

  function DoChildSettle(db: Db, c: Cmd): DbStep
    requires c.ChildSettle?
  {
    if c.wf !in db then DbStep(NotFound, db)
    else
      var w := db[c.wf];
      if c.pos !in w.cps then DbStep(CheckpointNotFound, db)
      else if c.pos !in w.ops || !w.ops[c.pos].kind.ChildWorkflow? then DbStep(NotCallCheckpoint, db)
      else if w.cps[c.pos].reversal.Undone? then DbStep(AlreadyReversed, db)
      else if !w.cps[c.pos].reversal.Active? then DbStep(CheckpointNotSettleable, db)
      else if !Holds(w, c.executor, c.token) || !w.state.Reversing? then DbStep(FenceLost, db)
      else if w.Top() != Some(c.pos) then DbStep(OutOfOrder(w.Top()), db)
      else if c.pos !in w.calls then DbStep(SidecarNotFound, db)
      else if w.calls[c.pos].child !in db then DbStep(ChildNotFound, db)
      else
        var child := db[w.calls[c.pos].child];
        if child.state in {Reversing, Blocked} then DbStep(ChildNotTerminal(child.state), db)
        else if child.state !in {Reversed, ResolvedException} then DbStep(ChildNotCompensated(child.state), db)
        else if c.ts <= w.eventTs then DbStep(Skew(w.eventTs + SKEW_DEFER), db)
        else
          var s := Unwind(w, c.pos, c.ts, c.executor);
          DbStep(s.out, db[c.wf := s.next])
  }

  /** Wake the caller of a finished child; unfenced, touches only the schedule. */
  function DoNotify(db: Db, c: Cmd): DbStep
    requires c.TerminalNotify?
  {
    if exists id :: id in db && IsCallerOf(db[id], c.childId) then
      DbStep(Notified, map id | id in db :: if IsCallerOf(db[id], c.childId) then Woken(db[id], c.ts) else db[id])
    else DbStep(NotFound, db)
  }

  predicate IsCallerOf(w: Workflow, child: Id) { exists pos :: pos in w.calls && w.calls[pos].child == child }

  function Woken(w: Workflow, ts: Ts): Workflow {
    w.(nextAttempt := if ts < w.nextAttempt then ts else w.nextAttempt)
  }

  // ---------------------------------------------------------------- one step, and runs

  function Apply(db: Db, c: Cmd): DbStep {
    if Malformed(c) then DbStep(Invalid, db)
    else if c.CreatePlanned? then DoCreate(db, c)
    else if c.CallSubmit? then DoCallSubmit(db, c)
    else if c.ChildReopen? then DoChildReopen(db, c)
    else if c.ChildSettle? then DoChildSettle(db, c)
    else if c.TerminalNotify? then DoNotify(db, c)
    else if c.wf !in db then DbStep(NotFound, db)
    else
      var s := LocalStep(db[c.wf], c);
      if c.OperationRequest? && s.out.Requested? && OpIdTaken(db, c.opId) then DbStep(DuplicateKey, db)
      else DbStep(s.out, db[c.wf := s.next])
  }

  function Run(db: Db, cmds: seq<Cmd>): Db
    decreases |cmds|
  {
    if cmds == [] then db else Run(Apply(db, cmds[0]).db, cmds[1..])
  }
}
