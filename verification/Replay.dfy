/** Lost acknowledgements: delivering a committed command again, after anything else has
  * happened in between, writes nothing and reports the original commit. */
module Replay {
  import opened Options
  import opened Rows
  import opened Procedures
  import opened Coordinator
  import opened Soundness
  import opened Evolution
  import opened Invariant
  import opened InvariantSteps
  import opened Unwinding

  /** The commands whose acknowledgement may be lost and which are then sent again. */
  predicate Repeatable(c: Cmd) {
    c.OperationRequest? || c.OperationSettle? || c.BeginReversal? || c.AuthoredFail? || c.ReverseRequest?
    || c.ReverseSettle? || c.ReverseBlock? || c.CallSubmit? || c.ChildReopen? || c.ChildSettle?
  }

  /** The outcomes that report a fresh commit. */
  predicate IsCommit(o: Outcome) {
    o.Created? || o.Claimed? || o.Extended? || o.Released? || o.Deferred? || o.Requested? || o.Settled?
      || o.BegunFailed?
    || o.BegunReversing? || o.Dispatched? || o.Descended? || o.FullyReversed? || o.BlockedNow? || o.Redispatch?
    || o.PendingDefer? || o.DispatchDeferred? || o.Submitted? || o.Reopened? || o.Notified? || o.Resolved?
  }

  /** The same command sent again, by whoever holds the lease by then and at its own time. */
  predicate Retries(c: Cmd, d: Cmd)
    requires Repeatable(c)
  {
    Repeatable(d) && d == c.(executor := d.executor, token := d.token, ts := d.ts)
  }

  // ---------------------------------------------------------------- what a commit leaves in the rows

  predicate RequestTrace(w: Workflow, c: Cmd)
    requires c.OperationRequest?
  {
    c.pos in w.ops && w.ops[c.pos].id == c.opId && w.ops[c.pos].name == c.name && w.ops[c.pos].schema == c.schema
    && w.ops[c.pos].input == c.input && w.ops[c.pos].inputHash == c.inputHash && w.ops[c.pos].kind.Participant?
  }

  predicate SettleTrace(w: Workflow, c: Cmd)
    requires c.OperationSettle?
  {
    1 <= c.pos <= w.pin.length && c.cpPos == c.pos && (c.final ==> c.pos == w.pin.length)
    && c.pos in w.ops && w.ops[c.pos].id == c.opId && w.ops[c.pos].result == Some(c.result)
    && c.pos in w.cps && w.cps[c.pos].opId == c.opId && w.cps[c.pos].name == w.ops[c.pos].name
    && w.cps[c.pos].payload == c.payload
  }

  predicate TurnTrace(w: Workflow, c: Cmd)
    requires c.BeginReversal? || c.AuthoredFail?
  {
    w.direction.Back? && w.trigger == Some(c.opId) && w.reason == Some(c.why)
  }

  predicate DispatchTrace(w: Workflow, c: Cmd)
    requires c.ReverseRequest?
  {
    c.pos in w.cps && w.cps[c.pos].binding == Some(c.binding)
  }

  /** A bound checkpoint that has left the active state. */
  predicate UndoTrace(w: Workflow, c: Cmd)
    requires c.ReverseSettle? || c.ReverseBlock?
  {
    c.pos in w.cps && w.cps[c.pos].binding.Some? && w.cps[c.pos].binding.value.id == c.revId
    && w.cps[c.pos].reversal == if c.ReverseSettle? then Undone else ResolutionRequired
  }

  predicate OwnTrace(w: Workflow, c: Cmd)
    requires Repeatable(c) && IsLocal(c)
  {
    if c.OperationRequest? then RequestTrace(w, c)
    else if c.OperationSettle? then SettleTrace(w, c)
    else if c.ReverseRequest? then DispatchTrace(w, c)
    else if c.ReverseSettle? || c.ReverseBlock? then UndoTrace(w, c)
    else TurnTrace(w, c)
  }

  /** The parent's operation row, and what is pinned of the child. */
  predicate SubmitTrace(db: Db, w: Workflow, c: Cmd)
    requires c.CallSubmit?
  {
    c.pos in w.ops && c.childId in db
    && var op, child := w.ops[c.pos], db[c.childId];
       op.name == c.childScript && op.schema == 1 && op.input == c.input
       && child.script == c.childScript && child.pin == c.childPin && child.args == c.input
       && child.ancestry.Some? && child.ancestry.value.parent == c.wf && child.ancestry.value.node == c.node
  }

  predicate CallTrace(db: Db, w: Workflow, c: Cmd)
    requires Repeatable(c) && !IsLocal(c)
  {
    if c.CallSubmit? then c.pos in w.ops && SameSubmission(db, w, c) && SubmitTrace(db, w, c)
    else
      && c.pos in w.cps && c.pos in w.ops && w.ops[c.pos].kind.ChildWorkflow?
      && (c.ChildSettle? ==> w.cps[c.pos].reversal.Undone?)
      && (c.ChildReopen? ==> c.pos in w.calls && w.calls[c.pos].child in db
                             && db[w.calls[c.pos].child].state in {Reversing, Blocked, Reversed, ResolvedException})
  }

  /** The durable trace a commit leaves. */
  predicate Committed(db: Db, c: Cmd)
    requires Repeatable(c)
  {
    c.wf in db && if IsLocal(c) then OwnTrace(db[c.wf], c) else CallTrace(db, db[c.wf], c)
  }

  /** What a retry is told. A forward submission is fenced before it is recognised, so without
    * the current lease it hears `FenceLost` instead; every other command needs no lease. */
  ghost predicate ReportsCommit(db: Db, c: Cmd, d: Cmd, out: Outcome)
    requires Repeatable(c) && Repeatable(d) && c.wf in db
  {
    var w := db[c.wf];
    match c
    case OperationRequest(_, _, _, _, opId, _, _, _, _, _, _) =>
      out == (if Holds(w, d.executor, d.token) && w.state.Forward? then AlreadyRequested(opId) else FenceLost)
    case OperationSettle(_, _, _, _, _, _, result, _, _, _, _, _) => out == AlreadySettled(result)
    case BeginReversal(_, _, _, _, _, _, why) => out == AlreadyBegun(w.state, Some(why))
    case AuthoredFail(_, _, _, _, _, why) => out == AlreadyBegun(w.state, Some(why))
    case ReverseRequest(_, _, _, pos, binding, _) =>
      pos in w.cps && out == (if w.cps[pos].reversal.Active? then AlreadyDispatched(binding) else CheckpointInactive)
    case ReverseSettle(_, _, _, _, _, _) => out == AlreadyReversed
    case ReverseBlock(_, _, _, _, _, _, _) => out == AlreadyBlocked
    case CallSubmit(_, _, _, _, _, _, _, _, _, childId, _, _, _, _, _, _) =>
      out == (if Holds(w, d.executor, d.token) && w.state.Forward? then AlreadySubmitted(childId) else FenceLost)
    case ChildReopen(_, _, _, _, _) => out.AlreadyReopened?
    case ChildSettle(_, _, _, _, _) => out == AlreadyReversed
  }

  // ---------------------------------------------------------------- a commit leaves its trace

  lemma RequestCommits(w: Workflow, c: Cmd)
    requires c.OperationRequest? && IsCommit(DoOperationRequest(w, c).out)
    ensures RequestTrace(DoOperationRequest(w, c).next, c)
  {
    hide OrderGuard, Holds;
  }

  lemma SettleCommits(w: Workflow, c: Cmd)
    requires c.OperationSettle? && IsCommit(DoOperationSettle(w, c).out)
    ensures SettleTrace(DoOperationSettle(w, c).next, c)
  {
    hide Holds;
  }

  lemma TurnCommits(w: Workflow, c: Cmd)
    requires c.BeginReversal? || c.AuthoredFail?
    ensures c.BeginReversal? && IsCommit(DoBeginReversal(w, c).out) ==> TurnTrace(DoBeginReversal(w, c).next, c)
    ensures c.AuthoredFail? && IsCommit(DoAuthoredFail(w, c).out) ==> TurnTrace(DoAuthoredFail(w, c).next, c)
  {
    hide Holds, TopOf;
  }

  lemma DispatchCommits(w: Workflow, c: Cmd)
    requires c.ReverseRequest? && IsCommit(DoReverseRequest(w, c).out)
    ensures DispatchTrace(DoReverseRequest(w, c).next, c)
  {
    hide Holds, TopOf;
  }

  lemma UndoCommits(w: Workflow, c: Cmd)
    requires c.ReverseSettle? && IsCommit(DoReverseSettle(w, c).out)
    ensures UndoTrace(DoReverseSettle(w, c).next, c)
  {
    hide Holds, TopOf;
  }

  lemma BlockCommits(w: Workflow, c: Cmd)
    requires c.ReverseBlock? && IsCommit(DoReverseBlock(w, c).out)
    ensures UndoTrace(DoReverseBlock(w, c).next, c)
  {
    hide Holds, TopOf;
  }

  lemma LocalCommits(w: Workflow, c: Cmd)
    requires Repeatable(c) && IsLocal(c) && IsCommit(LocalStep(w, c).out)
    ensures OwnTrace(LocalStep(w, c).next, c)
  {
    hide DoOperationRequest, DoOperationSettle, DoBeginReversal, DoAuthoredFail, DoReverseRequest, DoReverseSettle,
      DoReverseBlock, IsCommit, RequestTrace, SettleTrace, TurnTrace, DispatchTrace, UndoTrace;
    match c
    case OperationRequest(_, _, _, _, _, _, _, _, _, _, _) => RequestCommits(w, c);
    case OperationSettle(_, _, _, _, _, _, _, _, _, _, _, _) => SettleCommits(w, c);
    case BeginReversal(_, _, _, _, _, _, _) => TurnCommits(w, c);
    case AuthoredFail(_, _, _, _, _, _) => TurnCommits(w, c);
    case ReverseRequest(_, _, _, _, _, _) => DispatchCommits(w, c);
    case ReverseSettle(_, _, _, _, _, _) => UndoCommits(w, c);
    case ReverseBlock(_, _, _, _, _, _, _) => BlockCommits(w, c);
  }

  lemma SubmitCommits(db: Db, c: Cmd)
    requires c.CallSubmit? && IsCommit(Apply(db, c).out)
    ensures Committed(Apply(db, c).db, c)
  {
    hide TopOf, Holds, InLineage, OpIdTaken, OrderGuard;
  }

  lemma ReopenCommits(db: Db, maxDepth: nat, c: Cmd)
    requires AllLinked(db) && AllRooted(db, maxDepth) && c.ChildReopen? && IsCommit(Apply(db, c).out)
    ensures Committed(Apply(db, c).db, c)
  {
    hide TopOf, Holds, SameSubmission, AllLinked, AllRooted, LocalStep, OpIdTaken, InLineage, DoCallSubmit,
      DoChildSettle, DoNotify, DoCreate;
    ChildDiffers(db, maxDepth, c.wf, c.pos);
  }

  lemma UnwoundRow(w: Workflow, pos: nat, ts: Ts, executor: Id)
    requires pos in w.cps
    ensures var n := Unwind(w, pos, ts, executor).next;
            pos in n.cps && n.cps[pos].reversal.Undone? && n.ops == w.ops
  {
    hide TopOf;
  }

  lemma ChildSettleCommits(db: Db, c: Cmd)
    requires c.ChildSettle? && IsCommit(Apply(db, c).out)
    ensures Committed(Apply(db, c).db, c)
  {
    hide TopOf, Holds, SameSubmission, Unwind;
    UnwoundRow(db[c.wf], c.pos, c.ts, c.executor);
  }

  /** A local commit is the commit of the workflow's own step. */
  lemma LocalOutcome(db: Db, c: Cmd)
    requires IsLocal(c) && IsCommit(Apply(db, c).out)
    ensures c.wf in db && Apply(db, c) == DbStep(LocalStep(db[c.wf], c).out, db[c.wf := LocalStep(db[c.wf], c).next])
  {
    hide LocalStep, Malformed, OpIdTaken;
  }

  lemma CommitLeavesTrace(db: Db, maxDepth: nat, c: Cmd)
    requires Inv(db, maxDepth) && Repeatable(c) && IsCommit(Apply(db, c).out)
    ensures Committed(Apply(db, c).db, c)
  {
    hide Sound, AllSound, AllLinked, AllRooted, UniqueOps, AllDistinct, LocalStep, OwnTrace, CallTrace, Malformed,
      OpIdTaken, IsCommit;
    if IsLocal(c) {
      LocalOutcome(db, c);
      LocalCommits(db[c.wf], c);
    } else {
      hide Apply;
      match c
      case CallSubmit(_, _, _, _, _, _, _, _, _, _, _, _, _, _, _, _) => SubmitCommits(db, c);
      case ChildReopen(_, _, _, _, _) => ReopenCommits(db, maxDepth, c);
      case ChildSettle(_, _, _, _, _) => ChildSettleCommits(db, c);
    }
  }

  // ---------------------------------------------------------------- the trace survives every run

  lemma TraceSurvives(db: Db, db': Db, c: Cmd)
    requires Repeatable(c) && Committed(db, c) && DbGrows(db, db')
    ensures Committed(db', c)
  {
    GrowsParts(db[c.wf], db'[c.wf]);
    GrowsPinned(db[c.wf], db'[c.wf]);
    GrowsTurned(db[c.wf], db'[c.wf]);
    if c.CallSubmit? || c.ChildReopen? {
      var child := db[c.wf].calls[c.pos].child;
      assert child in db' && Grows(db[child], db'[child]);
      GrowsPinned(db[child], db'[child]);
      GrowsTurned(db[child], db'[child]);
    }
    hide Grows, DbGrows;
  }

  lemma GrowsTurned(a: Workflow, b: Workflow)
    requires Grows(a, b)
    ensures a.direction.Back? ==> b.direction.Back? && b.trigger == a.trigger && b.reason == a.reason
    ensures Follows(a.state, b.state)
  {}

  /** What a commit stored is what the command carried, and it stays so over every run: the whole
    * operation row of a request, the result of a settle with the payload its compensation will be sent, the
    * binding of a reverse request, the rows of a call and the pinned identity of its child. */
  lemma CommitStores(db: Db, maxDepth: nat, c: Cmd, cmds: seq<Cmd>)
    requires Reachable(db, maxDepth) && Repeatable(c) && Bounded(c, maxDepth) && IsCommit(Apply(db, c).out)
    requires forall i :: 0 <= i < |cmds| ==> Bounded(cmds[i], maxDepth)
    ensures Committed(Run(Apply(db, c).db, cmds), c)
  {
    hide Reachable, Apply, Committed, Inv, Run, Grows, IsCommit;
    ReachableInv(db, maxDepth);
    var db1 := Apply(db, c).db;
    ApplyInv(db, maxDepth, c);
    RunInv(db1, maxDepth, cmds);
    CommitLeavesTrace(db, maxDepth, c);
    TraceSurvives(db1, Run(db1, cmds), c);
  }

  // ---------------------------------------------------------------- the trace answers every retry

  lemma RequestAnswers(w: Workflow, c: Cmd, d: Cmd)
    requires c.OperationRequest? && RequestTrace(w, c) && Retries(c, d) && !Malformed(d) && Sound(w)
    ensures DoOperationRequest(w, d) ==
              Step(if Holds(w, d.executor, d.token) && w.state.Forward? then AlreadyRequested(c.opId) else FenceLost, w)
  {
    hide Holds, Lifo, Agrees, Fields, Chronology;
  }

  lemma SettleAnswers(w: Workflow, c: Cmd, d: Cmd)
    requires c.OperationSettle? && SettleTrace(w, c) && Retries(c, d)
    ensures DoOperationSettle(w, d) == Step(AlreadySettled(c.result), w)
  {
    hide Holds;
  }

  lemma TurnAnswers(w: Workflow, c: Cmd, d: Cmd)
    requires (c.BeginReversal? || c.AuthoredFail?) && TurnTrace(w, c) && Retries(c, d)
    ensures LocalStep(w, d) == Step(AlreadyBegun(w.state, Some(c.why)), w)
  {
    hide Holds, TurnBack;
  }

  lemma ReverseAnswers(w: Workflow, c: Cmd, d: Cmd)
    requires (c.ReverseRequest? || c.ReverseSettle? || c.ReverseBlock?) && OwnTrace(w, c) && Retries(c, d)
    ensures LocalStep(w, d).next == w
    ensures c.ReverseRequest? ==> c.pos in w.cps
    ensures c.ReverseRequest? && w.cps[c.pos].reversal.Active? ==> LocalStep(w, d).out == AlreadyDispatched(c.binding)
    ensures c.ReverseRequest? && !w.cps[c.pos].reversal.Active? ==> LocalStep(w, d).out == CheckpointInactive
    ensures c.ReverseSettle? ==> LocalStep(w, d).out == AlreadyReversed
    ensures c.ReverseBlock? ==> LocalStep(w, d).out == AlreadyBlocked
  {
    hide Holds, Unwind, BlockAt, TopOf;
  }

  lemma LocalAnswers(db: Db, c: Cmd, d: Cmd)
    requires Repeatable(c) && IsLocal(c) && Committed(db, c) && Retries(c, d) && !Malformed(d) && Sound(db[c.wf])
    ensures Apply(db, d).db == db && ReportsCommit(db, c, d, Apply(db, d).out)
  {
    hide LocalStep, Sound, Malformed, OpIdTaken, RequestTrace, SettleTrace, TurnTrace, Holds;
    var w := db[c.wf];
    assert db[c.wf := w] == db;
    match c
    case OperationRequest(_, _, _, _, _, _, _, _, _, _, _) => RequestAnswers(w, c, d); RequestStep(w, d);
    case OperationSettle(_, _, _, _, _, _, _, _, _, _, _, _) => SettleAnswers(w, c, d); SettleStep(w, d);
    case BeginReversal(_, _, _, _, _, _, _) => TurnAnswers(w, c, d);
    case AuthoredFail(_, _, _, _, _, _) => TurnAnswers(w, c, d);
    case ReverseRequest(_, _, _, _, _, _) => ReverseAnswers(w, c, d);
    case ReverseSettle(_, _, _, _, _, _) => ReverseAnswers(w, c, d);
    case ReverseBlock(_, _, _, _, _, _, _) => ReverseAnswers(w, c, d);
  }

  lemma RequestStep(w: Workflow, d: Cmd)
    requires d.OperationRequest?
    ensures LocalStep(w, d) == DoOperationRequest(w, d)
  {}

  lemma SettleStep(w: Workflow, d: Cmd)
    requires d.OperationSettle?
    ensures LocalStep(w, d) == DoOperationSettle(w, d)
  {}

  lemma SubmitAnswers(db: Db, c: Cmd, d: Cmd)
    requires c.CallSubmit? && Committed(db, c) && Retries(c, d) && !Malformed(d) && Sound(db[c.wf])
    ensures Apply(db, d).db == db && ReportsCommit(db, c, d, Apply(db, d).out)
  {
    hide Holds, Lifo, Agrees, Fields, Chronology, InLineage, OpIdTaken, Malformed, SubmittedParent, SubmittedChild;
    InPlan(db[c.wf], c.pos);
  }

  /** A position with an operation passes the plan-order guard. */
  lemma InPlan(w: Workflow, pos: nat)
    requires Sound(w) && pos in w.ops
    ensures OrderGuard(w, pos).None?
  {
    hide Lifo, Agrees, Fields, Chronology;
  }

  lemma ChildAnswers(db: Db, c: Cmd, d: Cmd)
    requires (c.ChildReopen? || c.ChildSettle?) && Committed(db, c) && Retries(c, d) && !Malformed(d)
    ensures Apply(db, d).db == db && ReportsCommit(db, c, d, Apply(db, d).out)
  {
    hide TopOf, Holds, SameSubmission;
  }

  lemma TraceAnswers(db: Db, c: Cmd, d: Cmd)
    requires Repeatable(c) && Committed(db, c) && Retries(c, d) && !Malformed(d) && Sound(db[c.wf])
    ensures Apply(db, d).db == db && ReportsCommit(db, c, d, Apply(db, d).out)
  {
    hide Apply, ReportsCommit, Committed, Sound, Malformed, Retries;
    if IsLocal(c) {
      LocalAnswers(db, c, d);
    } else if c.CallSubmit? {
      SubmitAnswers(db, c, d);
    } else {
      ChildAnswers(db, c, d);
    }
  }

  /** Deliver a command, lose its acknowledgement, let any run happen, and send it again: the
    * store is left exactly as the run left it, and the sender learns of the original commit.
    * Since the retry writes nothing, any number of retries is covered by the run in between. */
  lemma LostAckHarmless(db: Db, maxDepth: nat, c: Cmd, cmds: seq<Cmd>, d: Cmd)
    requires Reachable(db, maxDepth) && Repeatable(c) && Bounded(c, maxDepth) && IsCommit(Apply(db, c).out)
    requires forall i :: 0 <= i < |cmds| ==> Bounded(cmds[i], maxDepth)
    requires Retries(c, d) && !Malformed(d)
    ensures var later := Run(Apply(db, c).db, cmds);
            c.wf in later && Apply(later, d).db == later && ReportsCommit(later, c, d, Apply(later, d).out)
  {
    hide Reachable, Apply, ReportsCommit, Committed, Malformed, Retries, Inv, Run, Grows, IsCommit;
    ReachableInv(db, maxDepth);
    var db1 := Apply(db, c).db;
    var later := Run(db1, cmds);
    ApplyInv(db, maxDepth, c);
    RunInv(db1, maxDepth, cmds);
    CommitStores(db, maxDepth, c, cmds);
    assert Committed(later, c);
    TraceNamesRow(later, c);
    InvSound(later, maxDepth, c.wf);
    TraceAnswers(later, c, d);
  }

  lemma TraceNamesRow(db: Db, c: Cmd)
    requires Repeatable(c) && Committed(db, c)
    ensures c.wf in db
  {}

  lemma InvSound(db: Db, maxDepth: nat, id: Id)
    requires Inv(db, maxDepth) && id in db
    ensures Sound(db[id])
  {}

  /** A refusal, whatever its reason, writes nothing: no row, no event, no child. */
  lemma RefusalWritesNothing(db: Db, c: Cmd)
    requires !IsCommit(Apply(db, c).out)
    ensures Apply(db, c).db == db
  {
    if IsLocal(c) {
      hide LocalStep, Malformed, OpIdTaken;
      if Apply(db, c).db != db { LocalRefusal(db[c.wf], c); }
      assert c.wf in db ==> db[c.wf := db[c.wf]] == db;
    } else {
      CallRefusal(db, c);
    }
  }

  lemma CallRefusal(db: Db, c: Cmd)
    requires !IsLocal(c) && !IsCommit(Apply(db, c).out)
    ensures Apply(db, c).db == db
  {
    hide TopOf, Holds, SameSubmission, InLineage, OpIdTaken, OrderGuard, Malformed, SubmittedParent, SubmittedChild;
  }

  lemma LocalRefusal(w: Workflow, c: Cmd)
    requires IsLocal(c) && !IsCommit(LocalStep(w, c).out)
    ensures LocalStep(w, c).next == w
  {
    hide TopOf, Holds, Exhausted, Overdue, OrderGuard, Stamp, StampIfLater, BlockAt;
  }

  /** The create race: whoever creates first pins the plan. Creating again at any later time
    * with the same script and arguments, whatever plan it names, reports the first pin; with
    * another script or other arguments it is a conflict. None of them writes. */
  lemma CreateRace(db: Db, maxDepth: nat, c: Cmd, cmds: seq<Cmd>, d: Cmd)
    requires Reachable(db, maxDepth) && c.CreatePlanned? && Apply(db, c).out.Created?
    requires forall i :: 0 <= i < |cmds| ==> Bounded(cmds[i], maxDepth)
    requires d.CreatePlanned? && d.wf == c.wf && !Malformed(d)
    ensures var later := Run(Apply(db, c).db, cmds);
            Apply(later, d) == DbStep(if d.script != c.script then PlanConflict
                                      else if d.args != c.args then WorkflowConflict
                                      else PlanExists(c.pin), later)
  {
    hide Reachable, Inv, Run, Grows;
    ReachableInv(db, maxDepth);
    var db1 := Apply(db, c).db;
    ApplyInv(db, maxDepth, c);
    RunInv(db1, maxDepth, cmds);
    GrowsPinned(db1[c.wf], Run(db1, cmds)[c.wf]);
  }
}
