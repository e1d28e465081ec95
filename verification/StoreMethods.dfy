/** The store as the procedures see it: separate tables, updated in place one statement after another.
  *
  * Each method has the statement order of its procedure, early exits first and the write phase last.
  * `View` is what the tables stand for; `Valid` holds before and after every procedure, and each is
  * proved to be the atomic step that the run theorems are about.
  */
module StoreMethods {
  import opened Options
  import opened Rows
  import opened Procedures
  import opened Coordinator
  import opened Invariant
  import opened InvariantSteps
  import opened Tables
  import opened Unwinding
  import opened Hints

  /** A step of one workflow as a step of the store. */
  function Landed(db: Db, id: Id, s: Step): DbStep { DbStep(s.out, db[id := s.next]) }

  /** A call that changes no row: malformed, or about a workflow that is not there. */
  lemma Turned(db: Db, c: Cmd)
    ensures Malformed(c) ==> Apply(db, c) == DbStep(Invalid, db)
    ensures IsLocal(c) && !Malformed(c) && c.wf !in db ==> Apply(db, c) == DbStep(NotFound, db)
  {
    hide Malformed, LocalStep;
  }

  /** What a call is, on the lease and the schedule. */
  lemma LeaseCalls(db: Db, c: Cmd)
    requires !Malformed(c) && IsLocal(c) && c.wf in db
    ensures c.Claim? ==> Apply(db, c) == Landed(db, c.wf, DoClaim(db[c.wf], c))
    ensures c.Heartbeat? ==> Apply(db, c) == Landed(db, c.wf, DoHeartbeat(db[c.wf], c))
    ensures c.Release? ==> Apply(db, c) == Landed(db, c.wf, DoRelease(db[c.wf], c))
    ensures c.DispatchDefer? ==> Apply(db, c) == Landed(db, c.wf, DoDispatchDefer(db[c.wf], c))
  {
    hide Malformed, DoClaim, DoHeartbeat, DoRelease, DoDispatchDefer;
  }

  /** What a call is, on the forward side. */
  lemma ForwardCalls(db: Db, c: Cmd)
    requires !Malformed(c) && IsLocal(c) && c.wf in db
    ensures c.OperationRequest? ==>
              var s := DoOperationRequest(db[c.wf], c);
              Apply(db, c) == if s.out.Requested? && OpIdTaken(db, c.opId) then DbStep(DuplicateKey, db)
                              else Landed(db, c.wf, s)
    ensures c.OperationSettle? ==> Apply(db, c) == Landed(db, c.wf, DoOperationSettle(db[c.wf], c))
    ensures c.BeginReversal? ==> Apply(db, c) == Landed(db, c.wf, DoBeginReversal(db[c.wf], c))
    ensures c.AuthoredFail? ==> Apply(db, c) == Landed(db, c.wf, DoAuthoredFail(db[c.wf], c))
  {
    hide Malformed, OpIdTaken, DoOperationRequest, DoOperationSettle, DoBeginReversal, DoAuthoredFail;
  }

  /** What a call is, on the unwind. */
  lemma ReverseCalls(db: Db, c: Cmd)
    requires !Malformed(c) && IsLocal(c) && c.wf in db
    ensures c.ReverseRequest? ==> Apply(db, c) == Landed(db, c.wf, DoReverseRequest(db[c.wf], c))
    ensures c.ReverseSettle? ==> Apply(db, c) == Landed(db, c.wf, DoReverseSettle(db[c.wf], c))
    ensures c.ReverseBlock? ==> Apply(db, c) == Landed(db, c.wf, DoReverseBlock(db[c.wf], c))
  {
    hide Malformed, DoReverseRequest, DoReverseSettle, DoReverseBlock;
  }

  /** What a call is, on the budgets and the timers. */
  lemma DeferCalls(db: Db, c: Cmd)
    requires !Malformed(c) && IsLocal(c) && c.wf in db
    ensures c.ReconcileDefer? ==> Apply(db, c) == Landed(db, c.wf, DoReconcileDefer(db[c.wf], c))
    ensures c.ReverseReconcileDefer? ==> Apply(db, c) == Landed(db, c.wf, DoReverseReconcileDefer(db[c.wf], c))
    ensures c.PendingDefer? ==> Apply(db, c) == Landed(db, c.wf, DoPendingDefer(db[c.wf], c))
    ensures c.ReversePendingDefer? ==> Apply(db, c) == Landed(db, c.wf, DoReversePendingDefer(db[c.wf], c))
  {
    hide Malformed, DoReconcileDefer, DoReverseReconcileDefer, DoPendingDefer, DoReversePendingDefer;
  }

  /** What a call is, on several workflows. */
  lemma SpanningCalls(db: Db, c: Cmd)
    requires !Malformed(c)
    ensures c.CreatePlanned? ==> Apply(db, c) == DoCreate(db, c)
    ensures c.CallSubmit? ==> Apply(db, c) == DoCallSubmit(db, c)
    ensures c.ChildReopen? ==> Apply(db, c) == DoChildReopen(db, c)
    ensures c.ChildSettle? ==> Apply(db, c) == DoChildSettle(db, c)
    ensures c.TerminalNotify? ==> Apply(db, c) == DoNotify(db, c)
  {
    hide Malformed, DoCreate, DoCallSubmit, DoChildReopen, DoChildSettle, DoNotify;
  }

  lemma Same(db: Db, id: Id)
    ensures id in db ==> db[id := db[id]] == db
  {}

  lemma InvStays(db: Db, maxDepth: nat, c: Cmd)
    requires Inv(db, maxDepth) && Bounded(c, maxDepth)
    ensures Inv(Apply(db, c).db, maxDepth)
  {
    hide Inv, Apply;
    ApplyInv(db, maxDepth, c);
  }

  lemma OneCallerWakes(db: Db, maxDepth: nat, c: Cmd, id: Id)
    requires Inv(db, maxDepth) && c.TerminalNotify? && !Malformed(c) && id in db && IsCallerOf(db[id], c.childId)
    ensures Apply(db, c) == DbStep(Notified, db[id := Woken(db[id], c.ts)])
  {
    hide AllSound, AllLinked, AllRooted, UniqueOps, AllDistinct, Malformed, Apply;
    SpanningCalls(db, c);
    NotifyIsOneRow(db, c, id);
  }

  /** One hop of the recursive ancestor query. */
  lemma LineageStep(db: Db, id: Id, hops: nat, plan: PlanId)
    ensures InLineage(db, id, hops, plan) <==>
            id in db && (db[id].Identity() == plan
                         || (hops > 0 && db[id].ancestry.Some?
                             && InLineage(db, db[id].ancestry.value.parent, hops - 1, plan)))
  {
    if id in db && hops > 0 && db[id].ancestry.Some? {
      var above := Lineage(db, db[id].ancestry.value.parent, hops - 1);
      var chain := Lineage(db, id, hops);
      assert chain == [id] + above;
      assert forall i :: 0 <= i < |above| ==> chain[i + 1] == above[i];
      assert forall i :: 1 <= i < |chain| ==> chain[i] == above[i - 1];
    }
    if id in db { assert Lineage(db, id, hops)[0] == id; }
  }

  lemma PutsCommute(db: Db, a: Id, x: Workflow, b: Id, y: Workflow)
    requires a != b
    ensures db[a := x][b := y] == db[b := y][a := x]
  {}

  lemma CallKeyed(t: Tables, k: Key)
    requires Keyed(t) && k in t.calls
    ensures k.0 in t.workflows && k == (k.0, k.1)
  {}

  /** The unique index on called children. */
  lemma OnlyCall(t: Tables, maxDepth: nat, k: Key)
    requires Keyed(t) && Inv(ViewOf(t), maxDepth) && k in t.calls
    ensures forall q :: q in t.calls && t.calls[q].child == t.calls[k].child ==> q == k
  {
    hide ViewOf, AllSound, AllRooted, AllDistinct, Keyed;
    var db := ViewOf(t);
    forall q | q in t.calls && t.calls[q].child == t.calls[k].child ensures q == k {
      CallKeyed(t, k);
      CallKeyed(t, q);
      Reads(t, k.0, k.1);
      Reads(t, q.0, q.1);
      assert Linked(db, k.0, k.1) && Linked(db, q.0, q.1);
    }
  }

  /** Every call sidecar has its hint. */
  predicate Hinted(hints: map<Key, Hint>, calls: map<Key, Call>) { hints.Keys == calls.Keys }

  lemma HintPut(hints: map<Key, Hint>, calls: map<Key, Call>, k: Key, h: Hint)
    requires Hinted(hints, calls) && k in calls
    ensures k in hints && Hinted(hints[k := h], calls)
  {}

  lemma HintAdded(hints: map<Key, Hint>, calls: map<Key, Call>, k: Key, call: Call)
    ensures Hinted(hints, calls) ==> Hinted(hints[k := UNSEEN], calls[k := call])
  {}

  lemma HintedSame(hints: map<Key, Hint>, calls: map<Key, Call>)
    requires Hinted(hints, calls)
    ensures forall k :: k in hints <==> k in calls
  {}

  class Store {
    /** The call depth the deployment allows. */
    const maxDepth: nat

    var workflows: map<Id, Head>
    var operations: map<Key, Operation>
    var checkpoints: map<Key, Checkpoint>
    var calls: map<Key, Call>
    var events: seq<Entry>

    /** The status hints beside the call sidecars: written by reports, read by no guard. */
    var hints: map<Key, Hint>

    ghost function Now(): Tables
      reads this
    {
      Tables(workflows, operations, checkpoints, calls, events)
    }

    /** The aggregate rows the tables stand for. */
    ghost function View(): Db
      reads this
    {
      ViewOf(Now())
    }

    /** Foreign keys hold, the aggregate rows satisfy the store invariant, and every sidecar has its hint. */
    ghost predicate Valid()
      reads this
    {
      Keyed(Now()) && Inv(View(), maxDepth) && Hinted(hints, calls)
    }

    constructor (depth: nat)
      ensures Valid() && View() == map[] && maxDepth == depth
    {
      maxDepth := depth;
      workflows, operations, checkpoints, calls, events, hints := map[], map[], map[], map[], [], map[];
      new;
      EmptyInv(maxDepth);
      assert View() == map[];
    }

    // ------------------------------------------------------------ statements

    /** UPDATE a workflow row. */
    method SetWorkflow(id: Id, h: Head, ghost db: Db, ghost w: Workflow) returns (ghost n: Workflow)
      requires Keyed(Now()) && id in workflows && View() == db[id := w]
      modifies this`workflows
      ensures workflows == old(workflows)[id := h] && Keyed(Now())
      ensures n == Headed(w, h) && View() == db[id := n]
    {
      hide ViewOf, Slice, Only, Keyed;
      HeadPut(Now(), id, h);
      workflows := workflows[id := h];
      n := Headed(w, h);
    }

    /** INSERT a workflow row with its pin and arguments. */
    method InsertWorkflow(id: Id, h: Head)
      requires Keyed(Now()) && id !in workflows
      modifies this`workflows
      ensures workflows == old(workflows)[id := h] && Keyed(Now())
      ensures View() == old(View())[id := Assemble(h, map[], map[], map[], [])]
    {
      hide ViewOf, Slice, Only, Keyed;
      NewHead(Now(), id, h);
      workflows := workflows[id := h];
    }

    /** INSERT or UPDATE an operation row. */
    method PutOperation(id: Id, pos: nat, op: Operation, ghost db: Db, ghost w: Workflow) returns (ghost n: Workflow)
      requires Keyed(Now()) && id in workflows && View() == db[id := w]
      modifies this`operations
      ensures operations == old(operations)[(id, pos) := op] && Keyed(Now())
      ensures n == w.(ops := w.ops[pos := op]) && View() == db[id := n]
    {
      hide ViewOf, Slice, Only, Keyed;
      OperationPut(Now(), id, pos, op);
      operations := operations[(id, pos) := op];
      n := w.(ops := w.ops[pos := op]);
    }

    /** INSERT or UPDATE a checkpoint row. */
    method PutCheckpoint(id: Id, pos: nat, cp: Checkpoint, ghost db: Db, ghost w: Workflow) returns (ghost n: Workflow)
      requires Keyed(Now()) && id in workflows && View() == db[id := w]
      modifies this`checkpoints
      ensures checkpoints == old(checkpoints)[(id, pos) := cp] && Keyed(Now())
      ensures n == w.(cps := w.cps[pos := cp]) && View() == db[id := n]
    {
      hide ViewOf, Slice, Only, Keyed;
      CheckpointPut(Now(), id, pos, cp);
      checkpoints := checkpoints[(id, pos) := cp];
      n := w.(cps := w.cps[pos := cp]);
    }

    /** INSERT a call sidecar. */
    method PutCall(id: Id, pos: nat, call: Call, ghost db: Db, ghost w: Workflow) returns (ghost n: Workflow)
      requires Keyed(Now()) && id in workflows && View() == db[id := w]
      modifies this`calls
      ensures calls == old(calls)[(id, pos) := call] && Keyed(Now())
      ensures n == w.(calls := w.calls[pos := call]) && View() == db[id := n]
    {
      hide ViewOf, Slice, Only, Keyed;
      CallPut(Now(), id, pos, call);
      calls := calls[(id, pos) := call];
      n := w.(calls := w.calls[pos := call]);
    }

    /** INSERT an event and move the workflow's latest-event time to it. */
    method AppendEvent(id: Id, ts: Ts, kind: EventKind, actor: Option<Id>, ghost db: Db, ghost w: Workflow)
      returns (ghost n: Workflow)
      requires Keyed(Now()) && id in workflows && View() == db[id := w]
      modifies this`workflows, this`events
      ensures workflows == old(workflows)[id := old(workflows)[id].(eventTs := ts)] && Keyed(Now())
      ensures events == old(events) + [Entry(id, Event(ts, kind, actor))]
      ensures n == Stamp(w, ts, kind, actor) && View() == db[id := n]
    {
      hide ViewOf, Slice, Only, Keyed;
      EventPut(Now(), id, Event(ts, kind, actor));
      events := events + [Entry(id, Event(ts, kind, actor))];
      workflows := workflows[id := workflows[id].(eventTs := ts)];
      n := Stamp(w, ts, kind, actor);
    }

    // ------------------------------------------------------------ queries

    /** The recursive ancestor query, as the loop that follows parent links. */
    method PlanAbove(start: Id, hops: nat, plan: PlanId) returns (found: bool)
      ensures found == InLineage(View(), start, hops, plan)
    {
      hide ViewOf, Slice, Only, InLineage;
      ghost var db := View();
      var id, left := start, hops;
      while id in workflows
        invariant InLineage(db, start, hops, plan) == InLineage(db, id, left, plan)
        decreases left, id in workflows
      {
        Reads(Now(), id, 0);
        LineageStep(db, id, left, plan);
        var h := workflows[id];
        if PlanId(h.script, h.pin.version, h.pin.hash) == plan { return true; }
        if left == 0 || h.ancestry.None? { return false; }
        id, left := h.ancestry.value.parent, left - 1;
      }
      LineageStep(db, id, left, plan);
      return false;
    }

    /** Whether every stored field of an earlier submission agrees with this one. */
    method Resubmitted(c: Cmd) returns (same: bool)
      requires c.CallSubmit? && c.wf in workflows && (c.wf, c.pos) in operations
      ensures c.pos in View()[c.wf].ops && same == SameSubmission(View(), View()[c.wf], c)
      ensures same ==> (c.wf, c.pos) in calls && calls[(c.wf, c.pos)] == View()[c.wf].calls[c.pos]
    {
      hide ViewOf, Slice, Only;
      Reads(Now(), c.wf, c.pos);
      if (c.wf, c.pos) !in calls { return false; }
      var op, call := operations[(c.wf, c.pos)], calls[(c.wf, c.pos)];
      if call.child !in workflows { return false; }
      Reads(Now(), call.child, 0);
      var child := workflows[call.child];
      return op.id == c.opId && op.kind.ChildWorkflow? && op.inputHash == c.inputHash
             && call == Call(c.childId, c.childScript, c.childPin.version, c.childPin.hash)
             && child.pin.length == c.childPin.length && child.args == c.input;
    }

    /** What is wrong with a position, by the plan length and the operation before it. */
    method OutOfPlan(id: Id, pos: nat) returns (why: Option<PlanReason>)
      requires id in workflows
      ensures id in View() && why == OrderGuard(View()[id], pos)
    {
      hide ViewOf, Slice, Only, TopOf;
      Reads(Now(), id, 0);
      if pos < 1 || pos > workflows[id].pin.length { return Some(SeqOutOfRange); }
      if pos > 1 {
        Reads(Now(), id, pos - 1);
        if (id, pos - 1) !in operations || !operations[(id, pos - 1)].Settled() { return Some(PredecessorIncomplete); }
      }
      return None;
    }

    /** Whether the latest event of a workflow is of this kind. */
    method LastIs(id: Id, kind: EventKind) returns (yes: bool)
      requires id in workflows
      ensures id in View()
      ensures yes == (|View()[id].events| > 0 && View()[id].events[|View()[id].events| - 1].kind == kind)
    {
      hide ViewOf, Slice, Only, TopOf;
      Reads(Now(), id, 0);
      var log := Only(events, id);
      return |log| > 0 && log[|log| - 1].kind == kind;
    }

    // ------------------------------------------------------------ procedures

    /** A new workflow row, its pin, its arguments and its first event. */
    method StartWorkflow(id: Id, script: string, pin: Pin, args: Doc, ancestry: Option<Ancestry>, cursor: Doc,
                         nextAttempt: Ts, ts: Ts)
      requires Keyed(Now()) && id !in workflows
      modifies this`workflows, this`events
      ensures workflows.Keys == old(workflows).Keys + {id} && Keyed(Now())
      ensures forall i :: i in old(workflows) ==> workflows[i] == old(workflows)[i]
      ensures View() == old(View())[id := NewWorkflow(script, pin, args, ancestry, cursor, nextAttempt, ts)]
    {
      hide ViewOf, Slice, Only, Keyed;
      ghost var db := View();
      var h := Head(script, pin, args, ancestry, Forward, Ahead, Unset, ts, 0, None, nextAttempt, Script(cursor),
                    None, None, None);
      InsertWorkflow(id, h);
      ghost var w := AppendEvent(id, ts, EvCreated, None, db, Assemble(h, map[], map[], map[], []));
      assert [] + [Event(ts, EvCreated, None)] == [Event(ts, EvCreated, None)];
    }

    /** The common tail of a rejection and an authored failure. */
    method TurnRows(id: Id, executor: Id, trigger: Id, ts: Ts, why: string, ghost db: Db) returns (out: Outcome)
      requires Keyed(Now()) && id in workflows && View() == db
      modifies this`workflows, this`events
      ensures Keyed(Now()) && DbStep(out, View()) == Landed(db, id, TurnBack(db[id], executor, trigger, ts, why))
    {
      hide ViewOf, Slice, Only, TopOf, Keyed;
      ghost var w := db[id];
      Same(db, id);
      Reads(Now(), id, 0);
      w := SetWorkflow(id, workflows[id].(direction := Back, disposition := Rejected, trigger := Some(trigger),
                                     reason := Some(why)), db, w);
      var top := TopOf(Slice(checkpoints, id));
      if top.None? {
        w := SetWorkflow(id, workflows[id].(state := Failed, cursor := NothingToUnwind, lease := None), db, w);
        w := AppendEvent(id, ts, EvFailed, Some(executor), db, w);
        return BegunFailed(Some(why));
      }
      w := SetWorkflow(id, workflows[id].(state := Reversing, cursor := ReverseAt(top.value)), db, w);
      w := AppendEvent(id, ts, EvReversalBegun, Some(executor), db, w);
      return BegunReversing(top);
    }

    /** Mark one checkpoint undone, then point at the next one or finish. */
    method UndoTop(id: Id, pos: nat, ts: Ts, executor: Id, ghost db: Db) returns (out: Outcome)
      requires Keyed(Now()) && id in workflows && (id, pos) in checkpoints && View() == db
      modifies this`workflows, this`checkpoints, this`events
      ensures pos in db[id].cps
      ensures Keyed(Now()) && DbStep(out, View()) == Landed(db, id, Unwind(db[id], pos, ts, executor))
    {
      hide ViewOf, Slice, Only, TopOf, Keyed;
      var h := workflows[id];
      ghost var w := db[id];
      Same(db, id);
      Reads(Now(), id, pos);
      w := PutCheckpoint(id, pos, checkpoints[(id, pos)].(reversal := Undone), db, w);
      Reads(Now(), id, pos);
      var next := TopOf(Slice(checkpoints, id));
      if next.None? {
        w := SetWorkflow(id, h.(state := Reversed, cursor := UnwindDone, lease := None), db, w);
        w := AppendEvent(id, ts, EvCompensationSettled, Some(executor), db, w);
        return FullyReversed(h.reason);
      }
      w := SetWorkflow(id, h.(cursor := ReverseAt(next.value)), db, w);
      w := AppendEvent(id, ts, EvCompensationSettled, Some(executor), db, w);
      return Descended(next);
    }

    /** Park one checkpoint and its workflow together. */
    method Park(id: Id, pos: nat, d: Disposition, ts: Ts, kind: EventKind, executor: Id, ghost db: Db,
                ghost before: Workflow)
      returns (ghost w: Workflow)
      requires Keyed(Now()) && id in workflows && (id, pos) in checkpoints && View() == db[id := before]
      modifies this`workflows, this`checkpoints, this`events
      ensures pos in before.cps && Keyed(Now())
      ensures w == BlockAt(before, pos, d, ts, kind, executor) && View() == db[id := w]
    {
      hide ViewOf, Slice, Only, TopOf, Keyed;
      w := before;
      Reads(Now(), id, pos);
      w := PutCheckpoint(id, pos, checkpoints[(id, pos)].(reversal := ResolutionRequired), db, w);
      var h := workflows[id].(state := Blocked, disposition := d, cursor := StuckReverse(pos), lease := None);
      w := SetWorkflow(id, h, db, w);
      w := AppendEvent(id, ts, kind, Some(executor), db, w);
    }

    /** Append unless the timestamp cannot be ordered after the log. */
    method AppendIfLater(id: Id, ts: Ts, kind: EventKind, executor: Id, ghost db: Db, ghost w: Workflow)
      returns (ghost n: Workflow)
      requires Keyed(Now()) && id in workflows && View() == db[id := w]
      modifies this`workflows, this`events
      ensures Keyed(Now()) && n == StampIfLater(w, ts, kind, executor) && View() == db[id := n]
    {
      hide ViewOf, Slice, Only, TopOf, Keyed;
      n := w;
      Reads(Now(), id, 0);
      if ts > workflows[id].eventTs { n := AppendEvent(id, ts, kind, Some(executor), db, w); }
    }

    /** Give the lease back until the next attempt, and log why where that is asked for. */
    method Reschedule(id: Id, nextAttempt: Ts, append: bool, ts: Ts, kind: EventKind, executor: Id, ghost db: Db,
                      ghost w: Workflow)
      returns (ghost n: Workflow)
      requires Keyed(Now()) && id in workflows && View() == db[id := w]
      modifies this`workflows, this`events
      ensures Keyed(Now()) && View() == db[id := n]
      ensures var given := w.(lease := None, nextAttempt := nextAttempt);
              n == if append then Stamp(given, ts, kind, Some(executor)) else given
    {
      hide ViewOf, Slice, Only, TopOf, Keyed, Stamp;
      n := w;
      Reads(Now(), id, 0);
      n := SetWorkflow(id, workflows[id].(lease := None, nextAttempt := nextAttempt), db, n);
      if append { n := AppendEvent(id, ts, kind, Some(executor), db, n); }
    }

    /** Store a result, push its checkpoint and move the script on. */
    method PushResult(id: Id, pos: nat, result: Doc, payload: Doc, cursor: Doc, ghost db: Db, ghost w: Workflow)
      returns (ghost n: Workflow)
      requires Keyed(Now()) && id in workflows && (id, pos) in operations && View() == db[id := w]
      modifies this`workflows, this`operations, this`checkpoints
      ensures Keyed(Now()) && View() == db[id := n] && pos in w.ops
      ensures var op := w.ops[pos];
              n == w.(ops := w.ops[pos := op.(result := Some(result))],
                      cps := w.cps[pos := Checkpoint(op.name, op.id, payload, Active, None, FRESH_BUDGET, FRESH_TIMER)],
                      cursor := Script(cursor))
    {
      hide ViewOf, Slice, Only, TopOf, Keyed;
      n := w;
      Reads(Now(), id, pos);
      var h, op := workflows[id], operations[(id, pos)];
      n := PutOperation(id, pos, op.(result := Some(result)), db, n);
      n := PutCheckpoint(id, pos, Checkpoint(op.name, op.id, payload, Active, None, FRESH_BUDGET, FRESH_TIMER), db, n);
      n := SetWorkflow(id, h.(cursor := Script(cursor)), db, n);
    }

    /** Complete a workflow with its return value. */
    method Complete(id: Id, ret: Option<Doc>, ts: Ts, executor: Id, ghost db: Db, ghost w: Workflow)
      returns (ghost n: Workflow)
      requires Keyed(Now()) && id in workflows && View() == db[id := w]
      modifies this`workflows, this`events
      ensures Keyed(Now()) && View() == db[id := n]
      ensures n == Stamp(w.(state := Completed, disposition := Succeeded, lease := None, returned := ret),
                         ts, EvWorkflowCompleted, Some(executor))
    {
      hide ViewOf, Slice, Only, TopOf, Keyed, Stamp;
      n := w;
      Reads(Now(), id, 0);
      n := SetWorkflow(id, workflows[id].(state := Completed, disposition := Succeeded, lease := None, returned := ret),
                       db, n);
      n := AppendEvent(id, ts, EvWorkflowCompleted, Some(executor), db, n);
    }

    /** Park a workflow on a forward position. */
    method ParkForward(id: Id, pos: nat, ts: Ts, executor: Id, ghost db: Db, ghost w: Workflow)
      returns (ghost n: Workflow)
      requires Keyed(Now()) && id in workflows && View() == db[id := w]
      modifies this`workflows, this`events
      ensures Keyed(Now()) && View() == db[id := n]
      ensures n == Stamp(w.(state := Blocked, direction := Ahead, disposition := Indeterminate,
                            cursor := StuckForward(pos), lease := None), ts, EvRouteUnknown, Some(executor))
    {
      hide ViewOf, Slice, Only, TopOf, Keyed, Stamp;
      n := w;
      Reads(Now(), id, 0);
      var h := workflows[id].(state := Blocked, direction := Ahead, disposition := Indeterminate,
                              cursor := StuckForward(pos), lease := None);
      n := SetWorkflow(id, h, db, n);
      n := AppendEvent(id, ts, EvRouteUnknown, Some(executor), db, n);
    }

    /** Create and pin a workflow, or answer from the winner's pin. */
    method CreatePlanned(c: Cmd) returns (out: Outcome)
      requires c.CreatePlanned? && Valid()
      modifies this`workflows, this`events
      ensures Valid() && DbStep(out, View()) == Apply(old(View()), c)
    {
      hide Apply, Inv, ViewOf, Slice, Only, TopOf, Malformed, Keyed, Hinted;
      ghost var db := View();
      InvStays(db, maxDepth, c);
      Turned(db, c);
      if Malformed(c) { return Invalid; }
      SpanningCalls(db, c);
      if c.wf in workflows {
        Reads(Now(), c.wf, 0);
        var h := workflows[c.wf];
        if h.script != c.script { return PlanConflict; }
        if h.args != c.args { return WorkflowConflict; }
        return PlanExists(h.pin);
      }
      StartWorkflow(c.wf, c.script, c.pin, c.args, None, c.cursor, c.nextAttempt, c.ts);
      return Created(c.pin);
    }

    /** Take a lease on a claimable workflow and bump its fencing token. */
    method Claim(c: Cmd) returns (out: Outcome)
      requires c.Claim? && Valid()
      modifies this`workflows
      ensures Valid() && DbStep(out, View()) == Apply(old(View()), c)
    {
      hide Apply, Inv, ViewOf, Slice, Only, TopOf, Malformed, Keyed, Hinted;
      ghost var db := View();
      InvStays(db, maxDepth, c);
      Turned(db, c);
      if Malformed(c) { return Invalid; }
      if c.wf !in workflows { return NotFound; }
      var h := workflows[c.wf];
      ghost var w := db[c.wf];
      Same(db, c.wf);
      LeaseCalls(db, c);
      Reads(Now(), c.wf, 0);
      var open := (h.state.Forward? || h.state.Reversing?) && h.nextAttempt <= c.now;
      if !open || (h.lease.Some? && h.lease.value.expires >= c.now) { return NotClaimable; }
      w := SetWorkflow(c.wf, h.(lease := Some(Lease(c.executor, c.expires)), token := h.token + 1), db, w);
      return Claimed(h.token + 1);
    }

    /** Extend a live lease. */
    method Heartbeat(c: Cmd) returns (out: Outcome)
      requires c.Heartbeat? && Valid()
      modifies this`workflows
      ensures Valid() && DbStep(out, View()) == Apply(old(View()), c)
    {
      hide Apply, Inv, ViewOf, Slice, Only, TopOf, Malformed, Keyed, Hinted;
      ghost var db := View();
      InvStays(db, maxDepth, c);
      Turned(db, c);
      if Malformed(c) { return Invalid; }
      if c.wf !in workflows { return NotFound; }
      var h := workflows[c.wf];
      ghost var w := db[c.wf];
      Same(db, c.wf);
      LeaseCalls(db, c);
      Reads(Now(), c.wf, 0);
      if !HeldBy(h, c.executor, c.token) || h.lease.value.expires < c.now { return FenceLost; }
      if !(h.state.Forward? || h.state.Reversing?) { return FenceLost; }
      w := SetWorkflow(c.wf, h.(lease := Some(Lease(c.executor, c.expires))), db, w);
      return Extended;
    }

    /** Give the lease back and schedule the next attempt. */
    method Release(c: Cmd) returns (out: Outcome)
      requires c.Release? && Valid()
      modifies this`workflows
      ensures Valid() && DbStep(out, View()) == Apply(old(View()), c)
    {
      hide Apply, Inv, ViewOf, Slice, Only, TopOf, Malformed, Keyed, Hinted;
      ghost var db := View();
      InvStays(db, maxDepth, c);
      Turned(db, c);
      if Malformed(c) { return Invalid; }
      if c.wf !in workflows { return NotFound; }
      var h := workflows[c.wf];
      ghost var w := db[c.wf];
      Same(db, c.wf);
      LeaseCalls(db, c);
      Reads(Now(), c.wf, 0);
      if !HeldBy(h, c.executor, c.token) || !(h.state.Forward? || h.state.Reversing?) { return FenceLost; }
      w := SetWorkflow(c.wf, h.(lease := None, nextAttempt := c.nextAttempt), db, w);
      return Released;
    }

    /** Persist an operation and the suspended continuation before dispatch. */
    method RequestOperation(c: Cmd) returns (out: Outcome)
      requires c.OperationRequest? && Valid()
      modifies this`workflows, this`operations, this`events
      ensures Valid() && DbStep(out, View()) == Apply(old(View()), c)
    {
      hide OrderGuard, OpIdTaken, Indexed, Stamp;
      hide Apply, Inv, ViewOf, Slice, Only, TopOf, Malformed, Keyed, Hinted;
      ghost var db := View();
      InvStays(db, maxDepth, c);
      Turned(db, c);
      if Malformed(c) { return Invalid; }
      if c.wf !in workflows { return NotFound; }
      var h := workflows[c.wf];
      ghost var w := db[c.wf];
      Same(db, c.wf);
      ForwardCalls(db, c);
      Reads(Now(), c.wf, c.pos);
      if !HeldBy(h, c.executor, c.token) || !h.state.Forward? { return FenceLost; }
      var why := OutOfPlan(c.wf, c.pos);
      if why.Some? { return PlanViolation(why.value); }
      if (c.wf, c.pos) in operations {
        var op := operations[(c.wf, c.pos)];
        if op.id != c.opId || op.name != c.name || op.schema != c.schema || op.inputHash != c.inputHash {
          return OperationConflict;
        }
        return AlreadyRequested(op.id);
      }
      if c.ts <= h.eventTs { return Skew(h.eventTs + SKEW_DEFER); }
      IndexedIsTaken(Now(), c.opId);
      if Indexed(operations, c.opId) { return DuplicateKey; }
      w := PutOperation(c.wf, c.pos, Operation(c.opId, c.name, c.schema, c.input, c.inputHash, Participant, None,
                                               FRESH_BUDGET, FRESH_TIMER), db, w);
      w := SetWorkflow(c.wf, h.(cursor := Script(c.cursor)), db, w);
      w := AppendEvent(c.wf, c.ts, EvOperationRequested, Some(c.executor), db, w);
      return Requested(c.opId);
    }

    /** Store a result, push its checkpoint, and complete the workflow with the final one. */
    method SettleOperation(c: Cmd) returns (out: Outcome)
      requires c.OperationSettle? && Valid()
      modifies this`workflows, this`operations, this`checkpoints, this`events
      ensures Valid() && DbStep(out, View()) == Apply(old(View()), c)
    {
      hide Stamp;
      hide Apply, Inv, ViewOf, Slice, Only, TopOf, Malformed, Keyed, Hinted;
      ghost var db := View();
      InvStays(db, maxDepth, c);
      Turned(db, c);
      if Malformed(c) { return Invalid; }
      if c.wf !in workflows { return NotFound; }
      var h := workflows[c.wf];
      ghost var w := db[c.wf];
      Same(db, c.wf);
      ForwardCalls(db, c);
      Reads(Now(), c.wf, c.pos);
      if c.pos < 1 || c.pos > h.pin.length { return PlanViolation(SeqOutOfRange); }
      if c.cpPos != c.pos { return PlanViolation(CheckpointMismatch); }
      if c.final && c.pos != h.pin.length { return PlanViolation(FinalityEarly); }
      if (c.wf, c.pos) !in operations { return OperationNotFound; }
      var op := operations[(c.wf, c.pos)];
      if op.id != c.opId { return OperationConflict; }
      if op.Settled() { return AlreadySettled(op.result.value); }
      if !HeldBy(h, c.executor, c.token) || !h.state.Forward? { return FenceLost; }
      if c.ts <= h.eventTs { return Skew(h.eventTs + SKEW_DEFER); }
      w := PushResult(c.wf, c.pos, c.result, c.payload, c.cursor, db, w);
      if c.final {
        w := Complete(c.wf, c.ret, c.ts, c.executor, db, w);
      } else {
        w := AppendEvent(c.wf, c.ts, EvOperationSettled, Some(c.executor), db, w);
      }
      return Settled(c.result);
    }

    /** A definite rejection turns the workflow back, or fails it when nothing was settled. */
    method BeginReversal(c: Cmd) returns (out: Outcome)
      requires c.BeginReversal? && Valid()
      modifies this`workflows, this`events
      ensures Valid() && DbStep(out, View()) == Apply(old(View()), c)
    {
      hide Apply, Inv, ViewOf, Slice, Only, TopOf, Malformed, Keyed, Hinted;
      ghost var db := View();
      InvStays(db, maxDepth, c);
      Turned(db, c);
      if Malformed(c) { return Invalid; }
      if c.wf !in workflows { return NotFound; }
      var h := workflows[c.wf];
      ghost var w := db[c.wf];
      Same(db, c.wf);
      ForwardCalls(db, c);
      Reads(Now(), c.wf, c.pos);
      if h.trigger.Some? {
        if h.trigger.value != c.opId { return TriggerMismatch; }
        return AlreadyBegun(h.state, h.reason);
      }
      if (c.wf, c.pos) !in operations { return OperationNotFound; }
      if operations[(c.wf, c.pos)].id != c.opId { return OperationConflict; }
      if operations[(c.wf, c.pos)].Settled() { return OperationNotFailed; }
      if !HeldBy(h, c.executor, c.token) || !h.state.Forward? { return FenceLost; }
      if c.ts <= h.eventTs { return Skew(h.eventTs + SKEW_DEFER); }
      out := TurnRows(c.wf, c.executor, c.opId, c.ts, c.why, db);
    }

    /** A `fail` node turns the workflow back under its own stable id. */
    method AuthoredFail(c: Cmd) returns (out: Outcome)
      requires c.AuthoredFail? && Valid()
      modifies this`workflows, this`events
      ensures Valid() && DbStep(out, View()) == Apply(old(View()), c)
    {
      hide Apply, Inv, ViewOf, Slice, Only, TopOf, Malformed, Keyed, Hinted;
      ghost var db := View();
      InvStays(db, maxDepth, c);
      Turned(db, c);
      if Malformed(c) { return Invalid; }
      if c.wf !in workflows { return NotFound; }
      var h := workflows[c.wf];
      ghost var w := db[c.wf];
      Same(db, c.wf);
      ForwardCalls(db, c);
      Reads(Now(), c.wf, 0);
      if h.trigger.Some? {
        if h.trigger.value != c.opId { return TriggerMismatch; }
        return AlreadyBegun(h.state, h.reason);
      }
      if !HeldBy(h, c.executor, c.token) || !h.state.Forward? { return FenceLost; }
      if c.ts <= h.eventTs { return Skew(h.eventTs + SKEW_DEFER); }
      out := TurnRows(c.wf, c.executor, c.opId, c.ts, c.why, db);
    }

    /** Bind the top checkpoint to its compensation before dispatch. */
    method RequestReverse(c: Cmd) returns (out: Outcome)
      requires c.ReverseRequest? && Valid()
      modifies this`workflows, this`checkpoints, this`events
      ensures Valid() && DbStep(out, View()) == Apply(old(View()), c)
    {
      hide Apply, Inv, ViewOf, Slice, Only, TopOf, Malformed, Keyed, Hinted;
      ghost var db := View();
      InvStays(db, maxDepth, c);
      Turned(db, c);
      if Malformed(c) { return Invalid; }
      if c.wf !in workflows { return NotFound; }
      var h := workflows[c.wf];
      ghost var w := db[c.wf];
      Same(db, c.wf);
      ReverseCalls(db, c);
      Reads(Now(), c.wf, c.pos);
      if (c.wf, c.pos) !in checkpoints { return CheckpointNotFound; }
      var cp := checkpoints[(c.wf, c.pos)];
      if !cp.reversal.Active? { return CheckpointInactive; }
      if cp.binding.Some? {
        if cp.binding.value != c.binding { return BindingConflict; }
        return AlreadyDispatched(c.binding);
      }
      if !HeldBy(h, c.executor, c.token) || !h.state.Reversing? { return FenceLost; }
      var top := TopOf(Slice(checkpoints, c.wf));
      if top != Some(c.pos) { return OutOfOrder(top); }
      if c.ts <= h.eventTs { return Skew(h.eventTs + SKEW_DEFER); }
      w := PutCheckpoint(c.wf, c.pos, cp.(binding := Some(c.binding)), db, w);
      w := SetWorkflow(c.wf, h.(cursor := ReverseDispatched(c.pos)), db, w);
      w := AppendEvent(c.wf, c.ts, EvCompensationRequested, Some(c.executor), db, w);
      return Dispatched(c.binding.id);
    }

    /** Mark the top checkpoint compensated and descend, or finish the unwind. */
    method SettleReverse(c: Cmd) returns (out: Outcome)
      requires c.ReverseSettle? && Valid()
      modifies this`workflows, this`checkpoints, this`events
      ensures Valid() && DbStep(out, View()) == Apply(old(View()), c)
    {
      hide Apply, Inv, ViewOf, Slice, Only, TopOf, Malformed, Keyed, Hinted;
      ghost var db := View();
      InvStays(db, maxDepth, c);
      Turned(db, c);
      if Malformed(c) { return Invalid; }
      if c.wf !in workflows { return NotFound; }
      var h := workflows[c.wf];
      ghost var w := db[c.wf];
      Same(db, c.wf);
      ReverseCalls(db, c);
      Reads(Now(), c.wf, c.pos);
      if (c.wf, c.pos) !in checkpoints { return CheckpointNotFound; }
      var cp := checkpoints[(c.wf, c.pos)];
      if cp.binding.None? { return NotRequested; }
      if cp.binding.value.id != c.revId { return ReverseIdMismatch; }
      if cp.reversal.Undone? { return AlreadyReversed; }
      if !cp.reversal.Active? { return CheckpointNotSettleable; }
      if !HeldBy(h, c.executor, c.token) || !h.state.Reversing? { return FenceLost; }
      var top := TopOf(Slice(checkpoints, c.wf));
      if top != Some(c.pos) { return OutOfOrder(top); }
      if c.ts <= h.eventTs { return Skew(h.eventTs + SKEW_DEFER); }
      out := UndoTop(c.wf, c.pos, c.ts, c.executor, db);
    }

    /** Park the unwind on a compensation that definitely failed or is unknown. */
    method BlockReverse(c: Cmd) returns (out: Outcome)
      requires c.ReverseBlock? && Valid()
      modifies this`workflows, this`checkpoints, this`events
      ensures Valid() && DbStep(out, View()) == Apply(old(View()), c)
    {
      hide Apply, Inv, ViewOf, Slice, Only, TopOf, Malformed, Keyed, Hinted;
      ghost var db := View();
      InvStays(db, maxDepth, c);
      Turned(db, c);
      if Malformed(c) { return Invalid; }
      if c.wf !in workflows { return NotFound; }
      var h := workflows[c.wf];
      ghost var w := db[c.wf];
      Same(db, c.wf);
      ReverseCalls(db, c);
      Reads(Now(), c.wf, c.pos);
      if (c.wf, c.pos) !in checkpoints { return CheckpointNotFound; }
      var cp := checkpoints[(c.wf, c.pos)];
      if cp.binding.None? { return NotRequested; }
      if cp.binding.value.id != c.revId { return ReverseIdMismatch; }
      if cp.reversal.ResolutionRequired? { return AlreadyBlocked; }
      if !cp.reversal.Active? { return CheckpointNotBlockable; }
      if !HeldBy(h, c.executor, c.token) || !h.state.Reversing? { return FenceLost; }
      var top := TopOf(Slice(checkpoints, c.wf));
      if top != Some(c.pos) { return OutOfOrder(top); }
      if c.ts <= h.eventTs { return Skew(h.eventTs + SKEW_DEFER); }
      w := Park(c.wf, c.pos, c.disposition, c.ts, EvCompensationBlocked, c.executor, db, w);
      return BlockedNow;
    }

    /** Charge the forward route-404 budget; block when it is spent. */
    method DeferRoute404(c: Cmd) returns (out: Outcome)
      requires c.ReconcileDefer? && Valid()
      modifies this`workflows, this`operations, this`events
      ensures Valid() && DbStep(out, View()) == Apply(old(View()), c)
    {
      hide Exhausted, Charge, Stamp;
      hide Apply, Inv, ViewOf, Slice, Only, TopOf, Malformed, Keyed, Hinted;
      ghost var db := View();
      InvStays(db, maxDepth, c);
      Turned(db, c);
      if Malformed(c) { return Invalid; }
      if c.wf !in workflows { return NotFound; }
      var h := workflows[c.wf];
      ghost var w := db[c.wf];
      Same(db, c.wf);
      DeferCalls(db, c);
      Reads(Now(), c.wf, c.pos);
      if !HeldBy(h, c.executor, c.token) || !h.state.Forward? { return FenceLost; }
      if (c.wf, c.pos) !in operations { return OperationNotFound; }
      var op := operations[(c.wf, c.pos)];
      if op.id != c.opId { return OperationConflict; }
      if op.Settled() { return OperationNotRequested; }
      var spent := Exhausted(op.budget, c.now, c.maxElapsed, c.minAttempts);
      if spent && c.ts <= h.eventTs { return Skew(h.eventTs + SKEW_DEFER); }
      w := PutOperation(c.wf, c.pos, op.(budget := Charge(op.budget, c.now)), db, w);
      if spent {
        w := ParkForward(c.wf, c.pos, c.ts, c.executor, db, w);
        return BlockedNow;
      }
      w := Reschedule(c.wf, c.nextAttempt, c.ts > h.eventTs, c.ts, EvRoute404, c.executor, db, w);
      return Deferred(op.budget.attempts + 1);
    }

    /** Charge the budget of a compensation; park its checkpoint when it is spent. */
    method DeferReverseRoute404(c: Cmd) returns (out: Outcome)
      requires c.ReverseReconcileDefer? && Valid()
      modifies this`workflows, this`checkpoints, this`events
      ensures Valid() && DbStep(out, View()) == Apply(old(View()), c)
    {
      hide Exhausted, Charge, Stamp;
      hide Apply, Inv, ViewOf, Slice, Only, TopOf, Malformed, Keyed, Hinted;
      ghost var db := View();
      InvStays(db, maxDepth, c);
      Turned(db, c);
      if Malformed(c) { return Invalid; }
      if c.wf !in workflows { return NotFound; }
      var h := workflows[c.wf];
      ghost var w := db[c.wf];
      Same(db, c.wf);
      DeferCalls(db, c);
      Reads(Now(), c.wf, c.pos);
      if (c.wf, c.pos) !in checkpoints { return CheckpointNotFound; }
      var cp := checkpoints[(c.wf, c.pos)];
      if cp.binding.None? { return NotRequested; }
      if cp.binding.value.id != c.revId { return ReverseIdMismatch; }
      if cp.reversal.ResolutionRequired? { return AlreadyBlocked; }
      if !cp.reversal.Active? { return CheckpointNotActive; }
      if !HeldBy(h, c.executor, c.token) || !h.state.Reversing? { return FenceLost; }
      var top := TopOf(Slice(checkpoints, c.wf));
      if top != Some(c.pos) { return OutOfOrder(top); }
      var spent := Exhausted(cp.budget, c.now, c.maxElapsed, c.minAttempts);
      if spent && c.ts <= h.eventTs { return Skew(h.eventTs + SKEW_DEFER); }
      w := PutCheckpoint(c.wf, c.pos, cp.(budget := Charge(cp.budget, c.now)), db, w);
      if spent {
        w := Park(c.wf, c.pos, Indeterminate, c.ts, EvRouteUnknown, c.executor, db, w);
        return BlockedNow;
      }
      w := Reschedule(c.wf, c.nextAttempt, c.ts > h.eventTs, c.ts, EvRoute404, c.executor, db, w);
      return Deferred(cp.budget.attempts + 1);
    }

    /** A recovered dispatch still pends: wait, or dispatch again once overdue. */
    method DeferPending(c: Cmd) returns (out: Outcome)
      requires c.PendingDefer? && Valid()
      modifies this`workflows, this`operations, this`events
      ensures Valid() && DbStep(out, View()) == Apply(old(View()), c)
    {
      hide Overdue, Escalate, Observe, Stamp;
      hide Apply, Inv, ViewOf, Slice, Only, TopOf, Malformed, Keyed, Hinted;
      ghost var db := View();
      InvStays(db, maxDepth, c);
      Turned(db, c);
      if Malformed(c) { return Invalid; }
      if c.wf !in workflows { return NotFound; }
      var h := workflows[c.wf];
      ghost var w := db[c.wf];
      Same(db, c.wf);
      DeferCalls(db, c);
      Reads(Now(), c.wf, c.pos);
      if !HeldBy(h, c.executor, c.token) || !h.state.Forward? { return FenceLost; }
      if (c.wf, c.pos) !in operations { return OperationNotFound; }
      var op := operations[(c.wf, c.pos)];
      if op.id != c.opId { return OperationConflict; }
      if op.Settled() { return OperationNotRequested; }
      if Overdue(op.timer, c.now, c.after) {
        w := PutOperation(c.wf, c.pos, op.(timer := Escalate(op.timer, c.now)), db, w);
        w := AppendIfLater(c.wf, c.ts, EvPendingRedispatch, c.executor, db, w);
        return Redispatch(op.timer.count + 1);
      }
      w := PutOperation(c.wf, c.pos, op.(timer := Observe(op.timer, c.now)), db, w);
      w := Reschedule(c.wf, c.nextAttempt, c.ts > h.eventTs, c.ts, EvPendingDeferred, c.executor, db, w);
      return Outcome.PendingDefer(op.timer.count);
    }

    /** The same for a compensation. */
    method DeferReversePending(c: Cmd) returns (out: Outcome)
      requires c.ReversePendingDefer? && Valid()
      modifies this`workflows, this`checkpoints, this`events
      ensures Valid() && DbStep(out, View()) == Apply(old(View()), c)
    {
      hide Overdue, Escalate, Observe, Stamp;
      hide Apply, Inv, ViewOf, Slice, Only, TopOf, Malformed, Keyed, Hinted;
      ghost var db := View();
      InvStays(db, maxDepth, c);
      Turned(db, c);
      if Malformed(c) { return Invalid; }
      if c.wf !in workflows { return NotFound; }
      var h := workflows[c.wf];
      ghost var w := db[c.wf];
      Same(db, c.wf);
      DeferCalls(db, c);
      Reads(Now(), c.wf, c.pos);
      if (c.wf, c.pos) !in checkpoints { return CheckpointNotFound; }
      var cp := checkpoints[(c.wf, c.pos)];
      if cp.binding.None? { return NotRequested; }
      if cp.binding.value.id != c.revId { return ReverseIdMismatch; }
      if cp.reversal.ResolutionRequired? { return AlreadyBlocked; }
      if !cp.reversal.Active? { return CheckpointNotActive; }
      if !HeldBy(h, c.executor, c.token) || !h.state.Reversing? { return FenceLost; }
      var top := TopOf(Slice(checkpoints, c.wf));
      if top != Some(c.pos) { return OutOfOrder(top); }
      if Overdue(cp.timer, c.now, c.after) {
        w := PutCheckpoint(c.wf, c.pos, cp.(timer := Escalate(cp.timer, c.now)), db, w);
        w := AppendIfLater(c.wf, c.ts, EvPendingRedispatch, c.executor, db, w);
        return Redispatch(cp.timer.count + 1);
      }
      w := PutCheckpoint(c.wf, c.pos, cp.(timer := Observe(cp.timer, c.now)), db, w);
      w := Reschedule(c.wf, c.nextAttempt, c.ts > h.eventTs, c.ts, EvPendingDeferred, c.executor, db, w);
      return Outcome.PendingDefer(cp.timer.count);
    }

    /** Back off before a dispatch; a repeated reason is not logged twice. */
    method DeferDispatch(c: Cmd) returns (out: Outcome)
      requires c.DispatchDefer? && Valid()
      modifies this`workflows, this`events
      ensures Valid() && DbStep(out, View()) == Apply(old(View()), c)
    {
      hide Stamp;
      hide Apply, Inv, ViewOf, Slice, Only, TopOf, Malformed, Keyed, Hinted;
      ghost var db := View();
      InvStays(db, maxDepth, c);
      Turned(db, c);
      if Malformed(c) { return Invalid; }
      if c.wf !in workflows { return NotFound; }
      var h := workflows[c.wf];
      ghost var w := db[c.wf];
      Same(db, c.wf);
      LeaseCalls(db, c);
      Reads(Now(), c.wf, 0);
      if !HeldBy(h, c.executor, c.token) || !(h.state.Forward? || h.state.Reversing?) { return FenceLost; }
      var repeated := LastIs(c.wf, EvDispatchDeferred(c.why));
      var append := !repeated && c.ts > h.eventTs;
      w := Reschedule(c.wf, c.nextAttempt, append, c.ts, EvDispatchDeferred(c.why), c.executor, db, w);
      return DispatchDeferred(append);
    }

    /** The child of a call, with its place in the call tree. */
    method InsertChild(c: Cmd, ghost db: Db, ghost w: Workflow)
      requires Keyed(Now()) && c.CallSubmit? && c.wf in workflows && c.childId !in workflows
      requires View() == db[c.wf := w] && c.wf in db && w.ancestry == db[c.wf].ancestry
      modifies this`workflows, this`events
      ensures Keyed(Now()) && c.wf in workflows && workflows[c.wf] == old(workflows)[c.wf]
      ensures View() == db[c.childId := SubmittedChild(db[c.wf], c)][c.wf := w]
    {
      hide NewWorkflow, ViewOf, Slice, Only, TopOf, Keyed;
      Reads(Now(), c.wf, 0);
      var h := workflows[c.wf];
      var depth := (if h.ancestry.Some? then h.ancestry.value.depth else 0) + 1;
      var root := if h.ancestry.Some? then h.ancestry.value.root else c.wf;
      StartWorkflow(c.childId, c.childScript, c.childPin, c.input, Some(Ancestry(c.wf, c.node, root, depth)),
                    c.childCursor, c.childNext, c.ts);
      PutsCommute(db, c.wf, w, c.childId, SubmittedChild(db[c.wf], c));
    }

    /** The write phase of a call: the operation row, the child with its first event, the sidecar, the parent's
      * event. */
    method InsertCall(c: Cmd, ghost db: Db)
      requires Keyed(Now()) && c.CallSubmit? && c.wf in workflows && c.childId !in workflows && View() == db
      modifies this
      ensures c.wf in db && Keyed(Now())
      ensures View() == db[c.wf := SubmittedParent(db[c.wf], c)][c.childId := SubmittedChild(db[c.wf], c)]
      ensures hints == old(hints)[(c.wf, c.pos) := UNSEEN]
      ensures Hinted(old(hints), old(calls)) ==> Hinted(hints, calls)
    {
      hide Stamp, SubmittedChild, Hinted;
      hide ViewOf, Slice, Only, TopOf, Keyed;
      var h := workflows[c.wf];
      ghost var w := db[c.wf];
      Same(db, c.wf);
      Reads(Now(), c.wf, c.pos);
      w := PutOperation(c.wf, c.pos, Operation(c.opId, c.childScript, 1, c.input, c.inputHash, ChildWorkflow, None,
                                          FRESH_BUDGET, FRESH_TIMER), db, w);
      InsertChild(c, db, w);
      ghost var x := SubmittedChild(db[c.wf], c);
      ghost var db' := db[c.childId := x];
      var call := Call(c.childId, c.childScript, c.childPin.version, c.childPin.hash);
      HintAdded(hints, calls, (c.wf, c.pos), call);
      w := PutCall(c.wf, c.pos, call, db', w);
      hints := hints[(c.wf, c.pos) := UNSEEN];
      w := SetWorkflow(c.wf, h.(cursor := Script(c.cursor)), db', w);
      w := AppendEvent(c.wf, c.ts, EvCallSubmitted, Some(c.executor), db', w);
      assert w == SubmittedParent(db[c.wf], c);
      PutsCommute(db, c.wf, w, c.childId, x);
    }

    /** Start a child workflow for a call position, guarded against deep and recursive calls. */
    method SubmitCall(c: Cmd) returns (out: Outcome)
      requires c.CallSubmit? && c.maxDepth <= maxDepth && Valid()
      modifies this
      ensures Valid() && DbStep(out, View()) == Apply(old(View()), c)
      ensures hints == if out.Submitted? then old(hints)[(c.wf, c.pos) := UNSEEN] else old(hints)
    {
      hide OrderGuard, OpIdTaken, InLineage, SameSubmission, SubmittedParent, SubmittedChild, Indexed;
      hide Apply, Inv, ViewOf, Slice, Only, TopOf, Malformed, Keyed, Hinted;
      ghost var db := View();
      InvStays(db, maxDepth, c);
      Turned(db, c);
      if Malformed(c) { return Invalid; }
      SpanningCalls(db, c);
      if c.wf !in workflows { return NotFound; }
      var h := workflows[c.wf];
      ghost var w := db[c.wf];
      Same(db, c.wf);
      Reads(Now(), c.wf, c.pos);
      if !HeldBy(h, c.executor, c.token) || !h.state.Forward? { return FenceLost; }
      var why := OutOfPlan(c.wf, c.pos);
      if why.Some? { return PlanViolation(why.value); }
      if (c.wf, c.pos) in operations {
        var same := Resubmitted(c);
        if !same { return CallConflict; }
        return AlreadySubmitted(calls[(c.wf, c.pos)].child);
      }
      var depth := (if h.ancestry.Some? then h.ancestry.value.depth else 0) + 1;
      if depth > c.maxDepth { return MaxCallDepthExceeded; }
      var cycle := PlanAbove(c.wf, c.maxDepth, PlanId(c.childScript, c.childPin.version, c.childPin.hash));
      if cycle { return CallCycle; }
      if c.ts <= h.eventTs { return Skew(h.eventTs + SKEW_DEFER); }
      IndexedIsTaken(Now(), c.opId);
      if Indexed(operations, c.opId) || c.childId in workflows { return DuplicateKey; }
      InsertCall(c, db);
      return Submitted(c.childId);
    }

    /** The row of a child that is to compensate itself. */
    method TurnChild(id: Id, ts: Ts, executor: Id, ghost db: Db, ghost w: Workflow)
      requires Keyed(Now()) && id in workflows && View() == db[id := w] && w.Top().Some?
      modifies this`workflows, this`events
      ensures Keyed(Now()) && View() == db[id := ReopenedChild(w, ts, executor)]
    {
      hide ViewOf, Slice, Only, TopOf, Keyed, Stamp;
      Reads(Now(), id, 0);
      var child := workflows[id];
      var top := TopOf(Slice(checkpoints, id));
      ghost var n := w;
      n := SetWorkflow(id, child.(state := Reversing, direction := Back, disposition := Rejected,
                                  cursor := ReverseAt(top.value), token := child.token + 1,
                                  reason := Some("parent_compensation"), returned := None, nextAttempt := ts), db, n);
      n := AppendEvent(id, ts, EvRequestedByParent, Some(executor), db, n);
    }

    /** Turn a completed child back so that it compensates itself. */
    method ReopenChild(c: Cmd) returns (out: Outcome)
      requires c.ChildReopen? && Valid()
      modifies this`workflows, this`events
      ensures Valid() && DbStep(out, View()) == Apply(old(View()), c)
    {
      hide ReopenedChild, Stamp;
      hide Apply, Inv, ViewOf, Slice, Only, TopOf, Malformed, Keyed, Hinted;
      ghost var db := View();
      InvStays(db, maxDepth, c);
      Turned(db, c);
      if Malformed(c) { return Invalid; }
      SpanningCalls(db, c);
      if c.wf !in workflows { return NotFound; }
      var h := workflows[c.wf];
      ghost var w := db[c.wf];
      Same(db, c.wf);
      Reads(Now(), c.wf, c.pos);
      if (c.wf, c.pos) !in checkpoints { return CheckpointNotFound; }
      if (c.wf, c.pos) !in operations || !operations[(c.wf, c.pos)].kind.ChildWorkflow? { return NotCallCheckpoint; }
      if (c.wf, c.pos) !in calls { return SidecarNotFound; }
      var childId := calls[(c.wf, c.pos)].child;
      if childId !in workflows { return ChildNotFound; }
      var child := workflows[childId];
      Reads(Now(), childId, 0);
      if child.state in {Reversing, Blocked, Reversed, ResolvedException} { return AlreadyReopened(child.state); }
      if child.state != Completed { return ChildStateInconsistent; }
      if !HeldBy(h, c.executor, c.token) || !h.state.Reversing? { return FenceLost; }
      var top := TopOf(Slice(checkpoints, c.wf));
      if top != Some(c.pos) { return OutOfOrder(top); }
      var childTop := TopOf(Slice(checkpoints, childId));
      if childTop.None? { return ChildNoActiveCheckpoint; }
      if c.ts <= h.eventTs || c.ts <= child.eventTs {
        return Skew((if h.eventTs < child.eventTs then child.eventTs else h.eventTs) + SKEW_DEFER);
      }
      ParentDiffers(db, maxDepth, c);
      w := AppendEvent(c.wf, c.ts, EvCompensationRequested, Some(c.executor), db, w);
      ghost var db' := View();
      ghost var x := db'[childId];
      Same(db', childId);
      TurnChild(childId, c.ts, c.executor, db', x);
      return Reopened(childId);
    }

    /** Mark a call checkpoint compensated once the child's own unwind is over. */
    method SettleChild(c: Cmd) returns (out: Outcome)
      requires c.ChildSettle? && Valid()
      modifies this`workflows, this`checkpoints, this`events
      ensures Valid() && DbStep(out, View()) == Apply(old(View()), c)
    {
      hide Apply, Inv, ViewOf, Slice, Only, TopOf, Malformed, Keyed, Hinted;
      ghost var db := View();
      InvStays(db, maxDepth, c);
      Turned(db, c);
      if Malformed(c) { return Invalid; }
      SpanningCalls(db, c);
      if c.wf !in workflows { return NotFound; }
      var h := workflows[c.wf];
      ghost var w := db[c.wf];
      Same(db, c.wf);
      Reads(Now(), c.wf, c.pos);
      if (c.wf, c.pos) !in checkpoints { return CheckpointNotFound; }
      if (c.wf, c.pos) !in operations || !operations[(c.wf, c.pos)].kind.ChildWorkflow? { return NotCallCheckpoint; }
      var cp := checkpoints[(c.wf, c.pos)];
      if cp.reversal.Undone? { return AlreadyReversed; }
      if !cp.reversal.Active? { return CheckpointNotSettleable; }
      if !HeldBy(h, c.executor, c.token) || !h.state.Reversing? { return FenceLost; }
      var top := TopOf(Slice(checkpoints, c.wf));
      if top != Some(c.pos) { return OutOfOrder(top); }
      if (c.wf, c.pos) !in calls { return SidecarNotFound; }
      var childId := calls[(c.wf, c.pos)].child;
      if childId !in workflows { return ChildNotFound; }
      Reads(Now(), childId, 0);
      var childState := workflows[childId].state;
      if childState in {Reversing, Blocked} { return ChildNotTerminal(childState); }
      if childState !in {Reversed, ResolvedException} { return ChildNotCompensated(childState); }
      if c.ts <= h.eventTs { return Skew(h.eventTs + SKEW_DEFER); }
      out := UndoTop(c.wf, c.pos, c.ts, c.executor, db);
    }

    /** Wake the one caller of a finished child. */
    method WakeCaller(c: Cmd) returns (out: Outcome, k: Key)
      requires c.TerminalNotify? && Valid()
      modifies this`workflows
      ensures Valid() && DbStep(out, View()) == Apply(old(View()), c)
      ensures out.Notified? ==> k in calls && forall q :: q in calls && calls[q].child == c.childId <==> q == k
    {
      hide Apply, Inv, ViewOf, Slice, Only, TopOf, Malformed, Keyed, Hinted;
      ghost var db := View();
      k := (0, 0);
      InvStays(db, maxDepth, c);
      Turned(db, c);
      if Malformed(c) { return Invalid, k; }
      SpanningCalls(db, c);
      if !exists q :: q in calls && calls[q].child == c.childId {
        NobodyCalls(Now(), c.childId);
        return NotFound, k;
      }
      k :| k in calls && calls[k].child == c.childId;
      OnlyCall(Now(), maxDepth, k);
      CallKeyed(Now(), k);
      CallerIs(Now(), k.0, c.childId);
      OneCallerWakes(db, maxDepth, c, k.0);
      Reads(Now(), k.0, 0);
      var h := workflows[k.0];
      ghost var w := db[k.0];
      Same(db, k.0);
      w := SetWorkflow(k.0, h.(nextAttempt := if c.ts < h.nextAttempt then c.ts else h.nextAttempt), db, w);
      return Notified, k;
    }

    /** Wake the caller, and show how the child ended. */
    method NotifyTerminal(c: Cmd, status: ChildStatus) returns (out: Outcome)
      requires c.TerminalNotify? && Valid()
      modifies this`workflows, this`hints
      ensures Valid()
      ensures if status.ChildCompleted? || status.ChildFailed? then DbStep(out, View()) == Apply(old(View()), c)
              else out == Invalid && View() == old(View())
      ensures forall q :: q in hints ==>
                q in old(hints) && hints[q] == if out.Notified? && calls[q].child == c.childId
                                               then Refreshed(old(hints)[q], Report(status, c.ts)) else old(hints)[q]
    {
      hide Apply, Inv, ViewOf, Keyed, Hinted, Refreshed;
      HintedSame(hints, calls);
      if !status.ChildCompleted? && !status.ChildFailed? { return Invalid; }
      var k;
      out, k := WakeCaller(c);
      if out.Notified? {
        HintPut(hints, calls, k, Refreshed(hints[k], Report(status, c.ts)));
        hints := hints[k := Refreshed(hints[k], Report(status, c.ts))];
      }
    }

    /** Show what a poll saw of a child that has not ended. */
    method RefreshHint(id: Id, pos: nat, status: ChildStatus, ts: Ts) returns (reply: RefreshReply)
      requires Valid()
      modifies this`hints
      ensures Valid()
      ensures reply == if pos < 1 then BadPosition else if (id, pos) in calls then HintRefreshed else NoSuchCall
      ensures hints == if reply.HintRefreshed?
                       then old(hints)[(id, pos) := Refreshed(old(hints)[(id, pos)], Report(status, ts))]
                       else old(hints)
    {
      hide Inv, ViewOf, Keyed, Hinted, Refreshed;
      if pos < 1 { return BadPosition; }
      if (id, pos) !in calls { return NoSuchCall; }
      HintedSame(hints, calls);
      HintPut(hints, calls, (id, pos), Refreshed(hints[(id, pos)], Report(status, ts)));
      hints := hints[(id, pos) := Refreshed(hints[(id, pos)], Report(status, ts))];
      return HintRefreshed;
    }
  }
}
