/** The local invariant: what the rows of one workflow look like in every reachable store. */
module Soundness {
  import opened Options
  import opened Rows
  import opened Procedures

  type Ops = map<nat, Operation>
  type Cps = map<nat, Checkpoint>
  type Calls = map<nat, Call>

  /** Operations fill 1..n of the plan with only the last possibly unsettled; a checkpoint
    * exists exactly for each settled operation, a sidecar exactly for each call. */
  ghost predicate Spine(length: nat, ops: Ops, cps: Cps, calls: Calls) {
    && (forall i: nat :: i in ops ==> 1 <= i <= length)
    && (forall i: nat, j: nat :: i in ops && 1 <= j < i ==> j in cps)
    && (forall i: nat :: i in cps ==>
        i in ops && ops[i].Settled() && cps[i].opId == ops[i].id && cps[i].name == ops[i].name)
    && (forall i: nat :: i in ops && ops[i].Settled() ==> i in cps)
    && (forall i: nat :: i in calls ==> i in ops && ops[i].kind.ChildWorkflow?)
    && (forall i: nat :: i in ops && ops[i].kind.ChildWorkflow? ==> i in calls)
  }

  /** Position of a checkpoint in its life: active, then parked, then undone. */
  function Rank(r: ReversalState): nat {
    match r case Active => 0 case ResolutionRequired => 1 case Undone => 2 case Disposed => 3
  }

  /** Last in, first out: reading the stack upwards, checkpoints are active, then at most one
    * is parked, then all are undone; only the top active one may have been dispatched. */
  ghost predicate Lifo(cps: Cps, calls: Calls) {
    && (forall i: nat, j: nat :: i in cps && j in cps && i < j ==> Rank(cps[i].reversal) <= Rank(cps[j].reversal))
    && (forall i: nat, j: nat :: i in cps && j in cps && i < j && !cps[j].reversal.Undone? ==>
          cps[i].reversal.Active? && cps[i].binding.None?)
    && (forall i: nat :: i in cps ==> Legal(cps[i], i in calls))
  }

  /** A parked checkpoint was dispatched; an undone one was dispatched or stands for a call. */
  predicate Legal(cp: Checkpoint, call: bool) {
    !cp.reversal.Disposed?
    && (cp.reversal.ResolutionRequired? ==> cp.binding.Some?)
    && (cp.reversal.Undone? ==> cp.binding.Some? || call)
  }

  /** Nothing has been compensated or dispatched for compensation. */
  ghost predicate Pristine(cps: Cps) {
    forall i: nat :: i in cps ==> cps[i].reversal.Active? && cps[i].binding.None?
  }

  ghost predicate NoneParked(cps: Cps) {
    forall i: nat :: i in cps ==> !cps[i].reversal.ResolutionRequired?
  }

  ghost predicate AllUndone(cps: Cps) {
    forall i: nat :: i in cps ==> cps[i].reversal.Undone?
  }

  /** Where the durable cursor points while unwinding. */
  function ReverseCursor(cps: Cps, top: nat): Continuation
    requires top in cps
  {
    if cps[top].binding.Some? then ReverseDispatched(top) else ReverseAt(top)
  }

  /** Each state with the direction, disposition, cursor and stack it allows. */
  ghost predicate Agrees(w: Workflow) {
    match w.state
    case Forward =>
      w.direction.Ahead? && w.disposition.Unset? && w.cursor.Script? && Pristine(w.cps)
    case Completed =>
      w.direction.Ahead? && w.disposition.Succeeded? && w.cursor.Script? && Pristine(w.cps) && w.pin.length in w.cps
    case Reversing =>
      w.direction.Back? && w.disposition.Rejected? && NoneParked(w.cps)
      && w.Top().Some? && w.cursor == ReverseCursor(w.cps, w.Top().value)
    case Reversed =>
      w.direction.Back? && w.disposition.Rejected? && w.cursor == UnwindDone && w.cps != map[] && AllUndone(w.cps)
    case Failed =>
      w.direction.Back? && w.disposition.Rejected? && w.cursor == NothingToUnwind && w.cps == map[] && w.trigger.Some?
    case Blocked => Parked(w)
    case ResolvedException => Parked(w)
  }

  /** A block remembers which way the workflow was going and what it is stuck on. */
  ghost predicate Parked(w: Workflow) {
    if w.direction.Ahead? then
      w.disposition.Indeterminate? && Pristine(w.cps)
      && w.cursor.StuckForward? && w.cursor.at in w.ops && w.cursor.at !in w.cps
    else
      (w.disposition.Rejected? || w.disposition.Indeterminate?)
      && w.cursor.StuckReverse? && w.cursor.at in w.cps && w.cps[w.cursor.at].reversal.ResolutionRequired?
  }

  ghost predicate Fields(w: Workflow) {
    && w.pin.length >= 1
    && (w.lease.Some? ==> (w.state.Forward? || w.state.Reversing?) && w.token >= 1)
    && (w.returned.Some? <==> w.state.Completed?)
    && (w.reason.Some? <==> w.direction.Back?)
    && (w.trigger.Some? ==> w.direction.Back?)
    && (w.direction.Back? && w.trigger.None? ==>
          w.ancestry.Some? && w.reason == Some("parent_compensation") && w.pin.length in w.cps)
  }

  ghost predicate Chronology(events: seq<Event>, ts: Ts) {
    && |events| > 0
    && (forall i: nat, j: nat :: i < j < |events| ==> events[i].ts < events[j].ts)
    && events[|events| - 1].ts == ts
  }

  ghost predicate Sound(w: Workflow) {
    Spine(w.pin.length, w.ops, w.cps, w.calls) && Lifo(w.cps, w.calls) && Agrees(w) && Fields(w)
    && Chronology(w.events, w.eventTs)
  }

  // ---------------------------------------------------------------- the components, one change at a time

  lemma LogGrows(events: seq<Event>, ts: Ts, e: Event)
    requires Chronology(events, ts) && e.ts > ts
    ensures Chronology(events + [e], e.ts)
  {}

  lemma SpineInsert(length: nat, ops: Ops, cps: Cps, calls: Calls, pos: nat, op: Operation)
    requires Spine(length, ops, cps, calls)
    requires 1 <= pos <= length && pos !in ops && op.result.None? && op.kind.Participant?
    requires pos > 1 ==> pos - 1 in ops && ops[pos - 1].Settled()
    ensures Spine(length, ops[pos := op], cps, calls)
  {
    assert pos > 1 ==> pos - 1 in cps;
  }

  lemma SpineInsertCall(length: nat, ops: Ops, cps: Cps, calls: Calls, pos: nat, op: Operation, call: Call)
    requires Spine(length, ops, cps, calls)
    requires 1 <= pos <= length && pos !in ops && op.result.None? && op.kind.ChildWorkflow?
    requires pos > 1 ==> pos - 1 in ops && ops[pos - 1].Settled()
    ensures Spine(length, ops[pos := op], cps, calls[pos := call])
  {
    assert pos > 1 ==> pos - 1 in cps;
  }

  lemma SpineSettle(length: nat, ops: Ops, cps: Cps, calls: Calls, pos: nat, result: Doc, cp: Checkpoint)
    requires Spine(length, ops, cps, calls) && pos in ops && !ops[pos].Settled()
    requires cp.opId == ops[pos].id && cp.name == ops[pos].name
    ensures Spine(length, ops[pos := ops[pos].(result := Some(result))], cps[pos := cp], calls)
  {}

  lemma SpineTouchOp(length: nat, ops: Ops, cps: Cps, calls: Calls, pos: nat, op: Operation)
    requires Spine(length, ops, cps, calls) && pos in ops
    requires op.id == ops[pos].id && op.name == ops[pos].name && op.kind == ops[pos].kind
             && op.result == ops[pos].result
    ensures Spine(length, ops[pos := op], cps, calls)
  {}

  lemma SpineTouchCp(length: nat, ops: Ops, cps: Cps, calls: Calls, pos: nat, cp: Checkpoint)
    requires Spine(length, ops, cps, calls) && pos in cps && cp.opId == cps[pos].opId && cp.name == cps[pos].name
    ensures Spine(length, ops, cps[pos := cp], calls)
  {}

  lemma LifoTouch(cps: Cps, calls: Calls, pos: nat, cp: Checkpoint)
    requires Lifo(cps, calls) && pos in cps && cp.reversal == cps[pos].reversal && cp.binding == cps[pos].binding
    ensures Lifo(cps[pos := cp], calls) && TopOf(cps[pos := cp]) == TopOf(cps)
  {
    hide TopOf;
    TopTouch(cps, pos, cp);
  }

  lemma TopIs(cps: Cps, t: nat)
    requires ActiveIn(cps, t) && forall i: nat :: i in cps && cps[i].reversal.Active? ==> i <= t
    ensures TopOf(cps) == Some(t)
  {}

  /** The top of the stack depends on the reversal states alone. */
  lemma TopTouch(cps: Cps, pos: nat, cp: Checkpoint)
    requires pos in cps && cp.reversal == cps[pos].reversal
    ensures TopOf(cps[pos := cp]) == TopOf(cps)
  {
    var cps' := cps[pos := cp];
    assert forall i: nat :: i in cps' && cps'[i].reversal.Active? <==> i in cps && cps[i].reversal.Active?;
    if TopOf(cps).Some? {
      TopIs(cps', TopOf(cps).value);
    }
  }

  lemma LifoBind(cps: Cps, calls: Calls, pos: nat, b: Binding)
    requires Lifo(cps, calls) && NoneParked(cps) && TopOf(cps) == Some(pos)
    ensures Lifo(cps[pos := cps[pos].(binding := Some(b))], calls)
  {}

  lemma LifoUndo(cps: Cps, calls: Calls, pos: nat)
    requires Lifo(cps, calls) && NoneParked(cps) && TopOf(cps) == Some(pos)
    requires cps[pos].binding.Some? || pos in calls
    ensures Lifo(cps[pos := cps[pos].(reversal := Undone)], calls)
    ensures NoneParked(cps[pos := cps[pos].(reversal := Undone)])
  {
    hide TopOf;
    AboveTop(cps, calls);
  }

  /** Everything above the top of an unwinding stack is already undone. */
  lemma AboveTop(cps: Cps, calls: Calls)
    requires Lifo(cps, calls) && NoneParked(cps)
    ensures TopOf(cps).None? ==> AllUndone(cps)
    ensures TopOf(cps).Some? ==> forall j: nat :: j in cps && j > TopOf(cps).value ==> cps[j].reversal.Undone?
    ensures TopOf(cps).Some? ==> forall j: nat :: j in cps && j < TopOf(cps).value ==>
              cps[j].reversal.Active? && cps[j].binding.None?
  {}

  /** Undoing the top exposes the next checkpoint down, which was never dispatched. */
  lemma NextTop(cps: Cps, calls: Calls, pos: nat)
    requires Lifo(cps, calls) && NoneParked(cps) && TopOf(cps) == Some(pos)
    ensures var cps' := cps[pos := cps[pos].(reversal := Undone)];
            match TopOf(cps')
            case None => AllUndone(cps')
            case Some(t) => t < pos && cps'[t].binding.None?
  {
    AboveTop(cps, calls);
    hide Lifo;
    var cps' := cps[pos := cps[pos].(reversal := Undone)];
    assert forall j: nat :: j in cps' && cps'[j].reversal.Active? ==> j in cps && j < pos;
  }

  lemma LifoPark(cps: Cps, calls: Calls, pos: nat)
    requires Lifo(cps, calls) && NoneParked(cps) && TopOf(cps) == Some(pos) && cps[pos].binding.Some?
    ensures Lifo(cps[pos := cps[pos].(reversal := ResolutionRequired)], calls)
  {}

  lemma PristineLifo(cps: Cps, calls: Calls)
    requires Pristine(cps)
    ensures Lifo(cps, calls) && NoneParked(cps)
    ensures TopOf(cps).None? ==> cps == map[]
  {}
}
