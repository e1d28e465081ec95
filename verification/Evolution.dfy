/** The two-state invariant: how the rows of a workflow may differ between any two moments. */
module Evolution {
  import opened Options
  import opened Rows
  import opened Procedures
  import opened Soundness

  /** An operation keeps its identity and, once stored, its result; its budget and timer
    * keep the first anchor and never count down. */
  predicate OpGrows(a: Operation, b: Operation) {
    a.id == b.id && a.name == b.name && a.schema == b.schema && a.input == b.input
    && a.inputHash == b.inputHash && a.kind == b.kind
    && (a.result.Some? ==> b.result == a.result)
    && BudgetGrows(a.budget, b.budget) && TimerGrows(a.timer, b.timer)
  }

  predicate BudgetGrows(a: Budget, b: Budget) {
    a.attempts <= b.attempts && (a.firstSeen.Some? ==> b.firstSeen == a.firstSeen)
  }

  predicate TimerGrows(a: Timer, b: Timer) {
    a.count <= b.count && (a.firstSeen.Some? ==> b.firstSeen == a.firstSeen)
  }

  /** A checkpoint keeps its payload and, once written, its reverse binding; it moves at most
    * once, from active to undone or to parked. */
  predicate CpGrows(a: Checkpoint, b: Checkpoint) {
    a.name == b.name && a.opId == b.opId && a.payload == b.payload
    && (a.binding.Some? ==> b.binding == a.binding)
    && (a.reversal.Active? || (b.reversal == a.reversal && b.binding == a.binding))
    && BudgetGrows(a.budget, b.budget) && TimerGrows(a.timer, b.timer)
  }

  ghost predicate OpsGrow(a: Ops, b: Ops) {
    forall i: nat :: i in a ==> i in b && OpGrows(a[i], b[i])
  }

  ghost predicate CpsGrow(a: Cps, b: Cps) {
    forall i: nat :: i in a ==> i in b && CpGrows(a[i], b[i])
  }

  ghost predicate CallsGrow(a: Calls, b: Calls) {
    forall i: nat :: i in a ==> i in b && b[i] == a[i]
  }

  /** The states reachable from a state by any number of steps. */
  predicate Follows(a: State, b: State) {
    a == b ||
    match a
    case Forward => true
    case Completed => b.Reversing? || b.Blocked? || b.Reversed? || b.ResolvedException?
    case Reversing => b.Blocked? || b.Reversed? || b.ResolvedException?
    case Blocked => b.ResolvedException?
    case Reversed => false
    case ResolvedException => false
    case Failed => false
  }

  predicate PinnedSame(a: Workflow, b: Workflow) {
    a.script == b.script && a.pin == b.pin && a.args == b.args && a.ancestry == b.ancestry
  }

  ghost predicate Grows(a: Workflow, b: Workflow) {
    && PinnedSame(a, b)
    && Follows(a.state, b.state)
    && a.token <= b.token
    && a.eventTs <= b.eventTs
    && a.events <= b.events
    && (a.direction.Back? ==> b.direction.Back? && b.trigger == a.trigger && b.reason == a.reason)
    && OpsGrow(a.ops, b.ops) && CpsGrow(a.cps, b.cps) && CallsGrow(a.calls, b.calls)
  }

  lemma GrowsTransitive(a: Workflow, b: Workflow, c: Workflow)
    requires Grows(a, b) && Grows(b, c)
    ensures Grows(a, c)
  {}

  lemma OpsGrowSelf(a: Ops)
    ensures OpsGrow(a, a)
  {}

  lemma CpsGrowSelf(a: Cps)
    ensures CpsGrow(a, a)
  {}

  lemma OpsGrowAt(a: Ops, pos: nat, op: Operation)
    requires pos in a ==> OpGrows(a[pos], op)
    ensures OpsGrow(a, a[pos := op])
  {}

  lemma CpsGrowAt(a: Cps, pos: nat, cp: Checkpoint)
    requires pos in a ==> CpGrows(a[pos], cp)
    ensures CpsGrow(a, a[pos := cp])
  {}

  // ---------------------------------------------------------------- every command grows the rows

  lemma LeaseGrows(w: Workflow, c: Cmd)
    ensures c.Claim? ==> Grows(w, DoClaim(w, c).next)
    ensures c.Heartbeat? ==> Grows(w, DoHeartbeat(w, c).next)
    ensures c.Release? ==> Grows(w, DoRelease(w, c).next)
  {
    hide OpsGrow, CpsGrow, Holds;
    OpsGrowSelf(w.ops);
    CpsGrowSelf(w.cps);
  }

  lemma ParkedGrows(w: Workflow, c: Cmd)
    ensures c.DispatchDefer? ==> Grows(w, DoDispatchDefer(w, c).next)
    ensures Grows(w, DoOperatorResolve(w).next)
  {
    hide OpsGrow, CpsGrow, Holds;
    OpsGrowSelf(w.ops);
    CpsGrowSelf(w.cps);
  }

  lemma RequestGrows(w: Workflow, c: Cmd)
    requires c.OperationRequest?
    ensures Grows(w, DoOperationRequest(w, c).next)
  {
    hide OpsGrow, CpsGrow, TopOf, Holds;
    OpsGrowSelf(w.ops);
    CpsGrowSelf(w.cps);
    if DoOperationRequest(w, c).out.Requested? { OpsGrowAt(w.ops, c.pos, DoOperationRequest(w, c).next.ops[c.pos]); }
  }

  lemma CheckpointMeansSettled(w: Workflow, pos: nat)
    requires Sound(w) && pos in w.ops && !w.ops[pos].Settled()
    ensures pos !in w.cps
  {
    hide Lifo, Chronology, Agrees, Fields;
  }

  lemma SettleGrows(w: Workflow, c: Cmd)
    requires Sound(w) && c.OperationSettle?
    ensures Grows(w, DoOperationSettle(w, c).next)
  {
    hide OpsGrow, CpsGrow, Sound, Holds;
    OpsGrowSelf(w.ops);
    CpsGrowSelf(w.cps);
    if DoOperationSettle(w, c).out.Settled? {
      CheckpointMeansSettled(w, c.pos);
      var n := DoOperationSettle(w, c).next;
      OpsGrowAt(w.ops, c.pos, n.ops[c.pos]);
      CpsGrowAt(w.cps, c.pos, n.cps[c.pos]);
    }
  }

  lemma TurnBackGrows(w: Workflow, executor: Id, trigger: Id, ts: Ts, why: string)
    requires Sound(w) && w.state.Forward? && ts > w.eventTs
    ensures Grows(w, TurnBack(w, executor, trigger, ts, why).next)
  {
    hide OpsGrow, CpsGrow, Lifo, Chronology, Spine;
    OpsGrowSelf(w.ops);
    CpsGrowSelf(w.cps);
  }

  lemma ReverseRequestGrows(w: Workflow, c: Cmd)
    requires c.ReverseRequest?
    ensures Grows(w, DoReverseRequest(w, c).next)
  {
    hide OpsGrow, CpsGrow, TopOf, Holds;
    OpsGrowSelf(w.ops);
    CpsGrowSelf(w.cps);
    if DoReverseRequest(w, c).out.Dispatched? { CpsGrowAt(w.cps, c.pos, DoReverseRequest(w, c).next.cps[c.pos]); }
  }

  lemma UnwindGrows(w: Workflow, pos: nat, ts: Ts, executor: Id)
    requires w.state.Reversing? && ActiveIn(w.cps, pos) && ts > w.eventTs
    ensures Grows(w, Unwind(w, pos, ts, executor).next)
  {
    hide OpsGrow, CpsGrow, TopOf, Holds;
    OpsGrowSelf(w.ops);
    CpsGrowAt(w.cps, pos, w.cps[pos].(reversal := Undone));
  }

  lemma BlockGrows(w: Workflow, pos: nat, d: Disposition, ts: Ts, kind: EventKind, executor: Id)
    requires w.state.Reversing? && ActiveIn(w.cps, pos) && ts > w.eventTs
    ensures Grows(w, BlockAt(w, pos, d, ts, kind, executor))
  {
    hide OpsGrow, CpsGrow, TopOf, Holds;
    OpsGrowSelf(w.ops);
    CpsGrowAt(w.cps, pos, w.cps[pos].(reversal := ResolutionRequired));
  }

  lemma ReconcileGrows(w: Workflow, c: Cmd)
    requires Sound(w) && c.ReconcileDefer?
    ensures Grows(w, DoReconcileDefer(w, c).next)
  {
    hide OpsGrow, CpsGrow, Lifo, Chronology, Spine;
    OpsGrowSelf(w.ops);
    CpsGrowSelf(w.cps);
    var out := DoReconcileDefer(w, c).out;
    if out.Deferred? || out.BlockedNow? {
      OpsGrowAt(w.ops, c.pos, w.ops[c.pos].(budget := Charge(w.ops[c.pos].budget, c.now)));
    }
  }

  lemma ReverseReconcileGrows(w: Workflow, c: Cmd)
    requires c.ReverseReconcileDefer?
    ensures Grows(w, DoReverseReconcileDefer(w, c).next)
  {
    hide OpsGrow, CpsGrow, TopOf, Holds;
    OpsGrowSelf(w.ops);
    CpsGrowSelf(w.cps);
    var out := DoReverseReconcileDefer(w, c).out;
    if out.Deferred? || out.BlockedNow? {
      var cp := w.cps[c.pos].(budget := Charge(w.cps[c.pos].budget, c.now));
      CpsGrowAt(w.cps, c.pos, if out.Deferred? then cp else cp.(reversal := ResolutionRequired));
      assert out.BlockedNow? ==>
          w.cps[c.pos := cp][c.pos := cp.(reversal := ResolutionRequired)]
            == w.cps[c.pos := cp.(reversal := ResolutionRequired)];
    }
  }

  lemma PendingGrows(w: Workflow, c: Cmd)
    requires c.PendingDefer?
    ensures Grows(w, DoPendingDefer(w, c).next)
  {
    hide OpsGrow, CpsGrow, TopOf, Holds;
    OpsGrowSelf(w.ops);
    CpsGrowSelf(w.cps);
    var out := DoPendingDefer(w, c).out;
    if out.Redispatch? || out.PendingDefer? {
      var t := w.ops[c.pos].timer;
      OpsGrowAt(w.ops, c.pos,
                w.ops[c.pos].(timer := if out.Redispatch? then Escalate(t, c.now) else Observe(t, c.now)));
    }
  }

  lemma ReversePendingGrows(w: Workflow, c: Cmd)
    requires c.ReversePendingDefer?
    ensures Grows(w, DoReversePendingDefer(w, c).next)
  {
    hide OpsGrow, CpsGrow, TopOf, Holds;
    OpsGrowSelf(w.ops);
    CpsGrowSelf(w.cps);
    var out := DoReversePendingDefer(w, c).out;
    if out.Redispatch? || out.PendingDefer? {
      var t := w.cps[c.pos].timer;
      CpsGrowAt(w.cps, c.pos,
                w.cps[c.pos].(timer := if out.Redispatch? then Escalate(t, c.now) else Observe(t, c.now)));
    }
  }

  lemma SelfGrows(w: Workflow)
    ensures Grows(w, w)
  {}

  lemma TurningGrows(w: Workflow, c: Cmd)
    requires Sound(w) && (c.BeginReversal? || c.AuthoredFail? || c.ReverseSettle? || c.ReverseBlock?)
    ensures Grows(w, LocalStep(w, c).next)
  {
    hide Grows, Sound;
    SelfGrows(w);
    if LocalStep(w, c).next != w {
      match c
      case BeginReversal(_, executor, _, _, opId, ts, why) => TurnBackGrows(w, executor, opId, ts, why);
      case AuthoredFail(_, executor, _, opId, ts, why) => TurnBackGrows(w, executor, opId, ts, why);
      case ReverseSettle(_, executor, _, pos, _, ts) => UnwindGrows(w, pos, ts, executor);
      case ReverseBlock(_, executor, _, pos, _, d, ts) => BlockGrows(w, pos, d, ts, EvCompensationBlocked, executor);
    }
  }

  lemma LocalGrows(w: Workflow, c: Cmd)
    requires Sound(w) && IsLocal(c)
    ensures Grows(w, LocalStep(w, c).next)
  {
    hide Grows, Sound;
    match c
    case Claim(_, _, _, _) => LeaseGrows(w, c);
    case Heartbeat(_, _, _, _, _) => LeaseGrows(w, c);
    case Release(_, _, _, _) => LeaseGrows(w, c);
    case OperatorResolve(_) => ParkedGrows(w, c);
    case DispatchDefer(_, _, _, _, _, _, _) => ParkedGrows(w, c);
    case OperationRequest(_, _, _, _, _, _, _, _, _, _, _) => RequestGrows(w, c);
    case OperationSettle(_, _, _, _, _, _, _, _, _, _, _, _) => SettleGrows(w, c);
    case BeginReversal(_, _, _, _, _, _, _) => TurningGrows(w, c);
    case AuthoredFail(_, _, _, _, _, _) => TurningGrows(w, c);
    case ReverseRequest(_, _, _, _, _, _) => ReverseRequestGrows(w, c);
    case ReverseSettle(_, _, _, _, _, _) => TurningGrows(w, c);
    case ReverseBlock(_, _, _, _, _, _, _) => TurningGrows(w, c);
    case ReconcileDefer(_, _, _, _, _, _, _, _, _, _) => ReconcileGrows(w, c);
    case ReverseReconcileDefer(_, _, _, _, _, _, _, _, _, _) => ReverseReconcileGrows(w, c);
    case PendingDefer(_, _, _, _, _, _, _, _, _) => PendingGrows(w, c);
    case ReversePendingDefer(_, _, _, _, _, _, _, _, _) => ReversePendingGrows(w, c);
  }
}
