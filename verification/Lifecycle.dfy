/** The published lifecycle machine, and the refinement of it by the coordinator. */
module Lifecycle {
  import opened Options
  import opened Rows
  import opened Procedures
  import opened Coordinator
  import opened Soundness
  import opened Invariant
  import opened InvariantSteps
  import opened OpSteps

  // ---------------------------------------------------------------- the machine

  datatype Node =
    | Driving | Awaiting | Reconciling
    | Compensating | CompReconciling
    | AtBlocked | AtCompleted | AtReversed | AtResolved | AtFailed

  datatype Signal =
    | DISPATCH | FAIL | COMPLETE
    | SETTLED | SETTLED_FINAL | REJECTED | REJECTED_FIRST | ROUTE_404
    | DEFER | EXHAUSTED
    | COMPENSATED | ALL_COMPENSATED | COMP_ROUTE_404 | COMP_REJECTED
    | OPERATOR_RESOLVE

  /** A configuration: the active state and the attempt counter of the context. */
  datatype Config = Config(node: Node, attempts: nat)

  const INITIAL := Config(Driving, 0)

  /** The transition table with its counting actions; `None` where the machine has no arrow. */
  function Fire(m: Config, e: Signal): Option<Config> {
    match (m.node, e)
    case (Driving, DISPATCH) => Some(m.(node := Awaiting))
    case (Driving, FAIL) => Some(m.(node := Compensating))
    case (Driving, COMPLETE) => Some(m.(node := AtCompleted))
    case (Awaiting, SETTLED) => Some(Config(Driving, 0))
    case (Awaiting, SETTLED_FINAL) => Some(m.(node := AtCompleted))
    case (Awaiting, REJECTED) => Some(m.(node := Compensating))
    case (Awaiting, REJECTED_FIRST) => Some(m.(node := AtFailed))
    case (Awaiting, FAIL) => Some(m.(node := Compensating))
    case (Awaiting, ROUTE_404) => Some(Config(Reconciling, m.attempts + 1))
    case (Reconciling, DEFER) => Some(m.(node := Awaiting))
    case (Reconciling, ROUTE_404) => Some(m.(attempts := m.attempts + 1))
    case (Reconciling, EXHAUSTED) => Some(m.(node := AtBlocked))
    case (Compensating, COMPENSATED) => Some(m)
    case (Compensating, ALL_COMPENSATED) => Some(m.(node := AtReversed))
    case (Compensating, COMP_ROUTE_404) => Some(Config(CompReconciling, m.attempts + 1))
    case (Compensating, COMP_REJECTED) => Some(m.(node := AtBlocked))
    case (CompReconciling, DEFER) => Some(m.(node := Compensating))
    case (CompReconciling, EXHAUSTED) => Some(m.(node := AtBlocked))
    case (AtBlocked, OPERATOR_RESOLVE) => Some(m.(node := AtResolved))
    case _ => None
  }

  function FireAll(m: Config, es: seq<Signal>): Option<Config>
    decreases |es|
  {
    if es == [] then Some(m)
    else
      var n := Fire(m, es[0]);
      if n.None? then None else FireAll(n.value, es[1..])
  }

  lemma {:induction false} FireAllSplit(m: Config, es: seq<Signal>, fs: seq<Signal>)
    ensures FireAll(m, es + fs) == (if FireAll(m, es).None? then None else FireAll(FireAll(m, es).value, fs))
    decreases |es|
  {
    if es == [] {
      assert es + fs == fs;
    } else {
      assert (es + fs)[0] == es[0] && (es + fs)[1..] == es[1..] + fs;
      if Fire(m, es[0]).Some? { FireAllSplit(Fire(m, es[0]).value, es[1..], fs); }
    }
  }

  // ---------------------------------------------------------------- the abstraction

  predicate Open(w: Workflow, p: nat) { p in w.ops && w.ops[p].result.None? }

  /** An operation has been requested and has not settled. */
  predicate HasOpen(w: Workflow) { exists p: nat :: p in w.ops && Open(w, p) }

  /** Which configuration stands for the durable rows. Going forward the machine's counter is
    * the durable attempt counter of the operation in flight. */
  ghost predicate Abstracts(w: Workflow, m: Config) {
    match w.state
    case Forward =>
      if HasOpen(w) then m.node == Awaiting && forall p: nat :: Open(w, p) ==> w.ops[p].budget.attempts == m.attempts
      else m == INITIAL
    case Reversing => m.node == Compensating
    case Blocked => m.node == AtBlocked
    case Completed => m.node == AtCompleted
    case Reversed => m.node == AtReversed
    case ResolvedException => m.node == AtResolved
    case Failed => m.node == AtFailed
  }

  /** The signals that a step from `w` to `n` stands for. The machine's own signal for an authored
    * failure shows a reversal; where nothing is to be unwound the step is shown as a first rejection. */
  function Signals(w: Workflow, c: Cmd, n: Workflow): seq<Signal> {
    if n == w then []
    else match c
      case OperationRequest(_, _, _, _, _, _, _, _, _, _, _) => [DISPATCH]
      case CallSubmit(_, _, _, _, _, _, _, _, _, _, _, _, _, _, _, _) => [DISPATCH]
      case OperationSettle(_, _, _, _, _, _, _, _, _, _, _, final) => if final then [SETTLED_FINAL] else [SETTLED]
      case BeginReversal(_, _, _, _, _, _, _) => if n.state.Failed? then [REJECTED_FIRST] else [REJECTED]
      case AuthoredFail(_, _, _, _, _, _) =>
        if !n.state.Failed? then [FAIL] else if HasOpen(w) then [REJECTED_FIRST] else [DISPATCH, REJECTED_FIRST]
      case ReverseSettle(_, _, _, _, _, _) => if n.state.Reversed? then [ALL_COMPENSATED] else [COMPENSATED]
      case ChildSettle(_, _, _, _, _) => if n.state.Reversed? then [ALL_COMPENSATED] else [COMPENSATED]
      case ReverseBlock(_, _, _, _, _, _, _) => [COMP_REJECTED]
      case ReconcileDefer(_, _, _, _, _, _, _, _, _, _) => [ROUTE_404, if n.state.Blocked? then EXHAUSTED else DEFER]
      case ReverseReconcileDefer(_, _, _, _, _, _, _, _, _, _) =>
        [COMP_ROUTE_404, if n.state.Blocked? then EXHAUSTED else DEFER]
      case OperatorResolve(_) => [OPERATOR_RESOLVE]
      case _ => []
  }

  // ---------------------------------------------------------------- one step

  /** At most one operation is open, and none while the next one may be requested. */
  lemma OneOpen(w: Workflow, p: nat, q: nat)
    requires Sound(w) && Open(w, p) && Open(w, q)
    ensures p == q
  {
    hide Lifo, Agrees, Fields, Chronology;
  }

  lemma NoneOpenBeforeNext(w: Workflow, pos: nat)
    requires Sound(w) && pos !in w.ops && OrderGuard(w, pos).None?
    ensures !HasOpen(w)
  {
    hide Lifo, Agrees, Fields, Chronology;
    assert pos > 1 ==> pos - 1 in w.ops;
    forall p: nat ensures !Open(w, p) {
      assert p in w.ops && p > pos ==> pos in w.cps;
    }
  }

  lemma RequestRefines(w: Workflow, c: Cmd, m: Config)
    requires Sound(w) && Abstracts(w, m) && c.OperationRequest? && DoOperationRequest(w, c).next != w
    ensures var n := DoOperationRequest(w, c).next;
            FireAll(m, [DISPATCH]) == Some(m.(node := Awaiting)) && Abstracts(n, m.(node := Awaiting))
  {
    NoneOpenBeforeNext(w, c.pos);
    hide Sound, TopOf, OrderGuard;
    var n := DoOperationRequest(w, c).next;
    assert forall p: nat :: Open(n, p) ==> p == c.pos || Open(w, p);
    assert Open(n, c.pos);
  }

  lemma SubmitRefines(w: Workflow, c: Cmd, m: Config)
    requires Sound(w) && Abstracts(w, m) && c.CallSubmit? && w.state.Forward? && c.pos !in w.ops
    requires OrderGuard(w, c.pos).None?
    ensures FireAll(m, [DISPATCH]) == Some(m.(node := Awaiting))
    ensures Abstracts(SubmittedParent(w, c), m.(node := Awaiting))
  {
    NoneOpenBeforeNext(w, c.pos);
    hide Sound, TopOf, OrderGuard;
    var n := SubmittedParent(w, c);
    assert forall p: nat :: Open(n, p) ==> p == c.pos || Open(w, p);
    assert Open(n, c.pos);
  }

  lemma SettleRefines(w: Workflow, c: Cmd, m: Config)
    requires Sound(w) && Abstracts(w, m) && c.OperationSettle? && DoOperationSettle(w, c).next != w
    ensures var n := DoOperationSettle(w, c).next;
            var r := FireAll(m, Signals(w, c, n)); r.Some? && Abstracts(n, r.value)
  {
    hide Lifo, Agrees, Fields, Chronology, Spine, TopOf;
    var n := DoOperationSettle(w, c).next;
    assert Open(w, c.pos);
    forall p: nat | Open(n, p) ensures false {
      assert Open(w, p);
      OneOpen(w, p, c.pos);
    }
    hide DoOperationSettle, Sound;
    assert FireAll(m, Signals(w, c, n)) == Fire(m, Signals(w, c, n)[0]);
  }

  /** Turning back from the forward drive, by a rejection or by an authored failure. */
  lemma TurnRefines(w: Workflow, executor: Id, trigger: Id, ts: Ts, why: string, m: Config, e: Signal)
    requires w.state.Forward? && Abstracts(w, m)
    requires var n := TurnBack(w, executor, trigger, ts, why).next;
             if e.FAIL? then !n.state.Failed?
             else HasOpen(w) && e == if n.state.Failed? then REJECTED_FIRST else REJECTED
    ensures var n := TurnBack(w, executor, trigger, ts, why).next;
            FireAll(m, [e]).Some? && Abstracts(n, FireAll(m, [e]).value)
  {
    hide TopOf, HasOpen;
    assert FireAll(m, [e]) == Fire(m, e);
  }

  /** From driving, a failure with nothing to unwind is a dispatch that is rejected first. */
  lemma EmptyTurnRefines(w: Workflow, executor: Id, trigger: Id, ts: Ts, why: string, m: Config)
    requires w.state.Forward? && Abstracts(w, m) && !HasOpen(w)
    requires TurnBack(w, executor, trigger, ts, why).next.state.Failed?
    ensures var n := TurnBack(w, executor, trigger, ts, why).next; var r := FireAll(m, [DISPATCH, REJECTED_FIRST]);
            r.Some? && Abstracts(n, r.value)
  {
    hide TopOf, HasOpen;
    FireTwo(m, DISPATCH, REJECTED_FIRST);
  }

  lemma TurnBackRefines(w: Workflow, c: Cmd, m: Config)
    requires Abstracts(w, m) && (c.BeginReversal? || c.AuthoredFail?) && LocalStep(w, c).next != w
    ensures var n := LocalStep(w, c).next;
            var r := FireAll(m, Signals(w, c, n)); r.Some? && Abstracts(n, r.value)
  {
    hide Abstracts, FireAll, TurnBack, Holds, HasOpen;
    var n := LocalStep(w, c).next;
    if c.BeginReversal? {
      OpenHere(w, c.pos);
      TurnRefines(w, c.executor, c.opId, c.ts, c.why, m, if n.state.Failed? then REJECTED_FIRST else REJECTED);
    } else if n.state.Failed? && !HasOpen(w) {
      EmptyTurnRefines(w, c.executor, c.opId, c.ts, c.why, m);
    } else {
      TurnRefines(w, c.executor, c.opId, c.ts, c.why, m, if n.state.Failed? then REJECTED_FIRST else FAIL);
    }
  }

  lemma OpenHere(w: Workflow, p: nat)
    requires Open(w, p)
    ensures HasOpen(w)
  {}

  lemma UnwindRefines(w: Workflow, pos: nat, ts: Ts, executor: Id, m: Config)
    requires w.state.Reversing? && Abstracts(w, m) && pos in w.cps
    ensures var n := Unwind(w, pos, ts, executor).next;
            var r := FireAll(m, [if n.state.Reversed? then ALL_COMPENSATED else COMPENSATED]);
            r.Some? && Abstracts(n, r.value)
  {
    hide TopOf;
    var n := Unwind(w, pos, ts, executor).next;
    var e := if n.state.Reversed? then ALL_COMPENSATED else COMPENSATED;
    assert FireAll(m, [e]) == Fire(m, e);
  }

  lemma BlockRefines(w: Workflow, c: Cmd, m: Config)
    requires Abstracts(w, m) && c.ReverseBlock? && DoReverseBlock(w, c).next != w
    ensures var n := DoReverseBlock(w, c).next;
            var r := FireAll(m, [COMP_REJECTED]); r.Some? && Abstracts(n, r.value)
  {
    hide TopOf;
    assert FireAll(m, [COMP_REJECTED]) == Fire(m, COMP_REJECTED);
  }

  lemma FireTwo(m: Config, e: Signal, f: Signal)
    ensures FireAll(m, [e, f]) == (if Fire(m, e).None? then None else Fire(Fire(m, e).value, f))
  {
    assert [e, f][1..] == [f];
    if Fire(m, e).Some? { assert FireAll(Fire(m, e).value, [f]) == Fire(Fire(m, e).value, f); }
  }

  lemma ReconcileRefines(w: Workflow, c: Cmd, m: Config)
    requires Sound(w) && Abstracts(w, m) && c.ReconcileDefer? && DoReconcileDefer(w, c).next != w
    ensures var n := DoReconcileDefer(w, c).next;
            var r := FireAll(m, [ROUTE_404, if n.state.Blocked? then EXHAUSTED else DEFER]);
            r.Some? && Abstracts(n, r.value)
  {
    hide Sound, TopOf, Exhausted;
    var n := DoReconcileDefer(w, c).next;
    FireTwo(m, ROUTE_404, if n.state.Blocked? then EXHAUSTED else DEFER);
    assert Open(w, c.pos) && Open(n, c.pos);
    forall p: nat | Open(n, p) ensures p == c.pos {
      assert Open(w, p);
      OneOpen(w, p, c.pos);
    }
  }

  lemma ReverseReconcileRefines(w: Workflow, c: Cmd, m: Config)
    requires Abstracts(w, m) && c.ReverseReconcileDefer? && DoReverseReconcileDefer(w, c).next != w
    ensures var n := DoReverseReconcileDefer(w, c).next;
            var r := FireAll(m, [COMP_ROUTE_404, if n.state.Blocked? then EXHAUSTED else DEFER]);
            r.Some? && Abstracts(n, r.value)
  {
    hide TopOf, Exhausted, HasOpen, Open;
    var n := DoReverseReconcileDefer(w, c).next;
    FireTwo(m, COMP_ROUTE_404, if n.state.Blocked? then EXHAUSTED else DEFER);
  }

  /** Steps the machine does not show: leases, waiting, dispatching a compensation. */
  predicate Stutters(c: Cmd) {
    c.Claim? || c.Heartbeat? || c.Release? || c.ReverseRequest? || c.PendingDefer? || c.ReversePendingDefer?
    || c.DispatchDefer? || c.TerminalNotify?
  }

  lemma StutterRefines(w: Workflow, n: Workflow, m: Config)
    requires Abstracts(w, m) && n.state == w.state
    requires forall p: nat :: Open(n, p) <==> Open(w, p)
    requires forall p: nat :: Open(n, p) && Open(w, p) ==> n.ops[p].budget == w.ops[p].budget
    ensures Abstracts(n, m)
  {
    if HasOpen(w) { var p: nat :| p in w.ops && Open(w, p); assert Open(n, p) && HasOpen(n); }
    if HasOpen(n) { var p: nat :| p in n.ops && Open(n, p); assert Open(w, p) && HasOpen(w); }
  }

  lemma LocalStutters(w: Workflow, c: Cmd, m: Config)
    requires IsLocal(c) && Stutters(c) && Abstracts(w, m)
    ensures Abstracts(LocalStep(w, c).next, m)
  {
    hide Abstracts, LocalStep;
    var n := LocalStep(w, c).next;
    SameState(w, c);
    forall p: nat ensures (Open(n, p) <==> Open(w, p)) && (Open(n, p) ==> n.ops[p].budget == w.ops[p].budget) {
      OpenKept(w, c, p);
    }
    StutterRefines(w, n, m);
  }

  lemma SameState(w: Workflow, c: Cmd)
    requires IsLocal(c) && Stutters(c)
    ensures LocalStep(w, c).next.state == w.state
  {
    hide TopOf, Holds, Overdue, Claimable, Escalate, Observe;
  }

  lemma OpenKept(w: Workflow, c: Cmd, p: nat)
    requires IsLocal(c) && Stutters(c)
    ensures Open(LocalStep(w, c).next, p) <==> Open(w, p)
    ensures Open(w, p) ==> LocalStep(w, c).next.ops[p].budget == w.ops[p].budget
  {
    if c.PendingDefer? {
      hide TopOf, Holds, Overdue;
    } else {
      OpsKept(w, c);
      hide LocalStep;
    }
  }

  /** Every local step of a sound workflow is matched by its signals. */
  lemma LocalRefines(w: Workflow, c: Cmd, m: Config)
    requires Sound(w) && IsLocal(c) && Abstracts(w, m)
    ensures var n := LocalStep(w, c).next;
            var r := FireAll(m, Signals(w, c, n)); r.Some? && Abstracts(n, r.value)
  {
    hide Sound, Abstracts, TopOf, FireAll, Fire;
    assert FireAll(m, []) == Some(m) by { FireNothing(m); }
    if LocalStep(w, c).next != w {
      if Stutters(c) {
        LocalStutters(w, c, m);
        hide LocalStep;
      } else {
        hide DoOperationRequest, DoOperationSettle, DoBeginReversal, DoAuthoredFail, DoReverseSettle, DoReverseBlock,
          DoReconcileDefer, DoReverseReconcileDefer, DoOperatorResolve;
        match c
        case OperationRequest(_, _, _, _, _, _, _, _, _, _, _) => RequestRefines(w, c, m);
        case OperationSettle(_, _, _, _, _, _, _, _, _, _, _, _) => SettleRefines(w, c, m);
        case BeginReversal(_, _, _, _, _, _, _) => TurnBackRefines(w, c, m);
        case AuthoredFail(_, _, _, _, _, _) => TurnBackRefines(w, c, m);
        case ReverseSettle(_, _, _, _, _, _) => SettledUnwindRefines(w, c, m);
        case ReverseBlock(_, _, _, _, _, _, _) => BlockRefines(w, c, m);
        case ReconcileDefer(_, _, _, _, _, _, _, _, _, _) => ReconcileRefines(w, c, m);
        case ReverseReconcileDefer(_, _, _, _, _, _, _, _, _, _) => ReverseReconcileRefines(w, c, m);
        case OperatorResolve(_) => ResolveRefines(w, m);
      }
    }
  }

  lemma FireNothing(m: Config)
    ensures FireAll(m, []) == Some(m)
  {}

  lemma SettledUnwindRefines(w: Workflow, c: Cmd, m: Config)
    requires c.ReverseSettle? && Abstracts(w, m) && DoReverseSettle(w, c).next != w
    ensures var n := DoReverseSettle(w, c).next;
            var r := FireAll(m, [if n.state.Reversed? then ALL_COMPENSATED else COMPENSATED]);
            r.Some? && Abstracts(n, r.value)
  {
    hide TopOf, Unwind, Abstracts, FireAll, Fire;
    UnwindRefines(w, c.pos, c.ts, c.executor, m);
  }

  lemma ResolveRefines(w: Workflow, m: Config)
    requires Abstracts(w, m) && DoOperatorResolve(w).next != w
    ensures var n := DoOperatorResolve(w).next;
            var r := FireAll(m, [OPERATOR_RESOLVE]); r.Some? && Abstracts(n, r.value)
  {
    assert FireAll(m, [OPERATOR_RESOLVE]) == Fire(m, OPERATOR_RESOLVE);
  }

  // ---------------------------------------------------------------- every step of the store, every run

  /** What a reopen asks: an undone call of a reversing parent whose child is completed. */
  predicate MayReopen(db: Db, c: Cmd)
    requires c.ChildReopen? && c.wf in db
  {
    var w := db[c.wf];
    && c.pos in w.cps && c.pos in w.ops && w.ops[c.pos].kind.ChildWorkflow?
    && c.pos in w.calls && w.calls[c.pos].child in db
    && var child := db[w.calls[c.pos].child];
       && child.state.Completed? && child.Top().Some?
       && Holds(w, c.executor, c.token) && w.state.Reversing? && w.Top() == Some(c.pos)
       && c.ts > w.eventTs && c.ts > child.eventTs
  }

  /** The command sends this workflow back into reversal for its parent. */
  predicate Reopens(db: Db, c: Cmd, id: Id) {
    c.ChildReopen? && !Malformed(c) && c.wf in db && MayReopen(db, c) && db[c.wf].calls[c.pos].child == id
  }

  lemma ReopensExactly(db: Db, c: Cmd, id: Id)
    requires c.ChildReopen?
    ensures Apply(db, c).out == Reopened(id) <==> Reopens(db, c, id)
  {
    hide TopOf, Holds, ReopenedChild, Stamp, Malformed;
  }

  lemma SubmitStep(db: Db, c: Cmd, id: Id, m: Config)
    requires c.CallSubmit? && id in db && Sound(db[id]) && Abstracts(db[id], m) && id in Apply(db, c).db
    ensures var n := Apply(db, c).db[id];
            var r := FireAll(m, Signals(db[id], c, n)); r.Some? && Abstracts(n, r.value)
  {
    hide Sound, Abstracts, TopOf, FireAll, SubmittedParent, SubmittedChild, OrderGuard, InLineage, OpIdTaken,
      SameSubmission, Malformed;
    FireNothing(m);
    if Apply(db, c).db[id] != db[id] { SubmitRefines(db[id], c, m); }
  }

  lemma ChildSettleStep(db: Db, c: Cmd, id: Id, m: Config)
    requires c.ChildSettle? && id in db && Abstracts(db[id], m) && id in Apply(db, c).db
    ensures var n := Apply(db, c).db[id];
            var r := FireAll(m, Signals(db[id], c, n)); r.Some? && Abstracts(n, r.value)
  {
    hide Abstracts, TopOf, FireAll, Unwind, Malformed;
    FireNothing(m);
    if Apply(db, c).db[id] != db[id] { UnwindRefines(db[id], c.pos, c.ts, c.executor, m); }
  }

  /** Stamping an event or moving the schedule shows nothing. */
  lemma CreateSilent(db: Db, c: Cmd, id: Id)
    requires c.CreatePlanned? && id in db
    ensures var n := DoCreate(db, c).db; id in n && n[id] == db[id]
  {}

  lemma NotifySilent(db: Db, c: Cmd, id: Id)
    requires c.TerminalNotify? && id in db
    ensures var n := DoNotify(db, c).db; id in n && n[id].ops == db[id].ops && n[id].state == db[id].state
  {
    hide IsCallerOf;
  }

  lemma ReopenSilent(db: Db, c: Cmd, id: Id)
    requires c.ChildReopen? && id in db && DoChildReopen(db, c).out != Reopened(id)
    ensures var n := DoChildReopen(db, c).db; id in n && n[id].ops == db[id].ops && n[id].state == db[id].state
  {
    hide TopOf, Holds, ReopenedChild, Stamp;
    if DoChildReopen(db, c).out.Reopened? && id == c.wf {
      StampKeeps(db[id], c.ts, EvCompensationRequested, c.executor);
    }
  }

  lemma StampKeeps(w: Workflow, ts: Ts, kind: EventKind, actor: Id)
    ensures var n := Stamp(w, ts, kind, Some(actor)); n.ops == w.ops && n.state == w.state
  {}

  lemma SilentStep(db: Db, c: Cmd, id: Id, m: Config)
    requires (c.CreatePlanned? || c.TerminalNotify? || c.ChildReopen?) && id in db && Abstracts(db[id], m)
    requires id in Apply(db, c).db && !Reopens(db, c, id)
    ensures Abstracts(Apply(db, c).db[id], m)
  {
    hide Abstracts, DoCreate, DoNotify, DoChildReopen, Malformed, DoCallSubmit, DoChildSettle, LocalStep, OpIdTaken;
    match c {
      case CreatePlanned(_, _, _, _, _, _, _) => CreateSilent(db, c, id);
      case TerminalNotify(_, _) => NotifySilent(db, c, id);
      case ChildReopen(_, _, _, _, _) => if !Malformed(c) { ReopensExactly(db, c, id); ReopenSilent(db, c, id); }
    }
    StutterRefines(db[id], Apply(db, c).db[id], m);
  }

  lemma StepSignals(db: Db, maxDepth: nat, c: Cmd, id: Id, m: Config)
    requires Inv(db, maxDepth) && id in db && Abstracts(db[id], m) && id in Apply(db, c).db && !Reopens(db, c, id)
    ensures var n := Apply(db, c).db[id];
            var r := FireAll(m, Signals(db[id], c, n)); r.Some? && Abstracts(n, r.value)
  {
    hide AllLinked, AllRooted, UniqueOps, AllDistinct, Sound, Abstracts, FireAll, LocalStep, OpIdTaken, Malformed,
      MayReopen;
    FireNothing(m);
    if IsLocal(c) {
      if c.wf in db && c.wf == id && Apply(db, c).db[id] != db[id] { LocalRefines(db[id], c, m); }
    } else if c.CallSubmit? {
      SubmitStep(db, c, id, m);
    } else if c.ChildSettle? {
      ChildSettleStep(db, c, id, m);
    } else {
      SilentStep(db, c, id, m);
    }
  }

  /** Some events lead from this configuration to one that stands for these rows. */
  ghost predicate Matched(m: Config, es: seq<Signal>, n: Workflow) {
    FireAll(m, es).Some? && Abstracts(n, FireAll(m, es).value)
  }

  predicate Final(m: Config) { m.node in {AtCompleted, AtReversed, AtResolved, AtFailed} }

  /** No events lead out of a final state. */
  lemma FinalStays(m: Config, es: seq<Signal>)
    requires Final(m)
    ensures FireAll(m, es).Some? ==> es == []
  {}

  lemma ReopenedReverses(db: Db, c: Cmd, id: Id)
    requires Reopens(db, c, id)
    ensures id in db && db[id].state.Completed?
    ensures id in Apply(db, c).db && Apply(db, c).db[id].state.Reversing?
  {
    hide TopOf, Holds;
  }

  /** A durable step is matched by machine events, then by at most two, exactly when it does not reopen
    * the workflow: the machine's completed state is final. */
  lemma StepRefines(db: Db, maxDepth: nat, c: Cmd, id: Id, m: Config)
    requires Reachable(db, maxDepth) && id in db && Abstracts(db[id], m) && id in Apply(db, c).db
    ensures Reopens(db, c, id) ==> forall es :: !Matched(m, es, Apply(db, c).db[id])
    ensures !Reopens(db, c, id) ==>
              Matched(m, Signals(db[id], c, Apply(db, c).db[id]), Apply(db, c).db[id])
              && |Signals(db[id], c, Apply(db, c).db[id])| <= 2
  {
    hide Reachable, Inv, Apply, FireAll, Reopens;
    ReachableInv(db, maxDepth);
    var n := Apply(db, c).db[id];
    if Reopens(db, c, id) {
      ReopenedReverses(db, c, id);
      FireNothing(m);
      forall es ensures !Matched(m, es, n) { FinalStays(m, es); }
    } else {
      hide Abstracts;
      StepSignals(db, maxDepth, c, id, m);
    }
  }

  /** The tape of a run for one workflow. */
  function Tape(db: Db, cmds: seq<Cmd>, id: Id): seq<Signal>
    decreases |cmds|
  {
    if cmds == [] then []
    else
      var db' := Apply(db, cmds[0]).db;
      (if id in db && id in db' then Signals(db[id], cmds[0], db'[id]) else []) + Tape(db', cmds[1..], id)
  }

  predicate NeverReopened(db: Db, cmds: seq<Cmd>, id: Id)
    decreases |cmds|
  {
    cmds == [] || (!Reopens(db, cmds[0], id) && NeverReopened(Apply(db, cmds[0]).db, cmds[1..], id))
  }

  /** A workflow enters the store where the machine starts. */
  lemma BirthIsInitial(db: Db, c: Cmd, id: Id)
    requires id !in db && id in Apply(db, c).db
    ensures Abstracts(Apply(db, c).db[id], INITIAL)
  {
    hide TopOf, Malformed, LocalStep, OrderGuard, InLineage, OpIdTaken, SameSubmission, SubmittedParent;
  }

  lemma {:induction false} TapeRuns(db: Db, maxDepth: nat, cmds: seq<Cmd>, id: Id, m: Config)
    requires Inv(db, maxDepth) && forall i :: 0 <= i < |cmds| ==> Bounded(cmds[i], maxDepth)
    requires NeverReopened(db, cmds, id) && (if id in db then Abstracts(db[id], m) else m == INITIAL)
    ensures var r := FireAll(m, Tape(db, cmds, id));
            r.Some? && (if id in Run(db, cmds) then Abstracts(Run(db, cmds)[id], r.value) else r.value == INITIAL)
    decreases |cmds|
  {
    hide Inv, Apply, Abstracts, FireAll, Reopens, Signals;
    if cmds == [] {
      FireNothing(m);
    } else {
      var db' := Apply(db, cmds[0]).db;
      ApplyInv(db, maxDepth, cmds[0]);
      FireNothing(m);
      var first := if id in db && id in db' then Signals(db[id], cmds[0], db'[id]) else [];
      if id in db {
        StepSignals(db, maxDepth, cmds[0], id, m);
      } else if id in db' {
        BirthIsInitial(db, cmds[0], id);
      }
      var m' := FireAll(m, first).value;
      TapeRuns(db', maxDepth, cmds[1..], id, m');
      FireAllSplit(m, first, Tape(db', cmds[1..], id));
    }
  }

  /** Every run of the coordinator, seen through any one workflow that is not reopened, is a run of the
    * machine from its initial state to the configuration of the workflow's final rows. */
  lemma CoordinatorRefinesMachine(cmds: seq<Cmd>, maxDepth: nat, id: Id)
    requires forall i :: 0 <= i < |cmds| ==> Bounded(cmds[i], maxDepth)
    requires NeverReopened(map[], cmds, id) && id in Run(map[], cmds)
    ensures var r := FireAll(INITIAL, Tape(map[], cmds, id));
            r.Some? && Abstracts(Run(map[], cmds)[id], r.value)
  {
    hide Inv, Run, Abstracts, FireAll, NeverReopened, Tape;
    EmptyInv(maxDepth);
    TapeRuns(map[], maxDepth, cmds, id, INITIAL);
  }

  /** An authored failure that will be carried out and finds no active checkpoint. */
  predicate FailsEmpty(w: Workflow, c: Cmd) {
    c.AuthoredFail? && w.trigger.None? && Holds(w, c.executor, c.token) && w.state.Forward? && c.ts > w.eventTs
    && w.Top().None?
  }

  /** The machine's own signal for an authored failure stands for the step if and only if there is a
    * checkpoint to unwind; on an empty stack it shows a reversal where the rows say failed. */
  lemma FailSignalExactly(w: Workflow, c: Cmd, m: Config)
    requires Sound(w) && Abstracts(w, m) && c.AuthoredFail? && LocalStep(w, c).next != w
    ensures Matched(m, [FAIL], LocalStep(w, c).next) <==> !FailsEmpty(w, c)
  {
    hide TopOf, Sound, HasOpen;
    assert FireAll(m, [FAIL]) == Fire(m, FAIL);
  }
}
