/** The event log accounts for the rows: what is stored and what is logged agree in number. */
module Ledger {
  import opened Options
  import opened Rows
  import opened Procedures
  import opened Coordinator
  import opened Soundness
  import opened Evolution
  import opened Invariant
  import opened InvariantSteps

  function One(b: bool): nat { if b then 1 else 0 }

  /** How many events of this kind the log holds. */
  function Count(es: seq<Event>, k: EventKind): nat
    decreases |es|
  {
    if es == [] then 0 else Count(es[..|es| - 1], k) + One(es[|es| - 1].kind == k)
  }

  /** How many rows of the map have the property. */
  function CountIn<T>(m: map<nat, T>, has: T -> bool): nat { |Where(m, has)| }

  function Where<T>(m: map<nat, T>, has: T -> bool): set<nat> { set p | p in m && has(m[p]) }

  predicate IsParticipant(op: Operation) { op.kind.Participant? }

  predicate IsUndone(cp: Checkpoint) { cp.reversal.Undone? }

  /** Sent back by its parent after it had completed. */
  predicate Reopened(w: Workflow) { w.direction.Back? && w.trigger.None? }

  /** One event per stored row and per state taken. */
  ghost predicate Balanced(w: Workflow) {
    var es := w.events;
    && Count(es, EvCreated) == 1
    && Count(es, EvOperationRequested) == CountIn(w.ops, IsParticipant)
    && Count(es, EvCallSubmitted) == |w.calls|
    && Count(es, EvOperationSettled) + Count(es, EvWorkflowCompleted) == |w.cps|
    && Count(es, EvWorkflowCompleted) == One(w.state.Completed? || Reopened(w))
    && Count(es, EvRequestedByParent) == One(Reopened(w))
    && Count(es, EvReversalBegun) + Count(es, EvFailed) == One(w.trigger.Some?)
    && Count(es, EvFailed) == One(w.state.Failed?)
    && Count(es, EvCompensationSettled) == CountIn(w.cps, IsUndone)
    && Count(es, EvCompensationBlocked) + Count(es, EvRouteUnknown)
       == One(w.state.Blocked? || w.state.ResolvedException?)
  }

  lemma CountMore(es: seq<Event>, e: Event)
    ensures forall k :: Count(es + [e], k) == Count(es, k) + One(e.kind == k)
  {
    assert (es + [e])[..|es|] == es;
  }

  lemma WherePut<T>(m: map<nat, T>, p: nat, x: T, has: T -> bool)
    ensures Where(m[p := x], has) == (Where(m, has) - {p}) + (if has(x) then {p} else {})
    ensures p in Where(m, has) <==> p in m && has(m[p])
  {}

  lemma SizeWithout(a: set<nat>, p: nat, again: bool)
    ensures |(a - {p}) + (if again then {p} else {})| == |a| - One(p in a) + One(again)
  {
    assert (if again then {p} else {}) !! (a - {p});
  }

  lemma CountPut<T>(m: map<nat, T>, p: nat, x: T, has: T -> bool)
    ensures CountIn(m[p := x], has) == CountIn(m, has) - One(p in m && has(m[p])) + One(has(x))
  {
    hide Where;
    WherePut(m, p, x, has);
    SizeWithout(Where(m, has), p, has(x));
  }

  lemma SizePut<T>(m: map<nat, T>, p: nat, x: T)
    ensures |m[p := x]| == |m| + One(p !in m)
  {
    assert m[p := x].Keys == m.Keys + {p};
    assert |m| == |m.Keys| && |m[p := x]| == |m[p := x].Keys|;
  }

  // ---------------------------------------------------------------- one command, one workflow

  /** The columns the balance is about. */
  lemma SameBalanced(w: Workflow, n: Workflow)
    requires Balanced(w)
    requires n.events == w.events && n.ops == w.ops && n.cps == w.cps && n.calls == w.calls
    requires n.state == w.state && n.direction == w.direction && n.trigger == w.trigger
    ensures Balanced(n)
  {
    hide Count, CountIn;
  }

  /** Kinds of events that no row is stored for. */
  predicate Neutral(k: EventKind) {
    k.EvRoute404? || k.EvPendingDeferred? || k.EvPendingRedispatch? || k.EvDispatchDeferred?
    || k.EvCompensationRequested?
  }

  lemma StampBalanced(w: Workflow, ts: Ts, kind: EventKind, actor: Option<Id>)
    requires Balanced(w) && Neutral(kind)
    ensures Balanced(Stamp(w, ts, kind, actor))
  {
    hide Count, CountIn;
    CountMore(w.events, Event(ts, kind, actor));
  }

  lemma LeaseBalanced(w: Workflow, c: Cmd)
    requires Balanced(w)
    ensures c.Claim? ==> Balanced(DoClaim(w, c).next)
    ensures c.Heartbeat? ==> Balanced(DoHeartbeat(w, c).next)
    ensures c.Release? ==> Balanced(DoRelease(w, c).next)
  {
    hide Balanced, Holds, Claimable;
    if c.Claim? { SameBalanced(w, DoClaim(w, c).next); }
    if c.Heartbeat? { SameBalanced(w, DoHeartbeat(w, c).next); }
    if c.Release? { SameBalanced(w, DoRelease(w, c).next); }
  }

  lemma ResolveBalanced(w: Workflow)
    requires Balanced(w)
    ensures Balanced(DoOperatorResolve(w).next)
  {
    hide Count, CountIn;
  }

  lemma DeferBalanced(w: Workflow, c: Cmd)
    requires Balanced(w) && c.DispatchDefer?
    ensures Balanced(DoDispatchDefer(w, c).next)
  {
    hide Balanced, Holds;
    var given := w.(lease := None, nextAttempt := c.nextAttempt);
    SameBalanced(w, given);
    StampBalanced(given, c.ts, EvDispatchDeferred(c.why), Some(c.executor));
  }

  lemma RequestBalanced(w: Workflow, c: Cmd)
    requires Balanced(w) && c.OperationRequest?
    ensures Balanced(DoOperationRequest(w, c).next)
  {
    hide Balanced, Holds, OrderGuard;
    if DoOperationRequest(w, c).out.Requested? {
      AskedBalanced(w, DoOperationRequest(w, c).next, c.pos, Event(c.ts, EvOperationRequested, Some(c.executor)));
    }
  }

  lemma AskedBalanced(w: Workflow, n: Workflow, pos: nat, e: Event)
    requires Balanced(w) && pos !in w.ops && e.kind == EvOperationRequested
    requires pos in n.ops && n.ops == w.ops[pos := n.ops[pos]] && n.ops[pos].kind.Participant?
    requires n.cps == w.cps && n.calls == w.calls && n.events == w.events + [e]
    requires n.state == w.state && n.direction == w.direction && n.trigger == w.trigger
    ensures Balanced(n)
  {
    hide Count, CountIn;
    CountMore(w.events, e);
    CountPut(w.ops, pos, n.ops[pos], IsParticipant);
  }

  lemma SettleBalanced(w: Workflow, c: Cmd)
    requires Balanced(w) && Sound(w) && c.OperationSettle?
    ensures Balanced(DoOperationSettle(w, c).next)
  {
    hide Balanced, Holds, Sound;
    if DoOperationSettle(w, c).out.Settled? {
      ForwardUntriggered(w);
      CheckpointMeansSettled(w, c.pos);
      var n := DoOperationSettle(w, c).next;
      ResultBalanced(w, n, c.pos,
                     Event(c.ts, if c.final then EvWorkflowCompleted else EvOperationSettled, Some(c.executor)));
    }
  }

  lemma ResultBalanced(w: Workflow, n: Workflow, pos: nat, e: Event)
    requires Balanced(w) && w.state.Forward? && w.direction.Ahead? && pos in w.ops && pos !in w.cps
    requires pos in n.ops && n.ops[pos].kind == w.ops[pos].kind && n.ops == w.ops[pos := n.ops[pos]]
    requires pos in n.cps && n.cps[pos].reversal.Active? && n.cps == w.cps[pos := n.cps[pos]] && n.calls == w.calls
    requires n.direction.Ahead? && n.trigger == w.trigger && n.events == w.events + [e]
    requires (n.state.Completed? && e.kind == EvWorkflowCompleted) || (n.state.Forward? && e.kind == EvOperationSettled)
    ensures Balanced(n)
  {
    hide Count, CountIn;
    CountMore(w.events, e);
    CountPut(w.ops, pos, n.ops[pos], IsParticipant);
    CountPut(w.cps, pos, n.cps[pos], IsUndone);
    SizePut(w.cps, pos, n.cps[pos]);
  }

  lemma TurnBalanced(w: Workflow, executor: Id, trigger: Id, ts: Ts, why: string)
    requires Balanced(w) && Sound(w) && w.state.Forward?
    ensures Balanced(TurnBack(w, executor, trigger, ts, why).next)
  {
    hide Balanced, Sound, TopOf;
    ForwardUntriggered(w);
    var n := TurnBack(w, executor, trigger, ts, why).next;
    TurnedBalanced(w, n, Event(ts, if n.state.Failed? then EvFailed else EvReversalBegun, Some(executor)));
  }

  lemma TurnedBalanced(w: Workflow, n: Workflow, e: Event)
    requires Balanced(w) && w.state.Forward? && w.trigger.None? && w.direction.Ahead?
    requires n.ops == w.ops && n.cps == w.cps && n.calls == w.calls && n.events == w.events + [e]
    requires n.trigger.Some? && (n.state.Failed? || n.state.Reversing?)
    requires e.kind == if n.state.Failed? then EvFailed else EvReversalBegun
    ensures Balanced(n)
  {
    hide Count, CountIn;
    CountMore(w.events, e);
  }

  lemma TurningBalanced(w: Workflow, c: Cmd)
    requires Balanced(w) && Sound(w)
    ensures c.BeginReversal? ==> Balanced(DoBeginReversal(w, c).next)
    ensures c.AuthoredFail? ==> Balanced(DoAuthoredFail(w, c).next)
  {
    hide Balanced, Sound, TurnBack, Holds;
    if (c.BeginReversal? || c.AuthoredFail?) && w.state.Forward? { TurnBalanced(w, c.executor, c.opId, c.ts, c.why); }
  }

  lemma DispatchBalanced(w: Workflow, c: Cmd)
    requires Balanced(w) && c.ReverseRequest?
    ensures Balanced(DoReverseRequest(w, c).next)
  {
    hide Balanced, Holds, TopOf;
    if DoReverseRequest(w, c).out.Dispatched? {
      var cp := w.cps[c.pos].(binding := Some(c.binding));
      TouchCpBalanced(w, c.pos, cp, w.lease, w.nextAttempt);
      var bound := w.(cps := w.cps[c.pos := cp]);
      SameBalanced(bound, bound.(cursor := ReverseDispatched(c.pos)));
      StampBalanced(bound.(cursor := ReverseDispatched(c.pos)), c.ts, EvCompensationRequested, Some(c.executor));
    }
  }

  lemma UnwindBalanced(w: Workflow, pos: nat, ts: Ts, executor: Id)
    requires Balanced(w) && w.state.Reversing? && ActiveIn(w.cps, pos)
    ensures Balanced(Unwind(w, pos, ts, executor).next)
  {
    hide Balanced, TopOf;
    UndoneBalanced(w, Unwind(w, pos, ts, executor).next, pos, Event(ts, EvCompensationSettled, Some(executor)));
  }

  lemma UndoneBalanced(w: Workflow, n: Workflow, pos: nat, e: Event)
    requires Balanced(w) && w.state.Reversing? && ActiveIn(w.cps, pos) && e.kind == EvCompensationSettled
    requires n.cps == w.cps[pos := w.cps[pos].(reversal := Undone)] && n.ops == w.ops && n.calls == w.calls
    requires n.trigger == w.trigger && n.direction == w.direction && n.events == w.events + [e]
    requires n.state.Reversing? || n.state.Reversed?
    ensures Balanced(n)
  {
    hide Count, CountIn;
    CountMore(w.events, e);
    CountPut(w.cps, pos, n.cps[pos], IsUndone);
    SizePut(w.cps, pos, n.cps[pos]);
  }

  lemma BlockBalanced(w: Workflow, pos: nat, d: Disposition, ts: Ts, kind: EventKind, executor: Id)
    requires Balanced(w) && w.state.Reversing? && ActiveIn(w.cps, pos)
    requires kind == EvCompensationBlocked || kind == EvRouteUnknown
    ensures Balanced(BlockAt(w, pos, d, ts, kind, executor))
  {
    hide Count, CountIn, TopOf;
    CountMore(w.events, Event(ts, kind, Some(executor)));
    CountPut(w.cps, pos, w.cps[pos].(reversal := ResolutionRequired), IsUndone);
    SizePut(w.cps, pos, w.cps[pos].(reversal := ResolutionRequired));
  }

  lemma UndoingBalanced(w: Workflow, c: Cmd)
    requires Balanced(w)
    ensures c.ReverseSettle? ==> Balanced(DoReverseSettle(w, c).next)
    ensures c.ReverseBlock? ==> Balanced(DoReverseBlock(w, c).next)
  {
    hide Balanced, Unwind, BlockAt, Holds, TopOf;
    if (c.ReverseSettle? || c.ReverseBlock?) && w.state.Reversing? && ActiveIn(w.cps, c.pos) {
      UnwindBalanced(w, c.pos, c.ts, c.executor);
      if c.ReverseBlock? { BlockBalanced(w, c.pos, c.disposition, c.ts, EvCompensationBlocked, c.executor); }
    }
  }

  lemma StampIfLaterBalanced(w: Workflow, ts: Ts, kind: EventKind, actor: Id)
    requires Balanced(w) && Neutral(kind)
    ensures Balanced(StampIfLater(w, ts, kind, actor))
  {
    hide Balanced;
    StampBalanced(w, ts, kind, Some(actor));
  }

  /** A row whose kind is kept does not change the balance. */
  lemma TouchOpBalanced(w: Workflow, pos: nat, op: Operation, lease: Option<Lease>, next: Ts)
    requires Balanced(w) && pos in w.ops && op.kind == w.ops[pos].kind
    ensures Balanced(w.(ops := w.ops[pos := op], lease := lease, nextAttempt := next))
  {
    hide Count, CountIn;
    CountPut(w.ops, pos, op, IsParticipant);
  }

  lemma TouchCpBalanced(w: Workflow, pos: nat, cp: Checkpoint, lease: Option<Lease>, next: Ts)
    requires Balanced(w) && pos in w.cps && cp.reversal == w.cps[pos].reversal
    ensures Balanced(w.(cps := w.cps[pos := cp], lease := lease, nextAttempt := next))
  {
    hide Count, CountIn;
    CountPut(w.cps, pos, cp, IsUndone);
    SizePut(w.cps, pos, cp);
  }

  lemma ReconcileBalanced(w: Workflow, c: Cmd)
    requires Balanced(w) && Sound(w) && c.ReconcileDefer?
    ensures Balanced(DoReconcileDefer(w, c).next)
  {
    hide Balanced, Holds, Exhausted, Charge, StampIfLater, Sound;
    var out := DoReconcileDefer(w, c).out;
    if out.Deferred? || out.BlockedNow? {
      var op := w.ops[c.pos].(budget := Charge(w.ops[c.pos].budget, c.now));
      TouchOpBalanced(w, c.pos, op, None, c.nextAttempt);
      TouchOpBalanced(w, c.pos, op, None, w.nextAttempt);
      ForwardUntriggered(w);
      StampIfLaterBalanced(w.(ops := w.ops[c.pos := op], lease := None, nextAttempt := c.nextAttempt),
                           c.ts, EvRoute404, c.executor);
      if out.BlockedNow? {
        ParkedBalanced(w.(ops := w.ops[c.pos := op], lease := None), DoReconcileDefer(w, c).next,
                       Event(c.ts, EvRouteUnknown, Some(c.executor)));
      }
    }
  }

  lemma ParkedBalanced(w: Workflow, n: Workflow, e: Event)
    requires Balanced(w) && w.state.Forward? && w.direction.Ahead? && e.kind == EvRouteUnknown
    requires n.ops == w.ops && n.cps == w.cps && n.calls == w.calls && n.trigger == w.trigger
    requires n.state.Blocked? && n.direction.Ahead? && n.events == w.events + [e]
    ensures Balanced(n)
  {
    hide Count, CountIn;
    CountMore(w.events, e);
  }

  lemma ForwardUntriggered(w: Workflow)
    requires Sound(w) && w.state.Forward?
    ensures w.trigger.None? && w.direction.Ahead?
  {}

  lemma ReverseReconcileBalanced(w: Workflow, c: Cmd)
    requires Balanced(w) && c.ReverseReconcileDefer?
    ensures Balanced(DoReverseReconcileDefer(w, c).next)
  {
    hide Balanced, Holds, Exhausted, Charge, StampIfLater, TopOf, BlockAt;
    var out := DoReverseReconcileDefer(w, c).out;
    if out.Deferred? || out.BlockedNow? {
      var cp := w.cps[c.pos].(budget := Charge(w.cps[c.pos].budget, c.now));
      TouchCpBalanced(w, c.pos, cp, None, c.nextAttempt);
      TouchCpBalanced(w, c.pos, cp, w.lease, w.nextAttempt);
      StampIfLaterBalanced(w.(cps := w.cps[c.pos := cp], lease := None, nextAttempt := c.nextAttempt),
                           c.ts, EvRoute404, c.executor);
      BlockBalanced(w.(cps := w.cps[c.pos := cp]), c.pos, Indeterminate, c.ts, EvRouteUnknown, c.executor);
    }
  }

  lemma PendingBalanced(w: Workflow, c: Cmd)
    requires Balanced(w)
    ensures c.PendingDefer? ==> Balanced(DoPendingDefer(w, c).next)
  {
    hide Balanced, Holds, Overdue, Escalate, Observe, StampIfLater;
    if c.PendingDefer? && c.pos in w.ops {
      var op := w.ops[c.pos];
      var a, b := op.(timer := Escalate(op.timer, c.now)), op.(timer := Observe(op.timer, c.now));
      TouchOpBalanced(w, c.pos, a, w.lease, w.nextAttempt);
      TouchOpBalanced(w, c.pos, b, None, c.nextAttempt);
      StampIfLaterBalanced(w.(ops := w.ops[c.pos := a]), c.ts, EvPendingRedispatch, c.executor);
      StampIfLaterBalanced(w.(ops := w.ops[c.pos := b], lease := None, nextAttempt := c.nextAttempt),
                           c.ts, EvPendingDeferred, c.executor);
    }
  }

  lemma ReversePendingBalanced(w: Workflow, c: Cmd)
    requires Balanced(w)
    ensures c.ReversePendingDefer? ==> Balanced(DoReversePendingDefer(w, c).next)
  {
    hide Balanced, Holds, Overdue, Escalate, Observe, StampIfLater, TopOf;
    if c.ReversePendingDefer? && c.pos in w.cps {
      var cp := w.cps[c.pos];
      var a, b := cp.(timer := Escalate(cp.timer, c.now)), cp.(timer := Observe(cp.timer, c.now));
      TouchCpBalanced(w, c.pos, a, w.lease, w.nextAttempt);
      TouchCpBalanced(w, c.pos, b, None, c.nextAttempt);
      StampIfLaterBalanced(w.(cps := w.cps[c.pos := a]), c.ts, EvPendingRedispatch, c.executor);
      StampIfLaterBalanced(w.(cps := w.cps[c.pos := b], lease := None, nextAttempt := c.nextAttempt),
                           c.ts, EvPendingDeferred, c.executor);
    }
  }

  lemma LocalBalanced(w: Workflow, c: Cmd)
    requires Balanced(w) && Sound(w) && IsLocal(c)
    ensures Balanced(LocalStep(w, c).next)
  {
    hide Balanced, Sound, DoClaim, DoHeartbeat, DoRelease, DoOperationRequest, DoOperationSettle, DoBeginReversal,
      DoAuthoredFail, DoReverseRequest, DoReverseSettle, DoReverseBlock, DoReconcileDefer, DoReverseReconcileDefer,
      DoPendingDefer, DoReversePendingDefer, DoDispatchDefer, DoOperatorResolve;
    match c
    case OperationRequest(_, _, _, _, _, _, _, _, _, _, _) => RequestBalanced(w, c);
    case OperationSettle(_, _, _, _, _, _, _, _, _, _, _, _) => SettleBalanced(w, c);
    case BeginReversal(_, _, _, _, _, _, _) => TurningBalanced(w, c);
    case AuthoredFail(_, _, _, _, _, _) => TurningBalanced(w, c);
    case ReverseRequest(_, _, _, _, _, _) => DispatchBalanced(w, c);
    case ReverseSettle(_, _, _, _, _, _) => UndoingBalanced(w, c);
    case ReverseBlock(_, _, _, _, _, _, _) => UndoingBalanced(w, c);
    case ReconcileDefer(_, _, _, _, _, _, _, _, _, _) => ReconcileBalanced(w, c);
    case ReverseReconcileDefer(_, _, _, _, _, _, _, _, _, _) => ReverseReconcileBalanced(w, c);
    case PendingDefer(_, _, _, _, _, _, _, _, _) => PendingBalanced(w, c);
    case ReversePendingDefer(_, _, _, _, _, _, _, _, _) => ReversePendingBalanced(w, c);
    case DispatchDefer(_, _, _, _, _, _, _) => DeferBalanced(w, c);
    case OperatorResolve(_) => ResolveBalanced(w);
    case _ => LeaseBalanced(w, c);
  }

  // ---------------------------------------------------------------- the store

  ghost predicate AllBalanced(db: Db) { forall id :: id in db ==> Balanced(db[id]) }

  lemma NewBalanced(script: string, pin: Pin, args: Doc, ancestry: Option<Ancestry>, cursor: Doc, nextAttempt: Ts,
                    ts: Ts)
    ensures Balanced(NewWorkflow(script, pin, args, ancestry, cursor, nextAttempt, ts))
  {
    hide Count, CountIn;
    var e := Event(ts, EvCreated, None);
    NothingLogged();
    CountMore([], e);
    assert [] + [e] == [e];
    NothingCounted<Operation>(IsParticipant);
    NothingCounted<Checkpoint>(IsUndone);
  }

  lemma NothingLogged()
    ensures forall k :: Count([], k) == 0
  {}

  lemma NothingCounted<T>(has: T -> bool)
    ensures CountIn(map[], has) == 0
  {
    assert Where<T>(map[], has) == {};
  }

  lemma SubmitBalanced(w: Workflow, c: Cmd)
    requires Balanced(w) && c.CallSubmit? && c.pos !in w.ops && c.pos !in w.calls
    ensures Balanced(SubmittedParent(w, c))
  {
    hide Balanced;
    CalledBalanced(w, SubmittedParent(w, c), c.pos, Event(c.ts, EvCallSubmitted, Some(c.executor)));
  }

  lemma CalledBalanced(w: Workflow, n: Workflow, pos: nat, e: Event)
    requires Balanced(w) && pos !in w.ops && pos !in w.calls && e.kind == EvCallSubmitted
    requires pos in n.ops && n.ops == w.ops[pos := n.ops[pos]] && n.ops[pos].kind.ChildWorkflow?
    requires pos in n.calls && n.calls == w.calls[pos := n.calls[pos]]
    requires n.cps == w.cps && n.events == w.events + [e]
    requires n.state == w.state && n.direction == w.direction && n.trigger == w.trigger
    ensures Balanced(n)
  {
    hide Count, CountIn;
    CountMore(w.events, e);
    CountPut(w.ops, pos, n.ops[pos], IsParticipant);
    SizePut(w.calls, pos, n.calls[pos]);
  }

  lemma ReopenBalanced(child: Workflow, ts: Ts, executor: Id)
    requires Balanced(child) && child.state.Completed? && child.direction.Ahead? && child.trigger.None?
    requires child.Top().Some?
    ensures Balanced(ReopenedChild(child, ts, executor))
  {
    hide Count, CountIn, TopOf;
    CountMore(child.events, Event(ts, EvRequestedByParent, Some(executor)));
  }

  lemma CompletedUntriggered(w: Workflow)
    requires Sound(w) && w.state.Completed?
    ensures w.trigger.None? && w.direction.Ahead?
  {}

  lemma NoCallYet(w: Workflow, p: nat)
    requires Sound(w) && p !in w.ops
    ensures p !in w.calls
  {}

  lemma WokenBalanced(w: Workflow, ts: Ts)
    requires Balanced(w)
    ensures Balanced(Woken(w, ts))
  {
    hide Balanced;
    SameBalanced(w, Woken(w, ts));
  }

  lemma SpanBalanced(db: Db, c: Cmd)
    requires AllSound(db) && AllBalanced(db) && !IsLocal(c)
    ensures AllBalanced(Apply(db, c).db)
  {
    hide Malformed, Balanced, Sound, Holds, TopOf, NewWorkflow, Unwind, IsCallerOf, DoCallSubmit, DoChildReopen,
      LocalStep, OpIdTaken, Woken;
    if Apply(db, c).db != db {
      match c
      case CreatePlanned(_, script, pin, ts, next, cursor, args) =>
        NewBalanced(script, pin, args, None, cursor, next, ts);
      case CallSubmit(_, _, _, _, _, _, _, _, _, _, _, _, _, _, _, _) => CallBalanced(db, c);
      case ChildReopen(_, _, _, _, _) => ReopeningBalanced(db, c);
      case ChildSettle(_, executor, _, pos, ts) => UnwindBalanced(db[c.wf], pos, ts, executor);
      case TerminalNotify(_, ts) =>
        forall id | id in db ensures Balanced(Woken(db[id], ts)) { WokenBalanced(db[id], ts); }
    }
  }

  lemma ReopeningBalanced(db: Db, c: Cmd)
    requires c.ChildReopen? && AllSound(db) && AllBalanced(db)
    ensures AllBalanced(Apply(db, c).db)
  {
    hide Malformed, Balanced, Sound, Holds, TopOf, ReopenedChild;
    if Apply(db, c).db != db {
      var child := db[db[c.wf].calls[c.pos].child];
      StampBalanced(db[c.wf], c.ts, EvCompensationRequested, Some(c.executor));
      CompletedUntriggered(child);
      ReopenBalanced(child, c.ts, c.executor);
    }
  }

  lemma CallBalanced(db: Db, c: Cmd)
    requires c.CallSubmit? && AllSound(db) && AllBalanced(db)
    ensures AllBalanced(Apply(db, c).db)
  {
    hide Malformed, Balanced, Sound, OpIdTaken, InLineage, SameSubmission, OrderGuard, Holds, NewWorkflow,
      SubmittedParent;
    if Apply(db, c).db != db {
      var w := db[c.wf];
      NoCallYet(w, c.pos);
      SubmitBalanced(w, c);
      var root := if w.ancestry.Some? then w.ancestry.value.root else c.wf;
      NewBalanced(c.childScript, c.childPin, c.input, Some(Ancestry(c.wf, c.node, root, w.Depth() + 1)), c.childCursor,
                  c.childNext, c.ts);
    }
  }

  lemma Lands(db: Db, c: Cmd)
    requires IsLocal(c)
    ensures Apply(db, c).db == db || (c.wf in db && Apply(db, c).db == db[c.wf := LocalStep(db[c.wf], c).next])
  {
    hide Malformed, OpIdTaken, LocalStep;
  }

  lemma ApplyBalanced(db: Db, c: Cmd)
    requires AllSound(db) && AllBalanced(db)
    ensures AllBalanced(Apply(db, c).db)
  {
    hide Apply, Balanced, Sound, LocalStep;
    if IsLocal(c) {
      Lands(db, c);
      if c.wf in db { LocalBalanced(db[c.wf], c); }
    } else {
      SpanBalanced(db, c);
    }
  }

  lemma {:induction false} RunBalanced(db: Db, maxDepth: nat, cmds: seq<Cmd>)
    requires Inv(db, maxDepth) && AllBalanced(db) && forall i :: 0 <= i < |cmds| ==> Bounded(cmds[i], maxDepth)
    ensures AllBalanced(Run(db, cmds))
    decreases |cmds|
  {
    hide AllLinked, AllRooted, UniqueOps, AllDistinct, AllSound, AllBalanced, Apply, DbGrows;
    if cmds != [] {
      ApplyInv(db, maxDepth, cmds[0]);
      ApplyBalanced(db, cmds[0]);
      RunBalanced(Apply(db, cmds[0]).db, maxDepth, cmds[1..]);
    }
  }

  /** In every reachable store the log of every workflow accounts for its rows: as many requests as
    * participant operations, as many submissions as calls, as many settles as checkpoints, as many
    * compensations as undone checkpoints, one completion, one turn, one reopening and one block at most,
    * exactly where the row says so. */
  lemma LogAccountsForRows(db: Db, maxDepth: nat, id: Id)
    requires Reachable(db, maxDepth) && id in db
    ensures Balanced(db[id])
  {
    hide Inv, Run, Balanced;
    var cmds :| (forall i :: 0 <= i < |cmds| ==> Bounded(cmds[i], maxDepth)) && db == Run(map[], cmds);
    EmptyInv(maxDepth);
    RunBalanced(map[], maxDepth, cmds);
  }
}
