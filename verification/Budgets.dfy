/** The two durable clocks: the route-404 budget and the pending-to-redispatch timer. */
module Budgets {
  import opened Options
  import opened Rows
  import opened Procedures
  import opened Coordinator
  import opened Soundness
  import opened Evolution
  import opened Invariant
  import opened InvariantSteps
  import opened OpSteps
  import opened StackSteps

  // ---------------------------------------------------------------- the budget alone

  /** Attempts that can be charged before the budget is spent, when consecutive attempts are
    * at least `spacing` milliseconds apart: max(minAttempts, ceil(maxElapsed / spacing) + 1). */
  function MaxAttempts(maxElapsed: nat, minAttempts: nat, spacing: nat): nat
    requires spacing >= 1
  {
    var byTime := (maxElapsed + spacing - 1) / spacing + 1;
    if byTime < minAttempts then minAttempts else byTime
  }

  /** The budget remembers how long its attempts have been going on. */
  ghost predicate Spread(b: Budget, spacing: nat) {
    if b.attempts == 0 then b.firstSeen.None? && b.lastSeen.None?
    else
      b.firstSeen.Some? && b.lastSeen.Some?
      && b.lastSeen.value - b.firstSeen.value >= (b.attempts - 1) * spacing * 1000
  }

  /** The next attempt keeps its distance from the last. */
  predicate Spaced(b: Budget, now: Ts, spacing: nat) { b.lastSeen.Some? ==> now >= b.lastSeen.value + spacing * 1000 }

  lemma ChargeSpreads(b: Budget, now: Ts, spacing: nat)
    requires Spread(b, spacing) && Spaced(b, now, spacing)
    ensures Spread(Charge(b, now), spacing)
  {
    if b.attempts > 0 {
      assert b.attempts * spacing * 1000 == (b.attempts - 1) * spacing * 1000 + spacing * 1000;
    }
  }

  /** An attempt that does not spend the budget is below the bound. */
  lemma UnspentBelowBound(b: Budget, now: Ts, maxElapsed: nat, minAttempts: nat, spacing: nat)
    requires spacing >= 1 && Spread(b, spacing) && Spaced(b, now, spacing)
    requires !Exhausted(b, now, maxElapsed, minAttempts)
    ensures b.attempts + 1 < MaxAttempts(maxElapsed, minAttempts, spacing)
  {
    if b.attempts + 1 >= minAttempts {
      var first := Anchor(b.firstSeen, now);
      var elapsed := ElapsedMs(first, now);
      assert elapsed < maxElapsed;
      assert now - first >= b.attempts * spacing * 1000 by { ChargeSpreads(b, now, spacing); }
      assert first <= now by { assert b.attempts * spacing >= 0; }
      assert elapsed >= b.attempts * spacing;
      CeilingAbove(b.attempts, spacing, maxElapsed);
    }
  }

  lemma CeilingAbove(k: nat, d: nat, e: nat)
    requires d >= 1 && k * d < e
    ensures k < (e + d - 1) / d
  {
    var q := (e + d - 1) / d;
    assert q * d > e - 1;
    assert q <= k ==> q * d <= k * d;
  }

  // ---------------------------------------------------------------- the timer alone

  /** Escalations were at least `after` milliseconds apart, counted from the anchor. */
  ghost predicate Paced(t: Timer, after: nat) {
    if t.count == 0 then t.lastAt.None?
    else t.firstSeen.Some? && t.lastAt.Some? && t.count * after * 1000 <= t.lastAt.value - t.firstSeen.value
  }

  /** An escalation keeps the pace exactly when the threshold is positive or the clock has not
    * gone back behind the anchor: elapsed time is truncated toward zero, so with a zero
    * threshold an instant up to a millisecond early still counts as due. */
  lemma EscalationPacedExactly(t: Timer, now: Ts, after: nat)
    requires Paced(t, after) && Overdue(t, now, after)
    ensures Paced(Escalate(t, now), after) <==> after > 0 || Anchor(t.firstSeen, now) <= now
  {
    assert (t.count + 1) * after * 1000 == t.count * after * 1000 + after * 1000;
    if after == 0 { assert (t.count + 1) * after * 1000 == 0; }
  }

  lemma ObservationPaced(t: Timer, now: Ts, after: nat)
    requires Paced(t, after)
    ensures Paced(Observe(t, now), after)
  {}

  /** The exception is real: threshold zero, and a clock that steps back half a millisecond. */
  lemma ZeroThresholdOutpacesItself()
    ensures var t := Escalate(FRESH_TIMER, 1_000);
            Overdue(FRESH_TIMER, 1_000, 0) && Paced(t, 0) && Overdue(t, 500, 0) && !Paced(Escalate(t, 500), 0)
  {}

  // ---------------------------------------------------------------- one workflow, one step

  /** The limits a deployment runs with. */
  datatype Limits = Limits(maxElapsed: nat, minAttempts: nat, spacing: nat, after: nat)
  {
    function Bound(): nat
      requires spacing >= 1
    {
      MaxAttempts(maxElapsed, minAttempts, spacing)
    }
  }

  predicate Parking(s: State) { s.Blocked? || s.ResolvedException? }

  /** Attempts stay below the bound until the workflow is parked on the operation. */
  ghost predicate OpClocks(w: Workflow, p: nat, l: Limits)
    requires l.spacing >= 1
  {
    p in w.ops ==>
      Spread(w.ops[p].budget, l.spacing) && Paced(w.ops[p].timer, l.after)
      && (w.ops[p].budget.attempts < l.Bound()
          || (Parking(w.state) && w.cursor == StuckForward(p) && w.ops[p].budget.attempts <= l.Bound()))
  }

  /** The same for a compensation: below the bound until the checkpoint is parked. */
  ghost predicate CpClocks(w: Workflow, p: nat, l: Limits)
    requires l.spacing >= 1
  {
    p in w.cps ==>
      Spread(w.cps[p].budget, l.spacing) && Paced(w.cps[p].timer, l.after)
      && (w.cps[p].budget.attempts < l.Bound()
          || (w.cps[p].reversal.ResolutionRequired? && w.cps[p].budget.attempts <= l.Bound()))
  }

  predicate InLimits(b: Budget, c: Cmd, l: Limits)
    requires c.ReconcileDefer? || c.ReverseReconcileDefer?
  {
    c.maxElapsed == l.maxElapsed && c.minAttempts == l.minAttempts && Spaced(b, c.now, l.spacing)
  }

  predicate OnPace(t: Timer, c: Cmd, l: Limits)
    requires c.PendingDefer? || c.ReversePendingDefer?
  {
    c.after == l.after && (l.after > 0 || Anchor(t.firstSeen, c.now) <= c.now)
  }

  /** The deployment's policy for position `p`: whoever drives, each charged attempt uses the
    * configured limits and keeps its distance from the one before. */
  predicate Obeys(w: Workflow, c: Cmd, p: nat, l: Limits) {
    && (c.ReconcileDefer? && c.pos == p && p in w.ops ==> InLimits(w.ops[p].budget, c, l))
    && (c.ReverseReconcileDefer? && c.pos == p && p in w.cps ==> InLimits(w.cps[p].budget, c, l))
    && (c.PendingDefer? && c.pos == p && p in w.ops ==> OnPace(w.ops[p].timer, c, l))
    && (c.ReversePendingDefer? && c.pos == p && p in w.cps ==> OnPace(w.cps[p].timer, c, l))
  }

  lemma FreshClocks(l: Limits)
    requires l.spacing >= 1
    ensures l.Bound() > 0 && Spread(FRESH_BUDGET, l.spacing) && Paced(FRESH_TIMER, l.after)
  {}

  lemma LocalOpClocks(w: Workflow, c: Cmd, p: nat, l: Limits)
    requires Sound(w) && IsLocal(c) && l.spacing >= 1 && OpClocks(w, p, l) && Obeys(w, c, p, l)
    ensures OpClocks(LocalStep(w, c).next, p, l)
  {
    hide LocalStep, Sound, TopOf, Exhausted, Overdue, DoOperationRequest, ElapsedMs, Spread, MaxAttempts, Spaced, Paced,
      Charge, Escalate, Observe;
    FreshClocks(l);
    var n := LocalStep(w, c).next;
    if p in n.ops {
      LocalOpChange(w, c, p);
      if p in w.ops {
        if Parking(w.state) && w.cursor == StuckForward(p) {
          ParkedStays(w, c);
        }
        if c.ReconcileDefer? && c.pos == p && n.ops[p] != w.ops[p] {
          ChargeSpreads(w.ops[p].budget, c.now, l.spacing);
          ForwardDefers(w, c);
          ChargeCounts(w.ops[p].budget, c.now);
          if !Exhausted(w.ops[p].budget, c.now, c.maxElapsed, c.minAttempts) {
            UnspentBelowBound(w.ops[p].budget, c.now, l.maxElapsed, l.minAttempts, l.spacing);
          }
        } else if c.PendingDefer? && c.pos == p && n.ops[p] != w.ops[p] {
          ForwardDefers(w, c);
          ObservationPaced(w.ops[p].timer, c.now, l.after);
          if Overdue(w.ops[p].timer, c.now, c.after) { EscalationPacedExactly(w.ops[p].timer, c.now, l.after); }
        }
      }
    }
  }

  lemma LocalCpClocks(w: Workflow, c: Cmd, p: nat, l: Limits)
    requires Sound(w) && IsLocal(c) && l.spacing >= 1 && CpClocks(w, p, l) && Obeys(w, c, p, l)
    ensures CpClocks(LocalStep(w, c).next, p, l)
  {
    hide LocalStep, Lifo, Agrees, Fields, Chronology, TopOf, Exhausted, Overdue, ElapsedMs, Spread, MaxAttempts, Spaced,
      Paced, Charge, Escalate, Observe;
    FreshClocks(l);
    var n := LocalStep(w, c).next;
    if p in n.cps {
      LocalStackChange(w, c, p);
      if p in w.cps && n.cps[p] != w.cps[p] {
        if c.ReverseReconcileDefer? {
          ChargeSpreads(w.cps[p].budget, c.now, l.spacing);
          ChargeCounts(w.cps[p].budget, c.now);
          if !Exhausted(w.cps[p].budget, c.now, c.maxElapsed, c.minAttempts) {
            UnspentBelowBound(w.cps[p].budget, c.now, l.maxElapsed, l.minAttempts, l.spacing);
          }
        } else if c.ReversePendingDefer? {
          ObservationPaced(w.cps[p].timer, c.now, l.after);
          if Overdue(w.cps[p].timer, c.now, c.after) { EscalationPacedExactly(w.cps[p].timer, c.now, l.after); }
        }
      }
    }
  }

  lemma ChargeCounts(b: Budget, now: Ts)
    ensures Charge(b, now).attempts == b.attempts + 1
  {}

  /** A charge or a timer turn on an operation is a forward step, and parks on that operation or not at all. */
  lemma ForwardDefers(w: Workflow, c: Cmd)
    requires (c.ReconcileDefer? || c.PendingDefer?) && LocalStep(w, c).next != w
    ensures w.state.Forward?
  {
    hide TopOf, Holds, Exhausted, Overdue;
  }

  /** A parked workflow keeps its cursor under every local command. */
  lemma ParkedStays(w: Workflow, c: Cmd)
    requires Sound(w) && IsLocal(c) && Parking(w.state)
    ensures Parking(LocalStep(w, c).next.state) && LocalStep(w, c).next.cursor == w.cursor
  {
    hide TopOf, Exhausted, Overdue, OrderGuard, Spine, Lifo, Chronology, TurnBack, Unwind, BlockAt, Stamp, StampIfLater;
  }

  // ---------------------------------------------------------------- the whole store, every run

  ghost predicate Clocks(db: Db, id: Id, p: nat, l: Limits)
    requires l.spacing >= 1
  {
    id in db ==> OpClocks(db[id], p, l) && CpClocks(db[id], p, l)
  }

  /** The commands that span workflows leave existing budgets and timers alone. */
  lemma SpanningClocks(db: Db, c: Cmd, id: Id, p: nat, l: Limits)
    requires !IsLocal(c) && l.spacing >= 1 && Clocks(db, id, p, l)
    requires id in db ==> Sound(db[id])
    ensures Clocks(Apply(db, c).db, id, p, l)
  {
    hide TopOf, Holds, SameSubmission, InLineage, OpIdTaken, OrderGuard, Malformed, Spread, Paced, MaxAttempts,
      Spine, Lifo,
      Fields, Chronology;
    FreshClocks(l);
    if c.ChildSettle? {
      ChildSettleClocks(db, c, id, p, l);
      hide Apply;
    }
  }

  lemma ChildSettleClocks(db: Db, c: Cmd, id: Id, p: nat, l: Limits)
    requires c.ChildSettle? && l.spacing >= 1 && Clocks(db, id, p, l)
    ensures Clocks(Apply(db, c).db, id, p, l)
  {
    hide TopOf, Malformed, Spread, Paced, MaxAttempts;
  }

  lemma StepClocks(db: Db, maxDepth: nat, c: Cmd, id: Id, p: nat, l: Limits)
    requires Inv(db, maxDepth) && l.spacing >= 1 && Clocks(db, id, p, l)
    requires IsLocal(c) && id == c.wf && id in db ==> Obeys(db[id], c, p, l)
    ensures Clocks(Apply(db, c).db, id, p, l)
  {
    hide AllLinked, AllRooted, UniqueOps, AllDistinct, Sound, OpClocks, CpClocks, LocalStep, Obeys, Malformed,
      OpIdTaken;
    if !IsLocal(c) {
      hide Apply;
      SpanningClocks(db, c, id, p, l);
    } else if c.wf in db && c.wf == id {
      LocalOpClocks(db[id], c, p, l);
      LocalCpClocks(db[id], c, p, l);
    }
  }

  predicate ObeyedThroughout(db: Db, cmds: seq<Cmd>, id: Id, p: nat, l: Limits)
    decreases |cmds|
  {
    cmds == []
    || ((IsLocal(cmds[0]) && id == cmds[0].wf && id in db ==> Obeys(db[id], cmds[0], p, l))
        && ObeyedThroughout(Apply(db, cmds[0]).db, cmds[1..], id, p, l))
  }

  lemma {:induction false} ClocksInEveryRun(db: Db, maxDepth: nat, cmds: seq<Cmd>, id: Id, p: nat, l: Limits)
    requires Inv(db, maxDepth) && forall i :: 0 <= i < |cmds| ==> Bounded(cmds[i], maxDepth)
    requires l.spacing >= 1 && Clocks(db, id, p, l) && ObeyedThroughout(db, cmds, id, p, l)
    ensures Clocks(Run(db, cmds), id, p, l)
    decreases |cmds|
  {
    hide Inv, Apply, Clocks, Obeys;
    if cmds != [] {
      ApplyInv(db, maxDepth, cmds[0]);
      StepClocks(db, maxDepth, cmds[0], id, p, l);
      ClocksInEveryRun(Apply(db, cmds[0]).db, maxDepth, cmds[1..], id, p, l);
    }
  }

  /** From the empty store, under any interleaving of drivers that release, lose and re-claim the
    * lease: a forward route-404 parks the workflow within the bound, a reverse one parks the
    * checkpoint within the bound, and re-dispatches never outpace their threshold. */
  lemma BudgetsBound(maxDepth: nat, cmds: seq<Cmd>, id: Id, p: nat, l: Limits)
    requires forall i :: 0 <= i < |cmds| ==> Bounded(cmds[i], maxDepth)
    requires l.spacing >= 1 && ObeyedThroughout(map[], cmds, id, p, l) && id in Run(map[], cmds)
    ensures var w := Run(map[], cmds)[id];
            (p in w.ops ==>
               w.ops[p].budget.attempts <= l.Bound()
               && (w.ops[p].budget.attempts == l.Bound() ==> Parking(w.state) && w.cursor == StuckForward(p))
               && (w.ops[p].timer.count > 0 ==>
                     w.ops[p].timer.firstSeen.Some? && w.ops[p].timer.lastAt.Some?
                     && w.ops[p].timer.count * l.after * 1000
                        <= w.ops[p].timer.lastAt.value - w.ops[p].timer.firstSeen.value))
            && (p in w.cps ==>
                  w.cps[p].budget.attempts <= l.Bound()
                  && (w.cps[p].budget.attempts == l.Bound() ==> w.cps[p].reversal.ResolutionRequired?)
                  && (w.cps[p].timer.count > 0 ==>
                        w.cps[p].timer.firstSeen.Some? && w.cps[p].timer.lastAt.Some?
                        && w.cps[p].timer.count * l.after * 1000
                           <= w.cps[p].timer.lastAt.value - w.cps[p].timer.firstSeen.value))
  {
    hide Inv, Run, MaxAttempts;
    EmptyInv(maxDepth);
    ClocksInEveryRun(map[], maxDepth, cmds, id, p, l);
  }

  lemma ForwardSpendTouchesNone(w: Workflow, c: Cmd)
    requires c.ReconcileDefer?
    ensures DoReconcileDefer(w, c).next.cps == w.cps
  {
    hide Holds, Exhausted, Charge;
  }

  lemma ReverseSpendTouchesOne(w: Workflow, c: Cmd, q: nat)
    requires c.ReverseReconcileDefer? && q in w.cps && q != c.pos
    ensures q in DoReverseReconcileDefer(w, c).next.cps && DoReverseReconcileDefer(w, c).next.cps[q] == w.cps[q]
  {
    hide TopOf, Holds, Exhausted, Charge;
  }

  /** Spending a budget parks one position and touches no other checkpoint. */
  lemma SpendingTouchesOne(w: Workflow, c: Cmd, q: nat)
    requires Sound(w) && (c.ReconcileDefer? || c.ReverseReconcileDefer?) && q in w.cps
    requires c.ReverseReconcileDefer? ==> q != c.pos
    ensures q in LocalStep(w, c).next.cps && LocalStep(w, c).next.cps[q] == w.cps[q]
  {
    hide Sound, DoReconcileDefer, DoReverseReconcileDefer;
    if c.ReconcileDefer? { ForwardSpendTouchesNone(w, c); } else { ReverseSpendTouchesOne(w, c, q); }
  }
}
