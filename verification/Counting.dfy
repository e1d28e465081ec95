/** What budgets and timers hold is what happened: they count and date the attempts of a run. */
module Counting {
  import opened Options
  import opened Rows
  import opened Procedures
  import opened Coordinator
  import opened Soundness
  import opened Invariant
  import opened InvariantSteps
  import opened OpSteps
  import opened StackSteps
  import opened Evolution
  import opened SoundSteps
  import opened Ledger

  /** What an accepted deferral does to a position: charge its budget, send its dispatch again, or wait. */
  datatype Tick = Charged(now: Ts) | Escalated(now: Ts) | Observed(now: Ts)

  datatype Clock = Clock(budget: Budget, timer: Timer)

  /** The clock of an operation, or of the compensation of its checkpoint. */
  function ClockOf(w: Workflow, p: nat, reverse: bool): Option<Clock> {
    if reverse then if p in w.cps then Some(Clock(w.cps[p].budget, w.cps[p].timer)) else None
    else if p in w.ops then Some(Clock(w.ops[p].budget, w.ops[p].timer)) else None
  }

  function ClockAt(db: Db, id: Id, p: nat, reverse: bool): Option<Clock> {
    if id in db then ClockOf(db[id], p, reverse) else None
  }

  function TickOf(c: Cmd, out: Outcome, id: Id, p: nat, reverse: bool): seq<Tick> {
    if (if reverse then c.ReverseReconcileDefer? else c.ReconcileDefer?) && c.wf == id && c.pos == p
       && (out.Deferred? || out.BlockedNow?) then [Charged(c.now)]
    else if (if reverse then c.ReversePendingDefer? else c.PendingDefer?) && c.wf == id && c.pos == p then
      if out.Redispatch? then [Escalated(c.now)] else if out.PendingDefer? then [Observed(c.now)] else []
    else []
  }

  /** The ticks of a run from the empty store. */
  function Ticks(cmds: seq<Cmd>, id: Id, p: nat, reverse: bool): seq<Tick>
    decreases |cmds|
  {
    if cmds == [] then []
    else
      var before := cmds[..|cmds| - 1];
      var c := cmds[|cmds| - 1];
      Ticks(before, id, p, reverse) + TickOf(c, Apply(Run(map[], before), c).out, id, p, reverse)
  }

  function Charges(ts: seq<Tick>): seq<Ts>
    decreases |ts|
  {
    if ts == [] then []
    else Charges(ts[..|ts| - 1]) + (if ts[|ts| - 1].Charged? then [ts[|ts| - 1].now] else [])
  }

  function Escalations(ts: seq<Tick>): seq<Ts>
    decreases |ts|
  {
    if ts == [] then []
    else Escalations(ts[..|ts| - 1]) + (if ts[|ts| - 1].Escalated? then [ts[|ts| - 1].now] else [])
  }

  /** The times the dispatch was found pending. */
  function Sightings(ts: seq<Tick>): seq<Ts>
    decreases |ts|
  {
    if ts == [] then []
    else Sightings(ts[..|ts| - 1]) + (if ts[|ts| - 1].Charged? then [] else [ts[|ts| - 1].now])
  }

  function First(xs: seq<Ts>): Option<Ts> { if xs == [] then None else Some(xs[0]) }

  function Last(xs: seq<Ts>): Option<Ts> { if xs == [] then None else Some(xs[|xs| - 1]) }

  /** The clock that has seen exactly these ticks. */
  function Seen(ts: seq<Tick>): Clock {
    Clock(Budget(|Charges(ts)|, First(Charges(ts)), Last(Charges(ts))),
          Timer(First(Sightings(ts)), Last(Escalations(ts)), |Escalations(ts)|))
  }

  lemma OneMoreTick(ts: seq<Tick>, t: Tick)
    ensures Charges(ts + [t]) == Charges(ts) + (if t.Charged? then [t.now] else [])
    ensures Escalations(ts + [t]) == Escalations(ts) + (if t.Escalated? then [t.now] else [])
    ensures Sightings(ts + [t]) == Sightings(ts) + (if t.Charged? then [] else [t.now])
  {
    assert (ts + [t])[..|ts|] == ts;
  }

  lemma TickSeen(ts: seq<Tick>, t: Tick)
    ensures var k := Seen(ts);
            Seen(ts + [t]) == match t
                              case Charged(now) => k.(budget := Charge(k.budget, now))
                              case Escalated(now) => k.(timer := Escalate(k.timer, now))
                              case Observed(now) => k.(timer := Observe(k.timer, now))
  {
    OneMoreTick(ts, t);
    hide Charges, Escalations, Sightings;
  }

  // ---------------------------------------------------------------- one command

  /** The clock after a command: wound by its tick, fresh where the row is new, else as it was. */
  predicate Wound(before: Option<Clock>, after: Option<Clock>, ticks: seq<Tick>) {
    if before.None? then ticks == [] && (after.Some? ==> after.value == Clock(FRESH_BUDGET, FRESH_TIMER))
    else
      var k := before.value;
      after == Some(if ticks == [] then k
                    else match ticks[0]
                         case Charged(now) => k.(budget := Charge(k.budget, now))
                         case Escalated(now) => k.(timer := Escalate(k.timer, now))
                         case Observed(now) => k.(timer := Observe(k.timer, now)))
  }

  lemma ReconcileWinds(w: Workflow, c: Cmd, p: nat)
    ensures c.ReconcileDefer? ==>
              Wound(ClockOf(w, p, false), ClockOf(DoReconcileDefer(w, c).next, p, false),
                    TickOf(c, DoReconcileDefer(w, c).out, c.wf, p, false))
    ensures c.PendingDefer? ==>
              Wound(ClockOf(w, p, false), ClockOf(DoPendingDefer(w, c).next, p, false),
                    TickOf(c, DoPendingDefer(w, c).out, c.wf, p, false))
  {
    hide Holds, Exhausted, Overdue, Charge, Escalate, Observe;
  }

  lemma ReverseWinds(w: Workflow, c: Cmd, p: nat)
    ensures c.ReverseReconcileDefer? ==>
              Wound(ClockOf(w, p, true), ClockOf(DoReverseReconcileDefer(w, c).next, p, true),
                    TickOf(c, DoReverseReconcileDefer(w, c).out, c.wf, p, true))
    ensures c.ReversePendingDefer? ==>
              Wound(ClockOf(w, p, true), ClockOf(DoReversePendingDefer(w, c).next, p, true),
                    TickOf(c, DoReversePendingDefer(w, c).out, c.wf, p, true))
  {
    hide Holds, Exhausted, Overdue, Charge, Escalate, Observe, TopOf;
  }

  lemma ForwardKeeps(w: Workflow, c: Cmd, p: nat)
    requires Sound(w) && IsLocal(c) && !c.ReconcileDefer? && !c.PendingDefer?
    ensures Wound(ClockOf(w, p, false), ClockOf(LocalStep(w, c).next, p, false), [])
  {
    hide Sound, LocalStep, Charge, Exhausted, Overdue, Escalate, Observe, CpsGrow, CallsGrow, DoOperationRequest;
    LocalGrows(w, c);
    if p in LocalStep(w, c).next.ops { LocalOpChange(w, c, p); }
  }

  lemma ReverseKeeps(w: Workflow, c: Cmd, p: nat)
    requires Sound(w) && IsLocal(c) && !c.ReverseReconcileDefer? && !c.ReversePendingDefer?
    ensures Wound(ClockOf(w, p, true), ClockOf(LocalStep(w, c).next, p, true), [])
  {
    hide Sound, LocalStep, Charge, Exhausted, Overdue, Escalate, Observe, OpsGrow, CallsGrow, TopOf;
    LocalGrows(w, c);
    SettledBelow(w);
    if p in LocalStep(w, c).next.cps { LocalStackChange(w, c, p); }
  }

  lemma LocalWinds(w: Workflow, c: Cmd, p: nat, reverse: bool)
    requires Sound(w) && IsLocal(c)
    ensures Wound(ClockOf(w, p, reverse), ClockOf(LocalStep(w, c).next, p, reverse),
                  TickOf(c, LocalStep(w, c).out, c.wf, p, reverse))
  {
    hide Sound, Wound, ClockOf, DoReconcileDefer, DoPendingDefer, DoReverseReconcileDefer, DoReversePendingDefer;
    if !reverse && (c.ReconcileDefer? || c.PendingDefer?) {
      ReconcileWinds(w, c, p);
    } else if reverse && (c.ReverseReconcileDefer? || c.ReversePendingDefer?) {
      ReverseWinds(w, c, p);
    } else {
      hide LocalStep;
      if reverse { ReverseKeeps(w, c, p); } else { ForwardKeeps(w, c, p); }
    }
  }

  lemma UnwindKeeps(w: Workflow, pos: nat, ts: Ts, executor: Id, p: nat, reverse: bool)
    requires pos in w.cps
    ensures ClockOf(Unwind(w, pos, ts, executor).next, p, reverse) == ClockOf(w, p, reverse)
  {
    hide TopOf;
  }

  lemma SubmitKeeps(db: Db, c: Cmd, id: Id, p: nat, reverse: bool)
    requires c.CallSubmit?
    ensures Wound(ClockAt(db, id, p, reverse), ClockAt(Apply(db, c).db, id, p, reverse), [])
  {
    hide Malformed, Holds, SameSubmission, InLineage, OpIdTaken, OrderGuard;
  }

  lemma SpanKeeps(db: Db, c: Cmd, id: Id, p: nat, reverse: bool)
    requires !IsLocal(c)
    ensures Wound(ClockAt(db, id, p, reverse), ClockAt(Apply(db, c).db, id, p, reverse), [])
  {
    hide Malformed, Holds, TopOf, Unwind, IsCallerOf, DoCallSubmit, LocalStep, OpIdTaken;
    if c.CallSubmit? { SubmitKeeps(db, c, id, p, reverse); }
    if c.ChildSettle? && c.wf in db && c.pos in db[c.wf].cps {
      UnwindKeeps(db[c.wf], c.pos, c.ts, c.executor, p, reverse);
    }
  }

  lemma LocalOut(db: Db, c: Cmd)
    requires IsLocal(c) && (c.ReconcileDefer? || c.ReverseReconcileDefer? || c.PendingDefer? || c.ReversePendingDefer?)
    ensures c.wf in db && !Malformed(c) ==>
              Apply(db, c) == DbStep(LocalStep(db[c.wf], c).out, db[c.wf := LocalStep(db[c.wf], c).next])
    ensures c.wf !in db || Malformed(c) ==>
              Apply(db, c).db == db && (Apply(db, c).out.Invalid? || Apply(db, c).out.NotFound?)
  {
    hide Malformed, LocalStep;
  }

  lemma ApplyWinds(db: Db, c: Cmd, id: Id, p: nat, reverse: bool)
    requires AllSound(db)
    ensures Wound(ClockAt(db, id, p, reverse), ClockAt(Apply(db, c).db, id, p, reverse),
                  TickOf(c, Apply(db, c).out, id, p, reverse))
  {
    hide Apply, Sound, ClockOf, LocalStep, Malformed, Charge, Escalate, Observe;
    if !IsLocal(c) {
      SpanKeeps(db, c, id, p, reverse);
    } else if c.ReconcileDefer? || c.ReverseReconcileDefer? || c.PendingDefer? || c.ReversePendingDefer? {
      LocalOut(db, c);
      if c.wf == id && id in db { LocalWinds(db[id], c, p, reverse); }
    } else {
      Lands(db, c);
      if c.wf == id && id in db { LocalWinds(db[id], c, p, reverse); }
    }
  }

  // ---------------------------------------------------------------- every run

  /** A row not there yet has seen nothing. */
  predicate Matches(k: Option<Clock>, ts: seq<Tick>) { if k.Some? then k.value == Seen(ts) else ts == [] }

  lemma MatchesNext(before: Option<Clock>, after: Option<Clock>, ts: seq<Tick>, tick: seq<Tick>)
    requires Matches(before, ts) && Wound(before, after, tick) && |tick| <= 1
    ensures Matches(after, ts + tick)
  {
    hide Seen, Charge, Escalate, Observe;
    NothingSeen();
    if tick == [] {
      assert ts + tick == ts;
    } else {
      assert tick == [tick[0]];
      TickSeen(ts, tick[0]);
    }
  }

  lemma LastTick(cmds: seq<Cmd>, c: Cmd, id: Id, p: nat, reverse: bool)
    ensures Ticks(cmds + [c], id, p, reverse)
            == Ticks(cmds, id, p, reverse) + TickOf(c, Apply(Run(map[], cmds), c).out, id, p, reverse)
    ensures |TickOf(c, Apply(Run(map[], cmds), c).out, id, p, reverse)| <= 1
  {
    hide Apply, Run;
    assert (cmds + [c])[..|cmds|] == cmds;
  }

  lemma {:induction false} RunSeen(maxDepth: nat, cmds: seq<Cmd>, id: Id, p: nat, reverse: bool)
    requires forall i :: 0 <= i < |cmds| ==> Bounded(cmds[i], maxDepth)
    ensures Matches(ClockAt(Run(map[], cmds), id, p, reverse), Ticks(cmds, id, p, reverse))
    decreases |cmds|
  {
    hide Apply, Matches, Wound, TickOf, Sound, Bounded;
    if cmds != [] {
      var before := cmds[..|cmds| - 1];
      var c := cmds[|cmds| - 1];
      hide Run, Ticks, ClockAt;
      RunSeen(maxDepth, before, id, p, reverse);
      assert before + [c] == cmds;
      RunOneMore(map[], before, c);
      LastTick(before, c, id, p, reverse);
      RunSound(maxDepth, before);
      var db := Run(map[], before);
      ApplyWinds(db, c, id, p, reverse);
      MatchesNext(ClockAt(db, id, p, reverse), ClockAt(Apply(db, c).db, id, p, reverse), Ticks(before, id, p, reverse),
                  TickOf(c, Apply(db, c).out, id, p, reverse));
    } else {
      NothingYet(id, p, reverse);
    }
  }

  lemma NothingYet(id: Id, p: nat, reverse: bool)
    ensures Matches(ClockAt(Run(map[], []), id, p, reverse), Ticks([], id, p, reverse))
  {}

  lemma NothingSeen()
    ensures Seen([]) == Clock(FRESH_BUDGET, FRESH_TIMER)
  {}

  lemma RunSound(maxDepth: nat, cmds: seq<Cmd>)
    requires forall i :: 0 <= i < |cmds| ==> Bounded(cmds[i], maxDepth)
    ensures AllSound(Run(map[], cmds))
  {
    hide Run, Sound;
    EmptyInv(maxDepth);
    RunInv(map[], maxDepth, cmds);
  }

  /** In every run, under any interleaving and any clocks: a budget holds how many attempts were charged and
    * when the first and the last of them were; a timer holds when the dispatch was first found pending, how
    * often it was sent again and when last. Nothing else moves them, on either side. */
  lemma ClocksCount(maxDepth: nat, cmds: seq<Cmd>, id: Id, p: nat, reverse: bool)
    requires forall i :: 0 <= i < |cmds| ==> Bounded(cmds[i], maxDepth)
    requires ClockAt(Run(map[], cmds), id, p, reverse).Some?
    ensures var k := ClockAt(Run(map[], cmds), id, p, reverse).value;
            var ts := Ticks(cmds, id, p, reverse);
            && k.budget == Budget(|Charges(ts)|, First(Charges(ts)), Last(Charges(ts)))
            && k.timer == Timer(First(Sightings(ts)), Last(Escalations(ts)), |Escalations(ts)|)
  {
    hide Run, Ticks, Charges, Escalations, Sightings, ClockAt, First, Last;
    RunSeen(maxDepth, cmds, id, p, reverse);
  }

  // ---------------------------------------------------------------- the decisions

  /** At least this many whole milliseconds have passed, by a clock that may step back. */
  predicate Passed(since: Ts, now: Ts, ms: nat) { if ms > 0 then now - since >= ms * 1000 else now - since > -1000 }

  lemma ElapsedPassed(since: Ts, now: Ts, ms: nat)
    ensures ElapsedMs(since, now) >= ms <==> Passed(since, now, ms)
  {}

  lemma Spends(w: Workflow, c: Cmd, out: Outcome)
    requires (c.ReconcileDefer? && out == DoReconcileDefer(w, c).out)
             || (c.ReverseReconcileDefer? && out == DoReverseReconcileDefer(w, c).out)
    requires out.Deferred? || out.BlockedNow?
    ensures var k := ClockOf(w, c.pos, c.ReverseReconcileDefer?);
            && k.Some?
            && (out.BlockedNow? <==> Exhausted(k.value.budget, c.now, c.maxElapsed, c.minAttempts))
            && (out.Deferred? ==> out.attempts == k.value.budget.attempts + 1)
  {
    hide Holds, Exhausted, Charge, TopOf, BlockAt;
  }

  lemma Waits(w: Workflow, c: Cmd, out: Outcome)
    requires (c.PendingDefer? && out == DoPendingDefer(w, c).out)
             || (c.ReversePendingDefer? && out == DoReversePendingDefer(w, c).out)
    requires out.Redispatch? || out.PendingDefer?
    ensures var k := ClockOf(w, c.pos, c.ReversePendingDefer?);
            && k.Some?
            && (out.Redispatch? <==> Overdue(k.value.timer, c.now, c.after))
            && (if out.Redispatch? then out.count == k.value.timer.count + 1 else out.count == k.value.timer.count)
  {
    hide Holds, Overdue, Escalate, Observe, TopOf;
  }

  lemma Decides(db: Db, c: Cmd)
    requires c.ReconcileDefer? || c.ReverseReconcileDefer? || c.PendingDefer? || c.ReversePendingDefer?
    requires var out := Apply(db, c).out; out.Deferred? || out.BlockedNow? || out.Redispatch? || out.PendingDefer?
    ensures c.wf in db
    ensures c.ReconcileDefer? ==> Apply(db, c).out == DoReconcileDefer(db[c.wf], c).out
    ensures c.ReverseReconcileDefer? ==> Apply(db, c).out == DoReverseReconcileDefer(db[c.wf], c).out
    ensures c.PendingDefer? ==> Apply(db, c).out == DoPendingDefer(db[c.wf], c).out
    ensures c.ReversePendingDefer? ==> Apply(db, c).out == DoReversePendingDefer(db[c.wf], c).out
  {
    hide Malformed, DoReconcileDefer, DoReverseReconcileDefer, DoPendingDefer, DoReversePendingDefer;
  }

  /** A position is parked exactly on the first charged attempt that is late enough and one of enough: at least
    * the minimum number of attempts of the run, counted with this one, and at least the maximal time after
    * the first of them. Until then the reply counts the attempts. */
  lemma ParksExactly(maxDepth: nat, cmds: seq<Cmd>, c: Cmd)
    requires forall i :: 0 <= i < |cmds| ==> Bounded(cmds[i], maxDepth)
    requires c.ReconcileDefer? || c.ReverseReconcileDefer?
    requires var out := Apply(Run(map[], cmds), c).out; out.Deferred? || out.BlockedNow?
    ensures var out := Apply(Run(map[], cmds), c).out;
            var times := Charges(Ticks(cmds, c.wf, c.pos, c.ReverseReconcileDefer?)) + [c.now];
            && (out.BlockedNow? <==> |times| >= c.minAttempts && Passed(times[0], c.now, c.maxElapsed))
            && (out.Deferred? ==> out.attempts == |times|)
  {
    hide Run, Apply, Ticks, Charges, Escalations, Sightings, DoReconcileDefer, DoReverseReconcileDefer, Passed;
    var db := Run(map[], cmds);
    Decides(db, c);
    Spends(db[c.wf], c, Apply(db, c).out);
    ClocksCount(maxDepth, cmds, c.wf, c.pos, c.ReverseReconcileDefer?);
    var times := Charges(Ticks(cmds, c.wf, c.pos, c.ReverseReconcileDefer?));
    ElapsedPassed(if times == [] then c.now else times[0], c.now, c.maxElapsed);
    hide ElapsedMs;
  }

  /** A pending dispatch is sent again exactly when the threshold has passed since it was last sent again, or
    * since it was first found pending. The reply counts the times it was sent again. */
  lemma RedispatchesExactly(maxDepth: nat, cmds: seq<Cmd>, c: Cmd)
    requires forall i :: 0 <= i < |cmds| ==> Bounded(cmds[i], maxDepth)
    requires c.PendingDefer? || c.ReversePendingDefer?
    requires var out := Apply(Run(map[], cmds), c).out; out.Redispatch? || out.PendingDefer?
    ensures var out := Apply(Run(map[], cmds), c).out;
            var ts := Ticks(cmds, c.wf, c.pos, c.ReversePendingDefer?);
            var since := if Last(Escalations(ts)).Some? then Last(Escalations(ts)).value
                         else if First(Sightings(ts)).Some? then First(Sightings(ts)).value else c.now;
            && (out.Redispatch? <==> Passed(since, c.now, c.after))
            && out.count == |Escalations(ts)| + (if out.Redispatch? then 1 else 0)
  {
    hide Run, Apply, Ticks, Charges, Escalations, Sightings, DoPendingDefer, DoReversePendingDefer, Passed, First, Last;
    var db := Run(map[], cmds);
    Decides(db, c);
    Waits(db[c.wf], c, Apply(db, c).out);
    ClocksCount(maxDepth, cmds, c.wf, c.pos, c.ReversePendingDefer?);
    var ts := Ticks(cmds, c.wf, c.pos, c.ReversePendingDefer?);
    var since := if Last(Escalations(ts)).Some? then Last(Escalations(ts)).value
                 else if First(Sightings(ts)).Some? then First(Sightings(ts)).value else c.now;
    ElapsedPassed(since, c.now, c.after);
    hide ElapsedMs;
  }
}
