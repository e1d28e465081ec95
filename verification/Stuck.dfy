/** Why is this workflow not moving? The verdict, and how it relates to the claim rule. */
module Stuck {
  import opened Options
  import opened Rows
  import opened Procedures
  import opened Coordinator
  import opened Diagnostics
  import opened InvariantSteps
  import opened Counting

  datatype Verdict =
    | UnknownWorkflow
    | IsTerminal | IsBlocked | UnderLease
    | WaitingOnChild(path: seq<Id>, child: Verdict)
    | RedispatchPending | ReconcilePending
    | ScheduledRetry | ClaimableNow

  predicate TerminalState(s: State) { s.Completed? || s.Reversed? || s.ResolvedException? || s.Failed? }

  /** The walk's own notion of a live lease: it still lasts strictly beyond now. */
  predicate LeaseLive(w: Workflow, now: Ts) { w.lease.Some? && w.lease.value.expires > now }

  /** A row that ever carried the redispatch timer, or the reconcile budget. */
  predicate Redispatched(w: Workflow) {
    (exists p :: p in w.ops && (w.ops[p].timer.count > 0 || w.ops[p].timer.firstSeen.Some?))
    || (exists p :: p in w.cps && (w.cps[p].timer.count > 0 || w.cps[p].timer.firstSeen.Some?))
  }

  predicate Reconciled(w: Workflow) {
    (exists p :: p in w.ops && (w.ops[p].budget.attempts > 0 || w.ops[p].budget.firstSeen.Some?))
    || (exists p :: p in w.cps && (w.cps[p].budget.attempts > 0 || w.cps[p].budget.firstSeen.Some?))
  }

  /** A child the walk would descend into: not seen yet, present, not terminal. */
  predicate Live(db: Db, c: Id, seen: set<Id>) { c !in seen && c in db && !TerminalState(db[c].state) }

  function FirstLive(db: Db, ids: seq<Id>, seen: set<Id>): (r: Option<Id>)
    ensures r.Some? ==> r.value in ids && Live(db, r.value, seen)
    ensures r.None? ==> forall c :: c in ids ==> !Live(db, c, seen)
    decreases |ids|
  {
    if ids == [] then None
    else if Live(db, ids[0], seen) then Some(ids[0])
    else FirstLive(db, ids[1..], seen)
  }

  /** The verdict of a workflow that waits for none of its children. */
  function OwnVerdict(w: Workflow, now: Ts): Verdict {
    if Redispatched(w) then RedispatchPending
    else if Reconciled(w) then ReconcilePending
    else if w.nextAttempt > now then ScheduledRetry
    else ClaimableNow
  }

  function PathOf(v: Verdict, id: Id): seq<Id> { if v.WaitingOnChild? then v.path else [id] }

  lemma SeenGrows(keys: set<Id>, id: Id, seen: set<Id>)
    requires id in keys && id !in seen
    ensures |keys - (seen + {id})| < |keys - seen|
  {
    assert keys - (seen + {id}) == (keys - seen) - {id};
  }

  /** Where the descent goes next, if it goes on. */
  function Next(db: Db, id: Id, seen: set<Id>, now: Ts): (r: Option<Id>)
    requires id in db
    ensures r.Some? ==> r.value in ChildIds(db[id]) && Live(db, r.value, seen + {id})
  {
    var w := db[id];
    if TerminalState(w.state) || w.state.Blocked? || LeaseLive(w, now) then None
    else FirstLive(db, ChildIds(w), seen + {id})
  }

  /** The verdict where the descent stops. */
  function Leaf(w: Workflow, now: Ts): Verdict {
    if TerminalState(w.state) then IsTerminal
    else if w.state.Blocked? then IsBlocked
    else if LeaseLive(w, now) then UnderLease
    else OwnVerdict(w, now)
  }

  /** Terminates on any call table: the set of seen workflows grows along the descent. */
  function Why(db: Db, id: Id, seen: set<Id>, now: Ts): Verdict
    requires id !in seen
    decreases |db.Keys - seen|
  {
    if id !in db then UnknownWorkflow
    else
      var next := Next(db, id, seen, now);
      if next.None? then Leaf(db[id], now)
      else
        SeenGrows(db.Keys, id, seen);
        var v := Why(db, next.value, seen + {id}, now);
        WaitingOnChild([id] + PathOf(v, next.value), v)
  }

  /** The walk itself, with its loop over the call rows. */
  method StuckWorkflow(db: Db, id: Id, seen0: set<Id>, now: Ts) returns (v: Verdict)
    requires id !in seen0
    ensures v == Why(db, id, seen0, now)
    decreases |db.Keys - seen0|
  {
    hide ChildIds;
    if id !in db { return UnknownWorkflow; }
    var w := db[id];
    if TerminalState(w.state) { return IsTerminal; }
    if w.state.Blocked? { return IsBlocked; }
    if LeaseLive(w, now) { return UnderLease; }
    var seen := seen0 + {id};
    SeenGrows(db.Keys, id, seen0);
    var ids := ChildIds(w);
    for i := 0 to |ids|
      invariant FirstLive(db, ids, seen) == FirstLive(db, ids[i..], seen)
    {
      if ids[i] !in seen && ids[i] in db && !TerminalState(db[ids[i]].state) {
        var child := StuckWorkflow(db, ids[i], seen, now);
        return WaitingOnChild([id] + PathOf(child, ids[i]), child);
      }
    }
    return OwnVerdict(w, now);
  }

  // ---------------------------------------------------------------- the path

  /** A chain of calls. */
  ghost predicate Chain(db: Db, path: seq<Id>) {
    && (forall i :: 0 <= i < |path| ==> path[i] in db && !TerminalState(db[path[i]].state))
    && (forall i :: 0 <= i < |path| - 1 ==> IsCallerOf(db[path[i]], path[i + 1]))
    && (forall i, j :: 0 <= i < j < |path| ==> path[i] != path[j])
  }

  /** The verdict nested `k` children down. */
  function Nested(v: Verdict, k: nat): Verdict { if k == 0 || !v.WaitingOnChild? then v else Nested(v.child, k - 1) }

  /** On any call table, even a cyclic one, the recorded path is a real chain of calls between
    * distinct non-terminal workflows; each but the last is itself waiting on a child, and the
    * last carries the verdict that explains them all. */
  lemma {:induction false} PathIsRealChain(db: Db, id: Id, seen: set<Id>, now: Ts)
    requires id !in seen && id in db && !TerminalState(db[id].state)
    ensures var v := Why(db, id, seen, now);
            var path := PathOf(v, id);
            |path| >= 1 && path[0] == id && Chain(db, path) && (forall i :: 0 <= i < |path| ==> path[i] !in seen)
            && (forall k: nat :: k < |path| - 1 ==> Nested(v, k).WaitingOnChild?)
            && Nested(v, |path| - 1) == Leaf(db[path[|path| - 1]], now)
    decreases |db.Keys - seen|
  {
    hide ChildIds, Leaf;
    var v := Why(db, id, seen, now);
    var next := Next(db, id, seen, now);
    if next.Some? {
      var c := next.value;
      SeenGrows(db.Keys, id, seen);
      PathIsRealChain(db, c, seen + {id}, now);
      var rest := PathOf(v.child, c);
      var path := PathOf(v, id);
      assert path == [id] + rest;
      ChildIdsExactly(db[id]);
      forall i | 0 <= i < |path| - 1 ensures IsCallerOf(db[path[i]], path[i + 1]) {
        if i > 0 { assert path[i] == rest[i - 1] && path[i + 1] == rest[i]; }
      }
      forall k: nat | k < |path| - 1 ensures Nested(v, k).WaitingOnChild? {
        if k > 0 { assert Nested(v, k) == Nested(v.child, k - 1); }
      }
    } else {
      LeafNotWaiting(db[id], now);
    }
  }

  lemma LeafNotWaiting(w: Workflow, now: Ts)
    ensures !Leaf(w, now).WaitingOnChild?
  {}

  // ---------------------------------------------------------------- verdict and claim

  predicate ClaimSucceeds(db: Db, id: Id, executor: Id, now: Ts, expires: Ts) {
    Apply(db, Claim(id, executor, now, expires)).out.Claimed?
  }

  /** Terminal, blocked, leased and scheduled verdicts are right that nobody can claim. */
  lemma RefusingVerdicts(db: Db, id: Id, now: Ts, executor: Id, expires: Ts)
    ensures var v := Why(db, id, {}, now);
            v.IsTerminal? || v.IsBlocked? || v.UnderLease? || v.ScheduledRetry? || v.UnknownWorkflow? ==>
              !ClaimSucceeds(db, id, executor, now, expires)
  {
    hide ChildIds, Redispatched, Reconciled;
  }

  /** `claimable_now` is right except at one instant: the walk counts a lease as over when it
    * expires at this very moment, the claim rule only after it. Exactly then the claim is refused. */
  lemma ClaimableVerdictExactly(db: Db, id: Id, now: Ts, executor: Id, expires: Ts)
    requires expires > now && Why(db, id, {}, now).ClaimableNow?
    ensures id in db
    ensures ClaimSucceeds(db, id, executor, now, expires) <==>
              !(db[id].lease.Some? && db[id].lease.value.expires == now)
  {
    hide ChildIds, Redispatched, Reconciled;
  }

  /** The instant exists. */
  lemma ExpiringLeaseMisjudged()
    ensures var made := NewWorkflow("s", Pin("1.0.0", "h", 1), "{}", None, "{}", 0, 0);
            var w := made.(lease := Some(Lease(7, 10)), token := 1);
            Why(map[1 := w], 1, {}, 10) == ClaimableNow && !ClaimSucceeds(map[1 := w], 1, 8, 10, 20)
  {
    var w := NewWorkflow("s", Pin("1.0.0", "h", 1), "{}", None, "{}", 0, 0).(lease := Some(Lease(7, 10)), token := 1);
    assert ChildIds(w) == [];
  }

  // ---------------------------------------------------------------- what a verdict says

  /** Some call of the workflow has a child that is there and not finished. */
  predicate AwaitsChild(db: Db, id: Id)
    requires id in db
  {
    exists p :: p in db[id].calls && Live(db, db[id].calls[p].child, {id})
  }

  lemma AwaitsListed(db: Db, id: Id)
    requires id in db
    ensures AwaitsChild(db, id) <==> FirstLive(db, ChildIds(db[id]), {id}).Some?
  {
    ChildIdsExactly(db[id]);
    hide ChildIds;
    if FirstLive(db, ChildIds(db[id]), {id}).Some? {
      var c := FirstLive(db, ChildIds(db[id]), {id}).value;
      assert IsCallerOf(db[id], c);
    }
    if AwaitsChild(db, id) {
      var p :| p in db[id].calls && Live(db, db[id].calls[p].child, {id});
      assert IsCallerOf(db[id], db[id].calls[p].child);
    }
  }

  predicate Moving(w: Workflow) { w.state.Forward? || w.state.Reversing? }

  /** Each of the first five verdicts is given exactly where it belongs: the unknown, the finished, the parked, the
    * leased, and those that wait for an unfinished child. The others share the rest. */
  lemma VerdictExactly(db: Db, id: Id, now: Ts)
    ensures var v := Why(db, id, {}, now);
            && (v.UnknownWorkflow? <==> id !in db)
            && (v.IsTerminal? <==> id in db && TerminalState(db[id].state))
            && (v.IsBlocked? <==> id in db && db[id].state.Blocked?)
            && (v.UnderLease? <==> id in db && Moving(db[id]) && LeaseLive(db[id], now))
            && (v.WaitingOnChild? <==> id in db && Moving(db[id]) && !LeaseLive(db[id], now) && AwaitsChild(db, id))
  {
    if id in db {
      AwaitsListed(db, id);
      hide ChildIds, Redispatched, Reconciled, AwaitsChild;
    }
  }

  lemma {:induction false} TicksSplit(ts: seq<Tick>)
    ensures Escalations(ts) != [] ==> Sightings(ts) != []
    ensures Charges(ts) == [] && Sightings(ts) == [] ==> ts == []
    decreases |ts|
  {
    if ts != [] { TicksSplit(ts[..|ts| - 1]); }
  }

  /** A clock row stands out exactly when its run has ticked it. */
  lemma ClockTells(k: Option<Clock>, ts: seq<Tick>)
    requires Matches(k, ts)
    ensures Sightings(ts) != [] <==> k.Some? && (k.value.timer.count > 0 || k.value.timer.firstSeen.Some?)
    ensures Charges(ts) != [] <==> k.Some? && (k.value.budget.attempts > 0 || k.value.budget.firstSeen.Some?)
    ensures Sightings(ts) == [] && Charges(ts) == [] ==> ts == []
  {
    TicksSplit(ts);
    if k.None? { assert Sightings(ts) == [] && Charges(ts) == []; }
    hide Sightings, Charges, Escalations;
  }

  /** The rows the walk looks for are the clocks that stand out. */
  lemma RowsTell(w: Workflow)
    ensures Redispatched(w) <==>
              exists p: nat, reverse ::
                ClockOf(w, p, reverse).Some?
                && (ClockOf(w, p, reverse).value.timer.count > 0 || ClockOf(w, p, reverse).value.timer.firstSeen.Some?)
    ensures Reconciled(w) <==>
              exists p: nat, reverse ::
                ClockOf(w, p, reverse).Some?
                && (ClockOf(w, p, reverse).value.budget.attempts > 0
                    || ClockOf(w, p, reverse).value.budget.firstSeen.Some?)
  {
    assert forall p: nat :: p in w.ops ==> ClockOf(w, p, false) == Some(Clock(w.ops[p].budget, w.ops[p].timer));
    assert forall p: nat :: p in w.cps ==> ClockOf(w, p, true) == Some(Clock(w.cps[p].budget, w.cps[p].timer));
  }

  lemma OwnIsLast(db: Db, id: Id, now: Ts)
    requires id in db
    ensures var v := Why(db, id, {}, now);
            v.RedispatchPending? || v.ReconcilePending? || v.ScheduledRetry? || v.ClaimableNow? ==>
              v == OwnVerdict(db[id], now)
  {
    hide ChildIds, Redispatched, Reconciled;
  }

  /** The remaining four verdicts tell what happened in the run: a dispatch was found pending; or else an
    * attempt was charged; or neither, and then whether the schedule has come. */
  lemma VerdictTellsRun(maxDepth: nat, cmds: seq<Cmd>, id: Id, now: Ts)
    requires forall i :: 0 <= i < |cmds| ==> Bounded(cmds[i], maxDepth)
    ensures var v := Why(Run(map[], cmds), id, {}, now);
            && (v.RedispatchPending? ==> exists p: nat, reverse :: Sightings(Ticks(cmds, id, p, reverse)) != [])
            && (v.ReconcilePending? ==>
                  (exists p: nat, reverse :: Charges(Ticks(cmds, id, p, reverse)) != [])
                  && forall p: nat, reverse :: Sightings(Ticks(cmds, id, p, reverse)) == [])
            && (v.ScheduledRetry? || v.ClaimableNow? ==>
                  (forall p: nat, reverse :: Ticks(cmds, id, p, reverse) == [])
                  && id in Run(map[], cmds) && (v.ScheduledRetry? <==> Run(map[], cmds)[id].nextAttempt > now))
  {
    hide Run, Ticks, Charges, Escalations, Sightings, Why, Matches, Redispatched, Reconciled, ClockOf;
    var db := Run(map[], cmds);
    if id in db {
      var w := db[id];
      OwnIsLast(db, id, now);
      RowsTell(w);
      forall p: nat, reverse
        ensures var ts, k := Ticks(cmds, id, p, reverse), ClockOf(w, p, reverse);
                && (Sightings(ts) != [] <==> k.Some? && (k.value.timer.count > 0 || k.value.timer.firstSeen.Some?))
                && (Charges(ts) != [] <==> k.Some? && (k.value.budget.attempts > 0 || k.value.budget.firstSeen.Some?))
                && (Sightings(ts) == [] && Charges(ts) == [] ==> ts == [])
      {
        RunSeen(maxDepth, cmds, id, p, reverse);
        ClockTells(ClockOf(w, p, reverse), Ticks(cmds, id, p, reverse));
      }
    } else {
      UnknownHere(db, id, now);
    }
  }

  lemma UnknownHere(db: Db, id: Id, now: Ts)
    requires id !in db
    ensures Why(db, id, {}, now).UnknownWorkflow?
  {}
}
