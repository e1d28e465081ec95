/** Compensation over whole runs: last in first out, at most once, and through the call tree. */
module Unwinding {
  import opened Options
  import opened Rows
  import opened Procedures
  import opened Coordinator
  import opened Soundness
  import opened Evolution
  import opened Invariant
  import opened InvariantSteps
  import opened StackSteps

  // ---------------------------------------------------------------- last in, first out

  /** In every reachable store, once a checkpoint is undone or parked everything above it is undone. */
  lemma UpperSegment(db: Db, maxDepth: nat, id: Id, i: nat, j: nat)
    requires Reachable(db, maxDepth) && id in db && i in db[id].cps && j in db[id].cps && i < j
    requires !db[id].cps[i].reversal.Active?
    ensures db[id].cps[j].reversal.Undone?
  {
    hide Reachable;
    ReachableInv(db, maxDepth);
    assert Sound(db[id]);
    var cps := db[id].cps;
    assert Legal(cps[i], i in db[id].calls) && Legal(cps[j], j in db[id].calls);
    assert Rank(cps[i].reversal) <= Rank(cps[j].reversal);
  }

  lemma CompletedWhole(w: Workflow, p: nat)
    requires Sound(w) && w.state.Completed? && 1 <= p <= w.pin.length
    ensures w.IsSettled(p) && ActiveIn(w.cps, p)
  {
    hide Lifo, Chronology, Fields;
    assert w.pin.length in w.ops;
    assert p in w.cps;
  }

  lemma ReversingHasTop(w: Workflow)
    requires Sound(w) && w.state.Reversing?
    ensures w.Top().Some? && ActiveIn(w.cps, w.Top().value)
  {
    hide Lifo, Chronology, Fields, Spine;
  }

  /** Two states that no run reaches: unwinding with nothing left to unwind, and completed
    * with an operation of the plan missing or unsettled. */
  lemma NoEmptyUnwindNoEarlyCompletion(db: Db, maxDepth: nat, id: Id)
    requires Reachable(db, maxDepth) && id in db
    ensures db[id].state.Reversing? ==> exists p: nat :: ActiveIn(db[id].cps, p)
    ensures db[id].state.Completed? ==>
              forall p: nat :: 1 <= p <= db[id].pin.length ==> db[id].IsSettled(p) && ActiveIn(db[id].cps, p)
  {
    hide Reachable;
    ReachableInv(db, maxDepth);
    assert Sound(db[id]);
    hide Sound, Inv;
    if db[id].state.Reversing? { ReversingHasTop(db[id]); }
    if db[id].state.Completed? {
      forall p: nat | 1 <= p <= db[id].pin.length ensures db[id].IsSettled(p) && ActiveIn(db[id].cps, p) {
        CompletedWhole(db[id], p);
      }
    }
  }

  /** A step moves a checkpoint out of the active state only at the top of the stack. */
  ghost predicate MovesTop(w: Workflow, n: Workflow) {
    forall p: nat :: ActiveIn(w.cps, p) && p in n.cps && !n.cps[p].reversal.Active? ==> w.Top() == Some(p)
  }

  lemma LocalMovesTop(w: Workflow, c: Cmd)
    requires Sound(w) && IsLocal(c)
    ensures MovesTop(w, LocalStep(w, c).next)
  {
    hide LocalStep, TopOf, Lifo, Agrees, Chronology, Fields;
    var n := LocalStep(w, c).next;
    forall p: nat | ActiveIn(w.cps, p) && p in n.cps && !n.cps[p].reversal.Active?
      ensures w.Top() == Some(p)
    {
      LocalStackChange(w, c, p);
    }
  }

  lemma SameStackMovesNothing(w: Workflow, n: Workflow)
    requires n.cps == w.cps
    ensures MovesTop(w, n)
  {}

  lemma StepMovesTop(db: Db, maxDepth: nat, c: Cmd, id: Id)
    requires Reachable(db, maxDepth) && id in db && id in Apply(db, c).db
    ensures MovesTop(db[id], Apply(db, c).db[id])
  {
    hide Reachable, Sound, LocalStep, Malformed, TopOf, MovesTop, OpIdTaken, DoCreate, DoCallSubmit, DoChildReopen,
      DoChildSettle, DoNotify, AllLinked, AllRooted, UniqueOps, AllDistinct;
    ReachableInv(db, maxDepth);
    if !IsLocal(c) && !c.ChildSettle? {
      OthersKeepCps(db, c, id);
      hide Apply;
      SameStackMovesNothing(db[id], Apply(db, c).db[id]);
    } else if c.ChildSettle? {
      SettleMovesTop(db, c, id);
    } else if c.wf in db && c.wf == id {
      LocalMovesTop(db[id], c);
      SameStackMovesNothing(db[id], db[id]);
    } else {
      SameStackMovesNothing(db[id], db[id]);
    }
  }

  lemma SettleMovesTop(db: Db, c: Cmd, id: Id)
    requires c.ChildSettle? && id in db && id in Apply(db, c).db
    ensures MovesTop(db[id], Apply(db, c).db[id])
  {
    hide Malformed, TopOf, Holds;
  }

  /** Creation, call submission, reopening and waking leave every existing checkpoint alone. */
  lemma OthersKeepCps(db: Db, c: Cmd, id: Id)
    requires !IsLocal(c) && !c.ChildSettle? && id in db && id in Apply(db, c).db
    ensures Apply(db, c).db[id].cps == db[id].cps
  {
    hide Malformed, TopOf, Holds, InLineage, SameSubmission, OpIdTaken;
  }

  /** How many times a run takes one checkpoint out of the active state. */
  ghost function Moves(db: Db, cmds: seq<Cmd>, id: Id, p: nat): nat
    decreases |cmds|
  {
    if cmds == [] then 0
    else
      var db' := Apply(db, cmds[0]).db;
      (if id in db && id in db' && ActiveIn(db[id].cps, p) && !ActiveIn(db'[id].cps, p) then 1 else 0)
      + Moves(db', cmds[1..], id, p)
  }

  /** What has left the active state keeps its outcome and its binding. */
  predicate KeptOnceMoved(before: Checkpoint, after: Checkpoint) {
    before.reversal.Active? || (after.reversal == before.reversal && after.binding == before.binding)
  }

  lemma {:induction false} MovesOnce(db: Db, maxDepth: nat, cmds: seq<Cmd>, id: Id, p: nat)
    requires Inv(db, maxDepth) && forall i :: 0 <= i < |cmds| ==> Bounded(cmds[i], maxDepth)
    ensures Moves(db, cmds, id, p) <= 1
    ensures id in db && p in db[id].cps ==>
              id in Run(db, cmds) && p in Run(db, cmds)[id].cps
              && KeptOnceMoved(db[id].cps[p], Run(db, cmds)[id].cps[p])
              && (Moves(db, cmds, id, p) == 1 <==>
                  db[id].cps[p].reversal.Active? && !Run(db, cmds)[id].cps[p].reversal.Active?)
    decreases |cmds|
  {
    hide Inv, Apply;
    if cmds != [] {
      var db1 := Apply(db, cmds[0]).db;
      ApplyInv(db, maxDepth, cmds[0]);
      MovesOnce(db1, maxDepth, cmds[1..], id, p);
      if id in db && p in db[id].cps {
        GrowsParts(db[id], db1[id]);
        hide Grows;
        assert CpGrows(db[id].cps[p], db1[id].cps[p]);
      }
    }
  }

  /** In every run from a reachable store a checkpoint is taken out of the active state at most once, and
    * exactly once when the run finds it active and leaves it not; what has left never changes again. */
  lemma CompensatedAtMostOnce(db: Db, maxDepth: nat, cmds: seq<Cmd>, id: Id, p: nat)
    requires Reachable(db, maxDepth) && forall i :: 0 <= i < |cmds| ==> Bounded(cmds[i], maxDepth)
    ensures Moves(db, cmds, id, p) <= 1
    ensures id in db && p in db[id].cps ==>
              id in Run(db, cmds) && p in Run(db, cmds)[id].cps
              && KeptOnceMoved(db[id].cps[p], Run(db, cmds)[id].cps[p])
              && (Moves(db, cmds, id, p) == 1 <==>
                  db[id].cps[p].reversal.Active? && !Run(db, cmds)[id].cps[p].reversal.Active?)
  {
    hide Reachable, Inv, Run, Moves;
    ReachableInv(db, maxDepth);
    MovesOnce(db, maxDepth, cmds, id, p);
  }

  /** A reverse binding, once written, is the binding for good. */
  lemma BindingImmutable(db: Db, maxDepth: nat, cmds: seq<Cmd>, id: Id, p: nat)
    requires Reachable(db, maxDepth) && forall i :: 0 <= i < |cmds| ==> Bounded(cmds[i], maxDepth)
    requires id in db && p in db[id].cps && db[id].cps[p].binding.Some?
    ensures var db' := Run(db, cmds);
            id in db' && p in db'[id].cps && db'[id].cps[p].binding == db[id].cps[p].binding
  {
    hide Reachable, Inv, Run;
    ReachableInv(db, maxDepth);
    RunInv(db, maxDepth, cmds);
    GrowsParts(db[id], Run(db, cmds)[id]);
  }

  // ---------------------------------------------------------------- the call tree

  /** The runner's discipline: a call checkpoint is compensated through its child, never by
    * dispatching a participant compensation. */
  predicate ThroughChild(db: Db, c: Cmd) {
    c.ReverseRequest? && c.wf in db ==> c.pos !in db[c.wf].calls
  }

  predicate AllThroughChild(db: Db, cmds: seq<Cmd>)
    decreases |cmds|
  {
    cmds == [] || (ThroughChild(db, cmds[0]) && AllThroughChild(Apply(db, cmds[0]).db, cmds[1..]))
  }

  ghost predicate CallsUnbound(w: Workflow) {
    forall p: nat :: p in w.calls && p in w.cps ==> w.cps[p].binding.None?
  }

  ghost predicate AllCallsUnbound(db: Db) { forall id :: id in db ==> CallsUnbound(db[id]) }

  /** What the call-tree guarantee asks of one row: an undone call stands for an unwound child. */
  ghost predicate CallUnwound(db: Db, id: Id, p: nat)
    requires id in db && p in db[id].calls
  {
    p in db[id].cps && db[id].cps[p].reversal.Undone? ==>
      db[id].calls[p].child in db && Over(db[db[id].calls[p].child].state)
  }

  ghost predicate AllCallsUnwound(db: Db) {
    forall id, p: nat :: id in db && p in db[id].calls ==> CallUnwound(db, id, p)
  }

  lemma UnboundMeansUnwound(db: Db, maxDepth: nat)
    requires Inv(db, maxDepth) && AllCallsUnbound(db)
    ensures AllCallsUnwound(db)
  {
    forall id, p: nat | id in db && p in db[id].calls ensures CallUnwound(db, id, p) {
      assert Linked(db, id, p) && CallsUnbound(db[id]);
    }
  }

  lemma LocalUnbound(w: Workflow, c: Cmd)
    requires Sound(w) && IsLocal(c) && CallsUnbound(w) && (c.ReverseRequest? ==> c.pos !in w.calls)
    ensures CallsUnbound(LocalStep(w, c).next)
  {
    hide LocalStep, TopOf, Lifo, Agrees, Chronology, Fields;
    var n := LocalStep(w, c).next;
    LocalCalls(w, c);
    forall p: nat | p in n.calls && p in n.cps ensures n.cps[p].binding.None? {
      LocalStackChange(w, c, p);
    }
  }

  lemma ChildSettleUnbound(db: Db, c: Cmd)
    requires c.ChildSettle? && c.wf in db && CallsUnbound(db[c.wf])
    ensures c.wf in DoChildSettle(db, c).db && CallsUnbound(DoChildSettle(db, c).db[c.wf])
  {
    hide TopOf, Holds;
  }

  lemma SubmitUnbound(w: Workflow, c: Cmd)
    requires Sound(w) && c.CallSubmit? && CallsUnbound(w) && c.pos !in w.ops
    ensures CallsUnbound(SubmittedParent(w, c)) && CallsUnbound(SubmittedChild(w, c))
  {
    hide Lifo, Agrees, Chronology, Fields;
  }

  lemma SubmitsBoth(db: Db, c: Cmd)
    requires c.CallSubmit? && Apply(db, c).db != db && AllCallsUnbound(db) && AllSound(db)
    ensures AllCallsUnbound(Apply(db, c).db)
  {
    hide Malformed, OpIdTaken, Holds, InLineage, SameSubmission, OrderGuard, CallsUnbound, SubmittedParent,
      SubmittedChild, Sound;
    SubmitUnbound(db[c.wf], c);
  }

  lemma OthersUnbound(db: Db, c: Cmd, id: Id)
    requires c.CreatePlanned? || c.ChildReopen? || c.TerminalNotify?
    requires AllCallsUnbound(db) && id in Apply(db, c).db
    ensures CallsUnbound(Apply(db, c).db[id])
  {
    hide Malformed, TopOf, Holds;
    assert id in db ==> CallsUnbound(db[id]);
  }

  lemma StepUnbound(db: Db, maxDepth: nat, c: Cmd)
    requires Inv(db, maxDepth) && AllCallsUnbound(db) && ThroughChild(db, c)
    ensures AllCallsUnbound(Apply(db, c).db)
  {
    hide Sound, LocalStep, Malformed, TopOf, OpIdTaken, AllLinked, AllRooted, UniqueOps, AllDistinct, Holds, InLineage,
      SameSubmission, DoChildSettle;
    var db' := Apply(db, c).db;
    forall id | id in db' ensures CallsUnbound(db'[id]) {
      assert id in db ==> CallsUnbound(db[id]);
      if IsLocal(c) {
        hide CallsUnbound;
        if c.wf in db && c.wf == id { LocalUnbound(db[id], c); }
      } else if c.ChildSettle? {
        hide CallsUnbound;
        ChildSettleOneRow(db, c);
        if c.wf in db { ChildSettleUnbound(db, c); }
      } else if c.CallSubmit? {
        hide CallsUnbound, DoCallSubmit;
        if db' != db { SubmitsBoth(db, c); }
      } else {
        OthersUnbound(db, c, id);
      }
    }
  }

  lemma ChildSettleOneRow(db: Db, c: Cmd)
    requires c.ChildSettle?
    ensures var db' := DoChildSettle(db, c).db;
            forall id :: id in db' ==> id in db && (id != c.wf ==> db'[id] == db[id])
  {
    hide TopOf, Holds, Unwind;
  }

  /** Under the runner's discipline every run keeps the call-tree guarantee. */
  lemma {:induction false} DisciplinedRunUnwound(db: Db, maxDepth: nat, cmds: seq<Cmd>)
    requires Inv(db, maxDepth) && forall i :: 0 <= i < |cmds| ==> Bounded(cmds[i], maxDepth)
    requires AllCallsUnbound(db) && AllThroughChild(db, cmds)
    ensures AllCallsUnbound(Run(db, cmds)) && AllCallsUnwound(Run(db, cmds))
    decreases |cmds|
  {
    hide Inv, Apply, AllCallsUnwound, AllCallsUnbound, ThroughChild;
    if cmds == [] {
      UnboundMeansUnwound(db, maxDepth);
    } else {
      ApplyInv(db, maxDepth, cmds[0]);
      StepUnbound(db, maxDepth, cmds[0]);
      DisciplinedRunUnwound(Apply(db, cmds[0]).db, maxDepth, cmds[1..]);
    }
  }

  // ---------------------------------------------------------------- what the procedures alone guarantee

  /** The guard of the reverse settle: the top checkpoint, under its own binding, by the current driver
    * of a reversing workflow, at a later time. */
  predicate SettlesReverse(w: Workflow, c: Cmd)
    requires c.ReverseSettle?
  {
    && c.pos in w.cps && w.cps[c.pos].binding.Some? && w.cps[c.pos].binding.value.id == c.revId
    && w.cps[c.pos].reversal.Active? && w.Top() == Some(c.pos)
    && Holds(w, c.executor, c.token) && w.state.Reversing? && c.ts > w.eventTs
  }

  /** A reverse settle writes exactly when its guard holds. */
  lemma SettlesReverseExactly(w: Workflow, c: Cmd)
    requires c.ReverseSettle?
    ensures LocalStep(w, c).next != w <==> SettlesReverse(w, c)
  {
    hide TopOf, Holds;
  }

  /** A participant-style settle that will be carried out on a call checkpoint whose child is not over.
    * Everything it asks can be read off the rows before the call. */
  predicate Betrays(db: Db, c: Cmd) {
    && c.ReverseSettle? && !Malformed(c) && c.wf in db && SettlesReverse(db[c.wf], c)
    && c.pos in db[c.wf].calls && db[c.wf].calls[c.pos].child in db
    && !Over(db[db[c.wf].calls[c.pos].child].state)
  }

  predicate UndoneAt(cps: Cps, p: nat) { p in cps && cps[p].reversal.Undone? }

  /** Among local commands only a committed reverse settle undoes a checkpoint. */
  lemma LocalUndoes(w: Workflow, c: Cmd, p: nat)
    requires Sound(w) && IsLocal(c) && UndoneAt(LocalStep(w, c).next.cps, p) && !UndoneAt(w.cps, p)
    ensures c.ReverseSettle? && p == c.pos && ActiveIn(w.cps, p)
  {
    hide LocalStep, TopOf, Lifo, Agrees, Chronology, Fields;
    LocalStackChange(w, c, p);
  }

  /** A reverse settle writes to the store exactly when it is well-formed and its guard holds. */
  lemma SettleWrites(db: Db, c: Cmd)
    requires c.ReverseSettle?
    ensures Apply(db, c).db != db <==> !Malformed(c) && c.wf in db && SettlesReverse(db[c.wf], c)
  {
    hide LocalStep, Malformed, SettlesReverse;
    if c.wf in db {
      SettlesReverseExactly(db[c.wf], c);
      assert db[c.wf := LocalStep(db[c.wf], c).next] == db <==> LocalStep(db[c.wf], c).next == db[c.wf];
    }
  }

  /** A committed reverse settle undoes its checkpoint. */
  lemma SettleCommits(w: Workflow, c: Cmd)
    requires c.ReverseSettle? && LocalStep(w, c).next != w
    ensures UndoneAt(LocalStep(w, c).next.cps, c.pos) && c.pos in w.cps && w.cps[c.pos].reversal.Active?
  {
    hide TopOf, Holds;
  }

  /** A child is never its own caller. */
  lemma ChildDiffers(db: Db, maxDepth: nat, id: Id, p: nat)
    requires AllLinked(db) && AllRooted(db, maxDepth) && id in db && p in db[id].calls
    ensures db[id].calls[p].child != id
  {
    assert Linked(db, id, p);
    assert Rooted(db, db[id].calls[p].child, maxDepth);
  }

  lemma ParentDiffers(db: Db, maxDepth: nat, c: Cmd)
    requires Inv(db, maxDepth) && c.ChildReopen? && c.wf in db && c.pos in db[c.wf].calls
    ensures db[c.wf].calls[c.pos].child != c.wf
  {
    hide AllSound, AllLinked, AllRooted, UniqueOps, AllDistinct;
    ChildDiffers(db, maxDepth, c.wf, c.pos);
  }

  lemma UnwoundKept(db: Db, maxDepth: nat, c: Cmd)
    requires Inv(db, maxDepth) && Bounded(c, maxDepth) && AllCallsUnwound(db) && !Betrays(db, c)
    ensures AllCallsUnwound(Apply(db, c).db)
  {
    var db' := Apply(db, c).db;
    ApplyInv(db, maxDepth, c);
    forall id, p: nat | id in db' && p in db'[id].calls ensures CallUnwound(db', id, p) {
      UnwoundAt(db, maxDepth, c, id, p);
    }
  }

  /** What undoes a checkpoint: settling its child, or settling it like a participant's. */
  predicate UndoneNow(db: Db, c: Cmd, id: Id, p: nat) {
    (c.ReverseSettle? || c.ChildSettle?) && id == c.wf && p == c.pos
    && id in db && p in db[id].cps && db[id].cps[p].reversal.Active?
    && (c.ChildSettle? ==>
          p in db[id].calls && db[id].calls[p].child in db && Over(db[db[id].calls[p].child].state))
  }

  lemma HowUndone(db: Db, maxDepth: nat, c: Cmd, db': Db, id: Id, p: nat)
    requires Inv(db, maxDepth) && db' == Apply(db, c).db && id in db' && UndoneAt(db'[id].cps, p)
    ensures id in db && (UndoneAt(db[id].cps, p) || (UndoneNow(db, c, id, p) && db' != db))
  {
    hide AllRooted, UniqueOps, AllDistinct, AllLinked, Sound, LocalStep, Malformed, TopOf, OpIdTaken, InLineage,
      SameSubmission, Holds;
    if IsLocal(c) {
      if c.wf == id && id in db && !UndoneAt(db[id].cps, p) { LocalUndoes(db[id], c, p); }
    } else if !c.ChildSettle? {
      if id in db { OthersKeepCps(db, c, id); }
    }
  }

  lemma UnwoundAt(db: Db, maxDepth: nat, c: Cmd, id: Id, p: nat)
    requires Inv(db, maxDepth) && AllCallsUnwound(db) && !Betrays(db, c)
    requires Inv(Apply(db, c).db, maxDepth) && DbGrows(db, Apply(db, c).db)
    requires id in Apply(db, c).db && p in Apply(db, c).db[id].calls
    ensures CallUnwound(Apply(db, c).db, id, p)
  {
    hide AllRooted, UniqueOps, AllDistinct, Sound, Grows, Apply;
    var db' := Apply(db, c).db;
    assert Linked(db', id, p);
    if UndoneAt(db'[id].cps, p) {
      HowUndone(db, maxDepth, c, db', id, p);
      if c.ReverseSettle? { SettleWrites(db, c); }
      CallBefore(db, maxDepth, id, db'[id], p);
      assert Linked(db, id, p);
      var child := db[id].calls[p].child;
      assert Grows(db[child], db'[child]);
      ChildView(db[child], db'[child]);
      if UndoneAt(db[id].cps, p) { assert CallUnwound(db, id, p); }
    }
  }

  lemma CallBefore(db: Db, maxDepth: nat, id: Id, n: Workflow, p: nat)
    requires AllSound(db) && Sound(n) && id in db && Grows(db[id], n) && p in n.calls && p in db[id].cps
    ensures p in db[id].calls && n.calls[p] == db[id].calls[p]
  {
    hide Lifo, Agrees, Chronology, Fields;
    GrowsParts(db[id], n);
    assert OpGrows(db[id].ops[p], n.ops[p]);
  }

  lemma BetrayedNotUnwound(db: Db, maxDepth: nat, c: Cmd)
    requires Inv(db, maxDepth) && Betrays(db, c)
    ensures !AllCallsUnwound(Apply(db, c).db)
  {
    hide AllRooted, UniqueOps, AllDistinct, AllLinked, Sound, LocalStep, Malformed, TopOf;
    var db' := Apply(db, c).db;
    var w := db[c.wf];
    SettlesReverseExactly(w, c);
    SettleCommits(w, c);
    LocalCalls(w, c);
    ChildDiffers(db, maxDepth, c.wf, c.pos);
    assert !CallUnwound(db', c.wf, c.pos);
  }

  /** Exactly which command breaks the call-tree guarantee: a reverse settle whose guard holds, on a
    * call checkpoint whose child is not over. The procedures do not refuse it. */
  lemma UnwoundExactly(db: Db, maxDepth: nat, c: Cmd)
    requires Reachable(db, maxDepth) && Bounded(c, maxDepth) && AllCallsUnwound(db)
    ensures AllCallsUnwound(Apply(db, c).db) <==> !Betrays(db, c)
  {
    hide Reachable, Inv, AllCallsUnwound, Betrays, Apply;
    ReachableInv(db, maxDepth);
    if Betrays(db, c) { BetrayedNotUnwound(db, maxDepth, c); } else { UnwoundKept(db, maxDepth, c); }
  }

  // ---------------------------------------------------------------- down the tree, and for good

  /** A chain of settled calls: each workflow is the child of a checkpointed call of the one before. */
  ghost predicate CallPath(db: Db, path: seq<Id>) {
    && |path| > 0
    && (forall i :: 0 <= i < |path| ==> path[i] in db)
    && (forall i :: 0 <= i < |path| - 1 ==> CalledBy(db[path[i]], path[i + 1]))
  }

  ghost predicate CalledBy(w: Workflow, child: Id) {
    exists p: nat :: p in w.calls && p in w.cps && w.calls[p].child == child
  }

  lemma ReversedChildOver(db: Db, maxDepth: nat, id: Id, child: Id)
    requires Inv(db, maxDepth) && AllCallsUnwound(db) && id in db && db[id].state.Reversed? && CalledBy(db[id], child)
    ensures child in db && Over(db[child].state)
  {
    hide AllLinked, AllRooted, UniqueOps, AllDistinct, Sound;
    var p: nat :| p in db[id].calls && p in db[id].cps && db[id].calls[p].child == child;
    ReversedAllUndone(db[id], p);
    assert CallUnwound(db, id, p);
  }

  lemma ReversedAllUndone(w: Workflow, p: nat)
    requires Sound(w) && w.state.Reversed? && p in w.cps
    ensures w.cps[p].reversal.Undone?
  {
    hide Lifo, Chronology, Fields, Spine;
  }

  /** The last workflow of the path is over, or an operator accepted an exception before it. */
  ghost predicate UnwoundBelow(db: Db, path: seq<Id>)
    requires CallPath(db, path)
  {
    Over(db[path[|path| - 1]].state) || exists i :: 0 < i < |path| && db[path[i]].state.ResolvedException?
  }

  /** Below a reversed workflow the whole settled call tree is unwound: following settled calls
    * down, every workflow is reversed until an operator accepted an exception on the way. */
  lemma {:induction false} SubtreeUnwound(db: Db, maxDepth: nat, path: seq<Id>)
    requires Reachable(db, maxDepth) && AllCallsUnwound(db) && CallPath(db, path) && db[path[0]].state.Reversed?
    ensures UnwoundBelow(db, path)
    decreases |path|
  {
    hide Reachable, Inv, AllCallsUnwound, CalledBy;
    ReachableInv(db, maxDepth);
    if |path| > 1 {
      assert CalledBy(db[path[0]], path[0 + 1]);
      ReversedChildOver(db, maxDepth, path[0], path[1]);
      if db[path[1]].state.Reversed? {
        var tail := path[1..];
        forall i | 0 <= i < |tail| - 1 ensures CalledBy(db[tail[i]], tail[i + 1]) {
          assert CalledBy(db[path[i + 1]], path[i + 1 + 1]);
        }
        SubtreeUnwound(db, maxDepth, tail);
        if i :| 0 < i < |tail| && db[tail[i]].state.ResolvedException? {
          assert db[path[i + 1]].state.ResolvedException?;
        }
      }
    }
  }

  /** No later step of any run reopens what is over. */
  lemma OverForGood(db: Db, maxDepth: nat, cmds: seq<Cmd>, id: Id)
    requires Reachable(db, maxDepth) && forall i :: 0 <= i < |cmds| ==> Bounded(cmds[i], maxDepth)
    requires id in db && Over(db[id].state)
    ensures id in Run(db, cmds) && Run(db, cmds)[id].state == db[id].state
  {
    hide Reachable, Inv, Run, OpsGrow, CpsGrow, CallsGrow;
    ReachableInv(db, maxDepth);
    RunInv(db, maxDepth, cmds);
    assert Grows(db[id], Run(db, cmds)[id]);
  }

  /** The checkpoint at `p` is not parked, and a reverse block stands somewhere else. */
  predicate NotParkedOn(w: Workflow, p: nat) {
    && (p in w.cps ==> !w.cps[p].reversal.ResolutionRequired?)
    && (w.state.Blocked? && w.direction.Back? ==> w.cursor.StuckReverse? && w.cursor.at != p)
  }

  /** A workflow is never parked on one of its call checkpoints. */
  lemma NeverParkedOnCall(db: Db, maxDepth: nat, id: Id, p: nat)
    requires Reachable(db, maxDepth) && AllCallsUnbound(db) && id in db && p in db[id].calls
    ensures NotParkedOn(db[id], p)
  {
    hide Reachable, AllLinked, AllRooted, UniqueOps, AllDistinct, Sound;
    ReachableInv(db, maxDepth);
    assert CallsUnbound(db[id]);
    ParkedIsBound(db[id]);
  }

  lemma ParkedIsBound(w: Workflow)
    requires Sound(w)
    ensures forall p: nat :: p in w.cps && w.cps[p].reversal.ResolutionRequired? ==> w.cps[p].binding.Some?
    ensures w.state.Blocked? && w.direction.Back? ==>
              w.cursor.StuckReverse? && w.cursor.at in w.cps && w.cps[w.cursor.at].reversal.ResolutionRequired?
  {
    hide Spine, Chronology, Fields, TopOf;
    assert forall p: nat :: p in w.cps ==> Legal(w.cps[p], p in w.calls);
  }

  /** In every run from the empty store that compensates call checkpoints through their children: below a
    * reversed workflow the settled call tree is unwound, and no workflow is parked on a call checkpoint. */
  lemma DisciplinedCallTree(maxDepth: nat, cmds: seq<Cmd>, path: seq<Id>, id: Id, p: nat)
    requires (forall i :: 0 <= i < |cmds| ==> Bounded(cmds[i], maxDepth)) && AllThroughChild(map[], cmds)
    ensures var db := Run(map[], cmds);
            && (CallPath(db, path) && db[path[0]].state.Reversed? ==> UnwoundBelow(db, path))
            && (id in db && p in db[id].calls ==> NotParkedOn(db[id], p))
  {
    hide Inv, Run, AllThroughChild, UnwoundBelow, NotParkedOn, AllCallsUnwound;
    var db := Run(map[], cmds);
    EmptyInv(maxDepth);
    DisciplinedRunUnwound(map[], maxDepth, cmds);
    assert Reachable(db, maxDepth);
    hide Reachable;
    if CallPath(db, path) && db[path[0]].state.Reversed? { SubtreeUnwound(db, maxDepth, path); }
    if id in db && p in db[id].calls { NeverParkedOnCall(db, maxDepth, id, p); }
  }

  /** While a child is blocked, or still unwinding, its caller's settle changes nothing. */
  lemma BlockedChildIsPolled(db: Db, c: Cmd)
    requires c.ChildSettle? && c.wf in db && c.pos in db[c.wf].calls && db[c.wf].calls[c.pos].child in db
    requires !Over(db[db[c.wf].calls[c.pos].child].state)
    ensures Apply(db, c).db == db
  {
    hide TopOf, Holds, Malformed, Unwind;
  }
}
