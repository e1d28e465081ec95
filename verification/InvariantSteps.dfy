/** Every command keeps the store invariant, and every row only grows. */
module InvariantSteps {
  import opened Options
  import opened Rows
  import opened Procedures
  import opened Coordinator
  import opened Soundness
  import opened SoundSteps
  import opened Evolution
  import opened Invariant
  import opened StackSteps
  import opened OpSteps

  /** Undone without any dispatched compensation: only a call checkpoint may be. */
  predicate UndoneByCall(cps: Cps, p: nat) { p in cps && cps[p].reversal.Undone? && cps[p].binding.None? }

  lemma LocalCalls(w: Workflow, c: Cmd)
    requires IsLocal(c)
    ensures LocalStep(w, c).next.calls == w.calls
  {
    hide TopOf, Exhausted, Overdue, Claimable, Holds, OrderGuard;
  }

  /** A local step adds at most the requested operation. */
  lemma LocalOps(w: Workflow, c: Cmd, p: nat)
    requires IsLocal(c) && p in LocalStep(w, c).next.ops && p !in w.ops
    ensures c.OperationRequest? && LocalStep(w, c).out.Requested? && p == c.pos
    ensures LocalStep(w, c).next.ops[p].id == c.opId
  {
    LocalOpChange(w, c, p);
    hide DoOperationRequest;
  }

  /** A local step undoes a checkpoint only through its own reverse binding. */
  lemma LocalCps(w: Workflow, c: Cmd, p: nat)
    requires Sound(w) && IsLocal(c) && UndoneByCall(LocalStep(w, c).next.cps, p)
    ensures UndoneByCall(w.cps, p)
  {
    hide LocalStep, TopOf, Lifo, Agrees, Chronology, Fields;
    LocalStackChange(w, c, p);
  }

  lemma LocalInv(db: Db, maxDepth: nat, c: Cmd)
    requires Inv(db, maxDepth) && IsLocal(c) && !Malformed(c) && c.wf in db
    requires !(c.OperationRequest? && LocalStep(db[c.wf], c).out.Requested? && OpIdTaken(db, c.opId))
    ensures Inv(db[c.wf := LocalStep(db[c.wf], c).next], maxDepth)
    ensures DbGrows(db, db[c.wf := LocalStep(db[c.wf], c).next])
  {
    hide AllLinked, AllRooted, UniqueOps, AllDistinct, Sound, Grows, LocalStep;
    LocalSound(db[c.wf], c);
    LocalGrows(db[c.wf], c);
    var w := db[c.wf];
    var n := LocalStep(w, c).next;
    LocalCalls(w, c);
    forall p: nat | p in n.ops && p !in w.ops
      ensures c.OperationRequest? && LocalStep(w, c).out.Requested? && p == c.pos && n.ops[p].id == c.opId
    {
      LocalOps(w, c, p);
    }
    forall p: nat | UndoneByCall(n.cps, p) ensures UndoneByCall(w.cps, p) { LocalCps(w, c, p); }
    assert forall p: nat :: p in n.cps && n.cps[p].reversal.Undone? && n.cps[p].binding.None? ==>
             UndoneByCall(n.cps, p);
    RowStep(db, maxDepth, c.wf, LocalStep(db[c.wf], c).next);
  }

  // ---------------------------------------------------------------- new workflows

  lemma NewSound(w: Workflow, ts: Ts)
    requires w.state.Forward? && w.direction.Ahead? && w.disposition.Unset? && w.eventTs == ts && w.lease.None?
    requires w.cursor.Script? && w.trigger.None? && w.reason.None? && w.returned.None? && w.pin.length >= 1
    requires w.ops == map[] && w.cps == map[] && w.calls == map[] && w.events == [Event(ts, EvCreated, None)]
    ensures Sound(w)
  {}

  lemma FreshGrows(db: Db, id: Id, n: Workflow)
    requires id !in db
    ensures DbGrows(db, db[id := n])
  {
    forall i | i in db ensures Grows(db[i], db[id := n][i]) { SelfGrows(db[i]); }
  }

  lemma FreshLinks(db: Db, id: Id, n: Workflow)
    requires AllLinked(db) && id !in db && n.calls == map[]
    ensures AllLinked(db[id := n])
  {
    var db' := db[id := n];
    forall i, pos: nat | i in db' && pos in db'[i].calls
      ensures Linked(db', i, pos)
    {
      assert Linked(db, i, pos);
    }
  }

  lemma FreshRoots(db: Db, maxDepth: nat, id: Id, n: Workflow)
    requires AllRooted(db, maxDepth) && id !in db
    ensures forall i :: i in db && db[i].ancestry.Some? ==> Rooted(db[id := n], i, maxDepth)
  {
    forall i | i in db && db[i].ancestry.Some?
      ensures Rooted(db[id := n], i, maxDepth)
    {
      assert Rooted(db, i, maxDepth);
    }
  }

  /** Old lineages are unaffected by rows that keep their pins and by new rows. */
  lemma LineageDistinct(db: Db, db': Db, maxDepth: nat, i: Id)
    requires AllRooted(db, maxDepth) && AllDistinct(db) && i in db
    requires forall j :: j in db ==> j in db' && PinnedSame(db[j], db'[j])
    ensures Lineage(db', i, db[i].Depth()) == Lineage(db, i, db[i].Depth())
    ensures DistinctPlans(db', Lineage(db', i, db[i].Depth()))
  {
    ParentsExist(db, maxDepth);
    hide AllRooted;
    assert DistinctPlans(db, Lineage(db, i, db[i].Depth()));
    LineageStable(db, db', i, db[i].Depth());
    DistinctSame(db, db', Lineage(db, i, db[i].Depth()));
  }

  lemma RootInv(db: Db, maxDepth: nat, id: Id, n: Workflow)
    requires Inv(db, maxDepth) && id !in db && Sound(n) && n.ops == map[] && n.calls == map[] && n.ancestry.None?
    ensures Inv(db[id := n], maxDepth) && DbGrows(db, db[id := n])
  {
    hide Sound, Grows, Linked, Rooted;
    var db' := db[id := n];
    FreshGrows(db, id, n);
    FreshLinks(db, id, n);
    FreshRoots(db, maxDepth, id, n);
    assert UniqueOps(db');
    hide AllLinked, UniqueOps;
    forall i | i in db'
      ensures DistinctPlans(db', Lineage(db', i, db'[i].Depth()))
    {
      if i == id {
        assert Lineage(db', i, 0) == [i];
      } else {
        LineageDistinct(db, db', maxDepth, i);
      }
    }
  }

  lemma CreateInv(db: Db, maxDepth: nat, c: Cmd)
    requires Inv(db, maxDepth) && c.CreatePlanned? && !Malformed(c)
    ensures Inv(DoCreate(db, c).db, maxDepth) && DbGrows(db, DoCreate(db, c).db)
  {
    hide Inv, Grows, Sound;
    if c.wf !in db {
      var n := NewWorkflow(c.script, c.pin, c.args, None, c.cursor, c.nextAttempt, c.ts);
      NewSound(n, c.ts);
      RootInv(db, maxDepth, c.wf, n);
    } else {
      forall i | i in db ensures Grows(db[i], db[i]) { SelfGrows(db[i]); }
    }
  }

  // ---------------------------------------------------------------- call submission

  lemma SubmittedParentSound(w: Workflow, c: Cmd)
    requires Sound(w) && c.CallSubmit? && w.state.Forward? && c.ts > w.eventTs
    requires OrderGuard(w, c.pos).None? && c.pos !in w.ops
    ensures Sound(SubmittedParent(w, c))
  {
    var op := Operation(c.opId, c.childScript, 1, c.input, c.inputHash, ChildWorkflow, None, FRESH_BUDGET, FRESH_TIMER);
    var call := Call(c.childId, c.childScript, c.childPin.version, c.childPin.hash);
    SpineInsertCall(w.pin.length, w.ops, w.cps, w.calls, c.pos, op, call);
    LogGrows(w.events, w.eventTs, Event(c.ts, EvCallSubmitted, Some(c.executor)));
    PristineLifo(w.cps, w.calls[c.pos := call]);
  }

  lemma SubmittedParentGrows(w: Workflow, c: Cmd)
    requires Sound(w) && c.CallSubmit? && c.ts > w.eventTs && c.pos !in w.ops
    ensures Grows(w, SubmittedParent(w, c))
  {
    OpsGrowAt(w.ops, c.pos, SubmittedParent(w, c).ops[c.pos]);
    CpsGrowSelf(w.cps);
    assert c.pos !in w.calls;
    hide Lifo, Agrees, Chronology, Spine, OpsGrow, CpsGrow;
  }

  /** What the write phase of a submission produces, apart from the parent's own rows. */
  ghost predicate Submits(db: Db, id: Id, p: Workflow, pos: nat, childId: Id, n: Workflow, maxDepth: nat)
    requires id in db
  {
    var w := db[id];
    && childId !in db && pos !in w.ops && pos !in w.calls && pos !in w.cps
    && Grows(w, p) && Sound(p) && Sound(n) && p.cps == w.cps && p.calls.Keys == w.calls.Keys + {pos}
    && p.ops.Keys == w.ops.Keys + {pos}
    && p.ops[pos].id == childId && !OpIdTaken(db, childId)
    && p.calls[pos] == Call(childId, n.script, n.pin.version, n.pin.hash) && n.args == p.ops[pos].input
    && n.ops == map[] && n.calls == map[]
    && n.ancestry.Some? && n.ancestry.value.parent == id && n.Depth() == w.Depth() + 1 <= maxDepth
    && n.ancestry.value.root == (if w.ancestry.Some? then w.ancestry.value.root else id)
  }

  lemma NothingAt(w: Workflow, pos: nat)
    requires Sound(w) && pos !in w.ops
    ensures pos !in w.cps && pos !in w.calls
  {}

  lemma CallSubmits(db: Db, maxDepth: nat, c: Cmd)
    requires AllSound(db) && c.CallSubmit? && !Malformed(c) && c.maxDepth <= maxDepth
    requires DoCallSubmit(db, c).out.Submitted?
    ensures Submits(db, c.wf, SubmittedParent(db[c.wf], c), c.pos, c.childId, SubmittedChild(db[c.wf], c), maxDepth)
  {
    hide Sound, Grows, InLineage, OpIdTaken;
    var w := db[c.wf];
    NothingAt(w, c.pos);
    SubmittedParentSound(w, c);
    SubmittedParentGrows(w, c);
    NewSound(SubmittedChild(w, c), c.ts);
  }

  lemma SubmitRows(db: Db, maxDepth: nat, id: Id, p: Workflow, pos: nat, childId: Id, n: Workflow)
    requires AllSound(db) && UniqueOps(db) && id in db && Submits(db, id, p, pos, childId, n, maxDepth)
    ensures var db' := db[id := p][childId := n]; AllSound(db') && DbGrows(db, db') && UniqueOps(db')
  {
    hide Sound, Grows;
    var db' := db[id := p][childId := n];
    forall i | i in db ensures Grows(db[i], db'[i]) { SelfGrows(db[i]); }
    UniqueKept(db, id, p);
    assert UniqueOps(db[id := p]);
    assert forall i, q: nat :: i in db' && q in db'[i].ops ==> i in db;
  }

  /** An old call keeps its child through a submission elsewhere. */
  lemma OldLink(db: Db, maxDepth: nat, id: Id, p: Workflow, pos: nat, childId: Id, n: Workflow, i: Id, q: nat)
    requires id in db && Submits(db, id, p, pos, childId, n, maxDepth)
    requires i in db && q in db[i].calls && Linked(db, i, q)
    ensures var db' := db[id := p][childId := n]; q in db'[i].calls && Linked(db', i, q)
  {
    hide Grows, Sound, OpIdTaken;
    ChildView(db[id], p);
    GrowsParts(db[id], p);
  }

  lemma NewLink(db: Db, maxDepth: nat, id: Id, p: Workflow, pos: nat, childId: Id, n: Workflow)
    requires id in db && Submits(db, id, p, pos, childId, n, maxDepth)
    ensures var db' := db[id := p][childId := n]; pos in db'[id].calls && Linked(db', id, pos)
  {
    hide Grows, Sound, OpIdTaken;
  }

  lemma SubmitLinks(db: Db, maxDepth: nat, id: Id, p: Workflow, pos: nat, childId: Id, n: Workflow)
    requires AllLinked(db) && id in db && Submits(db, id, p, pos, childId, n, maxDepth)
    ensures AllLinked(db[id := p][childId := n])
  {
    hide Grows, Sound, OpIdTaken, Linked;
    NewLink(db, maxDepth, id, p, pos, childId, n);
    var db' := db[id := p][childId := n];
    forall i, q: nat | i in db' && q in db'[i].calls
      ensures Linked(db', i, q)
    {
      if !(i == id && q == pos) { OldLink(db, maxDepth, id, p, pos, childId, n, i, q); }
    }
  }

  lemma SubmitRoots(db: Db, maxDepth: nat, id: Id, p: Workflow, pos: nat, childId: Id, n: Workflow)
    requires AllRooted(db, maxDepth) && id in db && Submits(db, id, p, pos, childId, n, maxDepth)
    ensures AllRooted(db[id := p][childId := n], maxDepth)
  {
    hide Grows, Sound, OpIdTaken;
    var db' := db[id := p][childId := n];
    GrowsPinned(db[id], p);
    GrowsParts(db[id], p);
    forall i | i in db' && db'[i].ancestry.Some?
      ensures Rooted(db', i, maxDepth)
    {
      if i == childId {
        assert db'[id].calls[pos].child == i;
      } else {
        assert Rooted(db, i, maxDepth);
        var parent := db[i].ancestry.value.parent;
        var q :| q in db[parent].calls && db[parent].calls[q].child == i;
        assert q in db'[parent].calls && db'[parent].calls[q].child == i;
      }
    }
  }

  /** The chain of the new child: itself, then its caller's chain. */
  lemma NewChainDistinct(db: Db, db': Db, maxDepth: nat, hops: nat, id: Id, childId: Id)
    requires AllRooted(db, maxDepth) && AllDistinct(db) && id in db && childId !in db && childId in db'
    requires forall j :: j in db ==> j in db' && PinnedSame(db[j], db'[j])
    requires db'[childId].ancestry.Some? && db'[childId].ancestry.value.parent == id
    requires db'[childId].Depth() == db[id].Depth() + 1 <= hops && !InLineage(db, id, hops, db'[childId].Identity())
    ensures DistinctPlans(db', Lineage(db', childId, db'[childId].Depth()))
  {
    hide AllRooted;
    var path := Lineage(db, id, db[id].Depth());
    assert DistinctPlans(db, path);
    LineageComplete(db, id, hops, maxDepth);
    LineageDistinct(db, db', maxDepth, id);
    NewHeadDistinct(db, db', path, childId, hops);
    assert Lineage(db', childId, db'[childId].Depth()) == [childId] + path;
  }

  /** The recursion guard: the new plan differs from every plan above it. */
  lemma SubmitDistinct(db: Db, maxDepth: nat, hops: nat, id: Id, p: Workflow, childId: Id, n: Workflow)
    requires AllRooted(db, maxDepth) && AllDistinct(db) && id in db && childId !in db && PinnedSame(db[id], p)
    requires n.ancestry.Some? && n.ancestry.value.parent == id && n.Depth() == db[id].Depth() + 1 <= hops
    requires !InLineage(db, id, hops, n.Identity())
    ensures AllDistinct(db[id := p][childId := n])
  {
    hide AllRooted, InLineage, DistinctPlans, Lineage;
    var db' := db[id := p][childId := n];
    forall i | i in db'
      ensures DistinctPlans(db', Lineage(db', i, db'[i].Depth()))
    {
      if i != childId {
        LineageDistinct(db, db', maxDepth, i);
      } else {
        NewChainDistinct(db, db', maxDepth, hops, id, childId);
      }
    }
  }

  lemma NewHeadDistinct(db: Db, db': Db, path: seq<Id>, head: Id, hops: nat)
    requires DistinctPlans(db', path) && head in db'
    requires forall k :: 0 <= k < |path| ==> path[k] in db ==> PinnedSame(db[path[k]], db'[path[k]])
    requires forall k :: 0 <= k < |path| ==> path[k] in db && db[path[k]].Identity() != db'[head].Identity()
    ensures DistinctPlans(db', [head] + path)
  {
    forall k | 0 <= k < |path| ensures db'[path[k]].Identity() != db'[head].Identity() {
      assert PinnedSame(db[path[k]], db'[path[k]]);
    }
  }

  lemma SubmitInv(db: Db, maxDepth: nat, c: Cmd)
    requires Inv(db, maxDepth) && c.CallSubmit? && !Malformed(c) && c.maxDepth <= maxDepth
    ensures Inv(DoCallSubmit(db, c).db, maxDepth) && DbGrows(db, DoCallSubmit(db, c).db)
  {
    hide AllLinked, AllRooted, UniqueOps, AllDistinct, AllSound, Grows, SameSubmission, InLineage, OpIdTaken, Sound;
    if DoCallSubmit(db, c).out.Submitted? {
      var p := SubmittedParent(db[c.wf], c);
      var n := SubmittedChild(db[c.wf], c);
      CallSubmits(db, maxDepth, c);
      SubmitRows(db, maxDepth, c.wf, p, c.pos, c.childId, n);
      SubmitLinks(db, maxDepth, c.wf, p, c.pos, c.childId, n);
      SubmitRoots(db, maxDepth, c.wf, p, c.pos, c.childId, n);
      GrowsPinned(db[c.wf], p);
      SubmitDistinct(db, maxDepth, c.maxDepth, c.wf, p, c.childId, n);
    } else {
      forall i | i in db ensures Grows(db[i], db[i]) { SelfGrows(db[i]); }
    }
  }

  // ---------------------------------------------------------------- reopening and settling a child

  lemma ReopenedChildSound(child: Workflow, ts: Ts, executor: Id)
    requires Sound(child) && child.state.Completed? && child.Top().Some? && ts > child.eventTs && child.ancestry.Some?
    ensures Sound(ReopenedChild(child, ts, executor)) && Grows(child, ReopenedChild(child, ts, executor))
  {
    hide Spine, OpsGrow, CpsGrow;
    PristineLifo(child.cps, child.calls);
    LogGrows(child.events, child.eventTs, Event(ts, EvRequestedByParent, Some(executor)));
    OpsGrowSelf(child.ops);
    CpsGrowSelf(child.cps);
  }

  lemma StampedSound(w: Workflow, ts: Ts, kind: EventKind, actor: Option<Id>)
    requires Sound(w) && ts > w.eventTs
    ensures Sound(Stamp(w, ts, kind, actor)) && Grows(w, Stamp(w, ts, kind, actor))
  {
    hide Spine, Lifo, OpsGrow, CpsGrow;
    LogGrows(w.events, w.eventTs, Event(ts, kind, actor));
    OpsGrowSelf(w.ops);
    CpsGrowSelf(w.cps);
  }

  lemma ReopenInv(db: Db, maxDepth: nat, c: Cmd)
    requires Inv(db, maxDepth) && c.ChildReopen?
    ensures Inv(DoChildReopen(db, c).db, maxDepth) && DbGrows(db, DoChildReopen(db, c).db)
  {
    hide AllRooted, UniqueOps, AllDistinct, Sound, Grows;
    forall i | i in db ensures Grows(db[i], db[i]) { SelfGrows(db[i]); }
    if DoChildReopen(db, c).out.Reopened? {
      var w := db[c.wf];
      var childId := w.calls[c.pos].child;
      assert Linked(db, c.wf, c.pos);
      var n := ReopenedChild(db[childId], c.ts, c.executor);
      var p := Stamp(w, c.ts, EvCompensationRequested, Some(c.executor));
      ReopenedChildSound(db[childId], c.ts, c.executor);
      StampedSound(w, c.ts, EvCompensationRequested, Some(c.executor));
      hide AllLinked;
      RowStep(db, maxDepth, c.wf, p);
      var db1 := db[c.wf := p];
      assert db1[childId] == db[childId];
      RowStep(db1, maxDepth, childId, n);
      forall i | i in db ensures Grows(db[i], db1[childId := n][i]) {
        GrowsTransitive(db[i], db1[i], db1[childId := n][i]);
      }
    }
  }

  lemma UnwindFrame(w: Workflow, pos: nat, ts: Ts, executor: Id)
    requires pos in w.cps
    ensures Unwind(w, pos, ts, executor).next.calls == w.calls && Unwind(w, pos, ts, executor).next.ops == w.ops
    ensures forall q: nat :: UndoneByCall(Unwind(w, pos, ts, executor).next.cps, q) ==>
              UndoneByCall(w.cps, q) || q == pos
  {}

  lemma ChildSettleInv(db: Db, maxDepth: nat, c: Cmd)
    requires Inv(db, maxDepth) && c.ChildSettle?
    ensures Inv(DoChildSettle(db, c).db, maxDepth) && DbGrows(db, DoChildSettle(db, c).db)
  {
    hide AllRooted, UniqueOps, AllDistinct, AllLinked, Sound, Grows, Unwind;
    forall i | i in db ensures Grows(db[i], db[i]) { SelfGrows(db[i]); }
    if DoChildSettle(db, c).db != db {
      var w := db[c.wf];
      var n := Unwind(w, c.pos, c.ts, c.executor).next;
      UnwindSound(w, c.pos, c.ts, c.executor);
      UnwindGrows(w, c.pos, c.ts, c.executor);
      UnwindFrame(w, c.pos, c.ts, c.executor);
      assert forall q: nat :: q in n.cps && n.cps[q].reversal.Undone? && n.cps[q].binding.None? ==>
               UndoneByCall(n.cps, q);
      RowStep(db, maxDepth, c.wf, n);
    }
  }

  // ---------------------------------------------------------------- waking the caller

  /** A child has exactly one caller: the sidecar's child id is the operation id. */
  lemma OneCaller(db: Db, i: Id, j: Id, child: Id)
    requires AllLinked(db) && UniqueOps(db) && i in db && j in db
    requires IsCallerOf(db[i], child) && IsCallerOf(db[j], child)
    ensures i == j
  {
    var p :| p in db[i].calls && db[i].calls[p].child == child;
    var q :| q in db[j].calls && db[j].calls[q].child == child;
    assert Linked(db, i, p) && Linked(db, j, q);
  }

  lemma WokenSound(w: Workflow, ts: Ts)
    requires Sound(w)
    ensures Sound(Woken(w, ts)) && Grows(w, Woken(w, ts))
  {
    hide Spine, Lifo, Chronology, OpsGrow, CpsGrow;
    OpsGrowSelf(w.ops);
    CpsGrowSelf(w.cps);
  }

  /** Waking touches one row. */
  lemma NotifyIsOneRow(db: Db, c: Cmd, id: Id)
    requires AllLinked(db) && UniqueOps(db) && c.TerminalNotify? && id in db && IsCallerOf(db[id], c.childId)
    ensures DoNotify(db, c).db == db[id := Woken(db[id], c.ts)]
  {
    forall i | i in db && IsCallerOf(db[i], c.childId) ensures i == id { OneCaller(db, i, id, c.childId); }
    hide AllLinked, UniqueOps, IsCallerOf;
  }

  lemma NotifyInv(db: Db, maxDepth: nat, c: Cmd)
    requires Inv(db, maxDepth) && c.TerminalNotify?
    ensures Inv(DoNotify(db, c).db, maxDepth) && DbGrows(db, DoNotify(db, c).db)
  {
    hide AllRooted, UniqueOps, AllDistinct, AllLinked, Sound, Grows, IsCallerOf;
    forall i | i in db ensures Grows(db[i], db[i]) { SelfGrows(db[i]); }
    if i :| i in db && IsCallerOf(db[i], c.childId) {
      NotifyIsOneRow(db, c, i);
      WokenSound(db[i], c.ts);
      RowStep(db, maxDepth, i, Woken(db[i], c.ts));
    }
  }

  // ---------------------------------------------------------------- all commands, all runs

  /** Every call submitted under a depth limit of at most `maxDepth`. */
  predicate Bounded(c: Cmd, maxDepth: nat) { c.CallSubmit? ==> c.maxDepth <= maxDepth }

  lemma ApplyInv(db: Db, maxDepth: nat, c: Cmd)
    requires Inv(db, maxDepth) && Bounded(c, maxDepth)
    ensures Inv(Apply(db, c).db, maxDepth) && DbGrows(db, Apply(db, c).db)
  {
    hide Inv, Grows, Malformed, DoCreate, DoCallSubmit, DoChildReopen, DoChildSettle, DoNotify, LocalStep;
    if Malformed(c) || Apply(db, c).db == db {
      forall i | i in db ensures Grows(db[i], db[i]) { SelfGrows(db[i]); }
    } else if c.CreatePlanned? {
      CreateInv(db, maxDepth, c);
    } else if c.CallSubmit? {
      SubmitInv(db, maxDepth, c);
    } else if c.ChildReopen? {
      ReopenInv(db, maxDepth, c);
    } else if c.ChildSettle? {
      ChildSettleInv(db, maxDepth, c);
    } else if c.TerminalNotify? {
      NotifyInv(db, maxDepth, c);
    } else {
      LocalInv(db, maxDepth, c);
    }
  }

  /** The store invariant over every run: any interleaving of any workers' commands, stale,
    * retried, malformed or not, on any number of workflows. */
  lemma {:induction false} RunInv(db: Db, maxDepth: nat, cmds: seq<Cmd>)
    requires Inv(db, maxDepth) && forall i :: 0 <= i < |cmds| ==> Bounded(cmds[i], maxDepth)
    ensures Inv(Run(db, cmds), maxDepth) && DbGrows(db, Run(db, cmds))
    decreases |cmds|
  {
    hide Inv, Apply, Grows;
    if cmds == [] {
      forall i | i in db ensures Grows(db[i], db[i]) { SelfGrows(db[i]); }
    } else {
      var db1 := Apply(db, cmds[0]).db;
      ApplyInv(db, maxDepth, cmds[0]);
      RunInv(db1, maxDepth, cmds[1..]);
      var db2 := Run(db1, cmds[1..]);
      forall i | i in db ensures i in db2 && Grows(db[i], db2[i]) { GrowsTransitive(db[i], db1[i], db2[i]); }
    }
  }

  lemma EmptyInv(maxDepth: nat)
    ensures Inv(map[], maxDepth)
  {}

  // ---------------------------------------------------------------- reachable stores

  lemma {:induction false} RunOneMore(db: Db, cmds: seq<Cmd>, c: Cmd)
    ensures Run(db, cmds + [c]) == Apply(Run(db, cmds), c).db
    decreases |cmds|
  {
    hide Apply;
    if cmds == [] {
      assert Run(Apply(db, c).db, []) == Apply(db, c).db;
      assert ([] + [c])[1..] == [];
    } else {
      assert (cmds + [c])[1..] == cmds[1..] + [c];
      RunOneMore(Apply(db, cmds[0]).db, cmds[1..], c);
    }
  }

  /** The stores that runs from the empty store lead to, under a configured call depth. */
  ghost predicate Reachable(db: Db, maxDepth: nat) {
    exists cmds :: (forall i :: 0 <= i < |cmds| ==> Bounded(cmds[i], maxDepth)) && db == Run(map[], cmds)
  }

  /** Every reachable store satisfies the invariant. */
  lemma ReachableInv(db: Db, maxDepth: nat)
    requires Reachable(db, maxDepth)
    ensures Inv(db, maxDepth)
  {
    hide Inv, Run;
    EmptyInv(maxDepth);
    var cmds :| (forall i :: 0 <= i < |cmds| ==> Bounded(cmds[i], maxDepth)) && db == Run(map[], cmds);
    RunInv(map[], maxDepth, cmds);
  }

  lemma ReachableStep(db: Db, maxDepth: nat, c: Cmd)
    requires Reachable(db, maxDepth) && Bounded(c, maxDepth)
    ensures Reachable(Apply(db, c).db, maxDepth)
  {
    hide Run, Apply, Bounded;
    var cmds :| (forall i :: 0 <= i < |cmds| ==> Bounded(cmds[i], maxDepth)) && db == Run(map[], cmds);
    RunOneMore(map[], cmds, c);
    assert forall i :: 0 <= i < |cmds + [c]| ==> Bounded((cmds + [c])[i], maxDepth);
  }
}
