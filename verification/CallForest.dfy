/** The call relation of every reachable store is a bounded forest of distinct plans. */
module CallForest {
  import opened Options
  import opened Sets
  import opened Rows
  import opened Procedures
  import opened Coordinator
  import opened Soundness
  import opened Invariant
  import opened InvariantSteps

  /** A child has exactly one call row naming it, and it is its parent's. */
  lemma OneCallRow(db: Db, maxDepth: nat, child: Id)
    requires Reachable(db, maxDepth) && child in db && db[child].ancestry.Some?
    ensures var parent := db[child].ancestry.value.parent;
            parent in db && IsCallerOf(db[parent], child)
            && (forall id, p: nat, q: nat ::
                  id in db && p in db[id].calls && db[id].calls[p].child == child
                  && q in db[parent].calls && db[parent].calls[q].child == child ==>
                    id == parent && p == q)
  {
    hide Reachable, AllSound, AllDistinct;
    ReachableInv(db, maxDepth);
    assert Rooted(db, child, maxDepth);
    var parent := db[child].ancestry.value.parent;
    forall id, p: nat, q: nat | id in db && p in db[id].calls && db[id].calls[p].child == child
                                && q in db[parent].calls && db[parent].calls[q].child == child
      ensures id == parent && p == q
    {
      assert Linked(db, id, p) && Linked(db, parent, q);
    }
  }

  /** Every call row leads one level down, so no workflow is its own descendant. */
  lemma CallsDescend(db: Db, maxDepth: nat, id: Id, p: nat)
    requires Reachable(db, maxDepth) && id in db && p in db[id].calls
    ensures var child := db[id].calls[p].child;
            child in db && db[child].Depth() == db[id].Depth() + 1 <= maxDepth && child != id
  {
    hide Reachable, AllSound, AllDistinct, UniqueOps;
    ReachableInv(db, maxDepth);
    assert Linked(db, id, p);
    assert Rooted(db, db[id].calls[p].child, maxDepth);
  }

  /** The lineage of a workflow runs from it to a root, one workflow per level. */
  lemma {:induction false} LineageLength(db: Db, maxDepth: nat, id: Id)
    requires AllRooted(db, maxDepth) && id in db
    ensures var path := Lineage(db, id, db[id].Depth());
            |path| == db[id].Depth() + 1
            && forall k :: 0 <= k < |path| ==> path[k] in db && db[path[k]].Depth() == db[id].Depth() - k
    decreases db[id].Depth()
  {
    if db[id].ancestry.Some? {
      assert Rooted(db, id, maxDepth);
      LineageLength(db, maxDepth, db[id].ancestry.value.parent);
    }
  }

  /** The plans met on a path. */
  ghost function PlansOn(db: Db, path: seq<Id>): set<PlanId>
    requires forall k :: 0 <= k < |path| ==> path[k] in db
  {
    set k | 0 <= k < |path| :: db[path[k]].Identity()
  }

  lemma PlansOnLast(db: Db, path: seq<Id>)
    requires path != [] && forall k :: 0 <= k < |path| ==> path[k] in db
    ensures PlansOn(db, path) == PlansOn(db, path[..|path| - 1]) + {db[path[|path| - 1]].Identity()}
  {
    var rest := path[..|path| - 1];
    forall x | x in PlansOn(db, rest) ensures x in PlansOn(db, path) {
      var k :| 0 <= k < |rest| && db[rest[k]].Identity() == x;
      assert path[k] == rest[k];
    }
    forall x | x in PlansOn(db, path) ensures x in PlansOn(db, rest) + {db[path[|path| - 1]].Identity()} {
      var k :| 0 <= k < |path| && db[path[k]].Identity() == x;
      if k < |rest| { assert rest[k] == path[k]; }
    }
  }

  lemma {:induction false} DistinctPlansCount(db: Db, path: seq<Id>)
    requires DistinctPlans(db, path)
    ensures |PlansOn(db, path)| == |path|
    decreases |path|
  {
    if path == [] {
      assert PlansOn(db, path) == {};
    } else {
      var rest := path[..|path| - 1];
      PlansOnLast(db, path);
      DistinctPlansCount(db, rest);
      forall x | x in PlansOn(db, rest) ensures x != db[path[|path| - 1]].Identity() {
        var k :| 0 <= k < |rest| && db[rest[k]].Identity() == x;
        assert rest[k] == path[k];
      }
      hide PlansOn;
    }
  }

  /** Depth is bounded twice: by the configured limit, and, because no plan recurs on the way
    * up, by the number of plans there are. */
  lemma DepthBounds(db: Db, maxDepth: nat, id: Id, plans: set<PlanId>)
    requires Reachable(db, maxDepth) && id in db && forall i :: i in db ==> db[i].Identity() in plans
    ensures db[id].Depth() <= maxDepth && db[id].Depth() < |plans|
  {
    hide Reachable, AllSound, AllLinked, UniqueOps;
    ReachableInv(db, maxDepth);
    if db[id].ancestry.Some? { assert Rooted(db, id, maxDepth); }
    var path := Lineage(db, id, db[id].Depth());
    LineageLength(db, maxDepth, id);
    assert DistinctPlans(db, path);
    DistinctPlansCount(db, path);
    SubsetSize(PlansOn(db, path), plans);
  }

  /** The guard is exact: a first submission that passes the other checks is refused as a cycle
    * if and only if some workflow on the caller's whole chain, itself included, runs that plan. */
  lemma CycleGuardExact(db: Db, maxDepth: nat, c: Cmd)
    requires Reachable(db, maxDepth) && c.CallSubmit? && !Malformed(c) && c.wf in db && c.pos !in db[c.wf].ops
    requires Holds(db[c.wf], c.executor, c.token) && db[c.wf].state.Forward? && OrderGuard(db[c.wf], c.pos).None?
    ensures Apply(db, c).out == MaxCallDepthExceeded <==> db[c.wf].Depth() >= c.maxDepth
    ensures db[c.wf].Depth() < c.maxDepth ==>
              (Apply(db, c).out == CallCycle <==>
               exists k :: 0 <= k < |Lineage(db, c.wf, db[c.wf].Depth())|
                 && Lineage(db, c.wf, db[c.wf].Depth())[k] in db
                 && db[Lineage(db, c.wf, db[c.wf].Depth())[k]].Identity()
                    == PlanId(c.childScript, c.childPin.version, c.childPin.hash))
  {
    hide Reachable, AllSound, AllLinked, UniqueOps, AllDistinct, Holds, OrderGuard, Malformed, SubmittedParent,
      SubmittedChild;
    ReachableInv(db, maxDepth);
    if db[c.wf].Depth() < c.maxDepth { LineageComplete(db, c.wf, c.maxDepth, maxDepth); }
  }

  /** Over every run from the empty store: depths within the limit, plans distinct going up. */
  lemma ForestInEveryRun(cmds: seq<Cmd>, maxDepth: nat, id: Id)
    requires forall i :: 0 <= i < |cmds| ==> Bounded(cmds[i], maxDepth)
    requires id in Run(map[], cmds)
    ensures var db := Run(map[], cmds);
            db[id].Depth() <= maxDepth && DistinctPlans(db, Lineage(db, id, db[id].Depth()))
            && |Lineage(db, id, db[id].Depth())| == db[id].Depth() + 1
  {
    hide AllSound, AllLinked, UniqueOps;
    EmptyInv(maxDepth);
    RunInv(map[], maxDepth, cmds);
    var db := Run(map[], cmds);
    LineageLength(db, maxDepth, id);
    if db[id].ancestry.Some? { assert Rooted(db, id, maxDepth); }
  }
}
