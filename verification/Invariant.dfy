/** The store invariant: every workflow is sound and the call relation is a bounded forest. */
module Invariant {
  import opened Options
  import opened Rows
  import opened Procedures
  import opened Coordinator
  import opened Soundness
  import opened SoundSteps
  import opened Evolution

  predicate Over(s: State) { s.Reversed? || s.ResolvedException? }

  ghost predicate AllSound(db: Db) { forall id :: id in db ==> Sound(db[id]) }

  /** A call row names a child that was created for it; a call checkpoint undone without any
    * dispatched compensation stands for a child whose own unwind is over. */
  ghost predicate Linked(db: Db, id: Id, pos: nat)
    requires id in db && pos in db[id].calls
  {
    var w := db[id];
    var call := w.calls[pos];
    pos in w.ops && call.child == w.ops[pos].id && call.child in db
    && var child := db[call.child];
       child.ancestry.Some? && child.ancestry.value.parent == id
       && child.Identity() == PlanId(call.script, call.version, call.hash) && child.args == w.ops[pos].input
       && (pos in w.cps && w.cps[pos].reversal.Undone? && w.cps[pos].binding.None? ==> Over(child.state))
  }

  ghost predicate AllLinked(db: Db) {
    forall id, pos: nat :: id in db && pos in db[id].calls ==> Linked(db, id, pos)
  }

  /** A child has an existing caller one level up, and shares its root. */
  ghost predicate Rooted(db: Db, id: Id, maxDepth: nat)
    requires id in db && db[id].ancestry.Some?
  {
    var a := db[id].ancestry.value;
    a.parent in db && a.depth == db[a.parent].Depth() + 1 && a.depth <= maxDepth && IsCallerOf(db[a.parent], id)
    && a.root == (if db[a.parent].ancestry.Some? then db[a.parent].ancestry.value.root else a.parent)
  }

  ghost predicate AllRooted(db: Db, maxDepth: nat) {
    forall id :: id in db && db[id].ancestry.Some? ==> Rooted(db, id, maxDepth)
  }

  ghost predicate UniqueOps(db: Db) {
    forall i, p: nat, j, q: nat ::
      i in db && p in db[i].ops && j in db && q in db[j].ops && db[i].ops[p].id == db[j].ops[q].id ==>
        i == j && p == q
  }

  /** No plan occurs twice on the way from a workflow up to its root. */
  ghost predicate DistinctPlans(db: Db, path: seq<Id>) {
    && (forall i :: 0 <= i < |path| ==> path[i] in db)
    && (forall i, j :: 0 <= i < j < |path| ==> db[path[i]].Identity() != db[path[j]].Identity())
  }

  ghost predicate AllDistinct(db: Db) {
    forall id :: id in db ==> DistinctPlans(db, Lineage(db, id, db[id].Depth()))
  }

  ghost predicate Inv(db: Db, maxDepth: nat) {
    AllSound(db) && AllLinked(db) && AllRooted(db, maxDepth) && UniqueOps(db) && AllDistinct(db)
  }

  ghost predicate DbGrows(a: Db, b: Db) {
    forall id :: id in a ==> id in b && Grows(a[id], b[id])
  }

  lemma GrowsPinned(a: Workflow, b: Workflow)
    requires Grows(a, b)
    ensures PinnedSame(a, b)
  {}

  lemma GrowsParts(a: Workflow, b: Workflow)
    requires Grows(a, b)
    ensures OpsGrow(a.ops, b.ops) && CpsGrow(a.cps, b.cps) && CallsGrow(a.calls, b.calls)
  {}

  // ---------------------------------------------------------------- lineages

  /** Rows that keep their ancestry keep every lineage. */
  lemma {:induction false} LineageStable(db: Db, db': Db, id: Id, hops: nat)
    requires id in db
    requires forall i :: i in db ==> i in db' && db'[i].ancestry == db[i].ancestry
    requires forall i :: i in db && db[i].ancestry.Some? ==> db[i].ancestry.value.parent in db
    ensures Lineage(db', id, hops) == Lineage(db, id, hops)
    ensures forall k :: 0 <= k < |Lineage(db, id, hops)| ==> Lineage(db, id, hops)[k] in db
    decreases hops
  {
    if hops > 0 && db[id].ancestry.Some? {
      LineageStable(db, db', db[id].ancestry.value.parent, hops - 1);
    }
  }

  /** The bounded query is not cut short: any bound at least the depth sees the whole chain. */
  lemma {:induction false} LineageComplete(db: Db, id: Id, hops: nat, maxDepth: nat)
    requires AllRooted(db, maxDepth) && id in db && hops >= db[id].Depth()
    ensures Lineage(db, id, hops) == Lineage(db, id, db[id].Depth())
    decreases db[id].Depth()
  {
    if db[id].ancestry.Some? {
      assert Rooted(db, id, maxDepth);
      LineageComplete(db, db[id].ancestry.value.parent, hops - 1, maxDepth);
      assert db[id].Depth() - 1 == db[db[id].ancestry.value.parent].Depth();
    }
  }

  // ---------------------------------------------------------------- one row changes

  /** A step on one row that neither adds operations nor settles a call unwarranted. */
  ghost predicate Quiet(db: Db, id: Id, n: Workflow)
    requires id in db
  {
    var w := db[id];
    Grows(w, n) && n.calls == w.calls
    && (forall pos: nat :: pos in w.calls && pos in n.cps && n.cps[pos].reversal.Undone? && n.cps[pos].binding.None? ==>
          (pos in w.cps && w.cps[pos].reversal.Undone? && w.cps[pos].binding.None?)
          || (w.calls[pos].child in db && Over(db[w.calls[pos].child].state)))
  }

  /** What a link reads of the child survives the child's growth. */
  lemma ChildView(a: Workflow, b: Workflow)
    requires Grows(a, b)
    ensures b.ancestry == a.ancestry && b.Identity() == a.Identity() && b.args == a.args
    ensures Over(a.state) ==> Over(b.state)
  {}

  lemma LinksKept(db: Db, id: Id, n: Workflow)
    requires AllLinked(db) && id in db && Quiet(db, id, n)
    ensures AllLinked(db[id := n])
  {
    var db' := db[id := n];
    ChildView(db[id], n);
    assert forall pos: nat :: pos in db[id].ops ==> pos in n.ops && OpGrows(db[id].ops[pos], n.ops[pos]);
    hide Grows;
    forall i, pos: nat | i in db' && pos in db'[i].calls
      ensures Linked(db', i, pos)
    {
      assert Linked(db, i, pos);
    }
  }

  lemma RootsKept(db: Db, maxDepth: nat, id: Id, n: Workflow)
    requires AllRooted(db, maxDepth) && id in db && Grows(db[id], n)
    ensures AllRooted(db[id := n], maxDepth)
  {
    var db' := db[id := n];
    forall i | i in db' && db'[i].ancestry.Some?
      ensures Rooted(db', i, maxDepth)
    {
      assert Rooted(db, i, maxDepth);
      var p := db[i].ancestry.value.parent;
      var pos :| pos in db[p].calls && db[p].calls[pos].child == i;
      assert pos in db'[p].calls && db'[p].calls[pos].child == i;
    }
  }

  lemma DistinctSame(db: Db, db': Db, path: seq<Id>)
    requires DistinctPlans(db, path)
    requires forall i :: 0 <= i < |path| ==> path[i] in db' && (path[i] in db ==> PinnedSame(db[path[i]], db'[path[i]]))
    ensures DistinctPlans(db', path)
  {
    forall i, j | 0 <= i < j < |path|
      ensures db'[path[i]].Identity() != db'[path[j]].Identity()
    {
      assert db[path[i]].Identity() != db[path[j]].Identity();
      assert PinnedSame(db[path[i]], db'[path[i]]) && PinnedSame(db[path[j]], db'[path[j]]);
    }
  }

  lemma ParentsExist(db: Db, maxDepth: nat)
    requires AllRooted(db, maxDepth)
    ensures forall i :: i in db && db[i].ancestry.Some? ==> db[i].ancestry.value.parent in db
  {
    forall i | i in db && db[i].ancestry.Some? ensures db[i].ancestry.value.parent in db {
      assert Rooted(db, i, maxDepth);
    }
  }

  lemma DistinctKept(db: Db, maxDepth: nat, id: Id, n: Workflow)
    requires AllRooted(db, maxDepth) && AllDistinct(db) && id in db && PinnedSame(db[id], n)
    ensures AllDistinct(db[id := n])
  {
    var db' := db[id := n];
    ParentsExist(db, maxDepth);
    hide AllRooted;
    forall i | i in db'
      ensures DistinctPlans(db', Lineage(db', i, db'[i].Depth()))
    {
      var path := Lineage(db, i, db[i].Depth());
      assert DistinctPlans(db, path);
      LineageStable(db, db', i, db[i].Depth());
      DistinctSame(db, db', path);
    }
  }

  lemma UniqueKept(db: Db, id: Id, n: Workflow)
    requires UniqueOps(db) && id in db && Grows(db[id], n)
    requires forall p: nat :: p in n.ops ==> p in db[id].ops || !OpIdTaken(db, n.ops[p].id)
    requires forall p: nat, q: nat :: p in n.ops && q in n.ops && p !in db[id].ops && q !in db[id].ops ==> p == q
    ensures UniqueOps(db[id := n])
  {
    var db' := db[id := n];
    forall i, p: nat, j, q: nat | i in db' && p in db'[i].ops && j in db' && q in db'[j].ops
                                  && db'[i].ops[p].id == db'[j].ops[q].id
      ensures i == j && p == q
    {
      var oldP := p in db[i].ops;
      var oldQ := q in db[j].ops;
      assert oldP ==> db[i].ops[p].id == db'[i].ops[p].id by {
        if i == id { assert OpsGrow(db[id].ops, n.ops); }
      }
      assert oldQ ==> db[j].ops[q].id == db'[j].ops[q].id by {
        if j == id { assert OpsGrow(db[id].ops, n.ops); }
      }
    }
  }

  /** Replacing one row by a sound, quietly grown one keeps the whole invariant. */
  lemma RowStep(db: Db, maxDepth: nat, id: Id, n: Workflow)
    requires Inv(db, maxDepth) && id in db && Sound(n) && Quiet(db, id, n)
    requires forall p: nat :: p in n.ops ==> p in db[id].ops || !OpIdTaken(db, n.ops[p].id)
    requires forall p: nat, q: nat :: p in n.ops && q in n.ops && p !in db[id].ops && q !in db[id].ops ==> p == q
    ensures Inv(db[id := n], maxDepth) && DbGrows(db, db[id := n])
  {
    hide AllLinked, AllRooted, UniqueOps, AllDistinct, Sound, Grows;
    LinksKept(db, id, n);
    RootsKept(db, maxDepth, id, n);
    assert PinnedSame(db[id], n) by { GrowsPinned(db[id], n); }
    DistinctKept(db, maxDepth, id, n);
    UniqueKept(db, id, n);
    forall i | i in db ensures Grows(db[i], db[id := n][i]) { SelfGrows(db[i]); }
  }
}
