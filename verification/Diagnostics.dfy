/** The operator's diagnostic walks over the store, on any call table, even a corrupted one. */
module Diagnostics {
  import opened Options
  import opened Rows
  import opened Procedures
  import opened Coordinator
  import opened Soundness
  import opened Invariant
  import opened InvariantSteps
  import opened CallForest

  // ---------------------------------------------------------------- ordered child rows

  /** ORDER BY operation_seq. */
  function Ordered(s: set<nat>): (r: seq<nat>)
    ensures Lists(r, s)
    decreases |s|
  {
    if s == {} then []
    else
      var m := Max(s);
      var r := Ordered(s - {m});
      MaxLast(r, s, m);
      r + [m]
  }

  /** The elements of the set, each once, ascending. */
  ghost predicate Lists(r: seq<nat>, s: set<nat>) {
    |r| == |s| && (forall x :: x in r <==> x in s) && forall i, j :: 0 <= i < j < |r| ==> r[i] < r[j]
  }

  lemma MaxLast(r: seq<nat>, s: set<nat>, m: nat)
    requires m in s && (forall x :: x in s ==> x <= m) && Lists(r, s - {m})
    ensures Lists(r + [m], s)
  {
    assert forall i :: 0 <= i < |r| ==> r[i] in s - {m};
  }

  /** The child ids of a workflow, in the order of the calling operations. */
  function ChildIds(w: Workflow): (r: seq<Id>)
    ensures |r| == |w.calls|
  {
    var keys := Ordered(w.calls.Keys);
    seq(|keys|, i requires 0 <= i < |keys| => assert keys[i] in keys; w.calls[keys[i]].child)
  }

  lemma ChildIdsExactly(w: Workflow)
    ensures forall c :: c in ChildIds(w) <==> IsCallerOf(w, c)
  {
    var keys := Ordered(w.calls.Keys);
    forall c ensures c in ChildIds(w) <==> IsCallerOf(w, c) {
      if c in ChildIds(w) {
        var i :| 0 <= i < |keys| && ChildIds(w)[i] == c;
        assert keys[i] in keys;
      }
      if IsCallerOf(w, c) {
        var p :| p in w.calls && w.calls[p].child == c;
        assert p in keys;
        var i :| 0 <= i < |keys| && keys[i] == p;
        assert ChildIds(w)[i] == c;
      }
    }
  }

  // ---------------------------------------------------------------- inspect and tree

  /** A report node with what it shows of a workflow, or one of the three stubs. */
  datatype Report<T> =
    | Missing(id: Id) | Cycle(id: Id) | Truncated(id: Id)
    | Node(id: Id, info: T, children: seq<Report<T>>)

  /** The narrow projection of the tree walk. */
  datatype Skeleton = Skeleton(script: string, state: State, disposition: Disposition, reason: Option<string>,
                               depth: nat)

  function SkeletonOf(w: Workflow): Skeleton { Skeleton(w.script, w.state, w.disposition, w.reason, w.Depth()) }

  function Inspect(db: Db, id: Id, maxDepth: int, depth: int, seen: set<Id>): Report<Workflow>
    decreases if depth <= maxDepth then maxDepth - depth + 1 else 0, 1, 0
  {
    if id !in db then Missing(id)
    else Node(id, db[id], InspectChildren(db, ChildIds(db[id]), maxDepth, depth, seen + {id}))
  }

  function InspectChildren(db: Db, ids: seq<Id>, maxDepth: int, depth: int, seen: set<Id>): (r: seq<Report<Workflow>>)
    ensures |r| == |ids| && forall i :: 0 <= i < |r| ==> r[i].id == ids[i]
    decreases if depth <= maxDepth then maxDepth - depth + 1 else 0, 0, |ids|
  {
    if ids == [] then []
    else
      InspectChildren(db, ids[..|ids| - 1], maxDepth, depth, seen)
      + [var c := ids[|ids| - 1];
         if c in seen then Cycle(c)
         else if depth + 1 > maxDepth then Truncated(c)
         else Inspect(db, c, maxDepth, depth + 1, seen)]
  }

  function Tree(db: Db, id: Id, maxDepth: int, depth: int, seen: set<Id>): Report<Skeleton>
    decreases if depth <= maxDepth then maxDepth - depth + 1 else 0, 1, 0
  {
    if id !in db then Missing(id)
    else Node(id, SkeletonOf(db[id]), TreeChildren(db, ChildIds(db[id]), maxDepth, depth, seen + {id}))
  }

  function TreeChildren(db: Db, ids: seq<Id>, maxDepth: int, depth: int, seen: set<Id>): (r: seq<Report<Skeleton>>)
    ensures |r| == |ids| && forall i :: 0 <= i < |r| ==> r[i].id == ids[i]
    decreases if depth <= maxDepth then maxDepth - depth + 1 else 0, 0, |ids|
  {
    if ids == [] then [] else TreeChildren(db, ids[..|ids| - 1], maxDepth, depth, seen)
                              + [TreeEntry(db, ids[|ids| - 1], maxDepth, depth, seen)]
  }

  function TreeEntry(db: Db, c: Id, maxDepth: int, depth: int, seen: set<Id>): (r: Report<Skeleton>)
    ensures r.id == c
    decreases if depth <= maxDepth then maxDepth - depth + 1 else 0, 0, 0
  {
    if c in seen then Cycle(c)
    else if depth + 1 > maxDepth then Truncated(c)
    else Tree(db, c, maxDepth, depth + 1, seen)
  }

  /** The walk itself: children appended one call row after another. */
  method TreeWorkflow(db: Db, id: Id, maxDepth: int, depth: int, seen0: set<Id>) returns (r: Report<Skeleton>)
    ensures r == Tree(db, id, maxDepth, depth, seen0)
    decreases if depth <= maxDepth then maxDepth - depth + 1 else 0
  {
    hide ChildIds, SkeletonOf;
    if id !in db { return Missing(id); }
    var seen := seen0 + {id};
    var ids := ChildIds(db[id]);
    var children: seq<Report<Skeleton>> := [];
    for i := 0 to |ids|
      invariant children == TreeChildren(db, ids[..i], maxDepth, depth, seen)
    {
      var child := Cycle(ids[i]);
      if ids[i] !in seen {
        if depth + 1 > maxDepth {
          child := Truncated(ids[i]);
        } else {
          child := TreeWorkflow(db, ids[i], maxDepth, depth + 1, seen);
        }
      }
      assert child == TreeEntry(db, ids[i], maxDepth, depth, seen);
      assert ids[..i + 1][..i] == ids[..i];
      children := children + [child];
    }
    assert ids[..|ids|] == ids;
    return Node(id, SkeletonOf(db[id]), children);
  }

  // ---------------------------------------------------------------- same shape

  /** Replace what an inspection shows by the tree's projection of it. */
  function Project(r: Report<Workflow>): Report<Skeleton> {
    match r
    case Missing(id) => Missing(id)
    case Cycle(id) => Cycle(id)
    case Truncated(id) => Truncated(id)
    case Node(id, w, children) =>
      Node(id, SkeletonOf(w), seq(|children|, i requires 0 <= i < |children| => Project(children[i])))
  }

  /** On any call table the tree is the inspection with less shown: same nodes, same stubs, same
    * children in the same places. */
  lemma {:induction false} TreeIsProjectedInspect(db: Db, id: Id, maxDepth: int, depth: int, seen: set<Id>)
    ensures Project(Inspect(db, id, maxDepth, depth, seen)) == Tree(db, id, maxDepth, depth, seen)
    decreases if depth <= maxDepth then maxDepth - depth + 1 else 0, 1, 0
  {
    if id in db {
      var ids := ChildIds(db[id]);
      var a := InspectChildren(db, ids, maxDepth, depth, seen + {id});
      var b := TreeChildren(db, ids, maxDepth, depth, seen + {id});
      ChildrenProjected(db, ids, maxDepth, depth, seen + {id});
      assert seq(|a|, i requires 0 <= i < |a| => Project(a[i])) == b;
    }
  }

  lemma {:induction false} ChildrenProjected(db: Db, ids: seq<Id>, maxDepth: int, depth: int, seen: set<Id>)
    ensures forall i :: 0 <= i < |ids| ==>
              Project(InspectChildren(db, ids, maxDepth, depth, seen)[i])
                == TreeChildren(db, ids, maxDepth, depth, seen)[i]
    decreases if depth <= maxDepth then maxDepth - depth + 1 else 0, 0, |ids|
  {
    if ids != [] {
      ChildrenProjected(db, ids[..|ids| - 1], maxDepth, depth, seen);
      if ids[|ids| - 1] !in seen && depth + 1 <= maxDepth {
        TreeIsProjectedInspect(db, ids[|ids| - 1], maxDepth, depth + 1, seen);
      }
    }
  }

  /** Every expanded node has exactly one entry per call row of its workflow, in call order. */
  predicate OneEntryPerCall(db: Db, r: Report<Skeleton>) {
    r.Node? ==>
      r.id in db && |r.children| == |db[r.id].calls|
      && (forall i :: 0 <= i < |r.children| ==> r.children[i].id == ChildIds(db[r.id])[i])
      && (forall i :: 0 <= i < |r.children| ==> OneEntryPerCall(db, r.children[i]))
  }

  lemma {:induction false} TreeShowsEveryCall(db: Db, id: Id, maxDepth: int, depth: int, seen: set<Id>)
    ensures OneEntryPerCall(db, Tree(db, id, maxDepth, depth, seen))
    decreases if depth <= maxDepth then maxDepth - depth + 1 else 0, 1, 0
  {
    if id in db { EntriesShowEveryCall(db, ChildIds(db[id]), maxDepth, depth, seen + {id}); }
  }

  lemma {:induction false} EntriesShowEveryCall(db: Db, ids: seq<Id>, maxDepth: int, depth: int, seen: set<Id>)
    ensures forall i :: 0 <= i < |ids| ==> OneEntryPerCall(db, TreeChildren(db, ids, maxDepth, depth, seen)[i])
    decreases if depth <= maxDepth then maxDepth - depth + 1 else 0, 0, |ids|
  {
    if ids != [] {
      EntriesShowEveryCall(db, ids[..|ids| - 1], maxDepth, depth, seen);
      if ids[|ids| - 1] !in seen && depth + 1 <= maxDepth {
        TreeShowsEveryCall(db, ids[|ids| - 1], maxDepth, depth + 1, seen);
      }
    }
  }

  // ---------------------------------------------------------------- each descendant once

  /** The expanded nodes of a report, parents first. */
  function Expanded(r: Report<Skeleton>): seq<Id> {
    match r
    case Node(id, _, children) => [id] + ExpandedIn(children)
    case _ => []
  }

  function ExpandedIn(rs: seq<Report<Skeleton>>): seq<Id> {
    if rs == [] then [] else ExpandedIn(rs[..|rs| - 1]) + Expanded(rs[|rs| - 1])
  }

  /** The workflow `k` calls up. */
  function Up(db: Db, x: Id, k: nat): Option<Id>
    decreases k
  {
    if x !in db then None
    else if k == 0 then Some(x)
    else if db[x].ancestry.None? then None
    else Up(db, db[x].ancestry.value.parent, k - 1)
  }

  lemma {:induction false} UpOneMore(db: Db, x: Id, k: nat, c: Id)
    requires Up(db, x, k) == Some(c) && c in db && db[c].ancestry.Some? && db[c].ancestry.value.parent in db
    ensures Up(db, x, k + 1) == Some(db[c].ancestry.value.parent)
    decreases k
  {
    if k > 0 { UpOneMore(db, db[x].ancestry.value.parent, k - 1, c); }
  }

  lemma {:induction false} UpDepth(db: Db, maxDepth: nat, x: Id, k: nat)
    requires AllRooted(db, maxDepth) && Up(db, x, k).Some?
    ensures x in db && Up(db, x, k).value in db && db[x].Depth() == db[Up(db, x, k).value].Depth() + k
    decreases k
  {
    if k > 0 {
      assert Rooted(db, x, maxDepth);
      UpDepth(db, maxDepth, db[x].ancestry.value.parent, k - 1);
    }
  }

  /** What a call row of a reachable store says about its child. */
  lemma ChildOf(db: Db, maxDepth: nat, id: Id, c: Id)
    requires Inv(db, maxDepth) && id in db && c in ChildIds(db[id])
    ensures c in db && db[c].ancestry.Some? && db[c].ancestry.value.parent == id && db[c].Depth() == db[id].Depth() + 1
  {
    hide AllSound, AllDistinct, UniqueOps, ChildIds;
    ChildIdsExactly(db[id]);
    var p :| p in db[id].calls && db[id].calls[p].child == c;
    assert Linked(db, id, p);
    assert Rooted(db, c, maxDepth);
  }

  /** Distinct call rows have distinct children. */
  lemma ChildIdsDistinct(db: Db, maxDepth: nat, id: Id, i: nat, j: nat)
    requires Inv(db, maxDepth) && id in db && i < j < |ChildIds(db[id])|
    ensures ChildIds(db[id])[i] != ChildIds(db[id])[j]
  {
    hide AllSound, AllDistinct, AllRooted;
    var keys := Ordered(db[id].calls.Keys);
    assert keys[i] in keys && keys[j] in keys;
    assert Linked(db, id, keys[i]) && Linked(db, id, keys[j]);
  }

  lemma ExpandedSplit(db: Db, id: Id, limit: int, depth: int, seen: set<Id>, x: Id)
    requires x in Expanded(Tree(db, id, limit, depth, seen))
    ensures id in db
    ensures x == id || x in ExpandedIn(TreeChildren(db, ChildIds(db[id]), limit, depth, seen + {id}))
  {
    hide ChildIds, TreeChildren, SkeletonOf;
  }

  /** Whatever a subtree expands lies below its root. */
  lemma {:induction false} ExpandedBelow(db: Db, maxDepth: nat, id: Id, limit: int, depth: int, seen: set<Id>, x: Id)
    returns (k: nat)
    requires Inv(db, maxDepth) && x in Expanded(Tree(db, id, limit, depth, seen))
    ensures Up(db, x, k) == Some(id) && (k == 0 || depth + k <= limit)
    decreases if depth <= limit then limit - depth + 1 else 0
  {
    hide Inv, ChildIds, Tree, TreeChildren, Expanded, ExpandedIn;
    ExpandedSplit(db, id, limit, depth, seen, x);
    if x == id {
      k := 0;
    } else {
      var ids := ChildIds(db[id]);
      var i := EntryWith(db, ids, limit, depth, seen + {id}, x);
      ChildOf(db, maxDepth, id, ids[i]);
      var j := ExpandedBelow(db, maxDepth, ids[i], limit, depth + 1, seen + {id}, x);
      UpOneMore(db, x, j, ids[i]);
      k := j + 1;
    }
  }

  /** The entry that shows a node is an expanded one. */
  lemma {:induction false} EntryWith(db: Db, ids: seq<Id>, limit: int, depth: int, seen: set<Id>,
                                     x: Id) returns (i: nat)
    requires x in ExpandedIn(TreeChildren(db, ids, limit, depth, seen))
    ensures i < |ids| && ids[i] !in seen && depth + 1 <= limit
            && x in Expanded(Tree(db, ids[i], limit, depth + 1, seen))
    decreases |ids|
  {
    var last := |ids| - 1;
    assert TreeChildren(db, ids, limit, depth, seen)[..last] == TreeChildren(db, ids[..last], limit, depth, seen);
    if x in Expanded(TreeEntry(db, ids[last], limit, depth, seen)) {
      i := last;
    } else {
      i := EntryWith(db, ids[..last], limit, depth, seen, x);
    }
  }

  predicate NoRepeat(xs: seq<Id>) { forall i, j :: 0 <= i < j < |xs| ==> xs[i] != xs[j] }

  lemma JoinNoRepeat(a: seq<Id>, b: seq<Id>)
    requires NoRepeat(a) && NoRepeat(b) && forall x :: x in a ==> x !in b
    ensures NoRepeat(a + b)
  {
    forall i, j | 0 <= i < j < |a + b| ensures (a + b)[i] != (a + b)[j] {
      if i < |a| <= j { assert a[i] in a && b[j - |a|] in b; }
    }
  }

  lemma {:induction false} ExpandedOnce(db: Db, maxDepth: nat, id: Id, limit: int, depth: int, seen: set<Id>)
    requires Inv(db, maxDepth)
    ensures NoRepeat(Expanded(Tree(db, id, limit, depth, seen)))
    decreases if depth <= limit then limit - depth + 1 else 0, 1, 0
  {
    hide Inv, ChildIds, NoRepeat;
    if id in db {
      var ids := ChildIds(db[id]);
      ExpandedOnceIn(db, maxDepth, id, |ids|, limit, depth, seen + {id});
      assert ids[..|ids|] == ids;
      var below := ExpandedIn(TreeChildren(db, ids, limit, depth, seen + {id}));
      forall x | x in below ensures x != id {
        var i := EntryWith(db, ids, limit, depth, seen + {id}, x);
        ChildOf(db, maxDepth, id, ids[i]);
        var k := ExpandedBelow(db, maxDepth, ids[i], limit, depth + 1, seen + {id}, x);
        InvRooted(db, maxDepth);
        UpDepth(db, maxDepth, x, k);
      }
      Singleton(id);
      JoinNoRepeat([id], below);
    } else {
      Empty();
    }
  }

  lemma Singleton(id: Id)
    ensures NoRepeat([id])
  {}

  lemma Empty()
    ensures NoRepeat([])
  {}

  lemma InvRooted(db: Db, maxDepth: nat)
    requires Inv(db, maxDepth)
    ensures AllRooted(db, maxDepth)
  {}

  lemma {:induction false} ExpandedOnceIn(db: Db, maxDepth: nat, id: Id, n: nat, limit: int, depth: int, seen: set<Id>)
    requires Inv(db, maxDepth) && id in db && n <= |ChildIds(db[id])|
    ensures NoRepeat(ExpandedIn(TreeChildren(db, ChildIds(db[id])[..n], limit, depth, seen)))
    decreases if depth <= limit then limit - depth + 1 else 0, 0, n
  {
    hide Inv, ChildIds, NoRepeat;
    if n == 0 {
      Empty();
    } else {
      var ids := ChildIds(db[id]);
      var c := ids[n - 1];
      assert ids[..n][..n - 1] == ids[..n - 1];
      ExpandedOnceIn(db, maxDepth, id, n - 1, limit, depth, seen);
      var before := TreeChildren(db, ids[..n - 1], limit, depth, seen);
      var last := TreeEntry(db, c, limit, depth, seen);
      assert TreeChildren(db, ids[..n], limit, depth, seen)[..n - 1] == before;
      if c !in seen && depth + 1 <= limit {
        ExpandedOnce(db, maxDepth, c, limit, depth + 1, seen);
        forall x | x in ExpandedIn(before) ensures x !in Expanded(last) {
          if x in Expanded(last) {
            var i := EntryWith(db, ids[..n - 1], limit, depth, seen, x);
            SameAncestor(db, maxDepth, id, i, n - 1, limit, depth, seen, x);
          }
        }
      } else {
        Empty();
      }
      JoinNoRepeat(ExpandedIn(before), Expanded(last));
    }
  }

  /** A node cannot lie below two different call rows of one workflow. */
  lemma SameAncestor(db: Db, maxDepth: nat, id: Id, i: nat, j: nat, limit: int, depth: int, seen: set<Id>, x: Id)
    requires Inv(db, maxDepth) && id in db && i < j < |ChildIds(db[id])|
    requires x in Expanded(Tree(db, ChildIds(db[id])[i], limit, depth + 1, seen))
    ensures x !in Expanded(Tree(db, ChildIds(db[id])[j], limit, depth + 1, seen))
  {
    if x in Expanded(Tree(db, ChildIds(db[id])[j], limit, depth + 1, seen)) {
      var k := CommonAncestor(db, maxDepth, id, i, j, limit, depth, seen, x);
      ChildIdsDistinct(db, maxDepth, id, i, j);
    }
  }

  lemma CommonAncestor(db: Db, maxDepth: nat, id: Id, i: nat, j: nat, limit: int, depth: int, seen: set<Id>, x: Id)
    returns (k: nat)
    requires Inv(db, maxDepth) && id in db && i < |ChildIds(db[id])| && j < |ChildIds(db[id])|
    requires x in Expanded(Tree(db, ChildIds(db[id])[i], limit, depth + 1, seen))
    requires x in Expanded(Tree(db, ChildIds(db[id])[j], limit, depth + 1, seen))
    ensures Up(db, x, k) == Some(ChildIds(db[id])[i]) == Some(ChildIds(db[id])[j])
  {
    hide Inv, ChildIds, Tree, Expanded;
    var ids := ChildIds(db[id]);
    var a := ExpandedBelow(db, maxDepth, ids[i], limit, depth + 1, seen, x);
    var b := ExpandedBelow(db, maxDepth, ids[j], limit, depth + 1, seen, x);
    InvRooted(db, maxDepth);
    UpDepth(db, maxDepth, x, a);
    UpDepth(db, maxDepth, x, b);
    ChildOf(db, maxDepth, id, ids[i]);
    ChildOf(db, maxDepth, id, ids[j]);
    k := a;
  }

  /** Everything up to the depth limit is expanded: in a forest no walk meets a workflow it has
    * already seen. */
  lemma {:induction false} DescendantExpanded(db: Db, maxDepth: nat, id: Id, limit: int, depth: int, seen: set<Id>,
                                              x: Id, k: nat)
    requires Inv(db, maxDepth) && Up(db, x, k) == Some(id) && (k == 0 || depth + k <= limit)
    requires id in db && forall s :: s in seen && s in db ==> db[s].Depth() < db[id].Depth()
    ensures x in Expanded(Tree(db, id, limit, depth, seen))
    decreases k
  {
    hide Inv, ChildIds;
    if k > 0 {
      InvRooted(db, maxDepth);
      var c := BelowTop(db, maxDepth, x, k, id);
      CallerRows(db, maxDepth, id, c);
      ChildOf(db, maxDepth, id, c);
      var ids := ChildIds(db[id]);
      var i :| 0 <= i < |ids| && ids[i] == c;
      DescendantExpanded(db, maxDepth, c, limit, depth + 1, seen + {id}, x, k - 1);
      ShownIn(db, ids, limit, depth, seen + {id}, i, x);
    }
  }

  lemma {:induction false} BelowTop(db: Db, maxDepth: nat, x: Id, k: nat, id: Id) returns (c: Id)
    requires AllRooted(db, maxDepth) && k > 0 && Up(db, x, k) == Some(id)
    ensures Up(db, x, k - 1) == Some(c) && c in db && db[c].ancestry.Some? && db[c].ancestry.value.parent == id
    decreases k
  {
    if k == 1 { c := x; } else { c := BelowTop(db, maxDepth, db[x].ancestry.value.parent, k - 1, id); }
  }

  lemma CallerRows(db: Db, maxDepth: nat, id: Id, c: Id)
    requires Inv(db, maxDepth) && id in db && c in db && db[c].ancestry.Some? && db[c].ancestry.value.parent == id
    ensures c in ChildIds(db[id])
  {
    hide AllSound, AllLinked, AllDistinct, UniqueOps, ChildIds;
    assert Rooted(db, c, maxDepth);
    ChildIdsExactly(db[id]);
  }

  lemma {:induction false} ShownIn(db: Db, ids: seq<Id>, limit: int, depth: int, seen: set<Id>, i: nat, x: Id)
    requires i < |ids| && ids[i] !in seen && depth + 1 <= limit
             && x in Expanded(Tree(db, ids[i], limit, depth + 1, seen))
    ensures x in ExpandedIn(TreeChildren(db, ids, limit, depth, seen))
    decreases |ids|
  {
    var last := |ids| - 1;
    assert TreeChildren(db, ids, limit, depth, seen)[..last] == TreeChildren(db, ids[..last], limit, depth, seen);
    if i < last { ShownIn(db, ids[..last], limit, depth, seen, i, x); }
  }

  /** `x` was called, directly or not, by `id` through at most `limit` calls. */
  ghost predicate Below(db: Db, x: Id, id: Id, limit: nat) { exists k: nat :: k <= limit && Up(db, x, k) == Some(id) }

  /** On every reachable store the tree expands each descendant within the depth limit exactly
    * once, and nothing else. */
  lemma TreeExpandsForestOnce(db: Db, maxDepth: nat, id: Id, limit: nat)
    requires Reachable(db, maxDepth) && id in db
    ensures var shown := Expanded(Tree(db, id, limit, 0, {}));
            NoRepeat(shown)
            && forall x :: x in shown <==> Below(db, x, id, limit)
  {
    hide Reachable, Inv, Tree, Expanded;
    ReachableInv(db, maxDepth);
    ExpandedOnce(db, maxDepth, id, limit, 0, {});
    var shown := Expanded(Tree(db, id, limit, 0, {}));
    forall x ensures x in shown <==> Below(db, x, id, limit) {
      if x in shown {
        var k := ExpandedBelow(db, maxDepth, id, limit, 0, {}, x);
        assert k <= limit && Up(db, x, k) == Some(id);
      }
      if k: nat :| k <= limit && Up(db, x, k) == Some(id) {
        DescendantExpanded(db, maxDepth, id, limit, 0, {}, x, k);
      }
    }
  }
}
