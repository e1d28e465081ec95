/** Dominance between graph nodes, by paths and by the reachability walk that decides it. */
module Dominance {
  import opened Options
  import opened Sets
  import opened Graph
  import opened OpDepth

  /** A control-flow path from the entry. */
  ghost predicate Path(g: IrGraph, p: seq<NodeId>) {
    && |p| > 0 && p[0] == g.entry
    && forall i :: 0 <= i < |p| - 1 ==> Edge(g, p[i], p[i + 1])
  }

  ghost predicate PathTo(g: IrGraph, p: seq<NodeId>, y: NodeId) { Path(g, p) && p[|p| - 1] == y }

  /** Every way to `y` leads through `x`. */
  ghost predicate Dominates(g: IrGraph, x: NodeId, y: NodeId) {
    x != y && forall p :: PathTo(g, p, y) ==> x in p
  }

  /** `y` can be reached without touching `removed`. */
  ghost predicate ReachedWithout(g: IrGraph, removed: Option<NodeId>, y: NodeId) {
    exists p :: PathTo(g, p, y) && forall i :: 0 <= i < |p| ==> Some(p[i]) != removed
  }

  lemma {:induction false} ClosedHoldsPaths(g: IrGraph, removed: Option<NodeId>, closed: set<NodeId>, p: seq<NodeId>)
    requires Path(g, p) && g.entry in closed && forall i :: 0 <= i < |p| ==> Some(p[i]) != removed
    requires forall u, v: NodeId :: u in closed && Edge(g, u, v) && Some(v) != removed ==> v in closed
    ensures p[|p| - 1] in closed
    decreases |p|
  {
    if |p| > 1 {
      var q := p[..|p| - 1];
      ClosedHoldsPaths(g, removed, closed, q);
      assert Edge(g, p[|p| - 2], p[|p| - 2 + 1]);
    }
  }

  /** A path avoiding the removed node, one edge longer. */
  lemma ReachedFurther(g: IrGraph, removed: Option<NodeId>, u: NodeId, v: NodeId)
    requires ReachedWithout(g, removed, u) && Edge(g, u, v) && Some(v) != removed
    ensures ReachedWithout(g, removed, v)
  {
    var p :| PathTo(g, p, u) && forall i :: 0 <= i < |p| ==> Some(p[i]) != removed;
    var q := p + [v];
    assert PathTo(g, q, v);
  }

  /** The successors of one node, marked and queued when new. */
  method Mark(g: IrGraph, removed: Option<NodeId>, n: Node, reach0: set<NodeId>, work0: seq<NodeId>)
    returns (reach: set<NodeId>, work: seq<NodeId>)
    requires UniqueIds(g.nodes) && n in g.nodes && n.id in reach0 && reach0 <= Ids(g.nodes)
    requires forall u, v :: Edge(g, u, v) ==> v in Ids(g.nodes)
    requires forall y :: y in reach0 ==> ReachedWithout(g, removed, y)
    requires forall x :: x in work0 ==> x in reach0
    ensures reach0 <= reach <= Ids(g.nodes)
    ensures forall y :: y in reach ==> ReachedWithout(g, removed, y)
    ensures forall v :: v in Succs(n) && Some(v) != removed ==> v in reach
    ensures |work| + |reach0| == |work0| + |reach| && work0 <= work
    ensures forall x :: x in work ==> x in reach
    ensures forall y :: y in reach && y !in reach0 ==> y in work[|work0|..]
  {
    hide ReachedWithout, UniqueIds;
    reach, work := reach0, work0;
    var succs := Succs(n);
    for s := 0 to |succs|
      invariant reach0 <= reach <= Ids(g.nodes)
      invariant forall y :: y in reach ==> ReachedWithout(g, removed, y)
      invariant forall k :: 0 <= k < s && Some(succs[k]) != removed ==> succs[k] in reach
      invariant |work| + |reach0| == |work0| + |reach| && work0 <= work
      invariant forall x :: x in work ==> x in reach
      invariant forall y :: y in reach && y !in reach0 ==> y in work[|work0|..]
    {
      var t := succs[s];
      EdgeOf(g, n, t);
      if Some(t) != removed && t !in reach {
        ReachedFurther(g, removed, n.id, t);
        assert (work + [t])[|work0|..] == work[|work0|..] + [t];
        reach, work := reach + {t}, work + [t];
      }
    }
  }

  /** What the walk keeps: the queue lists exactly the marked nodes, each marked node is reached,
    * and the first `h` have had their successors marked. */
  ghost predicate Walked(g: IrGraph, removed: Option<NodeId>, reach: set<NodeId>, work: seq<NodeId>, h: nat) {
    && h <= |work| == |reach| && reach <= Ids(g.nodes) && g.entry in reach
    && (forall y :: y in reach ==> ReachedWithout(g, removed, y))
    && (forall y :: y in reach <==> y in work)
    && (forall i, v: NodeId :: 0 <= i < h && Edge(g, work[i], v) && Some(v) != removed ==> v in reach)
  }

  /** Reachability from the entry, optionally with one node taken out. */
  method ReachableWithout(g: IrGraph, removed: Option<NodeId>) returns (reach: set<NodeId>)
    requires UniqueIds(g.nodes) && g.entry in Ids(g.nodes) && forall u, v :: Edge(g, u, v) ==> v in Ids(g.nodes)
    ensures forall y :: y in reach <==> ReachedWithout(g, removed, y)
  {
    if Some(g.entry) == removed {
      reach := {};
      EntryNeeded(g);
      return;
    }
    EntryReached(g, removed);
    hide Walked, ReachedWithout, UniqueIds;
    reach := {g.entry};
    var work := [g.entry];
    WalkBegins(g, removed);
    var h := 0;
    while h < |work|
      invariant Walked(g, removed, reach, work, h) && h <= |work| <= |Ids(g.nodes)|
      decreases |Ids(g.nodes)| - h
    {
      WalkedAt(g, removed, reach, work, h);
      var n :| n in g.nodes && n.id == work[h];
      var more, queue := Mark(g, removed, n, reach, work);
      WalkContinues(g, removed, n, reach, work, more, queue, h);
      reach, work, h := more, queue, h + 1;
    }
    forall y ensures y in reach <==> ReachedWithout(g, removed, y) {
      WalkEnds(g, removed, reach, work, y);
    }
  }

  lemma EntryNeeded(g: IrGraph)
    ensures forall y :: !ReachedWithout(g, Some(g.entry), y)
  {}

  lemma WalkBegins(g: IrGraph, removed: Option<NodeId>)
    requires g.entry in Ids(g.nodes) && ReachedWithout(g, removed, g.entry)
    ensures Walked(g, removed, {g.entry}, [g.entry], 0) && 1 <= |Ids(g.nodes)|
  {
    hide ReachedWithout;
    SubsetSize({g.entry}, Ids(g.nodes));
  }

  lemma WalkedAt(g: IrGraph, removed: Option<NodeId>, reach: set<NodeId>, work: seq<NodeId>, h: nat)
    requires Walked(g, removed, reach, work, h) && h < |work|
    ensures work[h] in reach && work[h] in Ids(g.nodes) && reach <= Ids(g.nodes)
    ensures forall y :: y in reach ==> ReachedWithout(g, removed, y)
    ensures forall x :: x in work ==> x in reach
  {
    hide ReachedWithout;
  }

  lemma WalkContinues(g: IrGraph, removed: Option<NodeId>, n: Node, reach0: set<NodeId>, work0: seq<NodeId>,
                      reach: set<NodeId>, work: seq<NodeId>, h: nat)
    requires UniqueIds(g.nodes) && Walked(g, removed, reach0, work0, h) && h < |work0|
    requires n in g.nodes && n.id == work0[h] && reach0 <= reach <= Ids(g.nodes)
    requires forall y :: y in reach ==> ReachedWithout(g, removed, y)
    requires forall v :: v in Succs(n) && Some(v) != removed ==> v in reach
    requires |work| + |reach0| == |work0| + |reach| && work0 <= work
    requires forall x :: x in work ==> x in reach
    requires forall y :: y in reach && y !in reach0 ==> y in work[|work0|..]
    ensures Walked(g, removed, reach, work, h + 1) && |work| <= |Ids(g.nodes)|
  {
    hide ReachedWithout, UniqueIds, Ids, Succs, Edge;
    SubsetSize(reach, Ids(g.nodes));
    assert forall i :: 0 <= i < |work0| ==> work[i] == work0[i];
    forall y | y in reach ensures y in work {
      if y in reach0 { var i :| 0 <= i < |work0| && work0[i] == y; assert work[i] == y; }
    }
    forall i, v: NodeId | 0 <= i < h + 1 && Edge(g, work[i], v) && Some(v) != removed ensures v in reach {
      assert work[i] == work0[i];
      if i == h { EdgeFrom(g, n, v); }
    }
  }

  lemma EdgeFrom(g: IrGraph, n: Node, v: NodeId)
    requires UniqueIds(g.nodes) && n in g.nodes && Edge(g, n.id, v)
    ensures v in Succs(n)
  {
    FindId(g.nodes, n);
  }

  lemma WalkEnds(g: IrGraph, removed: Option<NodeId>, reach: set<NodeId>, work: seq<NodeId>, y: NodeId)
    requires Walked(g, removed, reach, work, |work|)
    ensures y in reach <==> ReachedWithout(g, removed, y)
  {
    hide ReachedWithout;
    forall u, v: NodeId | u in reach && Edge(g, u, v) && Some(v) != removed ensures v in reach {
      var i :| 0 <= i < |work| && work[i] == u;
    }
    if ReachedWithout(g, removed, y) { WalkCovers(g, removed, reach, y); }
  }

  lemma EntryReached(g: IrGraph, removed: Option<NodeId>)
    requires Some(g.entry) != removed
    ensures ReachedWithout(g, removed, g.entry)
  {
    assert PathTo(g, [g.entry], g.entry);
  }

  lemma WalkCovers(g: IrGraph, removed: Option<NodeId>, reach: set<NodeId>, y: NodeId)
    requires ReachedWithout(g, removed, y) && g.entry in reach
    requires forall u, v: NodeId :: u in reach && Edge(g, u, v) && Some(v) != removed ==> v in reach
    ensures y in reach
  {
    var p :| PathTo(g, p, y) && forall i :: 0 <= i < |p| ==> Some(p[i]) != removed;
    ClosedHoldsPaths(g, removed, reach, p);
  }

  /** The decision by two walks is dominance by paths. */
  method DecideDominates(g: IrGraph, x: NodeId, y: NodeId) returns (r: bool)
    requires UniqueIds(g.nodes) && g.entry in Ids(g.nodes) && forall u, v :: Edge(g, u, v) ==> v in Ids(g.nodes)
    ensures r <==> ReachedWithout(g, None, y) && Dominates(g, x, y)
  {
    if x == y { return false; }
    var with := ReachableWithout(g, None);
    if y !in with { return false; }
    var without := ReachableWithout(g, Some(x));
    r := y !in without;
  }
}
