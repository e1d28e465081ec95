/** The uniform operation depth of a graph: computed, and what accepting it guarantees. */
module OpDepth {
  import opened Options
  import opened Graph

  function Targets(arms: seq<Arm>): seq<NodeId> { seq(|arms|, i requires 0 <= i < |arms| => arms[i].target) }

  /** The control-flow successors of a node. */
  function Succs(n: Node): seq<NodeId> {
    match n
    case NOperation(_, _, _, next) => [next]
    case NCall(_, _, _, _, next) => [next]
    case NLet(_, _, _, next) => [next]
    case NLoop(_, _, next) => [next]
    case NMerge(_, _, _, next) => [next]
    case NIf(_, _, a, b) => [a, b]
    case NCase(_, _, arms, otherwise) => Targets(arms) + [otherwise]
    case NReturn(_, _) => []
    case NFail(_, _) => []
  }

  /** One for a node that is an executable step. */
  function Weight(n: Node): nat { if n.NOperation? || n.NCall? then 1 else 0 }

  type Depths = map<NodeId, nat>

  function Ids(nodes: seq<Node>): set<NodeId> { set n | n in nodes :: n.id }

  ghost predicate Edge(g: IrGraph, u: NodeId, v: NodeId) {
    Find(g.nodes, u).Some? && v in Succs(Find(g.nodes, u).value)
  }

  /** What structural validation establishes: unique ids, existing targets, control flow that only
    * ascends some ranking, and no node but the entry without a predecessor. */
  ghost predicate Validated(g: IrGraph, rank: map<NodeId, nat>) {
    && UniqueIds(g.nodes)
    && g.entry in Ids(g.nodes)
    && (forall u, v :: Edge(g, u, v) ==> v in Ids(g.nodes))
    && (forall u :: u in Ids(g.nodes) ==> u in rank)
    && (forall u, v :: Edge(g, u, v) ==> u in rank && v in rank && rank[u] < rank[v])
    && (forall v :: v in Ids(g.nodes) && v != g.entry ==> exists u :: Edge(g, u, v))
  }

  /** Every path to a node passes the same number of operations, the node's depth. */
  ghost predicate Uniform(g: IrGraph, d: Depths) {
    && (forall u :: u in Ids(g.nodes) ==> u in d)
    && g.entry in d && d[g.entry] == 0
    && (forall u, v :: Edge(g, u, v) ==> u in d && v in d && d[v] == d[u] + Weight(Find(g.nodes, u).value))
  }

  // ---------------------------------------------------------------- counting edges

  function Count(xs: seq<NodeId>, v: NodeId): nat {
    if xs == [] then 0 else Count(xs[..|xs| - 1], v) + (if xs[|xs| - 1] == v then 1 else 0)
  }

  lemma {:induction false} CountPositive(xs: seq<NodeId>, v: NodeId)
    ensures v in xs <==> Count(xs, v) > 0
    decreases |xs|
  {
    if xs != [] {
      CountPositive(xs[..|xs| - 1], v);
      assert xs == xs[..|xs| - 1] + [xs[|xs| - 1]];
    }
  }

  /** Edges into `v` from nodes not yet done. */
  function Remaining(nodes: seq<Node>, finished: set<NodeId>, v: NodeId): nat {
    if nodes == [] then 0
    else
      var n := nodes[|nodes| - 1];
      Remaining(nodes[..|nodes| - 1], finished, v) + (if n.id in finished then 0 else Count(Succs(n), v))
  }

  lemma {:induction false} RemainingOther(nodes: seq<Node>, finished: set<NodeId>, id: NodeId, v: NodeId)
    requires forall i :: 0 <= i < |nodes| ==> nodes[i].id != id
    ensures Remaining(nodes, finished + {id}, v) == Remaining(nodes, finished, v)
    decreases |nodes|
  {
    if nodes != [] { RemainingOther(nodes[..|nodes| - 1], finished, id, v); }
  }

  /** Finishing a node takes away exactly its own edges. */
  lemma {:induction false} RemainingDrops(nodes: seq<Node>, finished: set<NodeId>, n: Node, v: NodeId)
    requires UniqueIds(nodes) && n in nodes && n.id !in finished
    ensures Remaining(nodes, finished + {n.id}, v) + Count(Succs(n), v) == Remaining(nodes, finished, v)
    decreases |nodes|
  {
    var rest := nodes[..|nodes| - 1];
    if nodes[|nodes| - 1] == n {
      RemainingOther(rest, finished, n.id, v);
    } else {
      var i :| 0 <= i < |nodes| && nodes[i] == n;
      assert rest[i] == n;
      assert nodes[i].id != nodes[|nodes| - 1].id;
      RemainingDrops(rest, finished, n, v);
    }
  }

  lemma {:induction false} RemainingMeans(nodes: seq<Node>, finished: set<NodeId>, v: NodeId)
    ensures Remaining(nodes, finished, v) > 0 <==> exists n :: n in nodes && n.id !in finished && v in Succs(n)
    decreases |nodes|
  {
    if nodes != [] {
      var n := nodes[|nodes| - 1];
      var rest := nodes[..|nodes| - 1];
      RemainingMeans(rest, finished, v);
      CountPositive(Succs(n), v);
      assert nodes == rest + [n];
    }
  }

  lemma {:induction false} CountPrefix(xs: seq<NodeId>, k: nat, v: NodeId)
    requires k <= |xs|
    ensures Count(xs[..k], v) <= Count(xs, v)
    decreases |xs| - k
  {
    if k < |xs| {
      assert xs[..k + 1][..k] == xs[..k];
      CountPrefix(xs, k + 1, v);
    } else {
      assert xs[..k] == xs;
    }
  }

  lemma EdgeOf(g: IrGraph, n: Node, v: NodeId)
    requires UniqueIds(g.nodes) && n in g.nodes && v in Succs(n)
    ensures Edge(g, n.id, v)
  {
    FindId(g.nodes, n);
  }

  /** Following predecessors down the ranking always ends at the entry. */
  lemma {:induction false} EntryLowest(g: IrGraph, rank: map<NodeId, nat>, v: NodeId)
    requires Validated(g, rank) && v in Ids(g.nodes) && v != g.entry
    ensures g.entry in rank && rank[g.entry] < rank[v]
    decreases rank[v]
  {
    var u :| Edge(g, u, v);
    if u != g.entry {
      assert u in Ids(g.nodes);
      EntryLowest(g, rank, u);
    }
  }

  /** Kahn's order reaches everything: a set closed under "all predecessors done" is all of it. */
  lemma {:induction false} AllFinished(g: IrGraph, rank: map<NodeId, nat>, finished: set<NodeId>, v: NodeId)
    requires Validated(g, rank) && v in Ids(g.nodes)
    requires forall w :: w in Ids(g.nodes) ==> (w in finished <==> w == g.entry || Remaining(g.nodes, finished, w) == 0)
    ensures v in finished
    decreases rank[v]
  {
    if v !in finished {
      RemainingMeans(g.nodes, finished, v);
      var n :| n in g.nodes && n.id !in finished && v in Succs(n);
      EdgeOf(g, n, v);
      AllFinished(g, rank, finished, n.id);
    }
  }

  lemma {:induction false} DistinctFit(queue: seq<NodeId>, ids: set<NodeId>)
    requires forall i, j :: 0 <= i < j < |queue| ==> queue[i] != queue[j]
    requires forall i :: 0 <= i < |queue| ==> queue[i] in ids
    ensures |queue| <= |ids|
    decreases |queue|
  {
    if queue != [] {
      var last := queue[|queue| - 1];
      DistinctFit(queue[..|queue| - 1], ids - {last});
    }
  }

  // ---------------------------------------------------------------- the algorithm

  /** The edges out of one node, added to the in-degrees. */
  method AddEdges(g: IrGraph, n: Node, indeg0: map<NodeId, nat>) returns (indeg: map<NodeId, nat>)
    requires indeg0.Keys == Ids(g.nodes) && forall v :: v in Succs(n) ==> v in Ids(g.nodes)
    ensures indeg.Keys == Ids(g.nodes)
    ensures forall v :: v in indeg ==> indeg[v] == indeg0[v] + Count(Succs(n), v)
  {
    indeg := indeg0;
    var succs := Succs(n);
    for s := 0 to |succs|
      invariant indeg.Keys == Ids(g.nodes)
      invariant forall v :: v in indeg ==> indeg[v] == indeg0[v] + Count(succs[..s], v)
    {
      assert succs[..s + 1][..s] == succs[..s];
      indeg := indeg[succs[s] := indeg[succs[s]] + 1];
    }
    assert succs[..|succs|] == succs;
  }

  method InDegrees(g: IrGraph) returns (indeg: map<NodeId, nat>)
    requires UniqueIds(g.nodes)
    requires forall u, v :: Edge(g, u, v) ==> v in Ids(g.nodes)
    ensures indeg.Keys == Ids(g.nodes)
    ensures forall v :: v in indeg ==> indeg[v] == Remaining(g.nodes, {}, v)
  {
    indeg := map id | id in Ids(g.nodes) :: 0;
    for i := 0 to |g.nodes|
      invariant indeg.Keys == Ids(g.nodes)
      invariant forall v :: v in indeg ==> indeg[v] == Remaining(g.nodes[..i], {}, v)
    {
      var n := g.nodes[i];
      forall v | v in Succs(n) ensures v in Ids(g.nodes) { EdgeOf(g, n, v); }
      indeg := AddEdges(g, n, indeg);
      assert g.nodes[..i + 1][..i] == g.nodes[..i];
    }
    assert g.nodes[..|g.nodes|] == g.nodes;
  }

  /** What holds between two dequeues: the queue lists the nodes all of whose predecessors are
    * done, depths are settled along every edge out of a done node, and no uniform assignment
    * disagrees with a depth already given. */
  ghost predicate Kahn(g: IrGraph, depth: Depths, indeg: map<NodeId, nat>, queue: seq<NodeId>, qh: nat) {
    && Front(g, queue, qh)
    && indeg.Keys == Ids(g.nodes)
    && (forall v :: v in indeg ==> indeg[v] == Remaining(g.nodes, Done(queue, qh), v))
    && (forall v :: v in Ids(g.nodes) ==> (v in queue <==> v == g.entry || indeg[v] == 0))
    && Placed(g, depth, queue, qh)
  }

  ghost predicate Front(g: IrGraph, queue: seq<NodeId>, qh: nat) {
    && qh <= |queue| && |queue| > 0 && queue[0] == g.entry
    && (forall i, j :: 0 <= i < j < |queue| ==> queue[i] != queue[j])
    && (forall i :: 0 <= i < |queue| ==> queue[i] in Ids(g.nodes))
  }

  function Done(queue: seq<NodeId>, qh: nat): set<NodeId>
    requires qh <= |queue|
  {
    set i | 0 <= i < qh :: queue[i]
  }

  ghost predicate Placed(g: IrGraph, depth: Depths, queue: seq<NodeId>, qh: nat)
    requires qh <= |queue|
  {
    && g.entry in depth && depth[g.entry] == 0
    && (forall i :: 0 <= i < |queue| ==> queue[i] in depth)
    && (forall u, v :: u in Done(queue, qh) && Edge(g, u, v) ==>
          u in depth && v in depth && depth[v] == depth[u] + Weight(Find(g.nodes, u).value))
    && Forced(g, depth)
  }

  /** Any uniform assignment gives these depths. */
  ghost predicate Forced(g: IrGraph, depth: Depths) {
    forall d: Depths :: Uniform(g, d) ==> forall v :: v in depth ==> v in d && d[v] == depth[v]
  }

  /** Between two edges of the node being dequeued: its first `s` edges are accounted for. */
  ghost predicate Between(g: IrGraph, n: Node, depth: Depths, indeg: map<NodeId, nat>, queue: seq<NodeId>, qh: nat,
                          s: nat) {
    && Tally(g, n, indeg, queue, qh, s)
    && n.id in depth && Placed(g, depth, queue, qh)
    && Given(n, depth, s)
  }

  /** The node's first `s` successors have their depth. */
  ghost predicate Given(n: Node, depth: Depths, s: nat)
    requires n.id in depth && s <= |Succs(n)|
  {
    forall k :: 0 <= k < s ==> Succs(n)[k] in depth && depth[Succs(n)[k]] == depth[n.id] + Weight(n)
  }

  ghost predicate Tally(g: IrGraph, n: Node, indeg: map<NodeId, nat>, queue: seq<NodeId>, qh: nat, s: nat) {
    && Front(g, queue, qh) && qh < |queue| && queue[qh] == n.id
    && s <= |Succs(n)|
    && indeg.Keys == Ids(g.nodes)
    && Counted(g, n, indeg, Done(queue, qh), s)
    && Released(g.entry, indeg, queue)
  }

  /** In-degrees count the edges that are left. */
  ghost predicate Counted(g: IrGraph, n: Node, indeg: map<NodeId, nat>, before: set<NodeId>, s: nat)
    requires s <= |Succs(n)|
  {
    forall v :: v in indeg ==> indeg[v] + Count(Succs(n)[..s], v) == Remaining(g.nodes, before, v)
  }

  /** The queue holds the entry and the nodes without edges left. */
  ghost predicate Released(entry: NodeId, indeg: map<NodeId, nat>, queue: seq<NodeId>) {
    forall v :: v in indeg ==> (v in queue <==> v == entry || indeg[v] == 0)
  }

  lemma BetweenBegins(g: IrGraph, n: Node, depth: Depths, indeg: map<NodeId, nat>, queue: seq<NodeId>, qh: nat)
    requires Kahn(g, depth, indeg, queue, qh) && qh < |queue| && queue[qh] == n.id
    ensures Between(g, n, depth, indeg, queue, qh, 0)
  {
    hide Remaining, Forced;
  }

  lemma BetweenEnds(g: IrGraph, n: Node, depth: Depths, indeg: map<NodeId, nat>, queue: seq<NodeId>, qh: nat)
    requires UniqueIds(g.nodes) && n in g.nodes && Between(g, n, depth, indeg, queue, qh, |Succs(n)|)
    ensures Kahn(g, depth, indeg, queue, qh + 1)
  {
    hide Remaining, Forced, UniqueIds;
    var before := Done(queue, qh);
    assert n.id !in before;
    assert Succs(n)[..|Succs(n)|] == Succs(n);
    assert Done(queue, qh + 1) == before + {n.id};
    forall v | v in indeg ensures indeg[v] == Remaining(g.nodes, before + {n.id}, v) {
      RemainingDrops(g.nodes, before, n, v);
    }
    FindId(g.nodes, n);
    forall u, v | u in Done(queue, qh + 1) && Edge(g, u, v)
      ensures u in depth && v in depth && depth[v] == depth[u] + Weight(Find(g.nodes, u).value)
    {
      if u == n.id { var k :| 0 <= k < |Succs(n)| && Succs(n)[k] == v; }
    }
  }

  /** One more edge accounted for, on the counting side. */
  lemma EdgeCounts(g: IrGraph, n: Node, indeg: map<NodeId, nat>, before: set<NodeId>, s: nat)
    requires UniqueIds(g.nodes) && n in g.nodes && n.id !in before && s < |Succs(n)| && Succs(n)[s] in indeg
    requires Counted(g, n, indeg, before, s)
    ensures indeg[Succs(n)[s]] > 0
    ensures Counted(g, n, indeg[Succs(n)[s] := indeg[Succs(n)[s]] - 1], before, s + 1)
  {
    hide Remaining, UniqueIds;
    assert Succs(n)[..s + 1][..s] == Succs(n)[..s];
    CountPrefix(Succs(n), s + 1, Succs(n)[s]);
    RemainingDrops(g.nodes, before, n, Succs(n)[s]);
  }

  /** Appending a new node to the queue keeps its shape and what is done. */
  lemma FrontGrows(g: IrGraph, queue: seq<NodeId>, qh: nat, v: NodeId)
    requires Front(g, queue, qh) && v in Ids(g.nodes) && v !in queue
    ensures Front(g, queue + [v], qh) && Done(queue + [v], qh) == Done(queue, qh)
  {
    assert forall i :: 0 <= i < qh ==> (queue + [v])[i] == queue[i];
  }

  /** A successor's new depth disturbs nothing that was settled. */
  lemma EdgeSettled(g: IrGraph, n: Node, before: Depths, depth: Depths, queue: seq<NodeId>, more: seq<NodeId>,
                    qh: nat, v: NodeId)
    requires UniqueIds(g.nodes) && n in g.nodes && v in Succs(n) && n.id in before && qh <= |queue| && qh <= |more|
    requires Placed(g, before, queue, qh) && depth == before[v := before[n.id] + Weight(n)] && v != g.entry
    requires v in before ==> before[v] == before[n.id] + Weight(n)
    requires Done(more, qh) == Done(queue, qh) && (more == queue || more == queue + [v])
    ensures Placed(g, depth, more, qh)
  {
    ForcedExtends(g, before, depth, n, v);
    hide UniqueIds, Forced, Edge, Done, Succs;
  }

  /** One edge: settle the successor's depth and release it once its last edge is accounted for. */
  method RelaxEdge(g: IrGraph, n: Node, depth0: Depths, indeg0: map<NodeId, nat>, queue0: seq<NodeId>, ghost qh: nat,
                   s: nat)
    returns (depth: Depths, indeg: map<NodeId, nat>, queue: seq<NodeId>)
    requires UniqueIds(g.nodes) && n in g.nodes && (forall u, v :: Edge(g, u, v) ==> v in Ids(g.nodes) && v != g.entry)
    requires Between(g, n, depth0, indeg0, queue0, qh, s) && s < |Succs(n)|
    requires Succs(n)[s] in depth0 ==> depth0[Succs(n)[s]] == depth0[n.id] + Weight(n)
    ensures Between(g, n, depth, indeg, queue, qh, s + 1)
  {
    var v := Succs(n)[s];
    EdgeOf(g, n, v);
    NotDoneYet(g, queue0, qh);
    hide Remaining, UniqueIds, Forced, Front, Done, Count, Placed;
    EdgeCounts(g, n, indeg0, Done(queue0, qh), s);
    depth := depth0[v := depth0[n.id] + Weight(n)];
    indeg := indeg0[v := indeg0[v] - 1];
    queue := if indeg[v] == 0 then queue0 + [v] else queue0;
    EdgeKept(g, n, depth0, depth, indeg0, indeg, queue0, queue, qh, s);
  }

  lemma TallyKept(g: IrGraph, n: Node, indeg0: map<NodeId, nat>, indeg: map<NodeId, nat>, queue0: seq<NodeId>,
                  queue: seq<NodeId>, qh: nat, s: nat)
    requires UniqueIds(g.nodes) && n in g.nodes && Tally(g, n, indeg0, queue0, qh, s) && s < |Succs(n)|
    requires Succs(n)[s] in Ids(g.nodes) && Succs(n)[s] != g.entry
    requires indeg0[Succs(n)[s]] > 0 && indeg == indeg0[Succs(n)[s] := indeg0[Succs(n)[s]] - 1]
    requires queue == if indeg[Succs(n)[s]] == 0 then queue0 + [Succs(n)[s]] else queue0
    ensures Tally(g, n, indeg, queue, qh, s + 1) && Done(queue, qh) == Done(queue0, qh)
  {
    hide Counted, Released, UniqueIds, Front, Done, Succs, Ids;
    var v := Succs(n)[s];
    NotDoneYet(g, queue0, qh);
    EdgeCounts(g, n, indeg0, Done(queue0, qh), s);
    EdgeMembers(g.entry, indeg0, indeg, queue0, queue, v);
    if indeg[v] == 0 { FrontGrows(g, queue0, qh, v); }
  }

  lemma TallyFits(g: IrGraph, n: Node, indeg: map<NodeId, nat>, queue: seq<NodeId>, qh: nat, s: nat)
    requires Tally(g, n, indeg, queue, qh, s)
    ensures qh < |queue| && s <= |Succs(n)|
  {}

  lemma GivenKept(n: Node, depth: Depths, s: nat)
    requires n.id in depth && s < |Succs(n)| && Given(n, depth, s)
    requires Succs(n)[s] in depth ==> depth[Succs(n)[s]] == depth[n.id] + Weight(n)
    ensures Given(n, depth[Succs(n)[s] := depth[n.id] + Weight(n)], s + 1)
  {}

  lemma EdgeKept(g: IrGraph, n: Node, depth0: Depths, depth: Depths, indeg0: map<NodeId, nat>, indeg: map<NodeId, nat>,
                 queue0: seq<NodeId>, queue: seq<NodeId>, qh: nat, s: nat)
    requires UniqueIds(g.nodes) && n in g.nodes && Between(g, n, depth0, indeg0, queue0, qh, s) && s < |Succs(n)|
    requires Succs(n)[s] in Ids(g.nodes) && Succs(n)[s] != g.entry
    requires Succs(n)[s] in depth0 ==> depth0[Succs(n)[s]] == depth0[n.id] + Weight(n)
    requires depth == depth0[Succs(n)[s] := depth0[n.id] + Weight(n)]
    requires Succs(n)[s] in indeg0 && indeg0[Succs(n)[s]] > 0 && indeg == indeg0[Succs(n)[s] := indeg0[Succs(n)[s]] - 1]
    requires queue == if indeg[Succs(n)[s]] == 0 then queue0 + [Succs(n)[s]] else queue0
    ensures Between(g, n, depth, indeg, queue, qh, s + 1)
  {
    hide Tally, Remaining, UniqueIds, Done, Succs, Placed, Ids, Given;
    TallyKept(g, n, indeg0, indeg, queue0, queue, qh, s);
    TallyFits(g, n, indeg0, queue0, qh, s);
    TallyFits(g, n, indeg, queue, qh, s + 1);
    GivenKept(n, depth0, s);
    EdgeSettled(g, n, depth0, depth, queue0, queue, qh, Succs(n)[s]);
  }

  /** A node is queued when its last edge is accounted for, and only then. */
  lemma EdgeMembers(entry: NodeId, indeg0: map<NodeId, nat>, indeg: map<NodeId, nat>, queue0: seq<NodeId>,
                    queue: seq<NodeId>, v: NodeId)
    requires v in indeg0 && v != entry && indeg0[v] > 0 && indeg == indeg0[v := indeg0[v] - 1]
    requires queue == if indeg[v] == 0 then queue0 + [v] else queue0
    requires Released(entry, indeg0, queue0)
    ensures v !in queue0 && Released(entry, indeg, queue)
  {}

  lemma NotDoneYet(g: IrGraph, queue: seq<NodeId>, qh: nat)
    requires Front(g, queue, qh) && qh < |queue|
    ensures queue[qh] !in Done(queue, qh)
  {}

  /** The edges out of one dequeued node; not ok when a successor already has another depth. */
  method Relax(g: IrGraph, n: Node, depth0: Depths, indeg0: map<NodeId, nat>, queue0: seq<NodeId>, ghost qh: nat)
    returns (ok: bool, depth: Depths, indeg: map<NodeId, nat>, queue: seq<NodeId>)
    requires UniqueIds(g.nodes) && n in g.nodes && (forall u, v :: Edge(g, u, v) ==> v in Ids(g.nodes) && v != g.entry)
    requires Kahn(g, depth0, indeg0, queue0, qh) && qh < |queue0| && queue0[qh] == n.id
    ensures ok ==> Kahn(g, depth, indeg, queue, qh + 1)
    ensures !ok ==> forall d :: !Uniform(g, d)
  {
    hide Kahn, Between, UniqueIds;
    depth, indeg, queue := depth0, indeg0, queue0;
    BetweenBegins(g, n, depth, indeg, queue, qh);
    var succs := Succs(n);
    for s := 0 to |succs|
      invariant Between(g, n, depth, indeg, queue, qh, s)
    {
      BetweenDepths(g, n, depth, indeg, queue, qh, s);
      if succs[s] in depth && depth[succs[s]] != depth[n.id] + Weight(n) {
        Clash(g, depth, n, succs[s]);
        ok := false;
        return;
      }
      depth, indeg, queue := RelaxEdge(g, n, depth, indeg, queue, qh, s);
    }
    BetweenEnds(g, n, depth, indeg, queue, qh);
    ok := true;
  }

  lemma BetweenDepths(g: IrGraph, n: Node, depth: Depths, indeg: map<NodeId, nat>, queue: seq<NodeId>, qh: nat, s: nat)
    requires Between(g, n, depth, indeg, queue, qh, s)
    ensures n.id in depth && Forced(g, depth)
  {}

  lemma Clash(g: IrGraph, depth: Depths, n: Node, v: NodeId)
    requires UniqueIds(g.nodes) && n in g.nodes && Forced(g, depth) && n.id in depth && v in depth && v in Succs(n)
    requires depth[v] != depth[n.id] + Weight(n)
    ensures forall d :: !Uniform(g, d)
  {
    FindId(g.nodes, n);
    forall d: Depths ensures !Uniform(g, d) {
      if Uniform(g, d) { assert Edge(g, n.id, v); }
    }
  }

  lemma ForcedExtends(g: IrGraph, before: Depths, depth: Depths, n: Node, v: NodeId)
    requires UniqueIds(g.nodes) && n in g.nodes && n.id in before && v in Succs(n) && Forced(g, before)
    requires depth == before[v := before[n.id] + Weight(n)]
    ensures Forced(g, depth)
  {
    FindId(g.nodes, n);
    forall d: Depths | Uniform(g, d) ensures forall w :: w in depth ==> w in d && d[w] == depth[w] {
      assert Edge(g, n.id, v);
    }
  }

  /** Per-node depths by Kahn's order from the entry. On a validated graph they exist exactly when
    * all paths to every node agree, and then they are that common count. */
  method NodeDepths(g: IrGraph, ghost rank: map<NodeId, nat>) returns (r: Option<Depths>)
    requires Validated(g, rank)
    ensures r.Some? ==> Uniform(g, r.value) && Forced(g, r.value)
    ensures r.None? ==> forall d :: !Uniform(g, d)
  {
    hide Remaining, Uniform, Forced, Validated, Kahn, UniqueIds, Edge;
    EdgesInside(g, rank);
    var indeg := InDegrees(g);
    var depth: Depths := map[g.entry := 0];
    var queue := [g.entry];
    var qh := 0;
    KahnBegins(g, rank, indeg);
    while qh < |queue|
      invariant Kahn(g, depth, indeg, queue, qh)
      invariant qh <= |queue|
      decreases |Ids(g.nodes)| - qh
    {
      KahnQueue(g, depth, indeg, queue, qh);
      var u := queue[qh];
      var n := Find(g.nodes, u).value;
      var ok;
      ok, depth, indeg, queue := Relax(g, n, depth, indeg, queue, qh);
      if !ok { return None; }
      qh := qh + 1;
      KahnFits(g, depth, indeg, queue, qh);
    }
    KahnEnds(g, rank, depth, indeg, queue, qh);
    return Some(depth);
  }

  lemma EntryNoTarget(g: IrGraph, rank: map<NodeId, nat>, u: NodeId, v: NodeId)
    requires Validated(g, rank) && Edge(g, u, v)
    ensures v != g.entry && u in Ids(g.nodes)
  {
    assert u in Ids(g.nodes);
    if u != g.entry { EntryLowest(g, rank, u); }
  }

  lemma EdgesInside(g: IrGraph, rank: map<NodeId, nat>)
    requires Validated(g, rank)
    ensures UniqueIds(g.nodes) && forall u, v :: Edge(g, u, v) ==> v in Ids(g.nodes) && v != g.entry
  {
    hide UniqueIds;
    forall u, v | Edge(g, u, v) ensures v in Ids(g.nodes) && v != g.entry { EntryNoTarget(g, rank, u, v); }
  }

  lemma KahnBegins(g: IrGraph, rank: map<NodeId, nat>, indeg: map<NodeId, nat>)
    requires Validated(g, rank) && indeg.Keys == Ids(g.nodes)
    requires forall v :: v in indeg ==> indeg[v] == Remaining(g.nodes, {}, v)
    ensures Kahn(g, map[g.entry := 0], indeg, [g.entry], 0)
  {
    hide Remaining;
    var queue := [g.entry];
    assert Done(queue, 0) == {};
    forall v | v in Ids(g.nodes) ensures v in queue <==> v == g.entry || indeg[v] == 0 {
      RemainingMeans(g.nodes, {}, v);
      if v != g.entry {
        var u :| Edge(g, u, v);
        var n := Find(g.nodes, u).value;
        assert n in g.nodes && v in Succs(n);
      }
    }
  }

  lemma KahnQueue(g: IrGraph, depth: Depths, indeg: map<NodeId, nat>, queue: seq<NodeId>, qh: nat)
    requires Kahn(g, depth, indeg, queue, qh) && qh < |queue| && UniqueIds(g.nodes)
    ensures Find(g.nodes, queue[qh]).Some? && Find(g.nodes, queue[qh]).value.id == queue[qh]
    ensures Find(g.nodes, queue[qh]).value in g.nodes
  {
    hide Remaining;
    assert queue[qh] in Ids(g.nodes);
    var n :| n in g.nodes && n.id == queue[qh];
    FindId(g.nodes, n);
  }

  lemma KahnFits(g: IrGraph, depth: Depths, indeg: map<NodeId, nat>, queue: seq<NodeId>, qh: nat)
    requires Kahn(g, depth, indeg, queue, qh)
    ensures qh <= |queue| <= |Ids(g.nodes)|
  {
    hide Remaining;
    DistinctFit(queue, Ids(g.nodes));
  }

  lemma KahnEnds(g: IrGraph, rank: map<NodeId, nat>, depth: Depths, indeg: map<NodeId, nat>, queue: seq<NodeId>,
                 qh: nat)
    requires Validated(g, rank) && Kahn(g, depth, indeg, queue, qh) && qh == |queue|
    ensures Uniform(g, depth) && Forced(g, depth)
  {
    hide Remaining, Forced;
    var finished := Done(queue, qh);
    assert forall v :: v in queue <==> v in finished;
    forall v | v in Ids(g.nodes) ensures v in finished { AllFinished(g, rank, finished, v); }
    forall u, v | Edge(g, u, v) ensures u in finished { assert u in Ids(g.nodes); }
  }

  // ---------------------------------------------------------------- the plan length

  predicate Terminal(n: Node) { n.NReturn? || n.NFail? }

  /** The plan length: all returns at one depth, failures no deeper, and at least one step. When
    * nothing returns it is the deepest failure. */
  ghost predicate PlanLengthIs(g: IrGraph, d: Depths, length: nat) {
    && length >= 1
    && (forall n :: n in g.nodes && Terminal(n) ==>
        n.id in d && (if n.NReturn? then d[n.id] == length else d[n.id] <= length))
    && (exists n :: n in g.nodes && Terminal(n) && n.id in d && d[n.id] == length)
  }

  ghost predicate Accepted(g: IrGraph, length: nat) { exists d: Depths :: Uniform(g, d) && PlanLengthIs(g, d, length) }

  method PlanLength(g: IrGraph, d: Depths) returns (r: Option<nat>)
    requires forall n :: n in g.nodes ==> n.id in d
    ensures forall length: nat :: PlanLengthIs(g, d, length) <==> r == Some(length)
  {
    var ret: Option<nat> := None;
    var deepestFail: Option<nat> := None;
    for i := 0 to |g.nodes|
      invariant ret.Some? <==> exists k :: 0 <= k < i && g.nodes[k].NReturn?
      invariant forall k :: 0 <= k < i && g.nodes[k].NReturn? ==> ret == Some(d[g.nodes[k].id])
      invariant deepestFail.Some? <==> exists k :: 0 <= k < i && g.nodes[k].NFail?
      invariant forall k :: 0 <= k < i && g.nodes[k].NFail? ==> d[g.nodes[k].id] <= deepestFail.value
      invariant deepestFail.Some? ==>
                  exists k :: 0 <= k < i && g.nodes[k].NFail? && d[g.nodes[k].id] == deepestFail.value
    {
      var n := g.nodes[i];
      if n.NReturn? {
        if ret.Some? && ret.value != d[n.id] {
          var k :| 0 <= k < i && g.nodes[k].NReturn?;
          assert g.nodes[k] in g.nodes && n in g.nodes;
          return None;
        }
        ret := Some(d[n.id]);
      }
      if n.NFail? && (deepestFail.None? || d[n.id] > deepestFail.value) { deepestFail := Some(d[n.id]); }
    }
    if ret.None? && deepestFail.None? { return None; }
    var length := if ret.Some? then ret.value else deepestFail.value;
    ghost var w: nat :|
      0 <= w < |g.nodes| && Terminal(g.nodes[w]) && d[g.nodes[w].id] == length;
    assert g.nodes[w] in g.nodes;
    if deepestFail.Some? && deepestFail.value > length {
      var k :| 0 <= k < |g.nodes| && g.nodes[k].NFail? && d[g.nodes[k].id] == deepestFail.value;
      assert g.nodes[k] in g.nodes;
      if ret.Some? {
        var j :| 0 <= j < |g.nodes| && g.nodes[j].NReturn?;
        assert g.nodes[j] in g.nodes;
      }
      return None;
    }
    if length < 1 { return None; }
    return Some(length);
  }

  /** The build gate: it accepts exactly the graphs that have a uniform depth with a plan length,
    * and returns that length. */
  method OpDepth(g: IrGraph, ghost rank: map<NodeId, nat>) returns (r: Option<nat>)
    requires Validated(g, rank)
    ensures forall length: nat :: Accepted(g, length) <==> r == Some(length)
  {
    hide Validated;
    var depths := NodeDepths(g, rank);
    if depths.None? { return None; }
    var d := depths.value;
    assert forall n :: n in g.nodes ==> n.id in d by { IdsGiven(g, d); }
    r := PlanLength(g, d);
    forall length: nat | Accepted(g, length) ensures PlanLengthIs(g, d, length) {
      var e: Depths :| Uniform(g, e) && PlanLengthIs(g, e, length);
      SamePlanLength(g, d, e, length);
    }
  }

  lemma IdsGiven(g: IrGraph, d: Depths)
    requires Uniform(g, d)
    ensures forall n :: n in g.nodes ==> n.id in d
  {
    forall n | n in g.nodes ensures n.id in d { assert n.id in Ids(g.nodes); }
  }

  lemma SamePlanLength(g: IrGraph, d: Depths, e: Depths, length: nat)
    requires Uniform(g, d) && Forced(g, d) && Uniform(g, e) && PlanLengthIs(g, e, length)
    ensures PlanLengthIs(g, d, length)
  {
    IdsGiven(g, d);
    assert forall v :: v in d ==> v in e && e[v] == d[v];
    hide Uniform, Forced;
  }

  // ---------------------------------------------------------------- replay follows edges

  lemma GoesAlongEdge(n: Node, args: Json, settled: Settled, p: Point)
    requires StepNode(n, args, settled, p).Go?
    ensures StepNode(n, args, settled, p).at.cur in Succs(n) && !Terminal(n)
    ensures Weight(n) == 1 ==> n.id in settled
  {
    match n
    case NCase(_, scrutinee, arms, otherwise) =>
      TargetAmong(arms, Eval(scrutinee, args, settled, p.env).value, otherwise);
    case _ =>
  }

  lemma {:induction false} TargetAmong(arms: seq<Arm>, v: Json, otherwise: NodeId)
    ensures Target(arms, v, otherwise) in Targets(arms) + [otherwise]
    decreases |arms|
  {
    if arms != [] {
      if arms[0].lit == v {
        assert Targets(arms)[0] == arms[0].target;
      } else {
        TargetAmong(arms[1..], v, otherwise);
        assert Targets(arms) == [arms[0].target] + Targets(arms[1..]);
      }
    }
  }
}
