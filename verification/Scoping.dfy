/** The structural checks on references: what a node may refer to, and that replay has it. */
module Scoping {
  import opened Options
  import opened Graph
  import opened OpDepth
  import opened Dominance
  import opened Inference
  import opened Typing

  /** The nodes every path to `y` has passed. */
  ghost function Doms(g: IrGraph, y: NodeId): set<NodeId> { set x | x in Ids(g.nodes) && Dominates(g, x, y) }

  predicate ResultNode(n: Node) { n.NOperation? || n.NCall? }

  /** Results come from nodes of `from`; locals are bound by nodes of `from` or are among `extra`. */
  predicate Within(e: Expr, g: IrGraph, from: set<NodeId>, extra: set<string>)
    decreases e
  {
    match e
    case EResult(node, _) => node in from && Find(g.nodes, node).Some? && ResultNode(Find(g.nodes, node).value)
    case ELocal(name, _) => name in extra || BoundWithin(g, from, name)
    case EObject(fields) => forall f :: f in fields ==> Within(f.value, g, from, extra)
    case EArray(elems) => forall x :: x in elems ==> Within(x, g, from, extra)
    case _ => true
  }

  predicate BoundWithin(g: IrGraph, from: set<NodeId>, name: string) {
    exists b :: b in g.nodes && b.id in from && Binder(b) == Some(name)
  }

  function LoopNames(l: Loop): set<string> { {l.elem} + (if l.kind.LFold? then {l.acc} else {}) }

  ghost predicate ScopedLoop(id: NodeId, l: Loop, g: IrGraph) {
    && l.elem != l.acc
    && (forall b :: b in g.nodes ==> Binder(b) != Some(l.elem))
    && (!l.kind.LFold? ==> l.init == EConst(JNull))
    && Within(l.source, g, Doms(g, id), {}) && Within(l.init, g, Doms(g, id), {})
    && Within(l.body, g, Doms(g, id), LoopNames(l))
  }

  /** A merge has exactly one source for each predecessor, in that predecessor's scope. */
  ghost predicate ScopedMerge(id: NodeId, sources: seq<Source>, g: IrGraph) {
    && (exists p :: Edge(g, p, id))
    && (forall s :: s in sources ==> Edge(g, s.from, id) && Within(s.value, g, Doms(g, s.from) + {s.from}, {}))
    && (forall i, j :: 0 <= i < j < |sources| ==> sources[i].from != sources[j].from)
    && (forall p :: Edge(g, p, id) ==> exists s :: s in sources && s.from == p)
  }

  ghost predicate ScopedNode(n: Node, g: IrGraph) {
    match n
    case NOperation(id, _, input, _) => Within(input, g, Doms(g, id), {})
    case NCall(id, _, _, input, _) => Within(input, g, Doms(g, id), {})
    case NLet(id, _, value, _) => Within(value, g, Doms(g, id), {})
    case NIf(id, cond, _, _) => Within(cond, g, Doms(g, id), {})
    case NCase(id, scrutinee, _, _) => Within(scrutinee, g, Doms(g, id), {})
    case NReturn(id, value) => Within(value, g, Doms(g, id), {})
    case NFail(id, reason) => Within(reason, g, Doms(g, id), {}) && (reason.EConst? ==> reason.value.JStr?)
    case NLoop(id, loop, _) => ScopedLoop(id, loop, g)
    case NMerge(id, _, sources, _) => ScopedMerge(id, sources, g)
  }

  /** Local names are bound once in the whole graph. */
  ghost predicate UniqueBinders(g: IrGraph) {
    forall m, n :: m in g.nodes && n in g.nodes && Binder(m).Some? && Binder(m) == Binder(n) ==> m == n
  }

  ghost predicate Scoped(g: IrGraph) { UniqueBinders(g) && forall n :: n in g.nodes ==> ScopedNode(n, g) }

  // ---------------------------------------------------------------- paths

  lemma PathLonger(g: IrGraph, p: seq<NodeId>, v: NodeId)
    requires Path(g, p) && Edge(g, p[|p| - 1], v)
    ensures PathTo(g, p + [v], v)
  {
    hide Edge;
  }

  lemma {:induction false} PathExists(g: IrGraph, rank: map<NodeId, nat>, v: NodeId) returns (p: seq<NodeId>)
    requires Validated(g, rank) && v in Ids(g.nodes)
    ensures PathTo(g, p, v)
    decreases rank[v]
  {
    if v == g.entry {
      p := [v];
    } else {
      var u :| Edge(g, u, v);
      assert u in Ids(g.nodes);
      p := PathExists(g, rank, u);
      PathLonger(g, p, v);
      p := p + [v];
    }
  }

  /** Along a path the ranking ascends. */
  lemma {:induction false} PathAscends(g: IrGraph, rank: map<NodeId, nat>, p: seq<NodeId>, i: nat, j: nat)
    requires Validated(g, rank) && Path(g, p) && i < j < |p|
    ensures p[i] in rank && p[j] in rank && rank[p[i]] < rank[p[j]]
    decreases j
  {
    assert Edge(g, p[j - 1], p[j - 1 + 1]);
    if i < j - 1 { PathAscends(g, rank, p, i, j - 1); }
  }

  lemma {:induction false} PathInside(g: IrGraph, rank: map<NodeId, nat>, p: seq<NodeId>, i: nat)
    requires Validated(g, rank) && Path(g, p) && i < |p|
    ensures p[i] in Ids(g.nodes)
  {
    if i > 0 { assert Edge(g, p[i - 1], p[i - 1 + 1]); }
  }

  /** A path visits no node twice, so it is no longer than the graph. */
  lemma PathFits(g: IrGraph, rank: map<NodeId, nat>, p: seq<NodeId>)
    requires Validated(g, rank) && Path(g, p)
    ensures |p| <= |g.nodes|
  {
    forall i, j | 0 <= i < j < |p| ensures p[i] != p[j] { PathAscends(g, rank, p, i, j); }
    forall i | 0 <= i < |p| ensures p[i] in Ids(g.nodes) { PathInside(g, rank, p, i); }
    DistinctFit(p, Ids(g.nodes));
    IdsFit(g.nodes);
  }

  lemma {:induction false} IdsFit(nodes: seq<Node>)
    ensures |Ids(nodes)| <= |nodes|
    decreases |nodes|
  {
    if nodes != [] {
      IdsFit(nodes[..|nodes| - 1]);
      assert nodes == nodes[..|nodes| - 1] + [nodes[|nodes| - 1]];
      assert Ids(nodes) == Ids(nodes[..|nodes| - 1]) + {nodes[|nodes| - 1].id};
    }
  }

  lemma DominatorRanksLower(g: IrGraph, rank: map<NodeId, nat>, x: NodeId, y: NodeId)
    requires Validated(g, rank) && Dominates(g, x, y) && y in Ids(g.nodes)
    ensures x in rank && rank[x] < rank[y]
  {
    var p := PathExists(g, rank, y);
    assert x in p;
    var i :| 0 <= i < |p| && p[i] == x;
    PathAscends(g, rank, p, i, |p| - 1);
  }

  // ---------------------------------------------------------------- what replay has

  /** The results and locals of these nodes are there. */
  ghost predicate Provides(g: IrGraph, from: set<NodeId>, settled: Settled, env: Env) {
    forall b :: b in g.nodes && b.id in from ==>
      && (ResultNode(b) ==> b.id in settled)
      && (Binder(b).Some? ==> Lookup(env, Binder(b).value).Some?)
  }

  lemma {:induction false} RefersWithin(e: Expr, g: IrGraph, from: set<NodeId>, extra: set<string>, settled: Settled,
                                        env: Env)
    requires Within(e, g, from, extra) && Provides(g, from, settled, env)
    requires forall x :: x in extra ==> Lookup(env, x).Some?
    ensures Refers(e, settled, env)
    decreases e
  {
    match e
    case EObject(fields) =>
      forall f | f in fields ensures Refers(f.value, settled, env) {
        RefersWithin(f.value, g, from, extra, settled, env);
      }
    case EArray(elems) =>
      forall x | x in elems ensures Refers(x, settled, env) { RefersWithin(x, g, from, extra, settled, env); }
    case _ =>
  }
}
