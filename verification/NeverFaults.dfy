/** Type soundness of replay: a graph the build accepts, and whose remaining gaps are closed, never
  * faults, and dispatches and returns only values of the declared types. */
module NeverFaults {
  import opened Options
  import opened Graph
  import opened OpDepth
  import opened Dominance
  import opened Resume
  import opened Types
  import opened Inference
  import opened Typing
  import opened Scoping

  // ---------------------------------------------------------------- what the build checks

  function Positions(order: seq<Node>): map<NodeId, nat> {
    if order == [] then map[] else Positions(order[..|order| - 1])[order[|order| - 1].id := |order| - 1]
  }

  /** The nodes, each once, in an order that every edge ascends. */
  ghost predicate Topological(g: IrGraph, order: seq<Node>) {
    && (forall n :: n in order <==> n in g.nodes)
    && UniqueIds(order)
    && Validated(g, Positions(order))
  }

  /** A declared return type is an object type, and no path may fall through to the unit value. */
  predicate ReturnsExplicitly(g: IrGraph, sig: Signature) {
    sig.ret.Some? ==> sig.ret.value.TObject? && forall n :: n in g.nodes && n.NReturn? ==> n.value != EConst(JNull)
  }

  ghost predicate Admitted(g: IrGraph, order: seq<Node>, sig: Signature) {
    Topological(g, order) && Scoped(g) && CheckAll(order, g, sig).Some? && ReturnsExplicitly(g, sig)
  }

  /** A graph that passes every gate of the build: arguments are an object, references and types check,
    * and all paths run the same number of operations, at least one. */
  ghost predicate Built(g: IrGraph, order: seq<Node>, sig: Signature, length: nat) {
    sig.arg.TObject? && Admitted(g, order, sig) && OpDepth.Accepted(g, length)
  }

  // ---------------------------------------------------------------- what it leaves open

  predicate Plain(e: Expr, g: IrGraph, sig: Signature, scope: Scope) { Solid(e, g, sig, scope) && SizedExpr(e) }

  /** The conditions the build does not check: every operation typed and every call resolved, every
    * projection along required fields, number literals in range, loops over typed sources, no fold
    * from `null`, and reasons of known type. */
  predicate TightNode(n: Node, g: IrGraph, sig: Signature, scope: Scope) {
    match n
    case NOperation(_, operation, input, _) =>
      && operation in sig.ops && sig.ops[operation].input.Some? && sig.ops[operation].result.Some?
      && Plain(input, g, sig, scope)
    case NCall(_, _, _, input, _) => sig.targets.Some? && Plain(input, g, sig, scope)
    case NLet(_, _, value, _) => Plain(value, g, sig, scope)
    case NIf(_, cond, _, _) => Plain(cond, g, sig, scope)
    case NCase(_, scrutinee, _, _) => Plain(scrutinee, g, sig, scope)
    case NReturn(_, value) => Plain(value, g, sig, scope)
    case NFail(_, reason) => Plain(reason, g, sig, scope) && Infer(reason, g, sig, scope).Known?
    case NMerge(_, _, sources, _) => forall s :: s in sources ==> Plain(s.value, g, sig, scope)
    case NLoop(_, l, _) =>
      && Plain(l.source, g, sig, scope) && Infer(l.source, g, sig, scope).Known?
      && (l.kind.LFold? ==> Plain(l.init, g, sig, scope) && Infer(l.init, g, sig, scope) != Known(TNull))
      && Plain(l.body, g, sig, BodyScope(l, g, sig, scope))
  }

  ghost predicate Tight(g: IrGraph, order: seq<Node>, sig: Signature)
    requires CheckAll(order, g, sig).Some?
  {
    forall k :: 0 <= k < |order| ==>
      && CheckAll(order[..k], g, sig).Some?
      && TightNode(order[k], g, sig, CheckAll(order[..k], g, sig).value)
  }

  // ---------------------------------------------------------------- scope tables

  lemma {:induction false} PositionOf(order: seq<Node>, i: nat)
    requires UniqueIds(order) && i < |order|
    ensures order[i].id in Positions(order) && Positions(order)[order[i].id] == i
    decreases |order|
  {
    if i < |order| - 1 {
      PositionOf(order[..|order| - 1], i);
      assert order[i].id != order[|order| - 1].id;
    }
  }

  /** A longer prefix accepted means the shorter one was, with a scope that it extends. */
  lemma {:induction false} ScopeGrows(order: seq<Node>, k: nat, g: IrGraph, sig: Signature)
    requires k <= |order| && CheckAll(order, g, sig).Some?
    ensures CheckAll(order[..k], g, sig).Some?
    ensures CheckAll(order[..k], g, sig).value <= CheckAll(order, g, sig).value
    decreases |order|
  {
    if k == |order| {
      assert order[..k] == order;
    } else {
      var init := order[..|order| - 1];
      assert order[..k] == init[..k];
      ScopeGrows(init, k, g, sig);
    }
  }

  lemma ScopeStep(order: seq<Node>, k: nat, g: IrGraph, sig: Signature)
    requires k < |order| && CheckAll(order, g, sig).Some?
    ensures CheckAll(order[..k], g, sig).Some? && CheckAll(order[..k + 1], g, sig).Some?
    ensures NodeAccepted(order[k], g, sig, CheckAll(order[..k], g, sig).value)
    ensures CheckAll(order[..k + 1], g, sig).value == Bind(order[k], g, sig, CheckAll(order[..k], g, sig).value)
    ensures CheckAll(order[..k], g, sig).value <= CheckAll(order, g, sig).value
    ensures CheckAll(order[..k + 1], g, sig).value <= CheckAll(order, g, sig).value
  {
    ScopeGrows(order, k, g, sig);
    ScopeGrows(order, k + 1, g, sig);
    assert order[..k + 1][..k] == order[..k];
  }

  lemma {:induction false} BoundPrefix(a: Scope, b: Scope, x: string)
    requires a <= b && Bound(a, x).Some?
    ensures Bound(b, x) == Bound(a, x)
    decreases |a|
  {
    if a[0].name != x { BoundPrefix(a[1..], b[1..], x); }
  }

  /** The table after `k` nodes has exactly the names those nodes bind. */
  lemma {:induction false} ScopeNames(order: seq<Node>, k: nat, g: IrGraph, sig: Signature, x: string)
    requires k <= |order| && CheckAll(order, g, sig).Some?
    ensures CheckAll(order[..k], g, sig).Some?
    ensures Bound(CheckAll(order[..k], g, sig).value, x).Some? <==>
              exists i :: 0 <= i < k && Binder(order[i]) == Some(x)
    decreases k
  {
    hide Bind, Bound, Binder, NodeAccepted;
    if k == 0 {
      NoBinding(x);
    } else {
      ScopeNames(order, k - 1, g, sig, x);
      ScopeStep(order, k - 1, g, sig);
      BindNames(order[k - 1], g, sig, CheckAll(order[..k - 1], g, sig).value, x);
    }
  }

  lemma NoBinding(x: string)
    ensures Bound([], x).None?
  {}

  lemma BindNames(n: Node, g: IrGraph, sig: Signature, scope: Scope, x: string)
    ensures Bound(Bind(n, g, sig, scope), x).Some? <==> Bound(scope, x).Some? || Binder(n) == Some(x)
  {
    hide Bound, BinderType, LiteralOf;
    if Binder(n).Some? { BoundAppend(scope, Bind(n, g, sig, scope)[|scope|], x); }
  }

  // ---------------------------------------------------------------- nothing is untyped

  /** What the expression refers to has a type or is an imprecise literal. */
  predicate Sourced(e: Expr, g: IrGraph, sig: Signature, scope: Scope)
    decreases e
  {
    match e
    case EResult(node, _) => !ResultType(g, sig, node).Unknown?
    case ELocal(name, _) => Bound(scope, name).Some? && !Bound(scope, name).value.ty.Unknown?
    case EObject(fields) => forall f :: f in fields ==> Sourced(f.value, g, sig, scope)
    case EArray(elems) => forall x :: x in elems ==> Sourced(x, g, sig, scope)
    case _ => true
  }

  lemma {:induction false} KnownParts(es: seq<Expr>, g: IrGraph, sig: Signature, scope: Scope)
    requires forall x :: x in es ==> !Infer(x, g, sig, scope).Unknown?
    ensures var p := InferAll(es, g, sig, scope);
            !p.unknown && (es != [] && p.first.None? ==> p.imprecise || p.rejected)
    decreases es
  {
    if es != [] { KnownParts(es[..|es| - 1], g, sig, scope); }
  }

  lemma {:induction false} SourcedKnown(e: Expr, g: IrGraph, sig: Signature, scope: Scope)
    requires Sourced(e, g, sig, scope)
    ensures !Infer(e, g, sig, scope).Unknown?
    decreases e
  {
    match e
    case EObject(fields) => SourcedFields(fields, g, sig, scope);
    case EArray(elems) =>
      forall x | x in elems ensures !Infer(x, g, sig, scope).Unknown? { SourcedKnown(x, g, sig, scope); }
      KnownParts(elems, g, sig, scope);
    case _ =>
  }

  lemma {:induction false} SourcedFields(fs: seq<Field>, g: IrGraph, sig: Signature, scope: Scope)
    requires forall f :: f in fs ==> Sourced(f.value, g, sig, scope)
    ensures !InferFields(fs, g, sig, scope).Unknown?
    decreases fs
  {
    if fs != [] {
      SourcedFields(fs[..|fs| - 1], g, sig, scope);
      SourcedKnown(fs[|fs| - 1].value, g, sig, scope);
    }
  }

  ghost predicate NoneUnknown(scope: Scope) { forall b :: b in scope ==> !b.ty.Unknown? }

  lemma {:induction false} SourcedWithin(e: Expr, g: IrGraph, sig: Signature, scope: Scope, from: set<NodeId>,
                                         extra: set<string>)
    requires Within(e, g, from, extra) && NoneUnknown(scope)
    requires forall n :: n in g.nodes && n.id in from && ResultNode(n) ==> !ResultType(g, sig, n.id).Unknown?
    requires forall n :: n in g.nodes && n.id in from && Binder(n).Some? ==> Bound(scope, Binder(n).value).Some?
    requires forall x :: x in extra ==> Bound(scope, x).Some?
    ensures Sourced(e, g, sig, scope)
    decreases e
  {
    match e
    case EObject(fields) =>
      forall f | f in fields ensures Sourced(f.value, g, sig, scope) {
        SourcedWithin(f.value, g, sig, scope, from, extra);
      }
    case EArray(elems) =>
      forall x | x in elems ensures Sourced(x, g, sig, scope) { SourcedWithin(x, g, sig, scope, from, extra); }
    case _ =>
  }

  /** Every expression of the node has a known type or is an imprecise literal. */
  ghost predicate NodeKnown(n: Node, g: IrGraph, sig: Signature, scope: Scope) {
    match n
    case NOperation(_, _, input, _) => !Infer(input, g, sig, scope).Unknown?
    case NCall(_, _, _, input, _) => !Infer(input, g, sig, scope).Unknown?
    case NLet(_, _, value, _) => !Infer(value, g, sig, scope).Unknown?
    case NIf(_, cond, _, _) => !Infer(cond, g, sig, scope).Unknown?
    case NCase(_, scrutinee, _, _) => !Infer(scrutinee, g, sig, scope).Unknown?
    case NReturn(_, value) => !Infer(value, g, sig, scope).Unknown?
    case NFail(_, reason) => !Infer(reason, g, sig, scope).Unknown?
    case NMerge(_, _, sources, _) =>
      !MergeType(sources, g, sig, scope).Unknown?
      && forall s :: s in sources ==> !Infer(s.value, g, sig, scope).Unknown?
    case NLoop(_, l, _) =>
      && (l.kind.LFold? ==> !Infer(l.init, g, sig, scope).Unknown?)
      && !Infer(l.body, g, sig, BodyScope(l, g, sig, scope)).Unknown?
  }

  /** These nodes come before position `k`, and their results and locals are typed there. */
  ghost predicate TypedFrom(g: IrGraph, sig: Signature, scope: Scope, from: set<NodeId>) {
    forall n :: n in g.nodes && n.id in from ==>
      && (ResultNode(n) ==> !ResultType(g, sig, n.id).Unknown?)
      && (Binder(n).Some? ==> Bound(scope, Binder(n).value).Some?)
  }

  lemma KnownWithin(e: Expr, g: IrGraph, sig: Signature, scope: Scope, from: set<NodeId>)
    requires Within(e, g, from, {}) && NoneUnknown(scope) && TypedFrom(g, sig, scope, from)
    ensures !Infer(e, g, sig, scope).Unknown?
  {
    SourcedWithin(e, g, sig, scope, from, {});
    SourcedKnown(e, g, sig, scope);
  }

  lemma ResultsTyped(g: IrGraph, order: seq<Node>, sig: Signature, n: Node)
    requires Admitted(g, order, sig) && Tight(g, order, sig) && n in g.nodes && ResultNode(n)
    ensures !ResultType(g, sig, n.id).Unknown?
  {
    hide Scoped, CheckAll, NodeAccepted;
    FindId(g.nodes, n);
    var i :| 0 <= i < |order| && order[i] == n;
    assert TightNode(order[i], g, sig, CheckAll(order[..i], g, sig).value);
  }

  lemma BeforeTyped(g: IrGraph, order: seq<Node>, sig: Signature, k: nat, from: set<NodeId>)
    requires Admitted(g, order, sig) && Tight(g, order, sig) && k <= |order| && CheckAll(order[..k], g, sig).Some?
    requires forall n :: n in g.nodes && n.id in from ==> n in order[..k]
    ensures TypedFrom(g, sig, CheckAll(order[..k], g, sig).value, from)
  {
    hide Scoped, CheckAll, Tight, Topological;
    var scope := CheckAll(order[..k], g, sig).value;
    forall n | n in g.nodes && n.id in from
      ensures ResultNode(n) ==> !ResultType(g, sig, n.id).Unknown?
      ensures Binder(n).Some? ==> Bound(scope, Binder(n).value).Some?
    {
      if ResultNode(n) { ResultsTyped(g, order, sig, n); }
      if Binder(n).Some? {
        var i :| 0 <= i < k && order[i] == n;
        ScopeNames(order, k, g, sig, Binder(n).value);
      }
    }
  }

  /** A node of lower position is in the prefix. */
  lemma InPrefix(g: IrGraph, order: seq<Node>, k: nat, n: Node)
    requires Topological(g, order) && k < |order| && n in g.nodes
    requires n.id in Positions(order) && order[k].id in Positions(order)
    requires Positions(order)[n.id] < Positions(order)[order[k].id]
    ensures n in order[..k]
  {
    hide Validated;
    var i :| 0 <= i < |order| && order[i] == n;
    PositionOf(order, i);
    PositionOf(order, k);
    assert order[..k][i] == n;
  }

  lemma DomsBefore(g: IrGraph, order: seq<Node>, k: nat, n: Node)
    requires Topological(g, order) && k < |order| && n in g.nodes && n.id in Doms(g, order[k].id)
    ensures n in order[..k]
  {
    hide Dominates, Validated;
    PositionOf(order, k);
    assert order[k].id in Ids(g.nodes);
    DominatorRanksLower(g, Positions(order), n.id, order[k].id);
    InPrefix(g, order, k, n);
  }

  lemma PredBefore(g: IrGraph, order: seq<Node>, k: nat, p: NodeId, n: Node)
    requires Topological(g, order) && k < |order| && n in g.nodes && Edge(g, p, order[k].id)
    requires n.id == p || n.id in Doms(g, p)
    ensures n in order[..k]
  {
    hide Dominates, Succs, UniqueIds;
    assert p in Positions(order) && Positions(order)[p] < Positions(order)[order[k].id] by { hide Positions; }
    assert p in Ids(g.nodes);
    if n.id != p { DominatorRanksLower(g, Positions(order), n.id, p); }
    InPrefix(g, order, k, n);
  }

  lemma ScopedAt(g: IrGraph, order: seq<Node>, sig: Signature, k: nat)
    requires Admitted(g, order, sig) && k < |order|
    ensures order[k] in g.nodes && ScopedNode(order[k], g)
  {
    hide ScopedNode, Validated, CheckAll;
  }

  lemma TightAt(g: IrGraph, order: seq<Node>, sig: Signature, k: nat)
    requires Admitted(g, order, sig) && Tight(g, order, sig) && k < |order|
    ensures CheckAll(order[..k], g, sig).Some? && TightNode(order[k], g, sig, CheckAll(order[..k], g, sig).value)
  {
    hide TightNode, CheckAll;
  }

  lemma DomsTyped(g: IrGraph, order: seq<Node>, sig: Signature, k: nat)
    requires Admitted(g, order, sig) && Tight(g, order, sig) && k < |order| && CheckAll(order[..k], g, sig).Some?
    ensures TypedFrom(g, sig, CheckAll(order[..k], g, sig).value, Doms(g, order[k].id))
  {
    hide Scoped, CheckAll, Tight, Topological, TypedFrom, Doms;
    forall n | n in g.nodes && n.id in Doms(g, order[k].id) ensures n in order[..k] { DomsBefore(g, order, k, n); }
    BeforeTyped(g, order, sig, k, Doms(g, order[k].id));
  }

  lemma PredTyped(g: IrGraph, order: seq<Node>, sig: Signature, k: nat, p: NodeId)
    requires Admitted(g, order, sig) && Tight(g, order, sig) && k < |order| && CheckAll(order[..k], g, sig).Some?
    requires Edge(g, p, order[k].id)
    ensures TypedFrom(g, sig, CheckAll(order[..k], g, sig).value, Doms(g, p) + {p})
  {
    hide Scoped, CheckAll, Tight, Topological, TypedFrom, Doms, Edge;
    forall n | n in g.nodes && n.id in Doms(g, p) + {p} ensures n in order[..k] { PredBefore(g, order, k, p, n); }
    BeforeTyped(g, order, sig, k, Doms(g, p) + {p});
  }

  lemma MergeKnown(id: NodeId, sources: seq<Source>, g: IrGraph, sig: Signature, scope: Scope)
    requires ScopedMerge(id, sources, g) && NoneUnknown(scope)
    requires forall p :: Edge(g, p, id) ==> TypedFrom(g, sig, scope, Doms(g, p) + {p})
    ensures !MergeType(sources, g, sig, scope).Unknown?
    ensures forall s :: s in sources ==> !Infer(s.value, g, sig, scope).Unknown?
  {
    hide Within, Edge, Doms, NoneUnknown, TypedFrom, Infer, InferAll;
    forall x | x in Values(sources) ensures !Infer(x, g, sig, scope).Unknown? {
      var i :| 0 <= i < |sources| && Values(sources)[i] == x;
      assert sources[i] in sources;
      KnownWithin(x, g, sig, scope, Doms(g, sources[i].from) + {sources[i].from});
    }
    forall s | s in sources ensures s.value in Values(sources) {
      var i :| 0 <= i < |sources| && sources[i] == s;
      assert Values(sources)[i] == s.value;
    }
    KnownParts(Values(sources), g, sig, scope);
  }

  lemma LoopKnown(id: NodeId, l: Loop, g: IrGraph, sig: Signature, scope: Scope)
    requires ScopedLoop(id, l, g) && NoneUnknown(scope) && TypedFrom(g, sig, scope, Doms(g, id))
    requires Infer(l.source, g, sig, scope).Known? && !LoopType(l, g, sig, scope).Rejected?
    ensures l.kind.LFold? ==> !Infer(l.init, g, sig, scope).Unknown?
    ensures !Infer(l.body, g, sig, BodyScope(l, g, sig, scope)).Unknown?
  {
    hide Within, Doms, Infer, Bound;
    KnownWithin(l.init, g, sig, scope, Doms(g, id));
    var body := BodyScope(l, g, sig, scope);
    var elem := body[|scope|];
    assert |body| >= |scope| + 1 && body[..|scope|] == scope;
    assert NoneUnknown(body) by {
      forall b | b in body ensures !b.ty.Unknown? {
        var i :| 0 <= i < |body| && body[i] == b;
        if i < |scope| { assert b in scope; }
      }
    }
    forall x ensures Bound(scope, x).Some? || x in LoopNames(l) ==> Bound(body, x).Some? {
      BoundAppend(scope, elem, x);
      if l.kind.LFold? {
        BoundAppend(scope + [elem], body[|scope| + 1], x);
        assert body == scope + [elem] + [body[|scope| + 1]];
      } else {
        assert body == scope + [elem];
      }
    }
    SourcedWithin(l.body, g, sig, body, Doms(g, id), LoopNames(l));
    SourcedKnown(l.body, g, sig, body);
  }

  lemma NodeSourced(g: IrGraph, order: seq<Node>, sig: Signature, k: nat)
    requires Admitted(g, order, sig) && Tight(g, order, sig) && k < |order|
    requires CheckAll(order[..k], g, sig).Some? && NoneUnknown(CheckAll(order[..k], g, sig).value)
    ensures NodeKnown(order[k], g, sig, CheckAll(order[..k], g, sig).value)
  {
    hide Admitted, Tight, CheckAll, TypedFrom, Doms, Infer, Within, Edge, NoneUnknown, LoopType, MergeType,
      BodyScope, Plain,
         Binder, HasType;
    var scope := CheckAll(order[..k], g, sig).value;
    ScopedAt(g, order, sig, k);
    AcceptedAt(g, order, sig, k);
    TightAt(g, order, sig, k);
    DomsTyped(g, order, sig, k);
    match order[k]
    case NLoop(id, l, _) => LoopKnown(id, l, g, sig, scope);
    case NMerge(id, _, sources, _) =>
      forall p | Edge(g, p, id) ensures TypedFrom(g, sig, scope, Doms(g, p) + {p}) { PredTyped(g, order, sig, k, p); }
      MergeKnown(id, sources, g, sig, scope);
    case NOperation(id, _, e, _) => KnownWithin(e, g, sig, scope, Doms(g, id));
    case NCall(id, _, _, e, _) => KnownWithin(e, g, sig, scope, Doms(g, id));
    case NLet(id, _, e, _) => KnownWithin(e, g, sig, scope, Doms(g, id));
    case NIf(id, e, _, _) => KnownWithin(e, g, sig, scope, Doms(g, id));
    case NCase(id, e, _, _) => KnownWithin(e, g, sig, scope, Doms(g, id));
    case NReturn(id, e) => KnownWithin(e, g, sig, scope, Doms(g, id));
    case NFail(id, e) => KnownWithin(e, g, sig, scope, Doms(g, id));
  }

  lemma AcceptedAt(g: IrGraph, order: seq<Node>, sig: Signature, k: nat)
    requires Admitted(g, order, sig) && k < |order|
    ensures CheckAll(order[..k], g, sig).Some?
    ensures NodeAccepted(order[k], g, sig, CheckAll(order[..k], g, sig).value)
    ensures order[k].NReturn? && sig.ret.Some? ==> order[k].value != EConst(JNull)
  {
    hide Scoped, Validated, CheckAll, NodeAccepted;
    ScopeStep(order, k, g, sig);
    assert order[k] in g.nodes;
  }

  lemma BinderKnown(n: Node, g: IrGraph, sig: Signature, scope: Scope)
    requires NodeKnown(n, g, sig, scope) && TightNode(n, g, sig, scope) && Binder(n).Some?
    ensures !BinderType(n, g, sig, scope).Unknown?
  {
    hide Infer, MergeType, BodyScope, Plain;
  }

  /** No local of an accepted, tight graph is untyped. */
  lemma {:induction false} ScopeKnown(g: IrGraph, order: seq<Node>, sig: Signature, k: nat)
    requires Admitted(g, order, sig) && Tight(g, order, sig) && k <= |order|
    ensures CheckAll(order[..k], g, sig).Some? && NoneUnknown(CheckAll(order[..k], g, sig).value)
    decreases k
  {
    hide Tight, Topological, Scoped, NodeKnown, TightNode, BinderType, NodeAccepted, ReturnsExplicitly;
    if k > 0 {
      ScopeKnown(g, order, sig, k - 1);
      NodeSourced(g, order, sig, k - 1);
      TightAt(g, order, sig, k - 1);
      ScopeStep(order, k - 1, g, sig);
      if Binder(order[k - 1]).Some? { BinderKnown(order[k - 1], g, sig, CheckAll(order[..k - 1], g, sig).value); }
    }
  }

  // ---------------------------------------------------------------- one node

  /** An outcome with values of the declared types, and not a fault. */
  predicate Proper(o: Outcome, sig: Signature) {
    match o
    case NeedOperation(_, operation, input) =>
      operation in sig.ops && sig.ops[operation].input.Some? && Valid(input, sig.ops[operation].input.value)
    case NeedCall(_, child, version, input) =>
      && sig.targets.Some? && Callee(child, version) in sig.targets.value
      && Valid(input, sig.targets.value[Callee(child, version)].arg)
    case Returned(v) => sig.ret.Some? ==> Valid(v, sig.ret.value)
    case Stopped(_, reason) => reason.JStr?
    case Fault => false
  }

  /** What the node at this point refers to is there. */
  ghost predicate NodeRefers(n: Node, scope: Scope, settled: Settled, p: Point) {
    match n
    case NOperation(_, _, e, _) => Refers(e, settled, p.env)
    case NCall(_, _, _, e, _) => Refers(e, settled, p.env)
    case NLet(_, _, e, _) => Refers(e, settled, p.env)
    case NIf(_, e, _, _) => Refers(e, settled, p.env)
    case NCase(_, e, _, _) => Refers(e, settled, p.env)
    case NReturn(_, e) => Refers(e, settled, p.env)
    case NFail(_, e) => Refers(e, settled, p.env)
    case NLoop(_, l, _) => LoopRefers(l, scope, settled, p.env)
    case NMerge(_, _, sources, _) =>
      exists s :: s in sources && Pick(sources, p.prev) == Some(s.value) && Refers(s.value, settled, p.env)
  }

  /** The local table grew by one local of this binding. */
  ghost predicate Extended(env: Env, more: Env, b: Binding) {
    |more| == |env| + 1 && more == env + [Local(b.name, more[|env|].value)] && Fits(more[|env|].value, b)
  }

  /** Processing a node ends properly or moves on, with its local, if any, of the table's type. */
  ghost predicate Runs(n: Node, g: IrGraph, sig: Signature, scope: Scope, p: Point, stride: Stride) {
    match stride
    case Halt(o) => Proper(o, sig)
    case Go(q) =>
      && q.prev == Some(n.id)
      && (Binder(n).None? ==> q.env == p.env)
      && (Binder(n).Some? ==> Extended(p.env, q.env, Bind(n, g, sig, scope)[|scope|]))
  }

  /** A node that binds a local extends the environment by a value of its type. */
  lemma BinderRuns(n: Node, g: IrGraph, sig: Signature, scope: Scope, args: Json, settled: Settled, p: Point)
    requires n.NLet? || n.NLoop? || n.NMerge?
    requires NodeAccepted(n, g, sig, scope) && TightNode(n, g, sig, scope) && NodeKnown(n, g, sig, scope)
    requires World(g, sig, scope, args, settled, p.env) && NodeRefers(n, scope, settled, p)
    ensures Runs(n, g, sig, scope, p, StepNode(n, args, settled, p))
  {
    hide World, Infer, LoopType, MergeType, Refers, HasType, BodyScope, LoopRefers, Eval, EvalLoop, Solid, SizedExpr,
      Valid;
    match n
    case NLet(_, _, e, _) => LetFits(e, g, sig, scope, args, settled, p.env);
    case NLoop(_, l, _) => LoopFits(l, g, sig, scope, args, settled, p.env);
    case NMerge(_, _, sources, _) => MergeFits(sources, g, sig, scope, args, settled, p);
  }

  lemma NodeRuns(n: Node, g: IrGraph, sig: Signature, scope: Scope, args: Json, settled: Settled, p: Point)
    requires NodeAccepted(n, g, sig, scope) && TightNode(n, g, sig, scope) && NodeKnown(n, g, sig, scope)
    requires World(g, sig, scope, args, settled, p.env) && NodeRefers(n, scope, settled, p)
    requires n.NReturn? && sig.ret.Some? ==> n.value != EConst(JNull)
    ensures Runs(n, g, sig, scope, p, StepNode(n, args, settled, p))
  {
    hide World, Infer, LoopType, MergeType, Refers, HasType, BodyScope, LoopRefers, Eval, EvalLoop, Solid, SizedExpr,
      Valid;
    match n
    case NOperation(_, operation, e, _) =>
      HasTypeSound(e, sig.ops[operation].input.value, g, sig, scope, args, settled, p.env);
    case NCall(_, child, version, e, _) =>
      HasTypeSound(e, sig.targets.value[Callee(child, version)].arg, g, sig, scope, args, settled, p.env);
    case NIf(_, e, _, _) =>
      InferSound(e, g, sig, scope, args, settled, p.env);
      IsBool(Eval(e, args, settled, p.env).value);
    case NCase(_, e, _, _) => InferSound(e, g, sig, scope, args, settled, p.env);
    case NReturn(_, e) =>
      InferSound(e, g, sig, scope, args, settled, p.env);
      if sig.ret.Some? { HasTypeSound(e, sig.ret.value, g, sig, scope, args, settled, p.env); }
    case NFail(_, e) =>
      InferSound(e, g, sig, scope, args, settled, p.env);
      IsString(Eval(e, args, settled, p.env).value);
    case _ => BinderRuns(n, g, sig, scope, args, settled, p);
  }

  lemma IsBool(v: Json)
    ensures Valid(v, TBool) ==> v.JBool?
  {}

  lemma IsString(v: Json)
    ensures Valid(v, TString) ==> v.JStr?
  {}

  lemma LetFits(e: Expr, g: IrGraph, sig: Signature, scope: Scope, args: Json, settled: Settled, env: Env)
    requires World(g, sig, scope, args, settled, env) && Refers(e, settled, env) && Plain(e, g, sig, scope)
    ensures Eval(e, args, settled, env).Some?
    ensures forall name :: Fits(Eval(e, args, settled, env).value,
                                Binding(name, Infer(e, g, sig, scope), LiteralOf(e, scope)))
  {
    EvalTotal(e, g, sig, scope, args, settled, env);
    InferSound(e, g, sig, scope, args, settled, env);
  }

  lemma LoopFits(l: Loop, g: IrGraph, sig: Signature, scope: Scope, args: Json, settled: Settled, env: Env)
    requires World(g, sig, scope, args, settled, env) && LoopRefers(l, scope, settled, env)
    requires TightNode(NLoop(0, l, 0), g, sig, scope) && !LoopType(l, g, sig, scope).Rejected?
    requires !Infer(l.body, g, sig, BodyScope(l, g, sig, scope)).Unknown?
    ensures EvalLoop(l, args, settled, env).Some?
    ensures forall name :: Fits(EvalLoop(l, args, settled, env).value, Binding(name, LoopType(l, g, sig, scope), None))
  {
    LoopSound(l, g, sig, scope, args, settled, env);
  }

  lemma MergeFits(sources: seq<Source>, g: IrGraph, sig: Signature, scope: Scope, args: Json, settled: Settled,
                  p: Point)
    requires World(g, sig, scope, args, settled, p.env) && NodeRefers(NMerge(0, "", sources, 0), scope, settled, p)
    requires forall s :: s in sources ==> Plain(s.value, g, sig, scope)
    requires !MergeType(sources, g, sig, scope).Rejected?
    requires forall s :: s in sources ==> !Infer(s.value, g, sig, scope).Unknown?
    ensures Pick(sources, p.prev).Some? && Eval(Pick(sources, p.prev).value, args, settled, p.env).Some?
    ensures forall name :: Fits(Eval(Pick(sources, p.prev).value, args, settled, p.env).value,
                                Binding(name, MergeType(sources, g, sig, scope), None))
  {
    var s :| s in sources && Pick(sources, p.prev) == Some(s.value) && Refers(s.value, settled, p.env);
    InferSound(s.value, g, sig, scope, args, settled, p.env);
    hide World, Refers, Solid, SizedExpr, Eval, Infer, Valid, Pick;
    var i :| 0 <= i < |sources| && sources[i] == s;
    assert Values(sources)[i] == s.value;
    PartAgrees(Values(sources), s.value, g, sig, scope);
  }

  /** Where the parts are of one known type, each known part has that type, and none is untyped
    * unless the whole says so. */
  lemma {:induction false} PartAgrees(es: seq<Expr>, x: Expr, g: IrGraph, sig: Signature, scope: Scope)
    requires x in es
    ensures var p := InferAll(es, g, sig, scope); var t := Infer(x, g, sig, scope);
            && (t.Known? ==> p.clash || p.first == Some(t.ty))
            && (t.Unknown? ==> p.unknown) && (t.Imprecise? ==> p.imprecise) && (t.Rejected? ==> p.rejected)
    decreases es
  {
    hide Infer;
    if es[|es| - 1] != x { PartAgrees(es[..|es| - 1], x, g, sig, scope); }
  }

  // ---------------------------------------------------------------- replay

  function Members(ids: seq<NodeId>): set<NodeId> { set i | 0 <= i < |ids| :: ids[i] }

  /** Where replay stands after visiting these nodes: on a path, with exactly their locals, of the
    * types in the full table, and with their results. */
  ghost predicate At(g: IrGraph, full: Scope, settled: Settled, visited: seq<NodeId>, p: Point) {
    && Path(g, visited + [p.cur])
    && p.prev == (if visited == [] then None else Some(visited[|visited| - 1]))
    && EnvFits(p.env, full)
    && Provides(g, Members(visited), settled, p.env)
    && NamedBy(g, Members(visited), p.env)
  }

  ghost predicate NamedBy(g: IrGraph, from: set<NodeId>, env: Env) {
    forall x :: Lookup(env, x).Some? ==> BoundWithin(g, from, x)
  }

  lemma DomsVisited(g: IrGraph, visited: seq<NodeId>, y: NodeId)
    requires Path(g, visited + [y])
    ensures Doms(g, y) <= Members(visited)
  {
    var p := visited + [y];
    assert PathTo(g, p, y);
    forall x | x in Doms(g, y) ensures x in Members(visited) {
      var i :| 0 <= i < |p| && p[i] == x;
      assert visited[i] == x;
    }
  }

  lemma ProvidesFewer(g: IrGraph, few: set<NodeId>, many: set<NodeId>, settled: Settled, env: Env)
    requires Provides(g, many, settled, env) && few <= many
    ensures Provides(g, few, settled, env)
  {}

  lemma ExprAt(e: Expr, g: IrGraph, full: Scope, settled: Settled, visited: seq<NodeId>, p: Point)
    requires At(g, full, settled, visited, p) && Within(e, g, Doms(g, p.cur), {})
    ensures Refers(e, settled, p.env)
  {
    hide Within, Doms, Provides, Members, Path;
    DomsVisited(g, visited, p.cur);
    ProvidesFewer(g, Doms(g, p.cur), Members(visited), settled, p.env);
    RefersWithin(e, g, Doms(g, p.cur), {}, settled, p.env);
  }

  /** A local the node at this point binds is new. */
  lemma FreshAt(g: IrGraph, order: seq<Node>, sig: Signature, k: nat, settled: Settled, visited: seq<NodeId>,
                p: Point, x: string)
    requires Admitted(g, order, sig) && k < |order| && order[k].id == p.cur && CheckAll(order[..k], g, sig).Some?
    requires At(g, CheckAll(order, g, sig).value, settled, visited, p)
    requires forall b :: b in g.nodes && Binder(b) == Some(x) ==> b == order[k]
    ensures Bound(CheckAll(order[..k], g, sig).value, x).None? && Lookup(p.env, x).None?
  {
    hide ScopedNode, CheckAll, Lookup, Bound, EnvFits, Provides;
    ScopeNames(order, k, g, sig, x);
    forall i | 0 <= i < k ensures Binder(order[i]) != Some(x) {
      assert order[i] in g.nodes && order[i].id != order[k].id;
    }
    NotRevisited(g, Positions(order), visited, p.cur);
  }

  lemma NotRevisited(g: IrGraph, rank: map<NodeId, nat>, visited: seq<NodeId>, y: NodeId)
    requires Validated(g, rank) && Path(g, visited + [y])
    ensures y !in Members(visited)
  {
    hide Validated, Path;
    var path := visited + [y];
    forall i | 0 <= i < |visited| ensures visited[i] != y {
      PathAscends(g, rank, path, i, |visited|);
      assert path[i] == visited[i] && path[|visited|] == y;
    }
  }

  lemma LoopAt(l: Loop, g: IrGraph, order: seq<Node>, sig: Signature, k: nat, settled: Settled, visited: seq<NodeId>,
               p: Point)
    requires Admitted(g, order, sig) && k < |order| && order[k].id == p.cur && CheckAll(order[..k], g, sig).Some?
    requires At(g, CheckAll(order, g, sig).value, settled, visited, p)
    requires order[k].NLoop? && order[k].loop == l && ScopedLoop(p.cur, l, g)
    ensures LoopRefers(l, CheckAll(order[..k], g, sig).value, settled, p.env)
  {
    LoopBinderOnly(l, g, order, sig, k);
    FreshAt(g, order, sig, k, settled, visited, p, l.elem);
    FreshAt(g, order, sig, k, settled, visited, p, l.acc);
    hide Admitted, CheckAll, Lookup, Bound, Within, Doms, Path, EnvFits, BodyEnv, Refers;
    ExprAt(l.source, g, CheckAll(order, g, sig).value, settled, visited, p);
    ExprAt(l.init, g, CheckAll(order, g, sig).value, settled, visited, p);
    DomsVisited(g, visited, p.cur);
    forall x, running ensures Refers(l.body, settled, BodyEnv(l, p.env, x, running)) {
      BodyAt(l, g, settled, p.env, Doms(g, p.cur), x, running);
    }
  }

  lemma LoopBinderOnly(l: Loop, g: IrGraph, order: seq<Node>, sig: Signature, k: nat)
    requires Admitted(g, order, sig) && k < |order| && order[k].NLoop? && order[k].loop == l
    requires ScopedLoop(order[k].id, l, g)
    ensures forall b :: b in g.nodes && Binder(b) == Some(l.elem) ==> b == order[k]
    ensures forall b :: b in g.nodes && Binder(b) == Some(l.acc) ==> b == order[k]
  {
    hide CheckAll, ScopedNode, Validated, Within;
    assert order[k] in g.nodes;
  }

  lemma BodyAt(l: Loop, g: IrGraph, settled: Settled, env: Env, from: set<NodeId>, x: Json, running: Json)
    requires Within(l.body, g, from, LoopNames(l)) && Provides(g, from, settled, env)
    ensures Refers(l.body, settled, BodyEnv(l, env, x, running))
  {
    hide Within, Lookup, Refers;
    var body := BodyEnv(l, env, x, running);
    forall y ensures Lookup(env, y).Some? || y in LoopNames(l) ==> Lookup(body, y).Some? {
      LookupAppend(env, Local(l.elem, x), y);
      LookupAppend(env + [Local(l.elem, x)], Local(l.acc, running), y);
      if l.kind.LFold? {
        assert body == env + [Local(l.elem, x)] + [Local(l.acc, running)];
      } else {
        assert body == env + [Local(l.elem, x)];
      }
    }
    RefersWithin(l.body, g, from, LoopNames(l), settled, body);
  }

  lemma {:induction false} PickFinds(sources: seq<Source>, s: Source)
    requires s in sources
    requires forall i, j :: 0 <= i < j < |sources| ==> sources[i].from != sources[j].from
    ensures Pick(sources, Some(s.from)) == Some(s.value)
    decreases |sources|
  {
    if sources[0] != s {
      var i :| 0 <= i < |sources| && sources[i] == s;
      assert sources[1..][i - 1] == s;
      PickFinds(sources[1..], s);
    }
  }

  /** Control never arrives at the entry from anywhere. */
  lemma EntryHasNoPredecessor(g: IrGraph, rank: map<NodeId, nat>, u: NodeId)
    requires Validated(g, rank)
    ensures !Edge(g, u, g.entry)
  {
    if Edge(g, u, g.entry) && u != g.entry {
      assert u in Ids(g.nodes);
      EntryLowest(g, rank, u);
    }
  }

  lemma MergeAt(sources: seq<Source>, g: IrGraph, rank: map<NodeId, nat>, full: Scope, settled: Settled,
                visited: seq<NodeId>, p: Point)
    requires Validated(g, rank) && At(g, full, settled, visited, p) && ScopedMerge(p.cur, sources, g)
    ensures exists s :: s in sources && Pick(sources, p.prev) == Some(s.value) && Refers(s.value, settled, p.env)
  {
    hide Within, Doms, Refers, EnvFits, Validated, Edge;
    var path := visited + [p.cur];
    if visited == [] {
      var u :| Edge(g, u, p.cur);
      EntryHasNoPredecessor(g, rank, u);
    } else {
      var prev := visited[|visited| - 1];
      assert Edge(g, path[|visited| - 1], path[|visited| - 1 + 1]);
      var s :| s in sources && s.from == prev;
      PickFinds(sources, s);
      var before := visited[..|visited| - 1];
      assert before + [prev] == visited;
      assert forall i :: 0 <= i < |visited| ==> path[i] == visited[i];
      DomsVisited(g, before, prev);
      assert Doms(g, prev) + {prev} <= Members(visited);
      ProvidesFewer(g, Doms(g, prev) + {prev}, Members(visited), settled, p.env);
      RefersWithin(s.value, g, Doms(g, prev) + {prev}, {}, settled, p.env);
    }
  }

  lemma RefersAt(g: IrGraph, order: seq<Node>, sig: Signature, k: nat, settled: Settled, visited: seq<NodeId>, p: Point)
    requires Admitted(g, order, sig) && k < |order| && order[k].id == p.cur && CheckAll(order[..k], g, sig).Some?
    requires At(g, CheckAll(order, g, sig).value, settled, visited, p)
    ensures NodeRefers(order[k], CheckAll(order[..k], g, sig).value, settled, p)
  {
    ScopedAt(g, order, sig, k);
    var full := CheckAll(order, g, sig).value;
    hide Scoped, CheckAll, At, Within, Doms, Refers, LoopRefers, ScopedLoop, ScopedMerge, Validated, Positions;
    match order[k]
    case NLoop(_, l, _) => LoopAt(l, g, order, sig, k, settled, visited, p);
    case NMerge(_, _, sources, _) => MergeAt(sources, g, Positions(order), full, settled, visited, p);
    case NOperation(_, _, e, _) => ExprAt(e, g, full, settled, visited, p);
    case NCall(_, _, _, e, _) => ExprAt(e, g, full, settled, visited, p);
    case NLet(_, _, e, _) => ExprAt(e, g, full, settled, visited, p);
    case NIf(_, e, _, _) => ExprAt(e, g, full, settled, visited, p);
    case NCase(_, e, _, _) => ExprAt(e, g, full, settled, visited, p);
    case NReturn(_, e) => ExprAt(e, g, full, settled, visited, p);
    case NFail(_, e) => ExprAt(e, g, full, settled, visited, p);
  }

  lemma {:induction false} MembersGrow(visited: seq<NodeId>, y: NodeId)
    ensures Members(visited + [y]) == Members(visited) + {y}
  {
    var more := visited + [y];
    forall x | x in Members(visited) + {y} ensures x in Members(more) {
      if x in Members(visited) {
        var i :| 0 <= i < |visited| && visited[i] == x;
        assert more[i] == x;
      } else {
        assert more[|visited|] == x;
      }
    }
  }

  lemma PushFits(env: Env, full: Scope, v: Json, b: Binding)
    requires EnvFits(env, full) && Bound(full, b.name) == Some(b) && Fits(v, b)
    ensures EnvFits(env + [Local(b.name, v)], full)
  {
    hide Lookup, Bound, Fits;
    forall x | Lookup(env + [Local(b.name, v)], x).Some? && Bound(full, x).Some?
      ensures Fits(Lookup(env + [Local(b.name, v)], x).value, Bound(full, x).value)
    {
      LookupAppend(env, Local(b.name, v), x);
    }
  }

  /** The binding a node adds is the one the full table has for its name. */
  lemma BindingInTable(g: IrGraph, order: seq<Node>, sig: Signature, k: nat)
    requires CheckAll(order, g, sig).Some? && k < |order| && Binder(order[k]).Some?
    requires CheckAll(order[..k], g, sig).Some?
             && Bound(CheckAll(order[..k], g, sig).value, Binder(order[k]).value).None?
    ensures var scope := CheckAll(order[..k], g, sig).value; var b := Bind(order[k], g, sig, scope)[|scope|];
            b.name == Binder(order[k]).value && Bound(CheckAll(order, g, sig).value, b.name) == Some(b)
  {
    hide CheckAll, Bound, BinderType, Binder;
    ScopeStep(order, k, g, sig);
    var scope := CheckAll(order[..k], g, sig).value;
    var b := Bind(order[k], g, sig, scope)[|scope|];
    BoundAppend(scope, b, b.name);
    assert Bind(order[k], g, sig, scope) == scope + [b];
    BoundPrefix(scope + [b], CheckAll(order, g, sig).value, b.name);
  }

  lemma EnvAfter(g: IrGraph, order: seq<Node>, sig: Signature, k: nat, settled: Settled, visited: seq<NodeId>,
                 p: Point, q: Point)
    requires Admitted(g, order, sig) && k < |order| && order[k].id == p.cur && CheckAll(order[..k], g, sig).Some?
    requires At(g, CheckAll(order, g, sig).value, settled, visited, p)
    requires Runs(order[k], g, sig, CheckAll(order[..k], g, sig).value, p, Go(q))
    ensures EnvFits(q.env, CheckAll(order, g, sig).value)
  {
    if Binder(order[k]).Some? {
      assert order[k] in g.nodes && UniqueBinders(g);
      FreshAt(g, order, sig, k, settled, visited, p, Binder(order[k]).value);
      hide CheckAll, Admitted, EnvFits, Bound, Lookup, Fits, BinderType, Path, Provides, NamedBy, Binder;
      BindingInTable(g, order, sig, k);
      var scope := CheckAll(order[..k], g, sig).value;
      PushFits(p.env, CheckAll(order, g, sig).value, q.env[|p.env|].value, Bind(order[k], g, sig, scope)[|scope|]);
    }
  }

  /** What is there after a node: what was there, its own result and its own local. */
  lemma ProvidedAfter(g: IrGraph, n: Node, sig: Signature, scope: Scope, settled: Settled, visited: seq<NodeId>,
                      p: Point, q: Point)
    requires UniqueIds(g.nodes) && n in g.nodes && n.id == p.cur && Runs(n, g, sig, scope, p, Go(q))
    requires Weight(n) == 1 ==> n.id in settled
    requires Provides(g, Members(visited), settled, p.env) && NamedBy(g, Members(visited), p.env)
    ensures Provides(g, Members(visited + [p.cur]), settled, q.env) && NamedBy(g, Members(visited + [p.cur]), q.env)
  {
    hide Members, Lookup, Fits, BinderType, Binder;
    MembersGrow(visited, p.cur);
    forall x ensures Lookup(q.env, x) == if Lookup(p.env, x).Some? then Lookup(p.env, x)
                                         else if Binder(n) == Some(x) then Some(q.env[|p.env|].value) else None
    {
      if Binder(n).Some? { LookupAppend(p.env, q.env[|p.env|], x); }
    }
    forall b | b in g.nodes && b.id in Members(visited) + {p.cur}
      ensures ResultNode(b) ==> b.id in settled
      ensures Binder(b).Some? ==> Lookup(q.env, Binder(b).value).Some?
    {
      if b.id == p.cur { SameNode(g, b, n); }
    }
    forall x | Lookup(q.env, x).Some? ensures BoundWithin(g, Members(visited) + {p.cur}, x) {
      if Lookup(p.env, x).Some? { assert BoundWithin(g, Members(visited), x); }
    }
  }

  lemma SameNode(g: IrGraph, a: Node, b: Node)
    requires UniqueIds(g.nodes) && a in g.nodes && b in g.nodes && a.id == b.id
    ensures a == b
  {
    FindId(g.nodes, a);
    FindId(g.nodes, b);
  }

  /** A path goes on along an edge. */
  lemma PathGoesOn(g: IrGraph, visited: seq<NodeId>, y: NodeId, z: NodeId)
    requires Path(g, visited + [y]) && Edge(g, y, z)
    ensures Path(g, visited + [y] + [z])
  {
    hide Edge;
    var path := visited + [y];
    forall i | 0 <= i < |path + [z]| - 1 ensures Edge(g, (path + [z])[i], (path + [z])[i + 1]) {
      if i < |path| - 1 { assert Edge(g, path[i], path[i + 1]); }
    }
  }

  lemma EdgeTaken(g: IrGraph, order: seq<Node>, sig: Signature, k: nat, args: Json, settled: Settled, p: Point)
    requires Admitted(g, order, sig) && k < |order| && order[k].id == p.cur
    requires StepNode(order[k], args, settled, p).Go?
    ensures order[k] in g.nodes && UniqueIds(g.nodes)
    ensures Edge(g, p.cur, StepNode(order[k], args, settled, p).at.cur)
    ensures Weight(order[k]) == 1 ==> p.cur in settled
  {
    hide Scoped, CheckAll, StepNode, Succs, UniqueIds, Edge, Positions;
    GoesAlongEdge(order[k], args, settled, p);
    assert order[k] in g.nodes;
    EdgeOf(g, order[k], StepNode(order[k], args, settled, p).at.cur);
  }

  /** One node further along the path, the same holds. */
  lemma StepAt(g: IrGraph, order: seq<Node>, sig: Signature, k: nat, args: Json, settled: Settled,
               visited: seq<NodeId>, p: Point)
    requires Admitted(g, order, sig) && k < |order| && order[k].id == p.cur && CheckAll(order[..k], g, sig).Some?
    requires At(g, CheckAll(order, g, sig).value, settled, visited, p)
    requires StepNode(order[k], args, settled, p).Go?
    requires Runs(order[k], g, sig, CheckAll(order[..k], g, sig).value, p, StepNode(order[k], args, settled, p))
    ensures At(g, CheckAll(order, g, sig).value, settled, visited + [p.cur], StepNode(order[k], args, settled, p).at)
  {
    hide StepNode, CheckAll, Admitted, EnvFits, Provides, NamedBy, UniqueIds, Edge, Path, Members, Extended, Binder;
    var q := StepNode(order[k], args, settled, p).at;
    EdgeTaken(g, order, sig, k, args, settled, p);
    PathGoesOn(g, visited, p.cur, q.cur);
    EnvAfter(g, order, sig, k, settled, visited, p, q);
    ProvidedAfter(g, order[k], sig, CheckAll(order[..k], g, sig).value, settled, visited, p, q);
  }

  /** The world of the full table is a world of each prefix. */
  lemma WorldAt(g: IrGraph, order: seq<Node>, sig: Signature, k: nat, args: Json, settled: Settled, env: Env)
    requires CheckAll(order, g, sig).Some? && k <= |order| && CheckAll(order[..k], g, sig).Some?
    requires World(g, sig, CheckAll(order, g, sig).value, args, settled, env)
    ensures World(g, sig, CheckAll(order[..k], g, sig).value, args, settled, env)
  {
    hide CheckAll, Fits, Lookup, Bound, Valid;
    ScopeGrows(order, k, g, sig);
    var few, full := CheckAll(order[..k], g, sig).value, CheckAll(order, g, sig).value;
    forall x | Bound(few, x).Some? ensures Bound(full, x) == Bound(few, x) { BoundPrefix(few, full, x); }
  }

  lemma NodeAt(g: IrGraph, order: seq<Node>, sig: Signature, k: nat, args: Json, settled: Settled,
               visited: seq<NodeId>, p: Point)
    requires Admitted(g, order, sig) && Tight(g, order, sig) && k < |order| && order[k].id == p.cur
    requires Valid(args, sig.arg) && ResultsFit(g, sig, settled)
    requires At(g, CheckAll(order, g, sig).value, settled, visited, p)
    ensures CheckAll(order[..k], g, sig).Some?
    ensures Runs(order[k], g, sig, CheckAll(order[..k], g, sig).value, p, StepNode(order[k], args, settled, p))
  {
    assert EnvFits(p.env, CheckAll(order, g, sig).value);
    hide At, Tight, Scoped, Topological, CheckAll, EnvFits, Valid, ResultsFit, NodeAccepted, TightNode, NodeKnown,
      NodeRefers,
         Runs, StepNode;
    AcceptedAt(g, order, sig, k);
    TightAt(g, order, sig, k);
    ScopeKnown(g, order, sig, k);
    NodeSourced(g, order, sig, k);
    WorldAt(g, order, sig, k, args, settled, p.env);
    RefersAt(g, order, sig, k, settled, visited, p);
    NodeRuns(order[k], g, sig, CheckAll(order[..k], g, sig).value, args, settled, p);
  }

  lemma NodeHere(g: IrGraph, order: seq<Node>, sig: Signature, full: Scope, settled: Settled, visited: seq<NodeId>,
                 p: Point)
    returns (k: nat)
    requires Admitted(g, order, sig) && At(g, full, settled, visited, p)
    ensures k < |order| && order[k].id == p.cur && Find(g.nodes, p.cur) == Some(order[k])
    ensures |visited| < |g.nodes|
  {
    var path := visited + [p.cur];
    hide Path, Positions, Scoped, CheckAll, EnvFits, Provides, NamedBy;
    PathInside(g, Positions(order), path, |visited|);
    PathFits(g, Positions(order), path);
    var n :| n in g.nodes && n.id == p.cur;
    FindId(g.nodes, n);
    k :| 0 <= k < |order| && order[k] == n;
  }

  lemma AcceptedTable(g: IrGraph, order: seq<Node>, sig: Signature)
    requires Admitted(g, order, sig)
    ensures CheckAll(order, g, sig).Some?
  {
    hide Topological, Scoped, CheckAll, ReturnsExplicitly;
  }

  /** One stride of replay: a proper end, or the next node with the same standing. */
  ghost predicate StrideOk(g: IrGraph, sig: Signature, full: Scope, settled: Settled, visited: seq<NodeId>, p: Point,
                           stride: Stride) {
    match stride
    case Halt(o) => Proper(o, sig)
    case Go(q) => At(g, full, settled, visited + [p.cur], q)
  }

  lemma OneStride(g: IrGraph, order: seq<Node>, sig: Signature, args: Json, settled: Settled, visited: seq<NodeId>,
                  p: Point)
    requires Admitted(g, order, sig) && Tight(g, order, sig)
    requires Valid(args, sig.arg) && ResultsFit(g, sig, settled)
    requires At(g, CheckAll(order, g, sig).value, settled, visited, p)
    ensures Find(g.nodes, p.cur).Some? && |visited| < |g.nodes|
    ensures StrideOk(g, sig, CheckAll(order, g, sig).value, settled, visited, p,
                     StepNode(Find(g.nodes, p.cur).value, args, settled, p))
  {
    hide At, Tight, Admitted, CheckAll, Valid, ResultsFit, StepNode, Proper, Find, Extended;
    AcceptedTable(g, order, sig);
    var k := NodeHere(g, order, sig, CheckAll(order, g, sig).value, settled, visited, p);
    NodeAt(g, order, sig, k, args, settled, visited, p);
    if StepNode(order[k], args, settled, p).Go? { StepAt(g, order, sig, k, args, settled, visited, p); }
  }

  lemma {:induction false} WalkProper(g: IrGraph, order: seq<Node>, sig: Signature, args: Json, settled: Settled,
                                      visited: seq<NodeId>, p: Point, budget: nat)
    requires Admitted(g, order, sig) && Tight(g, order, sig)
    requires Valid(args, sig.arg) && ResultsFit(g, sig, settled)
    requires At(g, CheckAll(order, g, sig).value, settled, visited, p)
    requires budget + |visited| > |g.nodes|
    ensures Proper(Walk(g, args, settled, p, budget), sig)
    decreases budget
  {
    hide *;
    AcceptedTable(g, order, sig);
    OneStride(g, order, sig, args, settled, visited, p);
    var stride := StepNode(Find(g.nodes, p.cur).value, args, settled, p);
    StrideCases(g, sig, CheckAll(order, g, sig).value, args, settled, visited, p, stride);
    WalkUnfolds(g, args, settled, p, budget);
    if stride.Go? { WalkProper(g, order, sig, args, settled, visited + [p.cur], stride.at, budget - 1); }
  }

  lemma StrideCases(g: IrGraph, sig: Signature, full: Scope, args: Json, settled: Settled, visited: seq<NodeId>,
                    p: Point, stride: Stride)
    requires StrideOk(g, sig, full, settled, visited, p, stride)
    ensures stride.Halt? ==> Proper(stride.outcome, sig)
    ensures stride.Go? ==> At(g, full, settled, visited + [p.cur], stride.at)
  {}

  lemma WalkUnfolds(g: IrGraph, args: Json, settled: Settled, p: Point, budget: nat)
    requires budget > 0 && Find(g.nodes, p.cur).Some?
    ensures var stride := StepNode(Find(g.nodes, p.cur).value, args, settled, p);
            Walk(g, args, settled, p, budget) ==
              if stride.Halt? then stride.outcome else Walk(g, args, settled, stride.at, budget - 1)
  {}

  /** Type soundness. Whatever the arguments and results of the declared types, replay of an accepted
    * and tight graph never faults; an operation or a call is requested with an input of its declared
    * type, a declared return type is honoured, and a failure's reason is a string. */
  lemma AdvanceProper(g: IrGraph, order: seq<Node>, sig: Signature, args: Json, settled: Settled)
    requires Admitted(g, order, sig) && Tight(g, order, sig)
    requires Valid(args, sig.arg) && ResultsFit(g, sig, settled)
    ensures Proper(Advance(g, args, settled), sig)
  {
    hide Tight, Scoped, CheckAll, Valid, ResultsFit, Proper, Positions;
    assert [] + [g.entry] == [g.entry];
    WalkProper(g, order, sig, args, settled, [], Start(g), Budget(g));
  }

  // ---------------------------------------------------------------- whole drives

  /** Each answer a drive is given has the type declared for the step it answers. */
  ghost predicate AnswersFit(g: IrGraph, sig: Signature, args: Json, settled: Settled, answers: seq<Json>)
    decreases |answers|
  {
    var o := Advance(g, args, settled);
    Waits(o) && answers != [] ==>
      && (ResultType(g, sig, o.node).Known? ==> Valid(answers[0], ResultType(g, sig, o.node).ty))
      && AnswersFit(g, sig, args, settled[o.node := answers[0]], answers[1..])
  }

  /** Over a whole drive, crashing and replaying after every answer: no replay faults, and everything
    * dispatched, returned or reported has its declared type. */
  lemma {:induction false} DriveProper(g: IrGraph, order: seq<Node>, sig: Signature, args: Json, settled: Settled,
                                       answers: seq<Json>, i: nat)
    requires Admitted(g, order, sig) && Tight(g, order, sig)
    requires Valid(args, sig.arg) && ResultsFit(g, sig, settled) && AnswersFit(g, sig, args, settled, answers)
    requires i < |Restarted(g, args, settled, answers)|
    ensures Proper(Restarted(g, args, settled, answers)[i], sig)
    decreases |answers|
  {
    hide Admitted, Tight, Valid, Advance, Proper, ResultType;
    AdvanceProper(g, order, sig, args, settled);
    if i > 0 {
      var o := Advance(g, args, settled);
      DriveProper(g, order, sig, args, settled[o.node := answers[0]], answers[1..], i - 1);
    }
  }
}
