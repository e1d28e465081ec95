/** Graphs the build accepts that still fault, or answer with a value of the wrong type: one for each
  * condition `NeverFaults` adds to what the build checks. Each runs one operation first, as the build
  * asks of every workflow. */
module Gaps {
  import opened Options
  import opened Graph
  import opened OpDepth
  import opened Dominance
  import opened Types
  import opened Inference
  import opened Typing
  import opened Scoping
  import opened NeverFaults

  // ---------------------------------------------------------------- straight lines

  function Line(nodes: seq<Node>): IrGraph { IrGraph(nodes, 0) }

  /** Node `i` is followed by node `i + 1`, the last one ends. */
  predicate Lined(nodes: seq<Node>) {
    && |nodes| > 0
    && forall i :: 0 <= i < |nodes| ==>
         nodes[i].id == i && if i == |nodes| - 1 then Terminal(nodes[i]) else Succs(nodes[i]) == [i + 1]
  }

  lemma LineUnique(nodes: seq<Node>)
    requires Lined(nodes)
    ensures UniqueIds(nodes) && forall u: NodeId :: u in Ids(nodes) <==> u < |nodes|
  {
    forall u: NodeId | u < |nodes| ensures u in Ids(nodes) { assert nodes[u] in nodes; }
  }

  lemma LineEdge(nodes: seq<Node>, u: NodeId, v: NodeId)
    requires Lined(nodes)
    ensures Edge(Line(nodes), u, v) <==> u + 1 == v < |nodes|
  {
    LineUnique(nodes);
    assert Find(nodes, u).Some? ==> u in Ids(nodes);
    if u < |nodes| { FindId(nodes, nodes[u]); }
  }

  lemma LineTopological(nodes: seq<Node>)
    requires Lined(nodes)
    ensures Topological(Line(nodes), nodes)
  {
    hide Lined, Edge, UniqueIds, Ids;
    LineUnique(nodes);
    LineIds(nodes);
    forall u: NodeId, v: NodeId | Edge(Line(nodes), u, v) ensures u + 1 == v < |nodes| { LineEdge(nodes, u, v); }
    forall u: NodeId | u < |nodes| ensures u in Positions(nodes) && Positions(nodes)[u] == u { PositionOf(nodes, u); }
    forall v | v in Ids(nodes) && v != 0 ensures exists u :: Edge(Line(nodes), u, v) {
      LineEdge(nodes, v - 1, v);
      assert Edge(Line(nodes), v - 1, v);
    }
  }

  lemma LineIds(nodes: seq<Node>)
    requires Lined(nodes)
    ensures |nodes| > 0 && forall i :: 0 <= i < |nodes| ==> nodes[i].id == i
  {}

  /** The one path to a node goes through all before it. */
  lemma LineDoms(nodes: seq<Node>, j: NodeId, k: NodeId)
    requires Lined(nodes) && j < k < |nodes|
    ensures j in Doms(Line(nodes), k)
  {
    hide Edge, Lined;
    LineUnique(nodes);
    forall p | PathTo(Line(nodes), p, k) ensures j in p {
      PathSteps(nodes, p, |p| - 1);
      PathSteps(nodes, p, j);
    }
  }

  lemma {:induction false} PathSteps(nodes: seq<Node>, p: seq<NodeId>, i: nat)
    requires Lined(nodes) && Path(Line(nodes), p)
    ensures i < |p| ==> p[i] == i
    decreases i
  {
    hide Edge, Lined;
    if 0 < i < |p| {
      PathSteps(nodes, p, i - 1);
      assert Edge(Line(nodes), p[i - 1], p[i - 1 + 1]);
      LineEdge(nodes, p[i - 1], p[i]);
    }
  }

  /** One operation at the start and none after it: a plan of length one. */
  lemma LinePlan(nodes: seq<Node>)
    requires Lined(nodes) && |nodes| > 1 && Weight(nodes[0]) == 1
    requires forall i :: 0 < i < |nodes| ==> Weight(nodes[i]) == 0
    ensures OpDepth.Accepted(Line(nodes), 1)
  {
    hide Edge, Ids, UniqueIds;
    var g := Line(nodes);
    LineUnique(nodes);
    var d: Depths := map u: NodeId | u in Ids(nodes) :: if u == 0 then 0 else 1;
    forall u: NodeId, v: NodeId | Edge(g, u, v)
      ensures u in d && v in d && Find(nodes, u).Some? && d[v] == d[u] + Weight(Find(nodes, u).value)
    {
      LineEdge(nodes, u, v);
      FindId(nodes, nodes[u]);
    }
    assert Uniform(g, d);
    assert nodes[|nodes| - 1] in nodes;
    assert PlanLengthIs(g, d, 1);
  }

  // ---------------------------------------------------------------- the build on a line

  /** The scopes at the nodes of a line, each made from the one before. */
  predicate Scopes(nodes: seq<Node>, scopes: seq<Scope>, sig: Signature) {
    && |scopes| == |nodes| > 0 && scopes[0] == []
    && (forall i :: 0 <= i < |nodes| ==> NodeAccepted(nodes[i], Line(nodes), sig, scopes[i]))
    && (forall i :: 0 <= i < |nodes| - 1 ==> scopes[i + 1] == Bind(nodes[i], Line(nodes), sig, scopes[i]))
  }

  lemma {:induction false} ScopesChecked(nodes: seq<Node>, scopes: seq<Scope>, sig: Signature, k: nat)
    requires Scopes(nodes, scopes, sig) && k <= |nodes|
    ensures CheckAll(nodes[..k], Line(nodes), sig).Some?
    ensures k < |nodes| ==> CheckAll(nodes[..k], Line(nodes), sig).value == scopes[k]
    decreases k
  {
    hide NodeAccepted, Bind;
    if k > 0 {
      ScopesChecked(nodes, scopes, sig, k - 1);
      assert nodes[..k][..k - 1] == nodes[..k - 1] && nodes[..k][k - 1] == nodes[k - 1];
    }
  }

  lemma LineBuilt(nodes: seq<Node>, scopes: seq<Scope>, sig: Signature)
    requires Lined(nodes) && Scopes(nodes, scopes, sig) && sig.arg.TObject?
    requires forall i :: 0 <= i < |nodes| ==> ScopedNode(nodes[i], Line(nodes)) && (Weight(nodes[i]) == 1 <==> i == 0)
    requires forall i, j :: 0 <= i < j < |nodes| && Binder(nodes[i]).Some? ==> Binder(nodes[j]) != Binder(nodes[i])
    requires sig.ret.Some? ==> sig.ret.value.TObject? && nodes[|nodes| - 1] != NReturn(|nodes| - 1, EConst(JNull))
    ensures Built(Line(nodes), nodes, sig, 1)
  {
    hide ScopedNode, Scopes, Topological, Accepted, CheckAll;
    LineTopological(nodes);
    ScopesChecked(nodes, scopes, sig, |nodes|);
    assert nodes[..|nodes|] == nodes;
    assert |nodes| > 1 by { assert Weight(nodes[|nodes| - 1]) == 0; }
    LinePlan(nodes);
  }

  /** Replay goes from node to node of a line. */
  lemma WalkOn(nodes: seq<Node>, args: Json, settled: Settled, p: Point, budget: nat)
    requires Lined(nodes) && p.cur < |nodes| && budget > 0
    ensures Walk(Line(nodes), args, settled, p, budget) ==
              match StepNode(nodes[p.cur], args, settled, p)
              case Halt(o) => o
              case Go(q) => Walk(Line(nodes), args, settled, q, budget - 1)
  {
    LineUnique(nodes);
    FindId(nodes, nodes[p.cur]);
  }

  // ---------------------------------------------------------------- one operation first

  const UNIT: Ty := TObject(map[])
  const NOTHING: Json := JObj(map[])

  function Record(key: string, t: Ty): Ty { TObject(map[key := t]) }

  /** A script with one operation, from and to the empty object. */
  function Takes(arg: Ty, ret: Option<Ty>): Signature {
    Signature(arg, ret, map["op" := Contract(Some(UNIT), Some(UNIT))], None)
  }

  function Op(): Node { NOperation(0, "op", EConst(NOTHING), 1) }

  /** The operation has succeeded. */
  const DONE: Settled := map[0 := NOTHING]

  lemma OpFits(nodes: seq<Node>, arg: Ty, ret: Option<Ty>)
    requires Lined(nodes) && nodes[0] == Op()
    ensures ScopedNode(Op(), Line(nodes)) && NodeAccepted(Op(), Line(nodes), Takes(arg, ret), [])
    ensures Bind(Op(), Line(nodes), Takes(arg, ret), []) == [] && Weight(Op()) == 1
    ensures ResultsFit(Line(nodes), Takes(arg, ret), DONE)
  {
    FindId(nodes, nodes[0]) by { LineUnique(nodes); }
  }

  /** The operation and one node that ends the script. */
  lemma TwoBuilt(nodes: seq<Node>, arg: Ty, ret: Option<Ty>)
    requires Lined(nodes) && |nodes| == 2 && nodes[0] == Op() && arg.TObject? && (ret.Some? ==> ret.value.TObject?)
    requires ScopedNode(nodes[1], Line(nodes)) && NodeAccepted(nodes[1], Line(nodes), Takes(arg, ret), [])
    requires nodes[1] != NReturn(1, EConst(JNull))
    ensures Built(Line(nodes), nodes, Takes(arg, ret), 1)
  {
    hide ScopedNode, NodeAccepted, Bind, Built;
    OpFits(nodes, arg, ret);
    assert Terminal(nodes[1]);
    LineBuilt(nodes, [[], []], Takes(arg, ret));
  }

  /** The operation, a node that binds a local, and one that ends the script. */
  lemma ThreeBuilt(nodes: seq<Node>, b: Binding, arg: Ty, ret: Option<Ty>)
    requires Lined(nodes) && |nodes| == 3 && nodes[0] == Op() && arg.TObject? && (ret.Some? ==> ret.value.TObject?)
    requires ScopedNode(nodes[1], Line(nodes)) && NodeAccepted(nodes[1], Line(nodes), Takes(arg, ret), [])
    requires Bind(nodes[1], Line(nodes), Takes(arg, ret), []) == [b] && Weight(nodes[1]) == 0
    requires ScopedNode(nodes[2], Line(nodes)) && NodeAccepted(nodes[2], Line(nodes), Takes(arg, ret), [b])
    requires nodes[2] != NReturn(2, EConst(JNull))
    ensures Built(Line(nodes), nodes, Takes(arg, ret), 1)
  {
    hide ScopedNode, NodeAccepted, Bind, Built;
    OpFits(nodes, arg, ret);
    assert Terminal(nodes[2]);
    LineBuilt(nodes, [[], [], [b]], Takes(arg, ret));
  }

  /** After the operation replay stands at the second node with no locals. */
  lemma OpPassed(nodes: seq<Node>, args: Json)
    requires Lined(nodes) && |nodes| > 1 && nodes[0] == Op()
    ensures Advance(Line(nodes), args, DONE) == Walk(Line(nodes), args, DONE, Point(1, Some(0), []), |nodes| + 3)
  {
    WalkOn(nodes, args, DONE, Start(Line(nodes)), Budget(Line(nodes)));
  }

  /** What a node may refer to: a local bound before it on the line. */
  lemma LocalWithin(nodes: seq<Node>, j: NodeId, k: NodeId, path: seq<string>)
    requires Lined(nodes) && j < k < |nodes| && Binder(nodes[j]).Some?
    ensures Within(ELocal(Binder(nodes[j]).value, path), Line(nodes), Doms(Line(nodes), k), {})
  {
    hide Doms;
    LineDoms(nodes, j, k);
    assert nodes[j] in Line(nodes).nodes && nodes[j].id == j;
  }

  lemma OneField(key: string, e: Expr, args: Json, settled: Settled, env: Env)
    ensures var v := Eval(e, args, settled, env);
            Eval(EObject([Field(key, e)]), args, settled, env)
            == if v.Some? then Some(JObj(map[key := v.value])) else None
  {
    var fs := [Field(key, e)];
    assert fs[..0] == [] && fs[|fs| - 1].value == e;
    assert EvalFields([], args, settled, env) == Some(map[]);
    assert EvalFields(fs, args, settled, env).Some? <==> Eval(e, args, settled, env).Some?;
    assert EvalFields(fs, args, settled, env).Some? ==>
             EvalFields(fs, args, settled, env).value == map[key := Eval(e, args, settled, env).value];
  }

  lemma OneFieldType(key: string, e: Expr, g: IrGraph, sig: Signature, scope: Scope)
    ensures var t := Infer(e, g, sig, scope);
            Infer(EObject([Field(key, e)]), g, sig, scope) == if t.Known? then Known(Record(key, t.ty)) else t
  {
    var fs := [Field(key, e)];
    assert fs[..0] == [] && fs[|fs| - 1].value == e;
    assert InferFields([], g, sig, scope) == Known(TObject(map[]));
    assert InferFields(fs, g, sig, scope) ==
           if Infer(e, g, sig, scope).Known? then Known(Record(key, Infer(e, g, sig, scope).ty))
           else Infer(e, g, sig, scope);
  }

  lemma RecordScoped(nodes: seq<Node>, k: NodeId, key: string, e: Expr)
    requires Within(e, Line(nodes), Doms(Line(nodes), k), {})
    ensures ScopedNode(NReturn(k, EObject([Field(key, e)])), Line(nodes))
  {
    hide Doms;
  }

  /** One step into a one-field record. */
  lemma OneStep(key: string, t: Ty, v: Json)
    ensures ProjectType(Record(key, t), [key]) == Some(t) && Project(JObj(map[key := v]), [key]) == Some(v)
  {
    assert [key][1..] == [];
    assert ProjectType(t, []) == Some(t) && Project(v, []) == Some(v);
  }

  // ---------------------------------------------------------------- optional fields

  /** One operation, then one argument field returned in an object. */
  function Echo(): seq<Node> { [Op(), NReturn(1, EObject([Field("y", EArg(["x"]))]))] }

  function Echoes(t: Ty): Signature { Takes(Record("x", t), Some(Record("y", t))) }

  lemma EchoBuilt(t: Ty)
    ensures Built(Line(Echo()), Echo(), Echoes(t), 1)
  {
    hide ScopedNode, NodeAccepted, Built, Within;
    EchoAccepted(t);
    assert Within(EArg(["x"]), Line(Echo()), Doms(Line(Echo()), 1), {}) by { ArgWithin(["x"], Line(Echo()), 1); }
    RecordScoped(Echo(), 1, "y", EArg(["x"]));
    TwoBuilt(Echo(), Record("x", t), Some(Record("y", t)));
  }

  lemma ArgWithin(path: seq<string>, g: IrGraph, k: NodeId)
    ensures Within(EArg(path), g, Doms(g, k), {})
  {}

  lemma EchoAccepted(t: Ty)
    ensures NodeAccepted(Echo()[1], Line(Echo()), Echoes(t), [])
  {
    OneStep("x", t, JNull);
    OneFieldType("y", EArg(["x"]), Line(Echo()), Echoes(t), []);
  }

  lemma EchoTight(t: Ty)
    requires Built(Line(Echo()), Echo(), Echoes(t), 1)
    ensures Tight(Line(Echo()), Echo(), Echoes(t)) <==> !t.TOptional?
  {
    hide Built, NodeAccepted, Infer, Bind;
    var sig := Echoes(t);
    EchoScopes(t);
    assert Required(sig.arg, ["x"]) <==> !t.TOptional?;
    var e := EObject([Field("y", EArg(["x"]))]);
    assert Solid(e, Line(Echo()), sig, []) <==> !t.TOptional? by { assert Field("y", EArg(["x"])) in e.fields; }
    assert TightNode(Echo()[0], Line(Echo()), sig, []);
    assert TightNode(Echo()[1], Line(Echo()), sig, []) <==> !t.TOptional?;
  }

  lemma EchoScopes(t: Ty)
    requires Built(Line(Echo()), Echo(), Echoes(t), 1)
    ensures CheckAll(Echo(), Line(Echo()), Echoes(t)).Some?
    ensures CheckAll(Echo()[..0], Line(Echo()), Echoes(t)) == Some([])
    ensures CheckAll(Echo()[..1], Line(Echo()), Echoes(t)) == Some([])
  {
    hide Topological, Scoped, Accepted;
    OpFits(Echo(), Record("x", t), Some(Record("y", t)));
    hide NodeAccepted, Bind;
    assert Echo()[..1] == [Op()] && [Op()][..0] == [];
  }

  /** Without the optional field, replay faults. */
  lemma EchoFaults(inner: Ty)
    ensures Valid(NOTHING, Record("x", TOptional(inner)))
    ensures Advance(Line(Echo()), NOTHING, DONE) == Fault
  {
    hide Advance, Walk;
    OpPassed(Echo(), NOTHING);
    WalkOn(Echo(), NOTHING, DONE, Point(1, Some(0), []), 5);
    OneField("y", EArg(["x"]), NOTHING, DONE, []);
  }

  /** Returning one argument field: built whatever its type, and free of faults on all valid arguments
    * and results exactly when the field is not optional, which is when the graph is tight. */
  lemma OneFieldExactly(t: Ty)
    ensures var g := Line(Echo()); var sig := Echoes(t);
            && Built(g, Echo(), sig, 1)
            && (Tight(g, Echo(), sig) <==> !t.TOptional?)
            && ((forall args, settled :: Valid(args, sig.arg) && ResultsFit(g, sig, settled) ==>
                   Advance(g, args, settled) != Fault) <==> !t.TOptional?)
  {
    hide Advance, Valid, Admitted, Accepted, Tight, ResultsFit;
    EchoBuilt(t);
    EchoTight(t);
    OpFits(Echo(), Record("x", t), Some(Record("y", t)));
    var g, sig := Line(Echo()), Echoes(t);
    if t.TOptional? {
      EchoFaults(t.inner);
    } else {
      forall args, settled | Valid(args, sig.arg) && ResultsFit(g, sig, settled)
        ensures Advance(g, args, settled) != Fault
      {
        AdvanceProper(g, Echo(), sig, args, settled);
      }
    }
  }

  // ---------------------------------------------------------------- literals

  function Counting(raw: string): seq<Node> { [Op(), NReturn(1, EObject([Field("n", EConst(JNum(raw, false)))]))] }

  /** A number literal outside the integer range passes once it sits inside a constructed object. */
  lemma OutOfRangeEscapes(raw: string, args: Json)
    requires !FloatShaped(raw)
    ensures var sig := Takes(UNIT, Some(Record("n", TInt))); var v := JObj(map["n" := JNum(raw, false)]);
            && Built(Line(Counting(raw)), Counting(raw), sig, 1) && ResultsFit(Line(Counting(raw)), sig, DONE)
            && Advance(Line(Counting(raw)), args, DONE) == Returned(v) && !Valid(v, Record("n", TInt))
  {
    hide Advance, Walk, Built, Valid, ResultsFit;
    assert !Valid(JNum(raw, false), TInt) by { UnfitInvalid(raw); }
    CountingBuilt(raw);
    OpFits(Counting(raw), UNIT, Some(Record("n", TInt)));
    OpPassed(Counting(raw), args);
    WalkOn(Counting(raw), args, DONE, Point(1, Some(0), []), 5);
    OneField("n", EConst(JNum(raw, false)), args, DONE, []);
    FieldInvalid("n", JNum(raw, false), TInt);
  }

  lemma CountingBuilt(raw: string)
    requires !FloatShaped(raw)
    ensures Built(Line(Counting(raw)), Counting(raw), Takes(UNIT, Some(Record("n", TInt))), 1)
  {
    hide ScopedNode, NodeAccepted, Built, Within;
    CountingAccepted(raw);
    ConstWithin(JNum(raw, false), Line(Counting(raw)), 1);
    RecordScoped(Counting(raw), 1, "n", EConst(JNum(raw, false)));
    TwoBuilt(Counting(raw), UNIT, Some(Record("n", TInt)));
  }

  lemma ConstWithin(v: Json, g: IrGraph, k: NodeId)
    ensures Within(EConst(v), g, Doms(g, k), {})
  {}

  lemma CountingAccepted(raw: string)
    requires !FloatShaped(raw)
    ensures NodeAccepted(Counting(raw)[1], Line(Counting(raw)), Takes(UNIT, Some(Record("n", TInt))), [])
  {
    OneFieldType("n", EConst(JNum(raw, false)), Line(Counting(raw)), Takes(UNIT, Some(Record("n", TInt))), []);
  }

  lemma UnfitInvalid(raw: string)
    ensures !Valid(JNum(raw, false), TInt)
  {}

  lemma FieldInvalid(key: string, v: Json, t: Ty)
    requires !Valid(v, t) && !t.TOptional?
    ensures !Valid(JObj(map[key := v]), Record(key, t))
  {
    assert JObj(map[key := v]).fields[key] == v;
  }

  // ---------------------------------------------------------------- imprecise literals

  /** A `let` of the empty array: an imprecise binding. */
  function EmptyLet(): Node { NLet(1, "x", EConst(JArr([])), 2) }

  function EmptyBinding(): Binding { Binding("x", Imprecise, Some(JArr([]))) }

  lemma EmptyLetFits(nodes: seq<Node>, sig: Signature)
    requires Lined(nodes) && |nodes| > 2 && nodes[1] == EmptyLet()
    ensures ScopedNode(EmptyLet(), Line(nodes)) && NodeAccepted(EmptyLet(), Line(nodes), sig, [])
    ensures Bind(EmptyLet(), Line(nodes), sig, []) == [EmptyBinding()]
  {}

  lemma EmptyLetSteps(args: Json)
    ensures StepNode(EmptyLet(), args, DONE, Point(1, Some(0), [])) == Go(Point(2, Some(1), [Local("x", JArr([]))]))
  {}

  lemma EmptyLetPassed(nodes: seq<Node>, args: Json)
    requires Lined(nodes) && |nodes| > 2 && nodes[0] == Op() && nodes[1] == EmptyLet()
    ensures Advance(Line(nodes), args, DONE)
            == Walk(Line(nodes), args, DONE, Point(2, Some(1), [Local("x", JArr([]))]), |nodes| + 2)
  {
    hide Advance, Walk, StepNode;
    OpPassed(nodes, args);
    EmptyLetSteps(args);
    WalkOn(nodes, args, DONE, Point(1, Some(0), []), |nodes| + 3);
  }

  function Reaching(): seq<Node> { [Op(), EmptyLet(), NLet(2, "y", ELocal("x", ["k"]), 3), NReturn(3, EConst(JNull))] }

  /** Anything may be projected out of an imprecise literal: replay faults. */
  lemma ImpreciseProjectionFaults(args: Json)
    ensures var sig := Takes(UNIT, None);
            && Built(Line(Reaching()), Reaching(), sig, 1) && ResultsFit(Line(Reaching()), sig, DONE)
            && Advance(Line(Reaching()), args, DONE) == Fault
  {
    hide Advance, Walk, Built, ResultsFit;
    ReachingBuilt();
    OpFits(Reaching(), UNIT, None);
    EmptyLetPassed(Reaching(), args);
    WalkOn(Reaching(), args, DONE, Point(2, Some(1), [Local("x", JArr([]))]), 6);
  }

  lemma ReachingBuilt()
    ensures Built(Line(Reaching()), Reaching(), Takes(UNIT, None), 1)
  {
    hide ScopedNode, NodeAccepted, Bind, Built, Scopes;
    var scopes := [[], [], [EmptyBinding()], [EmptyBinding(), Binding("y", Imprecise, None)]];
    OpFits(Reaching(), UNIT, None);
    EmptyLetFits(Reaching(), Takes(UNIT, None));
    ReachingScopes(scopes);
    ReachingScoped();
    LineBuilt(Reaching(), scopes, Takes(UNIT, None));
  }

  lemma ReachingScopes(scopes: seq<Scope>)
    requires scopes == [[], [], [EmptyBinding()], [EmptyBinding(), Binding("y", Imprecise, None)]]
    ensures Scopes(Reaching(), scopes, Takes(UNIT, None))
  {
    hide NodeAccepted, Bind;
    OpFits(Reaching(), UNIT, None);
    EmptyLetFits(Reaching(), Takes(UNIT, None));
    ReachingLast(Takes(UNIT, None));
  }

  lemma ReachingScoped()
    ensures ScopedNode(Reaching()[2], Line(Reaching())) && ScopedNode(Reaching()[3], Line(Reaching()))
  {
    hide Within, Doms;
    LocalWithin(Reaching(), 1, 2, ["k"]);
    ConstWithin(JNull, Line(Reaching()), 3);
  }

  lemma ReachingLast(sig: Signature)
    requires sig.ret.None?
    ensures NodeAccepted(Reaching()[2], Line(Reaching()), sig, [EmptyBinding()])
    ensures Bind(Reaching()[2], Line(Reaching()), sig, [EmptyBinding()])
            == [EmptyBinding(), Binding("y", Imprecise, None)]
    ensures NodeAccepted(Reaching()[3], Line(Reaching()), sig, [EmptyBinding(), Binding("y", Imprecise, None)])
  {
    assert Bound([EmptyBinding()], "x") == Some(EmptyBinding());
  }

  function Refusing(): seq<Node> { [Op(), EmptyLet(), NFail(2, ELocal("x", []))] }

  /** A reason may be an imprecise literal: the failure is reported with an array for a reason code. */
  lemma ReasonNotAString(args: Json)
    ensures var sig := Takes(UNIT, None);
            && Built(Line(Refusing()), Refusing(), sig, 1) && ResultsFit(Line(Refusing()), sig, DONE)
            && Advance(Line(Refusing()), args, DONE) == Stopped(2, JArr([]))
  {
    hide Advance, Walk, Built, ResultsFit;
    RefusingBuilt();
    OpFits(Refusing(), UNIT, None);
    EmptyLetPassed(Refusing(), args);
    WalkOn(Refusing(), args, DONE, Point(2, Some(1), [Local("x", JArr([]))]), 5);
  }

  lemma RefusingBuilt()
    ensures Built(Line(Refusing()), Refusing(), Takes(UNIT, None), 1)
  {
    hide NodeAccepted, Bind, Within, Doms, Built;
    EmptyLetFits(Refusing(), Takes(UNIT, None));
    LocalWithin(Refusing(), 1, 2, []);
    RefusingLast();
    ThreeBuilt(Refusing(), EmptyBinding(), UNIT, None);
  }

  lemma RefusingLast()
    ensures NodeAccepted(Refusing()[2], Line(Refusing()), Takes(UNIT, None), [EmptyBinding()])
  {
    assert Bound([EmptyBinding()], "x") == Some(EmptyBinding());
  }

  // ---------------------------------------------------------------- loops

  function NullFold(): Loop { Loop(LFold, EArg(["xs"]), "e", "last", EConst(JNull), ELocal("e", [])) }

  function Folding(): seq<Node> { [Op(), NLoop(1, NullFold(), 2), NReturn(2, ELocal("last", []))] }

  lemma NullFoldTyped(t: Ty, ret: Option<Ty>)
    ensures var n := NLoop(1, NullFold(), 2); var g := Line(Folding()); var sig := Takes(Record("xs", TArray(t)), ret);
            && ScopedNode(n, g) && NodeAccepted(n, g, sig, [])
            && Bind(n, g, sig, []) == [Binding("last", Known(t), None)]
  {
    var g, sig := Line(Folding()), Takes(Record("xs", TArray(t)), ret);
    OneStep("xs", TArray(t), JNull);
    assert Infer(NullFold().source, g, sig, []) == Known(TArray(t));
    assert Infer(NullFold().init, g, sig, []) == Known(TNull);
    var body := [Binding("e", Known(t), None), Binding("last", Known(TNull), None)];
    assert BodyScope(NullFold(), g, sig, []) == body;
    assert Bound(body, "e") == Some(body[0]);
    assert Infer(NullFold().body, g, sig, body) == Known(t);
  }

  lemma NullFoldRuns()
    ensures var args := JObj(map["xs" := JArr([])]);
            StepNode(NLoop(1, NullFold(), 2), args, DONE, Point(1, Some(0), []))
            == Go(Point(2, Some(1), [Local("last", JNull)]))
  {
    OneStep("xs", TNull, JArr([]));
    assert EvalLoop(NullFold(), JObj(map["xs" := JArr([])]), DONE, []) == Some(JNull);
  }

  lemma LastLocal(nodes: seq<Node>, t: Ty, v: Json, sig: Signature, args: Json)
    requires sig.ret == Some(t)
    ensures NodeAccepted(NReturn(2, ELocal("last", [])), Line(nodes), sig, [Binding("last", Known(t), None)])
    ensures StepNode(NReturn(2, ELocal("last", [])), args, DONE, Point(2, Some(1), [Local("last", v)]))
            == Halt(Returned(v))
  {
    var scope := [Binding("last", Known(t), None)];
    assert Bound(scope, "last") == Some(scope[0]);
    assert Infer(ELocal("last", []), Line(nodes), sig, scope) == Known(t);
  }

  lemma FoldingBuilt(t: Ty)
    requires t.TObject?
    ensures Built(Line(Folding()), Folding(), Takes(Record("xs", TArray(t)), Some(t)), 1)
  {
    hide NodeAccepted, Bind, Within, Doms, Infer, ScopedLoop, Built;
    var nodes, sig := Folding(), Takes(Record("xs", TArray(t)), Some(t));
    NullFoldTyped(t, sig.ret);
    LocalWithin(nodes, 1, 2, []);
    LastLocal(nodes, t, JNull, sig, JNull);
    ThreeBuilt(nodes, Binding("last", Known(t), None), sig.arg, sig.ret);
  }

  /** A fold from `null` has its body's type, and over an empty array the value `null`. */
  lemma NullFoldReturnsNull(t: Ty)
    requires t.TObject?
    ensures var sig := Takes(Record("xs", TArray(t)), Some(t)); var args := JObj(map["xs" := JArr([])]);
            && Built(Line(Folding()), Folding(), sig, 1) && Valid(args, sig.arg)
            && ResultsFit(Line(Folding()), sig, DONE)
            && Advance(Line(Folding()), args, DONE) == Returned(JNull) && !Valid(JNull, t)
  {
    hide Advance, Walk, StepNode, Built, ResultsFit, Valid;
    var args := JObj(map["xs" := JArr([])]);
    RecordValid(t);
    FoldingBuilt(t);
    OpFits(Folding(), Record("xs", TArray(t)), Some(t));
    OpPassed(Folding(), args);
    NullFoldRuns();
    LastLocal(Folding(), t, JNull, Takes(Record("xs", TArray(t)), Some(t)), args);
    WalkOn(Folding(), args, DONE, Point(1, Some(0), []), 6);
    WalkOn(Folding(), args, DONE, Point(2, Some(1), [Local("last", JNull)]), 5);
  }

  lemma RecordValid(t: Ty)
    requires t.TObject?
    ensures Valid(JObj(map["xs" := JArr([])]), Record("xs", TArray(t))) && !Valid(JNull, t)
  {}

  /** A loop over a literal whose one element is the empty array. */
  function NestedMap(): Loop { Loop(LMap, EConst(JArr([JArr([])])), "e", "m", EConst(JNull), ELocal("e", [])) }

  function Mapping(): seq<Node> {
    [Op(), NLoop(1, NestedMap(), 2), NReturn(2, EObject([Field("xs", ELocal("m", []))]))]
  }

  lemma UnknownLocal(name: string, g: IrGraph, sig: Signature)
    ensures Infer(ELocal(name, []), g, sig, [Binding(name, Unknown, None)]) == Unknown
  {}

  lemma OnlyLocal(name: string, v: Json, args: Json)
    ensures Eval(ELocal(name, []), args, DONE, [Local(name, v)]) == Some(v)
  {}

  lemma NestedMapTyped(sig: Signature)
    ensures var n := NLoop(1, NestedMap(), 2); var g := Line(Mapping());
            && ScopedNode(n, g) && NodeAccepted(n, g, sig, []) && Bind(n, g, sig, []) == [Binding("m", Unknown, None)]
  {
    var g := Line(Mapping());
    var body := [Binding("e", Unknown, None)];
    assert BodyScope(NestedMap(), g, sig, []) == body;
    UnknownLocal("e", g, sig);
    assert LoopType(NestedMap(), g, sig, []) == Unknown;
  }

  lemma EvalLiteral(v: Json, args: Json)
    ensures Eval(EConst(v), args, DONE, []) == Some(v)
  {}

  lemma NestedMapRuns(args: Json)
    ensures StepNode(NLoop(1, NestedMap(), 2), args, DONE, Point(1, Some(0), []))
            == Go(Point(2, Some(1), [Local("m", JArr([JArr([])]))]))
  {
    var one := [JArr([])];
    assert one[..0] == [] && [] + [one[0]] == one;
    OnlyLocal("e", one[0], args);
    assert BodyEnv(NestedMap(), [], one[0], JArr([])) == [Local("e", one[0])];
    hide Eval;
    assert EvalElems(NestedMap(), one[..0], JArr([]), args, DONE, []) == Some(JArr([]));
    assert EvalElems(NestedMap(), one, JArr([]), args, DONE, []) == Some(JArr(one));
    assert Eval(NestedMap().source, args, DONE, []) == Some(JArr(one)) by { EvalLiteral(JArr(one), args); }
  }

  lemma MappingBuilt()
    ensures Built(Line(Mapping()), Mapping(), Takes(UNIT, Some(Record("xs", TArray(TInt)))), 1)
  {
    hide NodeAccepted, Bind, Within, Doms, Infer, ScopedNode, Built;
    var nodes, sig := Mapping(), Takes(UNIT, Some(Record("xs", TArray(TInt))));
    NestedMapTyped(sig);
    LocalWithin(nodes, 1, 2, []);
    RecordScoped(nodes, 2, "xs", ELocal("m", []));
    LastRecord(sig);
    ThreeBuilt(nodes, Binding("m", Unknown, None), sig.arg, sig.ret);
  }

  lemma LastRecord(sig: Signature)
    ensures NodeAccepted(Mapping()[2], Line(Mapping()), sig, [Binding("m", Unknown, None)])
  {
    OneFieldType("xs", ELocal("m", []), Line(Mapping()), sig, [Binding("m", Unknown, None)]);
    UnknownLocal("m", Line(Mapping()), sig);
    hide Infer;
  }

  /** The elements of an imprecise literal are untyped, and what is made of them passes any check. */
  lemma UntypedElementsEscape(args: Json)
    ensures var sig := Takes(UNIT, Some(Record("xs", TArray(TInt)))); var v := JObj(map["xs" := JArr([JArr([])])]);
            && Built(Line(Mapping()), Mapping(), sig, 1) && ResultsFit(Line(Mapping()), sig, DONE)
            && Advance(Line(Mapping()), args, DONE) == Returned(v) && !Valid(v, Record("xs", TArray(TInt)))
  {
    hide Advance, Walk, Built, ResultsFit, Eval, EvalLoop, Valid;
    MappingBuilt();
    OpFits(Mapping(), UNIT, Some(Record("xs", TArray(TInt))));
    OpPassed(Mapping(), args);
    NestedMapRuns(args);
    OnlyLocal("m", JArr([JArr([])]), args);
    OneField("xs", ELocal("m", []), args, DONE, [Local("m", JArr([JArr([])]))]);
    WalkOn(Mapping(), args, DONE, Point(1, Some(0), []), 6);
    WalkOn(Mapping(), args, DONE, Point(2, Some(1), [Local("m", JArr([JArr([])]))]), 5);
    NestedInvalid();
  }

  lemma NestedInvalid()
    ensures !Valid(JObj(map["xs" := JArr([JArr([])])]), Record("xs", TArray(TInt)))
  {
    assert JArr([]) in JArr([JArr([])]).elems && !Valid(JArr([]), TInt);
    FieldInvalid("xs", JArr([JArr([])]), TArray(TInt));
  }
}
