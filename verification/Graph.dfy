/** The control-flow graph of a workflow and its replay to the next durable boundary. */
module Graph {
  import opened Options

  // ---------------------------------------------------------------- values and expressions

  /** A JSON value. Two values have the same canonical text exactly when they are equal. A number is
    * its literal text, with whether the machine type of its shape can hold it. */
  datatype Json =
    | JNull | JBool(b: bool) | JNum(raw: string, fits: bool) | JStr(s: string)
    | JArr(elems: seq<Json>) | JObj(fields: map<string, Json>)

  type NodeId = nat

  datatype Expr =
    | EConst(value: Json)
    | EArg(path: seq<string>)
    | EResult(node: NodeId, path: seq<string>)
    | ELocal(name: string, path: seq<string>)
    | EObject(fields: seq<Field>)
    | EArray(elems: seq<Expr>)

  datatype Field = Field(key: string, value: Expr)

  datatype Local = Local(name: string, value: Json)

  /** The local table, in binding order; a name resolves to its first binding. */
  type Env = seq<Local>

  type Settled = map<NodeId, Json>

  function Project(v: Json, path: seq<string>): Option<Json>
    decreases |path|
  {
    if path == [] then Some(v)
    else if v.JObj? && path[0] in v.fields then Project(v.fields[path[0]], path[1..])
    else None
  }

  function Lookup(env: Env, name: string): Option<Json>
    decreases |env|
  {
    if env == [] then None
    else if env[0].name == name then Some(env[0].value)
    else Lookup(env[1..], name)
  }

  /** `None` is an evaluation fault. */
  function Eval(e: Expr, args: Json, settled: Settled, env: Env): Option<Json> {
    match e
    case EConst(v) => Some(v)
    case EArg(path) => Project(args, path)
    case EResult(node, path) => if node in settled then Project(settled[node], path) else None
    case ELocal(name, path) => if Lookup(env, name).Some? then Project(Lookup(env, name).value, path) else None
    case EObject(fields) =>
      var r := EvalFields(fields, args, settled, env);
      if r.Some? then Some(JObj(r.value)) else None
    case EArray(elems) =>
      var r := EvalAll(elems, args, settled, env);
      if r.Some? then Some(JArr(r.value)) else None
  }

  function EvalFields(fs: seq<Field>, args: Json, settled: Settled, env: Env): Option<map<string, Json>> {
    if fs == [] then Some(map[])
    else
      var rest := EvalFields(fs[..|fs| - 1], args, settled, env);
      var v := Eval(fs[|fs| - 1].value, args, settled, env);
      if rest.Some? && v.Some? then Some(rest.value[fs[|fs| - 1].key := v.value]) else None
  }

  function EvalAll(es: seq<Expr>, args: Json, settled: Settled, env: Env): Option<seq<Json>> {
    if es == [] then Some([])
    else
      var rest := EvalAll(es[..|es| - 1], args, settled, env);
      var v := Eval(es[|es| - 1], args, settled, env);
      if rest.Some? && v.Some? then Some(rest.value + [v.value]) else None
  }

  // ---------------------------------------------------------------- loops

  datatype LoopKind = LMap | LFilter | LFold

  datatype Loop = Loop(kind: LoopKind, source: Expr, elem: string, acc: string, init: Expr, body: Expr)

  /** The scope of a loop body: the outer locals, the element, and for a fold the accumulator. */
  function BodyEnv(l: Loop, env: Env, element: Json, running: Json): Env {
    env + [Local(l.elem, element)] + (if l.kind.LFold? then [Local(l.acc, running)] else [])
  }

  /** The state of a loop after its first `|arr|` elements: the collected array, or the accumulator. */
  function EvalElems(l: Loop, arr: seq<Json>, start: Json, args: Json, settled: Settled, env: Env): Option<Json>
    requires !l.kind.LFold? ==> start == JArr([])
    ensures !l.kind.LFold? && EvalElems(l, arr, start, args, settled, env).Some? ==>
              EvalElems(l, arr, start, args, settled, env).value.JArr?
    decreases |arr|
  {
    if arr == [] then Some(start)
    else
      var before := EvalElems(l, arr[..|arr| - 1], start, args, settled, env);
      if before.None? then None
      else
        var x := arr[|arr| - 1];
        var v := Eval(l.body, args, settled, BodyEnv(l, env, x, before.value));
        if v.None? then None
        else match l.kind
          case LFold => v
          case LMap => Some(JArr(before.value.elems + [v.value]))
          case LFilter =>
            if !v.value.JBool? then None
            else if v.value.b then Some(JArr(before.value.elems + [x]))
            else before
  }

  function EvalLoop(l: Loop, args: Json, settled: Settled, env: Env): Option<Json> {
    var src := Eval(l.source, args, settled, env);
    if src.None? || !src.value.JArr? then None
    else if l.kind.LFold? then
      var init := Eval(l.init, args, settled, env);
      if init.None? then None else EvalElems(l, src.value.elems, init.value, args, settled, env)
    else EvalElems(l, src.value.elems, JArr([]), args, settled, env)
  }

  // ---------------------------------------------------------------- graphs

  datatype Arm = Arm(lit: Json, target: NodeId)

  datatype Source = Source(from: NodeId, value: Expr)

  datatype Node =
    | NOperation(id: NodeId, operation: string, input: Expr, next: NodeId)
    | NLet(id: NodeId, name: string, value: Expr, next: NodeId)
    | NIf(id: NodeId, cond: Expr, thenNode: NodeId, elseNode: NodeId)
    | NCase(id: NodeId, scrutinee: Expr, arms: seq<Arm>, defaultNode: NodeId)
    | NLoop(id: NodeId, loop: Loop, next: NodeId)
    | NMerge(id: NodeId, name: string, sources: seq<Source>, next: NodeId)
    | NReturn(id: NodeId, value: Expr)
    | NFail(id: NodeId, reason: Expr)
    | NCall(id: NodeId, child: string, version: string, input: Expr, next: NodeId)

  datatype IrGraph = IrGraph(nodes: seq<Node>, entry: NodeId)

  datatype Outcome =
    | NeedOperation(node: NodeId, operation: string, input: Json)
    | NeedCall(node: NodeId, child: string, version: string, input: Json)
    | Returned(result: Json)
    | Stopped(node: NodeId, reason: Json)
    | Fault

  /** The first node with this id. */
  function Find(nodes: seq<Node>, id: NodeId): Option<Node>
    ensures Find(nodes, id).Some? ==> Find(nodes, id).value in nodes && Find(nodes, id).value.id == id
    decreases |nodes|
  {
    if nodes == [] then None
    else if nodes[0].id == id then Some(nodes[0])
    else Find(nodes[1..], id)
  }

  predicate UniqueIds(nodes: seq<Node>) { forall i, j :: 0 <= i < j < |nodes| ==> nodes[i].id != nodes[j].id }

  lemma {:induction false} FindId(nodes: seq<Node>, n: Node)
    requires n in nodes && UniqueIds(nodes)
    ensures Find(nodes, n.id) == Some(n)
    decreases |nodes|
  {
    if nodes[0] != n {
      var i :| 0 <= i < |nodes| && nodes[i] == n;
      assert nodes[1..][i - 1] == n;
      assert nodes[0].id != nodes[i].id;
      FindId(nodes[1..], n);
    }
  }

  function Target(arms: seq<Arm>, v: Json, otherwise: NodeId): NodeId
    decreases |arms|
  {
    if arms == [] then otherwise
    else if arms[0].lit == v then arms[0].target
    else Target(arms[1..], v, otherwise)
  }

  /** The value expression for the predecessor control came from. */
  function Pick(sources: seq<Source>, prev: Option<NodeId>): Option<Expr>
    decreases |sources|
  {
    if sources == [] then None
    else if prev == Some(sources[0].from) then Some(sources[0].value)
    else Pick(sources[1..], prev)
  }

  /** Where replay stands: the node to process, the node it came from, the locals so far. */
  datatype Point = Point(cur: NodeId, prev: Option<NodeId>, env: Env)

  datatype Stride = Go(at: Point) | Halt(outcome: Outcome)

  /** Process one node. */
  function StepNode(n: Node, args: Json, settled: Settled, p: Point): Stride {
    var here := Some(n.id);
    match n
    case NReturn(_, value) =>
      var v := Eval(value, args, settled, p.env);
      if v.Some? then Halt(Returned(v.value)) else Halt(Fault)
    case NFail(id, reason) =>
      var v := Eval(reason, args, settled, p.env);
      if v.Some? then Halt(Stopped(id, v.value)) else Halt(Fault)
    case NOperation(id, operation, input, next) =>
      if id in settled then Go(Point(next, here, p.env))
      else
        var v := Eval(input, args, settled, p.env);
        if v.Some? then Halt(NeedOperation(id, operation, v.value)) else Halt(Fault)
    case NCall(id, child, version, input, next) =>
      if id in settled then Go(Point(next, here, p.env))
      else
        var v := Eval(input, args, settled, p.env);
        if v.Some? then Halt(NeedCall(id, child, version, v.value)) else Halt(Fault)
    case NLet(_, name, value, next) =>
      var v := Eval(value, args, settled, p.env);
      if v.Some? then Go(Point(next, here, p.env + [Local(name, v.value)])) else Halt(Fault)
    case NIf(_, cond, thenNode, elseNode) =>
      var v := Eval(cond, args, settled, p.env);
      if v.None? || !v.value.JBool? then Halt(Fault)
      else Go(Point(if v.value.b then thenNode else elseNode, here, p.env))
    case NCase(_, scrutinee, arms, defaultNode) =>
      var v := Eval(scrutinee, args, settled, p.env);
      if v.None? then Halt(Fault) else Go(Point(Target(arms, v.value, defaultNode), here, p.env))
    case NLoop(_, loop, next) =>
      var v := EvalLoop(loop, args, settled, p.env);
      if v.Some? then Go(Point(next, here, p.env + [Local(loop.acc, v.value)])) else Halt(Fault)
    case NMerge(_, name, sources, next) =>
      var e := Pick(sources, p.prev);
      if e.None? then Halt(Fault)
      else
        var v := Eval(e.value, args, settled, p.env);
        if v.Some? then Go(Point(next, here, p.env + [Local(name, v.value)])) else Halt(Fault)
  }

  /** Replay from a point with `budget` node visits left. */
  function Walk(g: IrGraph, args: Json, settled: Settled, p: Point, budget: nat): Outcome
    decreases budget
  {
    if budget == 0 then Fault
    else
      var n := Find(g.nodes, p.cur);
      if n.None? then Fault
      else
        match StepNode(n.value, args, settled, p)
        case Halt(o) => o
        case Go(q) => Walk(g, args, settled, q, budget - 1)
  }

  function Start(g: IrGraph): Point { Point(g.entry, None, []) }

  function Budget(g: IrGraph): nat { |g.nodes| + 4 }

  function Advance(g: IrGraph, args: Json, settled: Settled): Outcome {
    Walk(g, args, settled, Start(g), Budget(g))
  }

  // ---------------------------------------------------------------- the loops of the interpreter

  method RunLoop(l: Loop, arr: seq<Json>, args: Json, settled: Settled, env: Env) returns (r: Option<Json>)
    ensures r == (if l.kind.LFold? && Eval(l.init, args, settled, env).None? then None
                  else EvalElems(l, arr, if l.kind.LFold? then Eval(l.init, args, settled, env).value else JArr([]),
                                 args, settled, env))
  {
    var running := JNull;
    if l.kind.LFold? {
      var init := Eval(l.init, args, settled, env);
      if init.None? { return None; }
      running := init.value;
    }
    ghost var start := if l.kind.LFold? then running else JArr([]);
    var out: seq<Json> := [];
    for i := 0 to |arr|
      invariant EvalElems(l, arr[..i], start, args, settled, env) == Some(if l.kind.LFold? then running else JArr(out))
    {
      assert arr[..i + 1][..i] == arr[..i];
      var before := if l.kind.LFold? then running else JArr(out);
      var v := Eval(l.body, args, settled, BodyEnv(l, env, arr[i], before));
      if v.None? {
        FaultStays(l, arr, i + 1, start, args, settled, env);
        return None;
      }
      match l.kind {
        case LFold => running := v.value;
        case LMap => out := out + [v.value];
        case LFilter =>
          if !v.value.JBool? {
            FaultStays(l, arr, i + 1, start, args, settled, env);
            return None;
          }
          if v.value.b { out := out + [arr[i]]; }
      }
    }
    assert arr[..|arr|] == arr;
    return Some(if l.kind.LFold? then running else JArr(out));
  }

  lemma {:induction false} FaultStays(l: Loop, arr: seq<Json>, k: nat, start: Json, args: Json, settled: Settled,
                                      env: Env)
    requires k <= |arr| && (!l.kind.LFold? ==> start == JArr([]))
    requires EvalElems(l, arr[..k], start, args, settled, env).None?
    ensures EvalElems(l, arr, start, args, settled, env).None?
    decreases |arr| - k
  {
    if k == |arr| {
      assert arr[..k] == arr;
    } else {
      assert arr[..k + 1][..k] == arr[..k];
      FaultStays(l, arr, k + 1, start, args, settled, env);
    }
  }

  /** The interpreter's own loop: a position, a predecessor, a growing local table and a budget. */
  method Replay(g: IrGraph, args: Json, settled: Settled) returns (o: Outcome)
    ensures o == Advance(g, args, settled)
  {
    var cur, prev, env, steps := g.entry, None, [], 0;
    while steps < |g.nodes| + 4
      invariant 0 <= steps <= |g.nodes| + 4
      invariant Advance(g, args, settled) == Walk(g, args, settled, Point(cur, prev, env), |g.nodes| + 4 - steps)
    {
      steps := steps + 1;
      var found := Find(g.nodes, cur);
      if found.None? { return Fault; }
      match StepNode(found.value, args, settled, Point(cur, prev, env)) {
        case Halt(outcome) => return outcome;
        case Go(q) => cur, prev, env := q.cur, q.prev, q.env;
      }
    }
    return Fault;
  }
}
