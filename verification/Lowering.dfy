/** Structured workflow source, its lowering to a graph, and the proof that lowering preserves meaning. */
module Lowering {
  import opened Options
  import opened Graph
  import opened Resume

  // ---------------------------------------------------------------- the statement tree

  /** A block is a list of statements; every statement carries the id it was given while parsing. */
  datatype Block = End | Seq(id: NodeId, stmt: Stmt, rest: Block)

  datatype Stmt =
    | SOp(operation: string, input: Expr)
    | SCall(child: string, version: string, input: Expr)
    | SLet(name: string, value: Expr)
    | SLoop(loop: Loop)
    | SIf(cond: Expr, thenBody: Block, elseBody: Block, join: Option<Join>)
    | SCase(scrutinee: Expr, arms: Arms, join: Option<Join>)
    | SFail(reason: Expr)
    | SReturn(value: Expr)

  /** The arms of a case, ending in its default. */
  datatype Arms = Default(body: Block) | When(lit: Json, body: Block, others: Arms)

  /** A `merge` clause: one value per branch, the else or default value last. */
  datatype Join = Join(id: NodeId, name: string, values: seq<Expr>)

  // ---------------------------------------------------------------- what the parser guarantees

  /** How many node ids a statement takes. */
  function StmtSize(s: Stmt): nat {
    match s
    case SIf(_, a, b, join) => 1 + BlockSize(a) + BlockSize(b) + (if join.Some? then 1 else 0)
    case SCase(_, arms, join) => 1 + ArmsSize(arms) + (if join.Some? then 1 else 0)
    case _ => 1
  }

  function BlockSize(b: Block): nat {
    match b
    case End => 0
    case Seq(_, s, rest) => StmtSize(s) + BlockSize(rest)
  }

  function ArmsSize(arms: Arms): nat {
    match arms
    case Default(body) => BlockSize(body)
    case When(_, body, others) => BlockSize(body) + ArmsSize(others)
  }

  function Branches(arms: Arms): nat {
    match arms
    case Default(_) => 1
    case When(_, _, others) => 1 + Branches(others)
  }

  /** Ids are allocated in source order: a statement before its bodies, a merge after them. */
  predicate Numbered(b: Block, lo: NodeId) {
    match b
    case End => true
    case Seq(id, s, rest) => id == lo && NumberedStmt(s, lo) && Numbered(rest, lo + StmtSize(s))
  }

  predicate NumberedStmt(s: Stmt, id: NodeId) {
    match s
    case SIf(_, a, b, join) =>
      Numbered(a, id + 1) && Numbered(b, id + 1 + BlockSize(a))
      && (join.Some? ==> join.value.id == id + 1 + BlockSize(a) + BlockSize(b))
    case SCase(_, arms, join) =>
      NumberedArms(arms, id + 1) && (join.Some? ==> join.value.id == id + 1 + ArmsSize(arms))
    case _ => true
  }

  predicate NumberedArms(arms: Arms, lo: NodeId) {
    match arms
    case Default(body) => Numbered(body, lo)
    case When(_, body, others) => Numbered(body, lo) && NumberedArms(others, lo + BlockSize(body))
  }

  /** A branch that feeds a merge is non-empty and ends in an operation, a call or a let. */
  predicate SingleExit(b: Block) {
    match b
    case End => false
    case Seq(_, s, End) => s.SOp? || s.SCall? || s.SLet?
    case Seq(_, _, rest) => SingleExit(rest)
  }

  predicate Joinable(arms: Arms) {
    match arms
    case Default(body) => SingleExit(body)
    case When(_, body, others) => SingleExit(body) && Joinable(others)
  }

  predicate Parsed(b: Block) {
    match b
    case End => true
    case Seq(_, s, rest) => ParsedStmt(s) && Parsed(rest)
  }

  predicate ParsedStmt(s: Stmt) {
    match s
    case SIf(_, a, b, join) =>
      Parsed(a) && Parsed(b) && (join.Some? ==> SingleExit(a) && SingleExit(b) && |join.value.values| == 2)
    case SCase(_, arms, join) =>
      ParsedArms(arms) && (join.Some? ==> Joinable(arms) && |join.value.values| == Branches(arms))
    case _ => true
  }

  predicate ParsedArms(arms: Arms) {
    match arms
    case Default(body) => Parsed(body)
    case When(_, body, others) => Parsed(body) && ParsedArms(others)
  }

  // ---------------------------------------------------------------- direct meaning

  /** Running a block either falls through with more locals or ends the replay. */
  datatype Flow = Through(env: Env) | Ends(outcome: Outcome)

  function Bind(env: Env, name: string, v: Option<Json>): Flow {
    if v.Some? then Through(env + [Local(name, v.value)]) else Ends(Fault)
  }

  /** The value a branch hands to its merge, if there is one. */
  function Merged(f: Flow, join: Option<Join>, branch: nat, args: Json, settled: Settled): Flow
    requires join.Some? ==> branch < |join.value.values|
  {
    if f.Ends? || join.None? then f
    else Bind(f.env, join.value.name, Eval(join.value.values[branch], args, settled, f.env))
  }

  function RunBlock(b: Block, args: Json, settled: Settled, env: Env): Flow
    requires Parsed(b)
    decreases b
  {
    match b
    case End => Through(env)
    case Seq(id, s, rest) =>
      var f := RunStmt(id, s, args, settled, env);
      if f.Ends? then f else RunBlock(rest, args, settled, f.env)
  }

  function RunStmt(id: NodeId, s: Stmt, args: Json, settled: Settled, env: Env): Flow
    requires ParsedStmt(s)
    decreases s
  {
    match s
    case SOp(operation, input) =>
      if id in settled then Through(env)
      else
        var v := Eval(input, args, settled, env);
        Ends(if v.Some? then NeedOperation(id, operation, v.value) else Fault)
    case SCall(child, version, input) =>
      if id in settled then Through(env)
      else
        var v := Eval(input, args, settled, env);
        Ends(if v.Some? then NeedCall(id, child, version, v.value) else Fault)
    case SLet(name, value) => Bind(env, name, Eval(value, args, settled, env))
    case SLoop(loop) => Bind(env, loop.acc, EvalLoop(loop, args, settled, env))
    case SIf(cond, a, b, join) =>
      var v := Eval(cond, args, settled, env);
      if v.None? || !v.value.JBool? then Ends(Fault)
      else if v.value.b then Merged(RunBlock(a, args, settled, env), join, 0, args, settled)
      else Merged(RunBlock(b, args, settled, env), join, 1, args, settled)
    case SCase(scrutinee, arms, join) =>
      var v := Eval(scrutinee, args, settled, env);
      if v.None? then Ends(Fault) else RunArms(arms, v.value, join, 0, args, settled, env)
    case SFail(reason) =>
      var v := Eval(reason, args, settled, env);
      Ends(if v.Some? then Stopped(id, v.value) else Fault)
    case SReturn(value) =>
      var v := Eval(value, args, settled, env);
      Ends(if v.Some? then Returned(v.value) else Fault)
  }

  /** The first arm whose constant equals the scrutinee, else the default. */
  function RunArms(arms: Arms, v: Json, join: Option<Join>, branch: nat, args: Json, settled: Settled, env: Env): Flow
    requires ParsedArms(arms)
    requires join.Some? ==> |join.value.values| == branch + Branches(arms)
    decreases arms
  {
    match arms
    case Default(body) => Merged(RunBlock(body, args, settled, env), join, branch, args, settled)
    case When(lit, body, others) =>
      if lit == v then Merged(RunBlock(body, args, settled, env), join, branch, args, settled)
      else RunArms(others, v, join, branch + 1, args, settled, env)
  }

  /** The meaning of a whole workflow; falling off the end returns the unit value. */
  function Meaning(b: Block, args: Json, settled: Settled): Outcome
    requires Parsed(b)
  {
    var f := RunBlock(b, args, settled, []);
    if f.Ends? then f.outcome else Returned(JNull)
  }

  // ---------------------------------------------------------------- lowering

  function EntryOf(b: Block, succ: NodeId): NodeId { if b.End? then succ else b.id }

  function ExitOf(b: Block): NodeId
    requires b.Seq?
  {
    if b.rest.End? then b.id else ExitOf(b.rest)
  }

  function LowerBlock(b: Block, succ: NodeId): seq<Node>
    requires Parsed(b)
    decreases b
  {
    match b
    case End => []
    case Seq(id, s, rest) => LowerStmt(id, s, EntryOf(rest, succ)) + LowerBlock(rest, succ)
  }

  function JoinTarget(join: Option<Join>, succ: NodeId): NodeId { if join.Some? then join.value.id else succ }

  function LowerStmt(id: NodeId, s: Stmt, succ: NodeId): seq<Node>
    requires ParsedStmt(s)
    decreases s
  {
    match s
    case SOp(operation, input) => [NOperation(id, operation, input, succ)]
    case SCall(child, version, input) => [NCall(id, child, version, input, succ)]
    case SLet(name, value) => [NLet(id, name, value, succ)]
    case SLoop(loop) => [NLoop(id, loop, succ)]
    case SFail(reason) => [NFail(id, reason)]
    case SReturn(value) => [NReturn(id, value)]
    case SIf(cond, a, b, join) =>
      var to := JoinTarget(join, succ);
      [NIf(id, cond, EntryOf(a, to), EntryOf(b, to))] + LowerBlock(a, to) + LowerBlock(b, to)
      + (if join.None? then []
         else [NMerge(join.value.id, join.value.name,
                      [Source(ExitOf(a), join.value.values[0]), Source(ExitOf(b), join.value.values[1])], succ)])
    case SCase(scrutinee, arms, join) =>
      var to := JoinTarget(join, succ);
      [NCase(id, scrutinee, ArmTargets(arms, to), DefaultTarget(arms, to))] + LowerArms(arms, to)
      + (if join.None? then []
         else [NMerge(join.value.id, join.value.name, Sources(arms, join.value.values), succ)])
  }

  function LowerArms(arms: Arms, to: NodeId): seq<Node>
    requires ParsedArms(arms)
    decreases arms
  {
    match arms
    case Default(body) => LowerBlock(body, to)
    case When(_, body, others) => LowerBlock(body, to) + LowerArms(others, to)
  }

  function ArmTargets(arms: Arms, to: NodeId): seq<Arm> {
    match arms
    case Default(_) => []
    case When(lit, body, others) => [Arm(lit, EntryOf(body, to))] + ArmTargets(others, to)
  }

  function DefaultTarget(arms: Arms, to: NodeId): NodeId {
    match arms
    case Default(body) => EntryOf(body, to)
    case When(_, _, others) => DefaultTarget(others, to)
  }

  function Sources(arms: Arms, values: seq<Expr>): seq<Source>
    requires Joinable(arms) && |values| == Branches(arms)
  {
    match arms
    case Default(body) => [Source(ExitOf(body), values[0])]
    case When(_, body, others) => [Source(ExitOf(body), values[0])] + Sources(others, values[1..])
  }

  /** Can control reach the implicit return behind this block? */
  predicate FallsThrough(b: Block) {
    match b
    case End => true
    case Seq(_, s, End) => StmtFallsThrough(s)
    case Seq(_, _, rest) => FallsThrough(rest)
  }

  predicate StmtFallsThrough(s: Stmt) {
    match s
    case SFail(_) => false
    case SReturn(_) => false
    case SIf(_, a, b, join) => join.Some? || b.End? || FallsThrough(a) || FallsThrough(b)
    case SCase(_, arms, join) => join.Some? || ArmsFallThrough(arms)
    case _ => true
  }

  predicate ArmsFallThrough(arms: Arms) {
    match arms
    case Default(body) => FallsThrough(body)
    case When(_, body, others) => FallsThrough(body) || ArmsFallThrough(others)
  }

  /** The whole graph: the implicit return, if anything can reach it, takes the next free id. */
  function Lower(b: Block): IrGraph
    requires Parsed(b)
  {
    var ret := BlockSize(b);
    IrGraph((if FallsThrough(b) then [NReturn(ret, EConst(JNull))] else []) + LowerBlock(b, ret), EntryOf(b, ret))
  }

  // ---------------------------------------------------------------- ids

  predicate Within(nodes: seq<Node>, lo: NodeId, hi: NodeId) { forall i :: 0 <= i < |nodes| ==> lo <= nodes[i].id < hi }

  lemma Append(a: seq<Node>, b: seq<Node>, lo: NodeId, mid: NodeId, hi: NodeId)
    requires UniqueIds(a) && UniqueIds(b) && Within(a, lo, mid) && Within(b, mid, hi) && lo <= mid <= hi
    ensures UniqueIds(a + b) && Within(a + b, lo, hi)
  {}

  /** Lowering emits one node per allocated id, each id once. */
  lemma {:induction false} BlockIds(b: Block, succ: NodeId, lo: NodeId)
    requires Parsed(b) && Numbered(b, lo)
    ensures var ns := LowerBlock(b, succ); |ns| == BlockSize(b) && UniqueIds(ns) && Within(ns, lo, lo + BlockSize(b))
    decreases b
  {
    match b
    case End =>
    case Seq(id, s, rest) =>
      StmtIds(id, s, EntryOf(rest, succ));
      BlockIds(rest, succ, lo + StmtSize(s));
      Append(LowerStmt(id, s, EntryOf(rest, succ)), LowerBlock(rest, succ), lo, lo + StmtSize(s), lo + BlockSize(b));
  }

  lemma {:induction false} IfIds(id: NodeId, s: Stmt, succ: NodeId)
    requires s.SIf? && ParsedStmt(s) && NumberedStmt(s, id)
    ensures var ns := LowerStmt(id, s, succ); |ns| == StmtSize(s) && UniqueIds(ns) && Within(ns, id, id + StmtSize(s))
    decreases s, 0
  {
    var SIf(cond, a, b, join) := s;
    var to := JoinTarget(join, succ);
    var head := [NIf(id, cond, EntryOf(a, to), EntryOf(b, to))];
    BlockIds(a, to, id + 1);
    BlockIds(b, to, id + 1 + BlockSize(a));
    var mid := id + 1 + BlockSize(a);
    var hi := mid + BlockSize(b);
    Append(head, LowerBlock(a, to), id, id + 1, mid);
    Append(head + LowerBlock(a, to), LowerBlock(b, to), id, mid, hi);
    var body := head + LowerBlock(a, to) + LowerBlock(b, to);
    if join.Some? {
      var m := [NMerge(join.value.id, join.value.name,
                       [Source(ExitOf(a), join.value.values[0]), Source(ExitOf(b), join.value.values[1])], succ)];
      Append(body, m, id, hi, hi + 1);
    } else {
      assert body + [] == body;
    }
  }

  lemma {:induction false} CaseIds(id: NodeId, s: Stmt, succ: NodeId)
    requires s.SCase? && ParsedStmt(s) && NumberedStmt(s, id)
    ensures var ns := LowerStmt(id, s, succ); |ns| == StmtSize(s) && UniqueIds(ns) && Within(ns, id, id + StmtSize(s))
    decreases s, 0
  {
    var SCase(scrutinee, arms, join) := s;
    var to := JoinTarget(join, succ);
    var head := [NCase(id, scrutinee, ArmTargets(arms, to), DefaultTarget(arms, to))];
    ArmsIds(arms, to, id + 1);
    var hi := id + 1 + ArmsSize(arms);
    Append(head, LowerArms(arms, to), id, id + 1, hi);
    var body := head + LowerArms(arms, to);
    if join.Some? {
      Append(body, [NMerge(join.value.id, join.value.name, Sources(arms, join.value.values), succ)], id, hi, hi + 1);
    } else {
      assert body + [] == body;
    }
  }

  lemma {:induction false} StmtIds(id: NodeId, s: Stmt, succ: NodeId)
    requires ParsedStmt(s) && NumberedStmt(s, id)
    ensures var ns := LowerStmt(id, s, succ); |ns| == StmtSize(s) && UniqueIds(ns) && Within(ns, id, id + StmtSize(s))
    decreases s, 1
  {
    match s
    case SIf(_, _, _, _) => IfIds(id, s, succ);
    case SCase(_, _, _) => CaseIds(id, s, succ);
    case _ =>
  }

  lemma {:induction false} ArmsIds(arms: Arms, to: NodeId, lo: NodeId)
    requires ParsedArms(arms) && NumberedArms(arms, lo)
    ensures var ns := LowerArms(arms, to);
            |ns| == ArmsSize(arms) && UniqueIds(ns) && Within(ns, lo, lo + ArmsSize(arms))
    decreases arms
  {
    match arms
    case Default(body) => BlockIds(body, to, lo);
    case When(_, body, others) =>
      BlockIds(body, to, lo);
      ArmsIds(others, to, lo + BlockSize(body));
      Append(LowerBlock(body, to), LowerArms(others, to), lo, lo + BlockSize(body), lo + ArmsSize(arms));
  }

  lemma {:induction false} ExitWithin(b: Block, lo: NodeId)
    requires b.Seq? && Numbered(b, lo)
    ensures lo <= ExitOf(b) < lo + BlockSize(b)
    decreases b
  {
    assert StmtSize(b.stmt) >= 1;
    if b.rest.Seq? { ExitWithin(b.rest, lo + StmtSize(b.stmt)); }
  }

  lemma SingleExitSeq(b: Block)
    requires SingleExit(b)
    ensures b.Seq?
  {}

  // ---------------------------------------------------------------- simulation

  ghost predicate Contains(g: IrGraph, nodes: seq<Node>) { forall n :: n in nodes ==> n in g.nodes }

  /** The walk from `p` ends as the flow says, or arrives at `succ` as point `q` with budget `left`. */
  ghost predicate Follows(g: IrGraph, args: Json, settled: Settled, p: Point, budget: nat, f: Flow, succ: NodeId,
                          size: nat, q: Point, left: nat) {
    match f
    case Ends(o) => Walk(g, args, settled, p, budget) == o
    case Through(env) =>
      q.cur == succ && q.env == env && left + size >= budget
      && Walk(g, args, settled, p, budget) == Walk(g, args, settled, q, left)
  }

  lemma OneStep(g: IrGraph, args: Json, settled: Settled, n: Node, p: Point, budget: nat)
    requires UniqueIds(g.nodes) && n in g.nodes && p.cur == n.id && budget > 0
    ensures Walk(g, args, settled, p, budget)
            == match StepNode(n, args, settled, p)
               case Halt(o) => o
               case Go(q) => Walk(g, args, settled, q, budget - 1)
  {
    FindId(g.nodes, n);
  }

  lemma {:induction false} SimBlock(g: IrGraph, b: Block, lo: NodeId, succ: NodeId, args: Json, settled: Settled,
                                    p: Point, budget: nat)
    returns (q: Point, left: nat)
    requires UniqueIds(g.nodes) && Parsed(b) && Numbered(b, lo) && Contains(g, LowerBlock(b, succ))
    requires p.cur == EntryOf(b, succ) && budget >= BlockSize(b)
    ensures Follows(g, args, settled, p, budget, RunBlock(b, args, settled, p.env), succ, BlockSize(b), q, left)
    ensures RunBlock(b, args, settled, p.env).Through? && SingleExit(b) ==> q.prev == Some(ExitOf(b))
    ensures b.End? ==> q == p && left == budget
    decreases b
  {
    hide Walk, LowerStmt, UniqueIds, RunStmt;
    match b
    case End => q, left := p, budget;
    case Seq(id, s, rest) =>
      var next := EntryOf(rest, succ);
      var head := LowerStmt(id, s, next);
      assert forall n :: n in head ==> n in LowerBlock(b, succ);
      assert forall n :: n in LowerBlock(rest, succ) ==> n in LowerBlock(b, succ);
      var r, mid := SimStmt(g, id, s, next, args, settled, p, budget);
      q, left := r, mid;
      if RunStmt(id, s, args, settled, p.env).Through? {
        q, left := SimBlock(g, rest, lo + StmtSize(s), succ, args, settled, r, mid);
      }
  }

  /** A node that binds one local, or passes an answered operation. */
  lemma SimSimple(g: IrGraph, id: NodeId, s: Stmt, succ: NodeId, args: Json, settled: Settled, p: Point, budget: nat)
    returns (q: Point, left: nat)
    requires UniqueIds(g.nodes) && !s.SIf? && !s.SCase? && Contains(g, LowerStmt(id, s, succ))
    requires p.cur == id && budget >= 1
    ensures Follows(g, args, settled, p, budget, RunStmt(id, s, args, settled, p.env), succ, 1, q, left)
    ensures RunStmt(id, s, args, settled, p.env).Through? ==> q.prev == Some(id)
  {
    var n := LowerStmt(id, s, succ)[0];
    assert n in LowerStmt(id, s, succ);
    OneStep(g, args, settled, n, p, budget);
    q, left := p, budget;
    match StepNode(n, args, settled, p) {
      case Halt(_) =>
      case Go(r) => q, left := r, budget - 1;
    }
  }

  /** The last step of a joined branch: the merge picks the value of the branch it came from. */
  lemma SimJoin(g: IrGraph, m: Node, join: Join, branch: nat, succ: NodeId, args: Json, settled: Settled, f: Flow,
                r: Point, mid: nat, p: Point, budget: nat, size: nat)
    returns (q: Point, left: nat)
    requires UniqueIds(g.nodes) && m.NMerge? && m in g.nodes && m.id == join.id && m.name == join.name && m.next == succ
    requires branch < |join.values| && budget >= size + 1
    requires Follows(g, args, settled, p, budget, f, join.id, size, r, mid)
    requires f.Through? ==> Pick(m.sources, r.prev) == Some(join.values[branch])
    ensures Follows(g, args, settled, p, budget, Merged(f, Some(join), branch, args, settled), succ, size + 1, q, left)
  {
    q, left := r, mid;
    if f.Through? {
      OneStep(g, args, settled, m, r, mid);
      match StepNode(m, args, settled, r) {
        case Halt(_) =>
        case Go(t) => q, left := t, mid - 1;
      }
    }
  }

  lemma FollowsFrom(g: IrGraph, args: Json, settled: Settled, p: Point, r: Point, budget: nat, f: Flow, succ: NodeId,
                    size: nat, q: Point, left: nat)
    requires budget > 0 && Walk(g, args, settled, p, budget) == Walk(g, args, settled, r, budget - 1)
    requires Follows(g, args, settled, r, budget - 1, f, succ, size, q, left)
    ensures forall more: nat :: more >= size + 1 ==> Follows(g, args, settled, p, budget, f, succ, more, q, left)
  {}

  lemma FollowsLonger(g: IrGraph, args: Json, settled: Settled, p: Point, budget: nat, f: Flow, succ: NodeId, size: nat,
                      more: nat, q: Point, left: nat)
    requires Follows(g, args, settled, p, budget, f, succ, size, q, left) && size <= more
    ensures Follows(g, args, settled, p, budget, f, succ, more, q, left)
  {}

  lemma {:induction false} SimStmt(g: IrGraph, id: NodeId, s: Stmt, succ: NodeId, args: Json, settled: Settled,
                                   p: Point, budget: nat)
    returns (q: Point, left: nat)
    requires UniqueIds(g.nodes) && ParsedStmt(s) && NumberedStmt(s, id) && Contains(g, LowerStmt(id, s, succ))
    requires p.cur == id && budget >= StmtSize(s)
    ensures Follows(g, args, settled, p, budget, RunStmt(id, s, args, settled, p.env), succ, StmtSize(s), q, left)
    ensures RunStmt(id, s, args, settled, p.env).Through? && (s.SOp? || s.SCall? || s.SLet?) ==> q.prev == Some(id)
    decreases s
  {
    match s
    case SIf(cond, a, b, join) => q, left := SimIf(g, id, s, succ, args, settled, p, budget);
    case SCase(scrutinee, arms, join) => q, left := SimCase(g, id, s, succ, args, settled, p, budget);
    case _ => q, left := SimSimple(g, id, s, succ, args, settled, p, budget);
  }

  /** The merge of an if tells its two branches apart by their exits. */
  lemma PickBranch(a: Block, b: Block, lo: NodeId, x: Expr, y: Expr)
    requires SingleExit(a) && SingleExit(b) && Numbered(a, lo) && Numbered(b, lo + BlockSize(a))
    ensures a.Seq? && b.Seq?
    ensures Pick([Source(ExitOf(a), x), Source(ExitOf(b), y)], Some(ExitOf(a))) == Some(x)
    ensures Pick([Source(ExitOf(a), x), Source(ExitOf(b), y)], Some(ExitOf(b))) == Some(y)
  {
    SingleExitSeq(a);
    SingleExitSeq(b);
    ExitWithin(a, lo);
    ExitWithin(b, lo + BlockSize(a));
    assert [Source(ExitOf(a), x), Source(ExitOf(b), y)][1..] == [Source(ExitOf(b), y)];
  }

  lemma IfNodes(g: IrGraph, id: NodeId, s: Stmt, succ: NodeId)
    requires s.SIf? && ParsedStmt(s) && Contains(g, LowerStmt(id, s, succ))
    ensures var to := JoinTarget(s.join, succ);
            NIf(id, s.cond, EntryOf(s.thenBody, to), EntryOf(s.elseBody, to)) in g.nodes
            && Contains(g, LowerBlock(s.thenBody, to)) && Contains(g, LowerBlock(s.elseBody, to))
            && (s.join.Some? ==>
                  NMerge(s.join.value.id, s.join.value.name,
                         [Source(ExitOf(s.thenBody), s.join.value.values[0]),
                          Source(ExitOf(s.elseBody), s.join.value.values[1])], succ) in g.nodes)
  {
    hide LowerBlock, EntryOf, ExitOf;
  }

  lemma {:induction false} SimIf(g: IrGraph, id: NodeId, s: Stmt, succ: NodeId, args: Json, settled: Settled, p: Point,
                                 budget: nat)
    returns (q: Point, left: nat)
    requires s.SIf?
    requires UniqueIds(g.nodes) && ParsedStmt(s) && NumberedStmt(s, id) && Contains(g, LowerStmt(id, s, succ))
    requires p.cur == id && budget >= StmtSize(s)
    ensures Follows(g, args, settled, p, budget, RunStmt(id, s, args, settled, p.env), succ, StmtSize(s), q, left)
    decreases s, 0
  {
    hide Follows, LowerBlock, LowerStmt, Numbered, UniqueIds, Contains, RunBlock, EntryOf, ExitOf;
    var SIf(cond, a, b, join) := s;
    var to := JoinTarget(join, succ);
    IfNodes(g, id, s, succ);
    var n := NIf(id, cond, EntryOf(a, to), EntryOf(b, to));
    OneStep(g, args, settled, n, p, budget);
    q, left := p, budget;
    var v := Eval(cond, args, settled, p.env);
    if v.None? || !v.value.JBool? {
      EndFollows(g, args, settled, p, budget, Fault, succ, StmtSize(s), q, left);
    } else {
      var branch := if v.value.b then 0 else 1;
      var body := if v.value.b then a else b;
      var lo := if v.value.b then id + 1 else id + 1 + BlockSize(a);
      var r := Point(EntryOf(body, to), Some(id), p.env);
      var t, mid := SimBlock(g, body, lo, to, args, settled, r, budget - 1);
      var f := RunBlock(body, args, settled, p.env);
      FollowsFrom(g, args, settled, p, r, budget, f, to, BlockSize(body), t, mid);
      q, left := t, mid;
      if join.Some? {
        PickBranch(a, b, id + 1, join.value.values[0], join.value.values[1]);
        var sources := [Source(ExitOf(a), join.value.values[0]), Source(ExitOf(b), join.value.values[1])];
        q, left := SimJoin(g, NMerge(join.value.id, join.value.name, sources, succ), join.value, branch, succ, args,
                           settled, f, t, mid, p, budget, BlockSize(a) + BlockSize(b) + 1);
      }
    }
  }

  lemma EndFollows(g: IrGraph, args: Json, settled: Settled, p: Point, budget: nat, o: Outcome, succ: NodeId, size: nat,
                   q: Point, left: nat)
    requires Walk(g, args, settled, p, budget) == o
    ensures Follows(g, args, settled, p, budget, Ends(o), succ, size, q, left)
  {}

  /** Sources of earlier arms have smaller exits, so they do not shadow a later one. */
  lemma {:induction false} PickArm(arms: Arms, values: seq<Expr>, lo: NodeId)
    requires Joinable(arms) && NumberedArms(arms, lo) && |values| == Branches(arms)
    ensures var first := match arms case Default(body) => body case When(_, body, _) => body;
            first.Seq? && Pick(Sources(arms, values), Some(ExitOf(first))) == Some(values[0])
    ensures arms.When? ==>
              forall x: NodeId :: x >= lo + BlockSize(arms.body) ==>
                Pick(Sources(arms, values), Some(x)) == Pick(Sources(arms.others, values[1..]), Some(x))
  {
    var first := match arms case Default(body) => body case When(_, body, _) => body;
    SingleExitSeq(first);
    ExitWithin(first, lo);
    if arms.When? {
      assert Sources(arms, values)[1..] == Sources(arms.others, values[1..]);
    }
  }

  lemma CaseNodes(g: IrGraph, id: NodeId, s: Stmt, succ: NodeId)
    requires s.SCase? && ParsedStmt(s) && Contains(g, LowerStmt(id, s, succ))
    ensures var to := JoinTarget(s.join, succ);
            NCase(id, s.scrutinee, ArmTargets(s.arms, to), DefaultTarget(s.arms, to)) in g.nodes
            && Contains(g, LowerArms(s.arms, to))
            && (s.join.Some? ==>
                  NMerge(s.join.value.id, s.join.value.name, Sources(s.arms, s.join.value.values), succ) in g.nodes)
  {
    hide LowerArms, ArmTargets, DefaultTarget, Sources;
  }

  lemma {:induction false} SimCase(g: IrGraph, id: NodeId, s: Stmt, succ: NodeId, args: Json, settled: Settled,
                                   p: Point, budget: nat)
    returns (q: Point, left: nat)
    requires s.SCase?
    requires UniqueIds(g.nodes) && ParsedStmt(s) && NumberedStmt(s, id) && Contains(g, LowerStmt(id, s, succ))
    requires p.cur == id && budget >= StmtSize(s)
    ensures Follows(g, args, settled, p, budget, RunStmt(id, s, args, settled, p.env), succ, StmtSize(s), q, left)
    decreases s, 0
  {
    hide Follows, LowerArms, LowerStmt, UniqueIds, Contains, ArmTargets, DefaultTarget, RunArms, Sources;
    var SCase(scrutinee, arms, join) := s;
    var to := JoinTarget(join, succ);
    CaseNodes(g, id, s, succ);
    OneStep(g, args, settled, NCase(id, scrutinee, ArmTargets(arms, to), DefaultTarget(arms, to)), p, budget);
    q, left := p, budget;
    var v := Eval(scrutinee, args, settled, p.env);
    if v.None? {
      EndFollows(g, args, settled, p, budget, Fault, succ, StmtSize(s), q, left);
    } else {
      var r := Point(Target(ArmTargets(arms, to), v.value, DefaultTarget(arms, to)), Some(id), p.env);
      var sources := if join.Some? then Sources(arms, join.value.values) else [];
      if join.Some? { assert join.value.values[0..] == join.value.values; }
      q, left := SimArms(g, arms, id + 1, v.value, join, 0, sources, succ, args, settled, r, budget - 1);
      FollowsFrom(g, args, settled, p, r, budget, RunArms(arms, v.value, join, 0, args, settled, p.env), succ,
                  ArmsSize(arms) + (if join.Some? then 1 else 0), q, left);
    }
  }

  lemma {:induction false} SimArms(g: IrGraph, arms: Arms, lo: NodeId, v: Json, join: Option<Join>, branch: nat,
                                   sources: seq<Source>, succ: NodeId, args: Json, settled: Settled, p: Point,
                                   budget: nat)
    returns (q: Point, left: nat)
    requires UniqueIds(g.nodes) && ParsedArms(arms) && NumberedArms(arms, lo)
    requires Contains(g, LowerArms(arms, JoinTarget(join, succ)))
    requires p.cur == Target(ArmTargets(arms, JoinTarget(join, succ)), v, DefaultTarget(arms, JoinTarget(join, succ)))
    requires budget >= ArmsSize(arms) + (if join.Some? then 1 else 0)
    requires join.Some? ==>
               Joinable(arms) && |join.value.values| == branch + Branches(arms)
               && NMerge(join.value.id, join.value.name, sources, succ) in g.nodes
               && forall x: NodeId :: x >= lo ==>
                    Pick(sources, Some(x)) == Pick(Sources(arms, join.value.values[branch..]), Some(x))
    ensures Follows(g, args, settled, p, budget, RunArms(arms, v, join, branch, args, settled, p.env), succ,
                    ArmsSize(arms) + (if join.Some? then 1 else 0), q, left)
    decreases arms
  {
    hide Follows, LowerBlock, UniqueIds, Numbered;
    var to := JoinTarget(join, succ);
    var body := match arms case Default(b) => b case When(_, b, _) => b;
    if join.Some? { PickArm(arms, join.value.values[branch..], lo); }
    if arms.When? && arms.lit != v {
      assert forall x :: x in LowerArms(arms.others, to) ==> x in LowerArms(arms, to);
      assert ArmTargets(arms, to)[1..] == ArmTargets(arms.others, to);
      if join.Some? { assert join.value.values[branch..][1..] == join.value.values[branch + 1..]; }
      q, left := SimArms(g, arms.others, lo + BlockSize(body), v, join, branch + 1, sources, succ, args, settled, p,
                         budget);
      FollowsLonger(g, args, settled, p, budget, RunArms(arms.others, v, join, branch + 1, args, settled, p.env), succ,
                    ArmsSize(arms.others) + (if join.Some? then 1 else 0),
                    ArmsSize(arms) + (if join.Some? then 1 else 0), q, left);
    } else {
      assert forall x :: x in LowerBlock(body, to) ==> x in LowerArms(arms, to);
      q, left := SimBlock(g, body, lo, to, args, settled, p, budget);
      if join.None? {
        FollowsLonger(g, args, settled, p, budget, RunBlock(body, args, settled, p.env), succ, BlockSize(body),
                      ArmsSize(arms), q, left);
      } else {
        SingleExitSeq(body);
        ExitWithin(body, lo);
        var f := RunBlock(body, args, settled, p.env);
        q, left := SimJoin(g, NMerge(join.value.id, join.value.name, sources, succ), join.value, branch, succ, args,
                           settled, f, q, left, p, budget, BlockSize(body));
        FollowsLonger(g, args, settled, p, budget, Merged(f, join, branch, args, settled), succ, BlockSize(body) + 1,
                      ArmsSize(arms) + 1, q, left);
      }
    }
  }

  // ---------------------------------------------------------------- the theorem

  /** A block that cannot fall through never does. */
  lemma {:induction false} NoFallThrough(b: Block, args: Json, settled: Settled, env: Env)
    requires Parsed(b) && !FallsThrough(b)
    ensures RunBlock(b, args, settled, env).Ends?
    decreases b
  {
    var Seq(id, s, rest) := b;
    if rest.End? {
      match s
      case SIf(_, x, y, _) =>
        NoFallThrough(x, args, settled, env);
        NoFallThrough(y, args, settled, env);
      case SCase(scrutinee, arms, join) =>
        var v := Eval(scrutinee, args, settled, env);
        if v.Some? {
          NoArmFallsThrough(arms, v.value, join, args, settled, env);
          assert RunArms(arms, v.value, join, 0, args, settled, env).Ends?;
        }
      case _ =>
    } else {
      var f := RunStmt(id, s, args, settled, env);
      if f.Through? { NoFallThrough(rest, args, settled, f.env); }
    }
  }

  lemma {:induction false} NoArmFallsThrough(arms: Arms, v: Json, join: Option<Join>, args: Json, settled: Settled,
                                             env: Env)
    requires ParsedArms(arms) && join.None? && !ArmsFallThrough(arms)
    ensures forall k: nat :: RunArms(arms, v, join, k, args, settled, env).Ends?
    decreases arms
  {
    match arms
    case Default(body) => NoFallThrough(body, args, settled, env);
    case When(_, body, others) =>
      NoFallThrough(body, args, settled, env);
      NoArmFallsThrough(others, v, join, args, settled, env);
  }

  /** Lowering preserves meaning: for every source, arguments and answers, replaying the lowered
    * graph dispatches the same next operation with the same input, or returns, fails or faults
    * exactly as the source does. In particular the replay budget never runs out. */
  lemma LoweringPreservesMeaning(b: Block, args: Json, settled: Settled)
    requires Parsed(b) && Numbered(b, 0)
    ensures Advance(Lower(b), args, settled) == Meaning(b, args, settled)
  {
    var g := Lower(b);
    var ret := BlockSize(b);
    var tail := if FallsThrough(b) then [NReturn(ret, EConst(JNull))] else [];
    BlockIds(b, ret, 0);
    assert UniqueIds(g.nodes);
    assert forall n :: n in LowerBlock(b, ret) ==> n in g.nodes;
    var q, left := SimBlock(g, b, 0, ret, args, settled, Start(g), Budget(g));
    if RunBlock(b, args, settled, []).Through? {
      if !FallsThrough(b) { NoFallThrough(b, args, settled, []); }
      assert tail[0] in g.nodes;
      OneStep(g, args, settled, tail[0], q, left);
    }
  }

  // ---------------------------------------------------------------- whole drives

  /** Driving the source directly: ask, wait for the answer, and evaluate again. */
  function SourceDrive(b: Block, args: Json, settled: Settled, answers: seq<Json>): seq<Outcome>
    requires Parsed(b)
    decreases |answers|
  {
    var o := Meaning(b, args, settled);
    if !Waits(o) || answers == [] then [o]
    else [o] + SourceDrive(b, args, settled[o.node := answers[0]], answers[1..])
  }

  /** Whatever the participants answer, the graph asks for the same operations with the same
    * inputs in the same order as the source, and ends the same way; so does a drive that never
    * stops. */
  lemma {:induction false} DrivesAgree(b: Block, args: Json, settled: Settled, answers: seq<Json>)
    requires Parsed(b) && Numbered(b, 0)
    ensures Restarted(Lower(b), args, settled, answers) == SourceDrive(b, args, settled, answers)
    ensures settled == map[] ==>
              Uninterrupted(Lower(b), args, map[], Start(Lower(b)), Budget(Lower(b)), answers)
              == SourceDrive(b, args, map[], answers)
    decreases |answers|
  {
    hide Lower, Advance, Meaning;
    LoweringPreservesMeaning(b, args, settled);
    var o := Meaning(b, args, settled);
    if Waits(o) && answers != [] { DrivesAgree(b, args, settled[o.node := answers[0]], answers[1..]); }
    ResumeIsUninterrupted(Lower(b), args, answers);
  }

  // ---------------------------------------------------------------- flat plans

  /** A straight line of operations on constant objects, which is emitted as a flat plan. */
  predicate AllPlain(b: Block) {
    b.End? || (b.stmt.SOp? && b.stmt.input.EConst? && b.stmt.input.value.JObj? && AllPlain(b.rest))
  }

  datatype FlatStep = FlatStep(operation: string, input: Json)

  function PlanSteps(b: Block): seq<FlatStep>
    requires AllPlain(b)
  {
    if b.End? then [] else [FlatStep(b.stmt.operation, b.stmt.input.value)] + PlanSteps(b.rest)
  }

  /** A flat plan as a degenerate straight-line graph. */
  function FlatNodes(steps: seq<FlatStep>, at: NodeId): seq<Node>
    decreases |steps|
  {
    if steps == [] then [NReturn(at, EConst(JNull))]
    else [NOperation(at, steps[0].operation, EConst(steps[0].input), at + 1)] + FlatNodes(steps[1..], at + 1)
  }

  function FlatToGraph(steps: seq<FlatStep>): IrGraph { IrGraph(FlatNodes(steps, 0), 0) }

  lemma {:induction false} PlainFallsThrough(b: Block)
    requires AllPlain(b)
    ensures Parsed(b) && FallsThrough(b) && BlockSize(b) == |PlanSteps(b)|
    decreases b
  {
    if b.Seq? { PlainFallsThrough(b.rest); }
  }

  lemma {:induction false} FlatIsLowered(b: Block, lo: NodeId)
    requires AllPlain(b) && Parsed(b) && Numbered(b, lo)
    ensures FlatNodes(PlanSteps(b), lo)
            == LowerBlock(b, lo + BlockSize(b)) + [NReturn(lo + BlockSize(b), EConst(JNull))]
    decreases b
  {
    if b.Seq? {
      assert PlanSteps(b)[1..] == PlanSteps(b.rest);
      FlatIsLowered(b.rest, lo + 1);
      assert b.rest.Seq? ==> b.rest.id == lo + 1;
    }
  }

  /** Graphs with the same nodes under unique ids replay alike, whatever the order of the table. */
  lemma {:induction false} OrderIrrelevant(g: IrGraph, h: IrGraph, args: Json, settled: Settled, p: Point, budget: nat)
    requires UniqueIds(g.nodes) && UniqueIds(h.nodes) && Contains(g, h.nodes) && Contains(h, g.nodes)
    ensures Walk(g, args, settled, p, budget) == Walk(h, args, settled, p, budget)
    decreases budget
  {
    if budget > 0 {
      var n := Find(g.nodes, p.cur);
      if n.Some? {
        FindId(h.nodes, n.value);
      } else if Find(h.nodes, p.cur).Some? {
        FindId(g.nodes, Find(h.nodes, p.cur).value);
      }
      if n.Some? && StepNode(n.value, args, settled, p).Go? {
        OrderIrrelevant(g, h, args, settled, StepNode(n.value, args, settled, p).at, budget - 1);
      }
    }
  }

  lemma Rotated(a: seq<Node>, n: Node)
    requires UniqueIds([n] + a)
    ensures UniqueIds(a + [n]) && (forall x :: x in a + [n] <==> x in [n] + a)
  {
    var s := [n] + a;
    forall i, j | 0 <= i < j < |a + [n]| ensures (a + [n])[i].id != (a + [n])[j].id {
      assert s[i + 1].id != s[if j == |a| then 0 else j + 1].id;
    }
  }

  lemma LowerPlain(b: Block)
    requires AllPlain(b) && Parsed(b) && Numbered(b, 0)
    ensures Lower(b) == IrGraph([NReturn(BlockSize(b), EConst(JNull))] + LowerBlock(b, BlockSize(b)), 0)
    ensures UniqueIds(Lower(b).nodes)
  {
    PlainFallsThrough(b);
    BlockIds(b, BlockSize(b), 0);
  }

  /** The flat form of a plain source means what its graph form means. */
  lemma FlatPlanAgrees(b: Block, args: Json, settled: Settled)
    requires AllPlain(b) && Numbered(b, 0)
    ensures Parsed(b) && Advance(FlatToGraph(PlanSteps(b)), args, settled) == Meaning(b, args, settled)
  {
    hide Meaning, LowerBlock, UniqueIds, Walk, RunBlock, FlatNodes, Numbered, AllPlain, Parsed, FallsThrough, BlockSize,
      Lower,
      PlanSteps;
    PlainFallsThrough(b);
    FlatIsLowered(b, 0);
    LowerPlain(b);
    LoweringPreservesMeaning(b, args, settled);
    var last := NReturn(BlockSize(b), EConst(JNull));
    Rotated(LowerBlock(b, BlockSize(b)), last);
    OrderIrrelevant(FlatToGraph(PlanSteps(b)), Lower(b), args, settled, Start(Lower(b)), Budget(Lower(b)));
  }
}
