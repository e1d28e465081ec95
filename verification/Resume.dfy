/** Stopping anywhere and replaying from the durable arguments and results is the uninterrupted run. */
module Resume {
  import opened Options
  import opened Graph

  ghost predicate Extends(a: Settled, b: Settled) { forall k :: k in a ==> k in b && b[k] == a[k] }

  // ---------------------------------------------------------------- more results change no value

  lemma {:induction false} EvalStable(e: Expr, args: Json, a: Settled, b: Settled, env: Env)
    requires Extends(a, b) && Eval(e, args, a, env).Some?
    ensures Eval(e, args, b, env) == Eval(e, args, a, env)
    decreases e
  {
    match e
    case EObject(fields) => FieldsStable(fields, args, a, b, env);
    case EArray(elems) => AllStable(elems, args, a, b, env);
    case _ =>
  }

  lemma {:induction false} FieldsStable(fs: seq<Field>, args: Json, a: Settled, b: Settled, env: Env)
    requires Extends(a, b) && EvalFields(fs, args, a, env).Some?
    ensures EvalFields(fs, args, b, env) == EvalFields(fs, args, a, env)
    decreases fs
  {
    if fs != [] {
      FieldsStable(fs[..|fs| - 1], args, a, b, env);
      EvalStable(fs[|fs| - 1].value, args, a, b, env);
    }
  }

  lemma {:induction false} AllStable(es: seq<Expr>, args: Json, a: Settled, b: Settled, env: Env)
    requires Extends(a, b) && EvalAll(es, args, a, env).Some?
    ensures EvalAll(es, args, b, env) == EvalAll(es, args, a, env)
    decreases es
  {
    if es != [] {
      AllStable(es[..|es| - 1], args, a, b, env);
      EvalStable(es[|es| - 1], args, a, b, env);
    }
  }

  lemma {:induction false} ElemsStable(l: Loop, arr: seq<Json>, start: Json, args: Json, a: Settled, b: Settled,
                                       env: Env)
    requires Extends(a, b) && (!l.kind.LFold? ==> start == JArr([]))
    requires EvalElems(l, arr, start, args, a, env).Some?
    ensures EvalElems(l, arr, start, args, b, env) == EvalElems(l, arr, start, args, a, env)
    decreases |arr|
  {
    if arr != [] {
      ElemsStable(l, arr[..|arr| - 1], start, args, a, b, env);
      var before := EvalElems(l, arr[..|arr| - 1], start, args, a, env).value;
      EvalStable(l.body, args, a, b, BodyEnv(l, env, arr[|arr| - 1], before));
    }
  }

  lemma LoopStable(l: Loop, args: Json, a: Settled, b: Settled, env: Env)
    requires Extends(a, b) && EvalLoop(l, args, a, env).Some?
    ensures EvalLoop(l, args, b, env) == EvalLoop(l, args, a, env)
  {
    EvalStable(l.source, args, a, b, env);
    var arr := Eval(l.source, args, a, env).value.elems;
    if l.kind.LFold? {
      EvalStable(l.init, args, a, b, env);
      ElemsStable(l, arr, Eval(l.init, args, a, env).value, args, a, b, env);
    } else {
      ElemsStable(l, arr, JArr([]), args, a, b, env);
    }
  }

  /** A node that was passed is passed the same way once more results are known. */
  lemma StrideStable(n: Node, args: Json, a: Settled, b: Settled, p: Point)
    requires Extends(a, b) && StepNode(n, args, a, p).Go?
    ensures StepNode(n, args, b, p) == StepNode(n, args, a, p)
  {
    match n
    case NLet(_, _, value, _) => EvalStable(value, args, a, b, p.env);
    case NIf(_, cond, _, _) => EvalStable(cond, args, a, b, p.env);
    case NCase(_, scrutinee, _, _) => EvalStable(scrutinee, args, a, b, p.env);
    case NLoop(_, loop, _) => LoopStable(loop, args, a, b, p.env);
    case NMerge(_, _, sources, _) => EvalStable(Pick(sources, p.prev).value, args, a, b, p.env);
    case _ =>
  }

  // ---------------------------------------------------------------- where a walk comes to rest

  /** Where a walk stops, and the budget it has left there. */
  datatype Rest = Rest(outcome: Outcome, at: Point, left: nat)

  function WalkTo(g: IrGraph, args: Json, settled: Settled, p: Point, budget: nat): Rest
    decreases budget
  {
    if budget == 0 || Find(g.nodes, p.cur).None? then Rest(Fault, p, budget)
    else
      match StepNode(Find(g.nodes, p.cur).value, args, settled, p)
      case Halt(o) => Rest(o, p, budget)
      case Go(q) => WalkTo(g, args, settled, q, budget - 1)
  }

  lemma {:induction false} WalkToIsWalk(g: IrGraph, args: Json, settled: Settled, p: Point, budget: nat)
    ensures WalkTo(g, args, settled, p, budget).outcome == Walk(g, args, settled, p, budget)
    decreases budget
  {
    if budget > 0 && Find(g.nodes, p.cur).Some? {
      match StepNode(Find(g.nodes, p.cur).value, args, settled, p)
      case Halt(_) =>
      case Go(q) => WalkToIsWalk(g, args, settled, q, budget - 1);
    }
  }

  predicate Waits(o: Outcome) { o.NeedOperation? || o.NeedCall? }

  /** The point right behind a node that has just been answered. */
  function Past(g: IrGraph, at: Point): Point {
    var n := Find(g.nodes, at.cur);
    match n
    case Some(NOperation(id, _, _, next)) => Point(next, Some(id), at.env)
    case Some(NCall(id, _, _, _, next)) => Point(next, Some(id), at.env)
    case _ => at
  }

  /** Answering the node a walk waits for, the walk from the same start first makes the very same
    * visits again and then goes on behind the answered node. */
  lemma {:induction false} ReplayReachesPast(g: IrGraph, args: Json, settled: Settled, p: Point, budget: nat,
                                             answer: Json)
    requires Waits(WalkTo(g, args, settled, p, budget).outcome)
    ensures var rest := WalkTo(g, args, settled, p, budget);
            rest.left > 0 && rest.outcome.node !in settled
            && WalkTo(g, args, settled[rest.outcome.node := answer], p, budget)
               == WalkTo(g, args, settled[rest.outcome.node := answer], Past(g, rest.at), rest.left - 1)
    decreases budget
  {
    var rest := WalkTo(g, args, settled, p, budget);
    var more := settled[rest.outcome.node := answer];
    var n := Find(g.nodes, p.cur).value;
    match StepNode(n, args, settled, p)
    case Halt(_) =>
    case Go(q) =>
      ReplayReachesPast(g, args, settled, q, budget - 1, answer);
      StrideStable(n, args, settled, more, p);
  }

  // ---------------------------------------------------------------- whole drives

  /** A driver that never stops: it goes on from where it waited, with the locals it holds. */
  function Uninterrupted(g: IrGraph, args: Json, settled: Settled, p: Point, budget: nat,
                         answers: seq<Json>): seq<Outcome>
    decreases |answers|
  {
    var rest := WalkTo(g, args, settled, p, budget);
    if !Waits(rest.outcome) || answers == [] || rest.left == 0 then [rest.outcome]
    else
      [rest.outcome]
      + Uninterrupted(g, args, settled[rest.outcome.node := answers[0]], Past(g, rest.at), rest.left - 1, answers[1..])
  }

  /** A driver that crashes after every settled answer: each time it knows only the durable
    * arguments and results, and replays from the entry. */
  function Restarted(g: IrGraph, args: Json, settled: Settled, answers: seq<Json>): seq<Outcome>
    decreases |answers|
  {
    var o := Advance(g, args, settled);
    if !Waits(o) || answers == [] then [o]
    else [o] + Restarted(g, args, settled[o.node := answers[0]], answers[1..])
  }

  lemma AdvanceIsWalkTo(g: IrGraph, args: Json, settled: Settled)
    ensures Advance(g, args, settled) == WalkTo(g, args, settled, Start(g), Budget(g)).outcome
  {
    WalkToIsWalk(g, args, settled, Start(g), Budget(g));
  }

  lemma {:induction false} RestartsAgree(g: IrGraph, args: Json, settled: Settled, p: Point, budget: nat,
                                         answers: seq<Json>)
    requires WalkTo(g, args, settled, p, budget) == WalkTo(g, args, settled, Start(g), Budget(g))
    ensures Uninterrupted(g, args, settled, p, budget, answers) == Restarted(g, args, settled, answers)
    decreases |answers|
  {
    hide WalkTo, Advance, Past;
    var rest := WalkTo(g, args, settled, p, budget);
    AdvanceIsWalkTo(g, args, settled);
    if Waits(rest.outcome) {
      ReplayReachesPast(g, args, settled, Start(g), Budget(g), if answers == [] then JNull else answers[0]);
      if answers != [] {
        var more := settled[rest.outcome.node := answers[0]];
        RestartsAgree(g, args, more, Past(g, rest.at), rest.left - 1, answers[1..]);
      }
    }
  }

  /** For every graph, arguments and answers: restarting after any settled prefix asks for the same
    * operations with the same inputs, takes the same branches, and ends the same way. */
  lemma ResumeIsUninterrupted(g: IrGraph, args: Json, answers: seq<Json>)
    ensures Uninterrupted(g, args, map[], Start(g), Budget(g), answers) == Restarted(g, args, map[], answers)
  {
    RestartsAgree(g, args, map[], Start(g), Budget(g), answers);
  }

  /** No settled operation is ever asked for again. */
  lemma {:induction false} NeverAskedAgain(g: IrGraph, args: Json, settled: Settled, answers: seq<Json>, i: nat)
    requires i < |Restarted(g, args, settled, answers)| && Waits(Restarted(g, args, settled, answers)[i])
    ensures Restarted(g, args, settled, answers)[i].node !in settled
    ensures forall j :: 0 <= j < i ==>
              Waits(Restarted(g, args, settled, answers)[j])
              && Restarted(g, args, settled, answers)[j].node != Restarted(g, args, settled, answers)[i].node
    decreases |answers|
  {
    var os := Restarted(g, args, settled, answers);
    WalkToIsWalk(g, args, settled, Start(g), Budget(g));
    if i == 0 {
      ReplayReachesPast(g, args, settled, Start(g), Budget(g), JNull);
    } else {
      var more := settled[os[0].node := answers[0]];
      NeverAskedAgain(g, args, more, answers[1..], i - 1);
      assert os[1..] == Restarted(g, args, more, answers[1..]);
      forall j | 0 <= j < i ensures Waits(os[j]) && os[j].node != os[i].node {
        if j > 0 { assert os[j] == os[1..][j - 1] && os[i] == os[1..][i - 1]; }
      }
    }
  }
}
