/** What an accepted operation depth means for a drive: one plan position per operation, finality
  * exactly at the end of the plan, and no plan violation in the store. */
module Driving {
  import opened Options
  import opened Rows
  import Procedures
  import Coordinator
  import opened Soundness
  import opened Invariant
  import opened InvariantSteps
  import opened Unwinding
  import G = Graph
  import opened OpDepth
  import opened Resume

  // ---------------------------------------------------------------- depths along a walk

  /** From any node some terminal lies at its depth plus its own weight or deeper, so no
    * operation lies beyond the plan. */
  lemma {:induction false} WithinPlan(g: G.IrGraph, rank: map<G.NodeId, nat>, top: nat, d: Depths, length: nat,
                                      n: G.Node)
    requires Validated(g, rank) && Uniform(g, d) && PlanLengthIs(g, d, length) && n in g.nodes
    requires forall k :: k in rank ==> rank[k] <= top
    ensures n.id in rank && n.id in d && d[n.id] + Weight(n) <= length
    decreases top - (if n.id in rank then rank[n.id] else 0)
  {
    assert n.id in Ids(g.nodes);
    if !Terminal(n) {
      var v := NextOf(n);
      EdgeOf(g, n, v);
      G.FindId(g.nodes, n);
      assert v in Ids(g.nodes);
      var m :| m in g.nodes && m.id == v;
      WithinPlan(g, rank, top, d, length, m);
    }
  }

  /** Every node but a terminal has a successor. */
  function NextOf(n: G.Node): (v: G.NodeId)
    requires !Terminal(n)
    ensures v in Succs(n)
  {
    Succs(n)[|Succs(n)| - 1]
  }

  /** Nothing answered lies ahead of the point. */
  ghost predicate Behind(rank: map<G.NodeId, nat>, settled: G.Settled, cur: G.NodeId) {
    cur in rank && forall k :: k in settled ==> k in rank && rank[k] < rank[cur]
  }

  /** What an edge of a validated, uniform graph gives. */
  lemma EdgeFacts(g: G.IrGraph, rank: map<G.NodeId, nat>, d: Depths, n: G.Node, v: G.NodeId)
    requires Validated(g, rank) && Uniform(g, d) && n in g.nodes && v in Succs(n)
    ensures v in Ids(g.nodes) && n.id in rank && v in rank && rank[n.id] < rank[v]
    ensures n.id in d && v in d && d[v] == d[n.id] + Weight(n)
  {
    EdgeOf(g, n, v);
    G.FindId(g.nodes, n);
  }

  lemma HaltsHere(g: G.IrGraph, n: G.Node, args: G.Json, settled: G.Settled, p: G.Point, budget: nat)
    requires G.Find(g.nodes, p.cur) == Some(n) && G.StepNode(n, args, settled, p).Halt?
    ensures RestsAt(g, Rest(G.StepNode(n, args, settled, p).outcome, p, budget))
  {}

  lemma HasDepth(g: G.IrGraph, d: Depths, id: G.NodeId)
    requires Uniform(g, d) && id in Ids(g.nodes)
    ensures id in d
  {}

  /** With nothing answered ahead, a step stays at its depth. */
  lemma FlatStep(g: G.IrGraph, rank: map<G.NodeId, nat>, d: Depths, args: G.Json, settled: G.Settled, n: G.Node,
                 p: G.Point)
    requires Validated(g, rank) && Uniform(g, d) && p.cur in d && Behind(rank, settled, p.cur)
    requires G.Find(g.nodes, p.cur) == Some(n) && G.StepNode(n, args, settled, p).Go?
    ensures var q := G.StepNode(n, args, settled, p).at;
            q.cur in Ids(g.nodes) && q.cur in d && d[q.cur] == d[p.cur] && Behind(rank, settled, q.cur)
  {
    hide Validated, Uniform, G.StepNode, Ids;
    var q := G.StepNode(n, args, settled, p).at;
    GoesAlongEdge(n, args, settled, p);
    EdgeFacts(g, rank, d, n, q.cur);
  }

  /** With nothing answered ahead, a walk stays at its depth until it comes to rest, and rests at
    * an unanswered operation or at a terminal. */
  lemma {:induction false} WalkFlat(g: G.IrGraph, rank: map<G.NodeId, nat>, d: Depths, args: G.Json, settled: G.Settled,
                                    p: G.Point, budget: nat)
    requires Validated(g, rank) && Uniform(g, d) && p.cur in Ids(g.nodes) && Behind(rank, settled, p.cur)
    ensures var rest := WalkTo(g, args, settled, p, budget);
            rest.at.cur in Ids(g.nodes) && rest.at.cur in d && p.cur in d && d[rest.at.cur] == d[p.cur]
            && Behind(rank, settled, rest.at.cur)
            && RestsAt(g, rest)
    decreases budget
  {
    hide Validated, Uniform, RestsAt, Behind, G.StepNode, Succs, Ids;
    HasDepth(g, d, p.cur);
    if budget > 0 && G.Find(g.nodes, p.cur).Some? {
      var n := G.Find(g.nodes, p.cur).value;
      if G.StepNode(n, args, settled, p).Halt? {
        HaltsHere(g, n, args, settled, p, budget);
      } else {
        FlatStep(g, rank, d, args, settled, n, p);
        WalkFlat(g, rank, d, args, settled, G.StepNode(n, args, settled, p).at, budget - 1);
      }
    } else {
      RestsFault(g, p, budget);
    }
  }

  lemma RestsFault(g: G.IrGraph, p: G.Point, budget: nat)
    ensures RestsAt(g, Rest(G.Fault, p, budget))
  {}

  /** The node a walk rests at matches the way it ended. */
  ghost predicate RestsAt(g: G.IrGraph, rest: Rest) {
    rest.outcome.Fault?
    || (G.Find(g.nodes, rest.at.cur).Some?
        && var n := G.Find(g.nodes, rest.at.cur).value;
           n in g.nodes && n.id == rest.at.cur
           && match rest.outcome
              case NeedOperation(node, _, _) => n.NOperation? && node == n.id
              case NeedCall(node, _, _, _) => n.NCall? && node == n.id
              case Returned(_) => n.NReturn?
              case Stopped(_, _) => n.NFail?
              case Fault => true)
  }

  /** The `i`-th outcome of a drive happens at plan position `i`. */
  ghost predicate AtPosition(g: G.IrGraph, d: Depths, length: nat, o: G.Outcome, i: nat) {
    match o
    case NeedOperation(node, _, _) => node in d && d[node] == i && i + 1 <= length
    case NeedCall(node, _, _, _) => node in d && d[node] == i && i + 1 <= length
    case Returned(_) => i == length
    case Stopped(_, _) => i <= length
    case Fault => true
  }

  lemma RestPosition(g: G.IrGraph, rank: map<G.NodeId, nat>, d: Depths, length: nat, rest: Rest, i: nat)
    requires Validated(g, rank) && Uniform(g, d) && PlanLengthIs(g, d, length)
    requires RestsAt(g, rest) && rest.at.cur in d && d[rest.at.cur] == i
    ensures AtPosition(g, d, length, rest.outcome, i)
  {
    if !rest.outcome.Fault? {
      var n := G.Find(g.nodes, rest.at.cur).value;
      WithinPlan(g, rank, Top(rank), d, length, n);
    }
  }

  /** A ranking has a highest rank. */
  ghost function Top(rank: map<G.NodeId, nat>): (t: nat)
    ensures forall k :: k in rank ==> rank[k] <= t
  {
    assert forall k :: k in rank ==> rank[k] in rank.Values;
    if rank.Values == {} then 0 else Max(rank.Values)
  }

  /** Answering moves the drive one position on, with everything answered behind it. */
  lemma NextRound(g: G.IrGraph, rank: map<G.NodeId, nat>, d: Depths, settled: G.Settled, rest: Rest, answer: G.Json)
    requires Validated(g, rank) && Uniform(g, d) && RestsAt(g, rest) && Waits(rest.outcome)
    requires rest.at.cur in d && Behind(rank, settled, rest.at.cur)
    ensures var q := Past(g, rest.at);
            q.cur in Ids(g.nodes) && q.cur in d && d[q.cur] == d[rest.at.cur] + 1
            && Behind(rank, settled[rest.outcome.node := answer], q.cur)
  {
    var n := G.Find(g.nodes, rest.at.cur).value;
    var q := Past(g, rest.at);
    assert q.cur in Succs(n) && Weight(n) == 1 && rest.outcome.node == n.id;
    EdgeFacts(g, rank, d, n, q.cur);
    hide Validated, Uniform, RestsAt, Past, Succs, Ids;
  }

  lemma {:induction false} DrivePositions(g: G.IrGraph, rank: map<G.NodeId, nat>, d: Depths, length: nat, args: G.Json,
                                          settled: G.Settled, p: G.Point, budget: nat, answers: seq<G.Json>, i: nat)
    requires Validated(g, rank) && Uniform(g, d) && PlanLengthIs(g, d, length)
    requires p.cur in Ids(g.nodes) && Behind(rank, settled, p.cur)
    requires i < |Uninterrupted(g, args, settled, p, budget, answers)|
    ensures p.cur in d
    ensures AtPosition(g, d, length, Uninterrupted(g, args, settled, p, budget, answers)[i], d[p.cur] + i)
    decreases |answers|
  {
    hide Validated, Uniform, PlanLengthIs, RestsAt, WalkTo, Past, AtPosition, Ids, Behind;
    var rest := WalkTo(g, args, settled, p, budget);
    WalkFlat(g, rank, d, args, settled, p, budget);
    if i == 0 {
      RestPosition(g, rank, d, length, rest, d[p.cur]);
    } else {
      NextRound(g, rank, d, settled, rest, answers[0]);
      DrivePositions(g, rank, d, length, args, settled[rest.outcome.node := answers[0]], Past(g, rest.at),
                     rest.left - 1, answers[1..], i - 1);
    }
  }

  /** In every drive of an accepted graph the operation asked for after `i` answers sits at plan
    * position `i + 1` of at most `length`; the drive returns after exactly `length` answers, and
    * may fail after no more. */
  lemma DriveFollowsPlan(g: G.IrGraph, rank: map<G.NodeId, nat>, length: nat, args: G.Json, answers: seq<G.Json>,
                         i: nat)
    requires Validated(g, rank) && Accepted(g, length) && i < |Restarted(g, args, map[], answers)|
    ensures var o := Restarted(g, args, map[], answers)[i];
            (Waits(o) ==> i < length) && (o.Returned? ==> i == length) && (o.Stopped? ==> i <= length)
  {
    var d: Depths :| Uniform(g, d) && PlanLengthIs(g, d, length);
    ResumeIsUninterrupted(g, args, answers);
    DrivePositions(g, rank, d, length, args, map[], G.Start(g), G.Budget(g), answers, i);
  }

  // ---------------------------------------------------------------- in the store

  /** The workflow's rows after `k` settled operations of a drive. */
  ghost predicate SettledUpTo(w: Workflow, k: nat) {
    forall p: nat :: w.IsSettled(p) <==> 1 <= p <= k
  }

  /** What the graph asks for, or how it ends, once these answers are settled. */
  function After(g: G.IrGraph, args: G.Json, answers: seq<G.Json>): G.Outcome {
    Restarted(g, args, map[], answers)[|Restarted(g, args, map[], answers)| - 1]
  }

  /** The drive took all these answers and waits for one more. */
  predicate WaitsAfter(g: G.IrGraph, args: G.Json, answers: seq<G.Json>) {
    |Restarted(g, args, map[], answers)| == |answers| + 1 && Waits(After(g, args, answers))
  }

  lemma {:induction false} OneMoreAnswer(g: G.IrGraph, args: G.Json, settled: G.Settled, answers: seq<G.Json>,
                                         last: G.Json)
    requires var os := Restarted(g, args, settled, answers); |os| == |answers| + 1 && Waits(os[|answers|])
    ensures |Restarted(g, args, settled, answers + [last])| == |answers| + 2
    decreases |answers|
  {
    if answers != [] {
      assert (answers + [last])[0] == answers[0] && (answers + [last])[1..] == answers[1..] + [last];
      var o := G.Advance(g, args, settled);
      var rest := Restarted(g, args, settled[o.node := answers[0]], answers[1..]);
      assert rest[|answers| - 1] == Restarted(g, args, settled, answers)[|answers|];
      OneMoreAnswer(g, args, settled[o.node := answers[0]], answers[1..], last);
    } else {
      assert ([] + [last])[1..] == [];
    }
  }

  /** The last position of the plan is where the graph returns. */
  lemma ProbeAtEnd(g: G.IrGraph, rank: map<G.NodeId, nat>, length: nat, args: G.Json, answers: seq<G.Json>,
                   last: G.Json)
    requires Validated(g, rank) && Accepted(g, length) && WaitsAfter(g, args, answers)
    ensures |answers| + 1 <= length
    ensures After(g, args, answers + [last]).Returned? ==> |answers| + 1 == length
  {
    DriveFollowsPlan(g, rank, length, args, answers, |answers|);
    OneMoreAnswer(g, args, map[], answers, last);
    DriveFollowsPlan(g, rank, length, args, answers + [last], |answers| + 1);
  }

  /** A request, a settle or a call submission at the next position, of a plan of this length. */
  lemma InPlanOrder(w: Workflow, c: Procedures.Cmd, k: nat)
    requires SettledUpTo(w, k) && k < w.pin.length
    requires (c.OperationRequest? || c.OperationSettle? || c.CallSubmit?) && c.pos == k + 1
    requires c.OperationSettle? ==> c.cpPos == c.pos && (c.final ==> c.pos == w.pin.length)
    ensures Procedures.OrderGuard(w, c.pos).None?
    ensures c.OperationRequest? ==> !Procedures.DoOperationRequest(w, c).out.PlanViolation?
    ensures c.OperationSettle? ==> !Procedures.DoOperationSettle(w, c).out.PlanViolation?
  {
    hide Procedures.Holds;
    assert k >= 1 ==> w.IsSettled(k);
  }

  lemma {:induction false} SettledFrom(w: Workflow, n: nat) returns (k: nat)
    requires Spine(w.pin.length, w.ops, w.cps, w.calls) && n <= w.pin.length
    requires forall p: nat :: 1 <= p <= n ==> w.IsSettled(p)
    ensures SettledUpTo(w, k) && k <= w.pin.length
    decreases w.pin.length - n
  {
    if n < w.pin.length && w.IsSettled(n + 1) {
      k := SettledFrom(w, n + 1);
    } else {
      k := n;
      assert forall p: nat :: w.IsSettled(p) && p > n + 1 ==> n + 1 in w.cps;
    }
  }

  /** In every reachable store the settled operations of a workflow are the first ones of its plan:
    * a driver that has read the rows knows how many answers to replay. */
  lemma SettledArePrefix(db: Db, maxDepth: nat, id: Id)
    requires Reachable(db, maxDepth) && id in db
    ensures exists k: nat :: k <= db[id].pin.length && SettledUpTo(db[id], k)
  {
    hide Reachable;
    ReachableInv(db, maxDepth);
    assert Sound(db[id]);
    hide Inv, SettledUpTo, Spine, Lifo, Agrees, Chronology, Fields;
    var k := SettledFrom(db[id], 0);
  }

  /** Driving an accepted graph never meets a plan violation. After `k` settled answers, the request,
    * the call submission and the settle of position `k + 1` pass every plan check, whoever sends them
    * and whatever else happened in the store; the settle is declared final exactly when the graph
    * returns on its result. */
  lemma NoPlanViolation(g: G.IrGraph, rank: map<G.NodeId, nat>, args: G.Json, answers: seq<G.Json>, last: G.Json,
                        db: Db, c: Procedures.Cmd)
    requires (c.OperationRequest? || c.OperationSettle? || c.CallSubmit?) && c.wf in db && c.pos == |answers| + 1
    requires Validated(g, rank) && Accepted(g, db[c.wf].pin.length) && WaitsAfter(g, args, answers)
    requires SettledUpTo(db[c.wf], |answers|)
    requires c.OperationSettle? ==> c.cpPos == c.pos && (c.final <==> After(g, args, answers + [last]).Returned?)
    ensures !Coordinator.Apply(db, c).out.PlanViolation?
  {
    hide Validated, Accepted, After, WaitsAfter, SettledUpTo, Procedures.Holds, Procedures.OrderGuard,
      Procedures.DoOperationRequest, Procedures.DoOperationSettle, Coordinator.SameSubmission, Coordinator.InLineage,
      Coordinator.OpIdTaken, Procedures.Malformed;
    ProbeAtEnd(g, rank, db[c.wf].pin.length, args, answers, last);
    InPlanOrder(db[c.wf], c, |answers|);
  }

  /** Completion is exact in every reachable store: a workflow is completed if and only if it has
    * a stored return value, and then its whole plan is settled and checkpointed. */
  lemma CompletionExact(db: Db, maxDepth: nat, id: Id)
    requires Reachable(db, maxDepth) && id in db
    ensures db[id].state.Completed? <==> db[id].returned.Some?
    ensures db[id].state.Completed? ==>
              forall p: nat :: 1 <= p <= db[id].pin.length ==> db[id].IsSettled(p) && ActiveIn(db[id].cps, p)
  {
    hide Reachable;
    ReachableInv(db, maxDepth);
    NoEmptyUnwindNoEarlyCompletion(db, maxDepth, id);
    assert Sound(db[id]);
    hide Inv, Spine, Lifo, Agrees, Chronology;
  }

  lemma FinalRow(w: Workflow, c: Procedures.Cmd)
    requires c.OperationSettle? && c.final && Procedures.LocalStep(w, c).out.Settled?
    ensures Procedures.LocalStep(w, c).next.state.Completed? && Procedures.LocalStep(w, c).next.returned == c.ret
  {
    hide TopOf, Procedures.Holds;
  }

  /** The commit of a settle declared final completes the workflow in that very step: every
    * operation of the plan is settled, every checkpoint stands, and the return value is stored. */
  lemma FinalSettleCompletes(db: Db, maxDepth: nat, c: Procedures.Cmd)
    requires Reachable(db, maxDepth) && c.OperationSettle? && c.final && Coordinator.Apply(db, c).out.Settled?
    ensures var n := Coordinator.Apply(db, c).db[c.wf];
            n.state.Completed? && n.returned == c.ret && n.returned.Some?
            && forall p: nat :: 1 <= p <= n.pin.length ==> n.IsSettled(p) && ActiveIn(n.cps, p)
  {
    hide Reachable, Inv, Procedures.LocalStep;
    ReachableInv(db, maxDepth);
    ApplyInv(db, maxDepth, c);
    FinalRow(db[c.wf], c);
    ReachableStep(db, maxDepth, c);
    CompletionExact(Coordinator.Apply(db, c).db, maxDepth, c.wf);
  }
}
