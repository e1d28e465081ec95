/** Durable rows of the coordinator store.
  *
  * One `Workflow` value is the aggregate of everything the store keys by one
  * workflow id: the workflow row itself, its plan pin, arguments, operation rows,
  * checkpoint rows, call sidecars and event log. A `Db` is the whole store.
  */
module Rows {
  import opened Options


  type Id = nat        // a 16-byte identifier
  type Ts = int        // a datetime(6), in microseconds
  type Doc = string    // a canonical JSON object


  /** How long a command refused for clock skew is told to wait: INTERVAL 5 SECOND. */
  const SKEW_DEFER: int := 5_000_000

  datatype State = Forward | Reversing | Blocked | Completed | Reversed | ResolvedException | Failed

  datatype Direction = Ahead | Back

  datatype Disposition = Unset | Succeeded | Rejected | Cancelled | Indeterminate

  datatype Lease = Lease(owner: Id, expires: Ts)

  datatype Pin = Pin(version: string, hash: string, length: nat)

  /** What a plan *is*: the key of the recursion guard. */
  datatype PlanId = PlanId(script: string, version: string, hash: string)

  datatype CallKind = Participant | ChildWorkflow

  /** The durable route-404 budget. */
  datatype Budget = Budget(attempts: nat, firstSeen: Option<Ts>, lastSeen: Option<Ts>)

  /** The durable pending-to-redispatch escalation timer. */
  datatype Timer = Timer(firstSeen: Option<Ts>, lastAt: Option<Ts>, count: nat)

  const FRESH_BUDGET := Budget(0, None, None)
  const FRESH_TIMER := Timer(None, None, 0)

  /** An operation row. The status column is `requested` exactly when `result` is `None`. */
  datatype Operation = Operation(
    id: Id, name: string, schema: nat, input: Doc, inputHash: string, kind: CallKind,
    result: Option<Doc>, budget: Budget, timer: Timer)
  {
    predicate Settled() { result.Some? }
  }

  /** The all-or-none reverse binding of a dispatched compensation. */
  datatype Binding = Binding(id: Id, name: string, schema: nat, input: Doc, hash: string)

  datatype ReversalState = Active | Undone | ResolutionRequired | Disposed

  datatype Checkpoint = Checkpoint(
    name: string, opId: Id, payload: Doc, reversal: ReversalState,
    binding: Option<Binding>, budget: Budget, timer: Timer)

  datatype Call = Call(child: Id, script: string, version: string, hash: string)

  datatype Ancestry = Ancestry(parent: Id, node: string, root: Id, depth: nat)

  datatype EventKind =
    | EvCreated | EvOperationRequested | EvOperationSettled | EvWorkflowCompleted
    | EvCallSubmitted | EvReversalBegun | EvFailed
    | EvCompensationRequested | EvCompensationSettled | EvCompensationBlocked
    | EvRequestedByParent | EvRoute404 | EvRouteUnknown
    | EvPendingDeferred | EvPendingRedispatch
    | EvDispatchDeferred(reason: string)
    | EvResolved

  datatype Event = Event(ts: Ts, kind: EventKind, actor: Option<Id>)

  /** The continuation document: the script's own position while running forward,
    * a position in the checkpoint stack once the workflow is being unwound. */
  datatype Continuation =
    | Script(doc: Doc)
    | ReverseAt(at: nat)
    | ReverseDispatched(at: nat)
    | StuckForward(at: nat)
    | StuckReverse(at: nat)
    | UnwindDone
    | NothingToUnwind

  datatype Workflow = Workflow(
    script: string, pin: Pin, args: Doc, ancestry: Option<Ancestry>,
    state: State, direction: Direction, disposition: Disposition,
    eventTs: Ts, token: nat, lease: Option<Lease>, nextAttempt: Ts,
    cursor: Continuation, trigger: Option<Id>, reason: Option<string>, returned: Option<Doc>,
    ops: map<nat, Operation>, cps: map<nat, Checkpoint>, calls: map<nat, Call>, events: seq<Event>)
  {
    function Identity(): PlanId { PlanId(script, pin.version, pin.hash) }

    function Depth(): nat { if ancestry.Some? then ancestry.value.depth else 0 }

    predicate IsSettled(at: nat) { at in ops && ops[at].Settled() }

    function Top(): Option<nat> { TopOf(cps) }
  }

  type Db = map<Id, Workflow>

  predicate ActiveIn(cps: map<nat, Checkpoint>, at: nat) { at in cps && cps[at].reversal.Active? }

  /** SELECT MAX(seq) over the active checkpoints; `None` is SQL NULL. */
  function TopOf(cps: map<nat, Checkpoint>): (t: Option<nat>)
    ensures t.None? ==> forall i: nat :: i in cps ==> !cps[i].reversal.Active?
    ensures t.Some? ==> ActiveIn(cps, t.value)
    ensures t.Some? ==> forall i: nat :: i in cps && cps[i].reversal.Active? ==> i <= t.value
  {
    var active := set i | i in cps && cps[i].reversal.Active?;
    assert forall i: nat :: i in cps && cps[i].reversal.Active? ==> i in active;
    if active == {} then None else Some(Max(active))
  }

  lemma MaxExists(s: set<nat>)
    requires s != {}
    ensures exists m :: m in s && forall x :: x in s ==> x <= m
    decreases |s|
  {
    var a :| a in s;
    var rest := s - {a};
    if rest == {} {
      assert s == {a};
    } else {
      MaxExists(rest);
      var m :| m in rest && forall x :: x in rest ==> x <= m;
      var top := if a <= m then m else a;
      assert forall x :: x in s ==> x == a || x in rest;
      assert top in s && forall x :: x in s ==> x <= top;
    }
  }

  function Max(s: set<nat>): (m: nat)
    requires s != {}
    ensures m in s && forall x :: x in s ==> x <= m
  {
    MaxExists(s);
    var m :| m in s && forall x :: x in s ==> x <= m;
    m
  }
}
