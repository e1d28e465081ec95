/** The tables of the store, and the aggregate rows they stand for. */
module Tables {
  import opened Options
  import opened Rows
  import opened Procedures
  import opened Coordinator

  /** The primary key of the per-position tables. */
  type Key = (Id, nat)

  /** A workflow row with its plan pin and arguments, which are keyed by the workflow id alone. */
  datatype Head = Head(
    script: string, pin: Pin, args: Doc, ancestry: Option<Ancestry>,
    state: State, direction: Direction, disposition: Disposition,
    eventTs: Ts, token: nat, lease: Option<Lease>, nextAttempt: Ts,
    cursor: Continuation, trigger: Option<Id>, reason: Option<string>, returned: Option<Doc>)

  /** An event row. */
  datatype Entry = Entry(wf: Id, event: Event)

  datatype Tables = Tables(
    workflows: map<Id, Head>, operations: map<Key, Operation>, checkpoints: map<Key, Checkpoint>,
    calls: map<Key, Call>, events: seq<Entry>)

  /** The rows of one workflow. */
  function Slice<T>(t: map<Key, T>, id: Id): map<nat, T> { map k | k in t && k.0 == id :: k.1 := t[k] }

  /** The events of one workflow, in the order of the listing. */
  function Only(rows: seq<Entry>, id: Id): seq<Event> {
    if rows == [] then []
    else
      var last := rows[|rows| - 1];
      Only(rows[..|rows| - 1], id) + (if last.wf == id then [last.event] else [])
  }

  function Assemble(h: Head, ops: map<nat, Operation>, cps: map<nat, Checkpoint>, calls: map<nat, Call>,
                    events: seq<Event>): Workflow {
    Workflow(h.script, h.pin, h.args, h.ancestry, h.state, h.direction, h.disposition, h.eventTs, h.token, h.lease,
             h.nextAttempt, h.cursor, h.trigger, h.reason, h.returned, ops, cps, calls, events)
  }

  /** The row with another head. */
  function Headed(w: Workflow, h: Head): Workflow { Assemble(h, w.ops, w.cps, w.calls, w.events) }

  function RowOf(t: Tables, id: Id): Workflow
    requires id in t.workflows
  {
    Assemble(t.workflows[id], Slice(t.operations, id), Slice(t.checkpoints, id), Slice(t.calls, id), Only(t.events, id))
  }

  /** What the tables stand for. */
  function ViewOf(t: Tables): (db: Db)
    ensures db.Keys == t.workflows.Keys
  {
    map id | id in t.workflows :: RowOf(t, id)
  }

  /** The foreign keys: every row belongs to a workflow. */
  predicate Keyed(t: Tables) {
    && (forall k :: k in t.operations ==> k.0 in t.workflows)
    && (forall k :: k in t.checkpoints ==> k.0 in t.workflows)
    && (forall k :: k in t.calls ==> k.0 in t.workflows)
    && (forall e :: e in t.events ==> e.wf in t.workflows)
  }

  // ---------------------------------------------------------------- reading

  lemma SliceAt<T>(t: map<Key, T>, id: Id, p: nat)
    ensures p in Slice(t, id) <==> (id, p) in t
    ensures (id, p) in t ==> Slice(t, id)[p] == t[(id, p)]
  {
    if (id, p) in t { assert (id, p).0 == id && (id, p).1 == p; }
  }

  /** The row of a workflow, column by column. */
  lemma Reads(t: Tables, id: Id, p: nat)
    requires id in t.workflows
    ensures id in ViewOf(t)
    ensures var w := ViewOf(t)[id];
            && w == Headed(w, t.workflows[id])
            && (p in w.ops <==> (id, p) in t.operations)
            && ((id, p) in t.operations ==> w.ops[p] == t.operations[(id, p)])
            && (p in w.cps <==> (id, p) in t.checkpoints)
            && ((id, p) in t.checkpoints ==> w.cps[p] == t.checkpoints[(id, p)])
            && (p in w.calls <==> (id, p) in t.calls) && ((id, p) in t.calls ==> w.calls[p] == t.calls[(id, p)])
            && w.Top() == TopOf(Slice(t.checkpoints, id)) && w.events == Only(t.events, id)
  {
    hide Slice, TopOf, Only;
    SliceAt(t.operations, id, p);
    SliceAt(t.checkpoints, id, p);
    SliceAt(t.calls, id, p);
  }

  // ---------------------------------------------------------------- writing

  lemma SlicePut<T>(t: map<Key, T>, k: Key, x: T, id: Id)
    ensures Slice(t[k := x], id) == if k.0 == id then Slice(t, id)[k.1 := x] else Slice(t, id)
  {
    var after := t[k := x];
    forall p: nat ensures p in Slice(after, id) <==> p in (if k.0 == id then Slice(t, id)[k.1 := x] else Slice(t, id)) {
      SliceAt(after, id, p);
      SliceAt(t, id, p);
    }
    forall p: nat | p in Slice(after, id)
      ensures Slice(after, id)[p] == (if k.0 == id then Slice(t, id)[k.1 := x] else Slice(t, id))[p]
    {
      SliceAt(after, id, p);
      SliceAt(t, id, p);
    }
  }

  lemma HeadPut(t: Tables, id: Id, h: Head)
    requires id in t.workflows
    ensures ViewOf(t.(workflows := t.workflows[id := h])) == ViewOf(t)[id := Headed(ViewOf(t)[id], h)]
    ensures Keyed(t) ==> Keyed(t.(workflows := t.workflows[id := h]))
  {
    hide Slice, Only;
  }

  lemma OperationPut(t: Tables, id: Id, p: nat, op: Operation)
    requires id in t.workflows
    ensures var w := ViewOf(t)[id];
            ViewOf(t.(operations := t.operations[(id, p) := op])) == ViewOf(t)[id := w.(ops := w.ops[p := op])]
    ensures Keyed(t) ==> Keyed(t.(operations := t.operations[(id, p) := op]))
  {
    hide Slice, Only;
    forall i ensures Slice(t.operations[(id, p) := op], i)
                     == if i == id then Slice(t.operations, i)[p := op] else Slice(t.operations, i)
    {
      SlicePut(t.operations, (id, p), op, i);
    }
  }

  lemma CheckpointPut(t: Tables, id: Id, p: nat, cp: Checkpoint)
    requires id in t.workflows
    ensures var w := ViewOf(t)[id];
            ViewOf(t.(checkpoints := t.checkpoints[(id, p) := cp])) == ViewOf(t)[id := w.(cps := w.cps[p := cp])]
    ensures Keyed(t) ==> Keyed(t.(checkpoints := t.checkpoints[(id, p) := cp]))
  {
    hide Slice, Only;
    forall i ensures Slice(t.checkpoints[(id, p) := cp], i)
                     == if i == id then Slice(t.checkpoints, i)[p := cp] else Slice(t.checkpoints, i)
    {
      SlicePut(t.checkpoints, (id, p), cp, i);
    }
  }

  lemma CallPut(t: Tables, id: Id, p: nat, call: Call)
    requires id in t.workflows
    ensures var w := ViewOf(t)[id];
            ViewOf(t.(calls := t.calls[(id, p) := call])) == ViewOf(t)[id := w.(calls := w.calls[p := call])]
    ensures Keyed(t) ==> Keyed(t.(calls := t.calls[(id, p) := call]))
  {
    hide Slice, Only;
    forall i ensures Slice(t.calls[(id, p) := call], i)
                     == if i == id then Slice(t.calls, i)[p := call] else Slice(t.calls, i)
    {
      SlicePut(t.calls, (id, p), call, i);
    }
  }

  lemma OnlyPut(rows: seq<Entry>, e: Entry, id: Id)
    ensures Only(rows + [e], id) == if e.wf == id then Only(rows, id) + [e.event] else Only(rows, id)
  {
    assert (rows + [e])[..|rows|] == rows;
  }

  /** An inserted event, with the latest-event time moved to it. */
  lemma EventPut(t: Tables, id: Id, e: Event)
    requires id in t.workflows
    ensures ViewOf(t.(workflows := t.workflows[id := t.workflows[id].(eventTs := e.ts)],
                      events := t.events + [Entry(id, e)]))
            == ViewOf(t)[id := Stamp(ViewOf(t)[id], e.ts, e.kind, e.actor)]
    ensures Keyed(t) ==> Keyed(t.(workflows := t.workflows[id := t.workflows[id].(eventTs := e.ts)],
                                  events := t.events + [Entry(id, e)]))
  {
    hide Slice, Only;
    forall i ensures Only(t.events + [Entry(id, e)], i)
                     == if i == id then Only(t.events, i) + [e] else Only(t.events, i)
    {
      OnlyPut(t.events, Entry(id, e), i);
    }
  }

  lemma {:induction false} OnlyNone(rows: seq<Entry>, id: Id)
    requires forall e :: e in rows ==> e.wf != id
    ensures Only(rows, id) == []
    decreases |rows|
  {
    if rows != [] {
      assert rows[|rows| - 1] in rows;
      OnlyNone(rows[..|rows| - 1], id);
    }
  }

  lemma SliceNone<T>(t: map<Key, T>, id: Id)
    requires forall k :: k in t ==> k.0 != id
    ensures Slice(t, id) == map[]
  {}

  lemma Bare(t: Tables, id: Id)
    requires Keyed(t) && id !in t.workflows
    ensures Slice(t.operations, id) == map[] && Slice(t.checkpoints, id) == map[] && Slice(t.calls, id) == map[]
    ensures Only(t.events, id) == []
  {
    hide Only, Slice;
    SliceNone(t.operations, id);
    SliceNone(t.checkpoints, id);
    SliceNone(t.calls, id);
    OnlyNone(t.events, id);
  }

  lemma KeyedAfter(t: Tables, id: Id, h: Head)
    requires Keyed(t)
    ensures Keyed(t.(workflows := t.workflows[id := h]))
  {}

  /** A new workflow starts without operations, checkpoints, calls and events. */
  lemma NewHead(t: Tables, id: Id, h: Head)
    requires Keyed(t) && id !in t.workflows
    ensures ViewOf(t.(workflows := t.workflows[id := h])) == ViewOf(t)[id := Assemble(h, map[], map[], map[], [])]
    ensures Keyed(t.(workflows := t.workflows[id := h]))
  {
    hide Slice, Only, Keyed;
    Bare(t, id);
    KeyedAfter(t, id, h);
  }

  // ---------------------------------------------------------------- indexes

  /** The unique index on operation ids. */
  predicate Indexed(operations: map<Key, Operation>, opId: Id) {
    exists k :: k in operations && operations[k].id == opId
  }

  lemma OperationKeyed(t: Tables, k: Key)
    requires Keyed(t) && k in t.operations
    ensures k.0 in t.workflows && k == (k.0, k.1)
  {}

  lemma IndexedIsTaken(t: Tables, opId: Id)
    requires Keyed(t)
    ensures Indexed(t.operations, opId) <==> OpIdTaken(ViewOf(t), opId)
  {
    hide Keyed, ViewOf, Slice, Only, TopOf;
    var db := ViewOf(t);
    if Indexed(t.operations, opId) {
      var k :| k in t.operations && t.operations[k].id == opId;
      OperationKeyed(t, k);
      Reads(t, k.0, k.1);
      assert k.0 in db && k.1 in db[k.0].ops;
    }
    if OpIdTaken(db, opId) {
      var id, p :| id in db && p in db[id].ops && db[id].ops[p].id == opId;
      Reads(t, id, p);
      assert (id, p) in t.operations;
    }
  }

  /** The index on called children. */
  lemma CallerIs(t: Tables, id: Id, child: Id)
    requires id in t.workflows
    ensures IsCallerOf(ViewOf(t)[id], child) <==> exists k :: k in t.calls && k.0 == id && t.calls[k].child == child
  {
    var w := ViewOf(t)[id];
    if IsCallerOf(w, child) {
      var p :| p in w.calls && w.calls[p].child == child;
      SliceAt(t.calls, id, p);
      assert (id, p) in t.calls;
    }
    if k :| k in t.calls && k.0 == id && t.calls[k].child == child {
      SliceAt(t.calls, id, k.1);
      assert k == (id, k.1) && k.1 in w.calls;
    }
  }

  lemma NobodyCalls(t: Tables, child: Id)
    requires forall k :: k in t.calls ==> t.calls[k].child != child
    ensures forall id :: id in ViewOf(t) ==> !IsCallerOf(ViewOf(t)[id], child)
  {
    hide IsCallerOf;
    forall id | id in ViewOf(t) ensures !IsCallerOf(ViewOf(t)[id], child) { CallerIs(t, id, child); }
  }

  /** The fence, read off a workflow row. */
  predicate HeldBy(h: Head, executor: Id, token: nat) {
    h.lease.Some? && h.lease.value.owner == executor && h.token == token
  }
}
