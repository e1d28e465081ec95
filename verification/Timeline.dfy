/** The merged event history of a call tree. */
module Timeline {
  import opened Options
  import opened Rows
  import opened Procedures
  import opened Coordinator
  import opened Soundness
  import opened Evolution
  import opened Invariant
  import opened InvariantSteps
  import opened Diagnostics
  import opened Tables

  /** ORDER BY event_ts, workflow_id. */
  predicate Earlier(a: Entry, b: Entry) {
    a.event.ts < b.event.ts || (a.event.ts == b.event.ts && a.wf < b.wf)
  }

  ghost predicate InOrder(rows: seq<Entry>) { forall i, j :: 0 <= i < j < |rows| ==> !Earlier(rows[j], rows[i]) }

  /** How often an event of a workflow is to be listed. */
  function Times(db: Db, ids: set<Id>, x: Entry): nat {
    if x.wf in ids && x.wf in db then multiset(db[x.wf].events)[x.event] else 0
  }

  /** The rows of the query: all events of the visited workflows and no others, in order. */
  ghost predicate IsTimeline(db: Db, ids: set<Id>, rows: seq<Entry>) {
    InOrder(rows) && forall x: Entry :: multiset(rows)[x] == Times(db, ids, x)
  }

  lemma {:induction false} OnlyCounts(rows: seq<Entry>, id: Id)
    ensures forall e: Event :: multiset(Only(rows, id))[e] == multiset(rows)[Entry(id, e)]
    decreases |rows|
  {
    if rows != [] {
      OnlyCounts(rows[..|rows| - 1], id);
      assert rows == rows[..|rows| - 1] + [rows[|rows| - 1]];
    }
  }

  ghost predicate Ascending(s: seq<Event>) { forall i, j :: 0 <= i < j < |s| ==> s[i].ts <= s[j].ts }

  lemma {:induction false} OnlyAscending(rows: seq<Entry>, id: Id)
    requires InOrder(rows)
    ensures Ascending(Only(rows, id))
    ensures forall e :: e in Only(rows, id) ==> Entry(id, e) in rows
    decreases |rows|
  {
    if rows != [] {
      var init := rows[..|rows| - 1];
      OnlyAscending(init, id);
      forall e | e in Only(init, id) ensures e.ts <= rows[|rows| - 1].event.ts {
        var i :| 0 <= i < |init| && init[i] == Entry(id, e);
        assert !Earlier(rows[|rows| - 1], rows[i]);
      }
    }
  }

  ghost predicate Strict(s: seq<Event>) { forall i, j :: 0 <= i < j < |s| ==> s[i].ts < s[j].ts }

  /** In every run a workflow's event times strictly increase, across commands on its own rows and
    * commands that write two workflows alike; what was logged stays, and new events come after it. */
  lemma EventTimesAscend(db: Db, maxDepth: nat, cmds: seq<Cmd>, id: Id)
    requires Reachable(db, maxDepth) && forall i :: 0 <= i < |cmds| ==> Bounded(cmds[i], maxDepth)
    requires id in Run(db, cmds)
    ensures Strict(Run(db, cmds)[id].events)
    ensures id in db ==> db[id].events <= Run(db, cmds)[id].events
  {
    hide Reachable;
    ReachableInv(db, maxDepth);
    RunInv(db, maxDepth, cmds);
    hide Run, AllLinked, AllRooted, UniqueOps, AllDistinct, Spine, Lifo, Agrees, Fields, OpsGrow, CpsGrow, CallsGrow;
    assert Sound(Run(db, cmds)[id]);
    if id in db { assert Grows(db[id], Run(db, cmds)[id]); }
  }

  lemma SameLast(a: seq<Event>, b: seq<Event>)
    requires Ascending(a) && Strict(b) && multiset(a) == multiset(b) && a != [] && b != []
    ensures a[|a| - 1] == b[|b| - 1]
  {
    var x, y := a[|a| - 1], b[|b| - 1];
    assert x in multiset(b) && y in multiset(a);
    var j :| 0 <= j < |b| && b[j] == x;
    var i :| 0 <= i < |a| && a[i] == y;
  }

  lemma DropLast(a: seq<Event>)
    requires a != []
    ensures multiset(a[..|a| - 1]) == multiset(a) - multiset{a[|a| - 1]}
  {
    assert a == a[..|a| - 1] + [a[|a| - 1]];
  }

  lemma SameLength(a: seq<Event>, b: seq<Event>)
    requires multiset(a) == multiset(b)
    ensures |a| == |b|
  {
    assert |a| == |multiset(a)| == |multiset(b)| == |b|;
  }

  /** A sequence that ascends and has the elements of a strictly ascending one is that one. */
  lemma {:induction false} SortedUnique(a: seq<Event>, b: seq<Event>)
    requires Ascending(a) && Strict(b) && multiset(a) == multiset(b)
    ensures a == b
    decreases |b|
  {
    SameLength(a, b);
    if b != [] {
      SameLast(a, b);
      DropLast(a);
      DropLast(b);
      var c, d := a[..|a| - 1], b[..|b| - 1];
      SortedUnique(c, d);
      assert a == c + [a[|a| - 1]] && b == d + [b[|b| - 1]];
    }
  }

  /** On every reachable store the timeline of a tree, restricted to any one workflow, is that
    * workflow's own log, in its own order. */
  lemma TimelineRestricts(db: Db, maxDepth: nat, ids: set<Id>, rows: seq<Entry>, id: Id)
    requires Reachable(db, maxDepth) && IsTimeline(db, ids, rows) && id in ids && id in db
    ensures Only(rows, id) == db[id].events
  {
    hide Reachable;
    ReachableInv(db, maxDepth);
    assert Sound(db[id]);
    hide AllLinked, AllRooted, UniqueOps, AllDistinct, Spine, Lifo, Agrees, Fields;
    OnlyCounts(rows, id);
    OnlyAscending(rows, id);
    var mine := Only(rows, id);
    forall e: Event ensures multiset(mine)[e] == multiset(db[id].events)[e] {
      assert multiset(rows)[Entry(id, e)] == Times(db, ids, Entry(id, e));
    }
    SortedUnique(mine, db[id].events);
  }

  // ---------------------------------------------------------------- the query has an answer

  function Insert(rows: seq<Entry>, x: Entry): seq<Entry>
    decreases |rows|
  {
    if rows == [] || !Earlier(x, rows[|rows| - 1]) then rows + [x]
    else Insert(rows[..|rows| - 1], x) + [rows[|rows| - 1]]
  }

  lemma AppendInOrder(rows: seq<Entry>, x: Entry)
    requires InOrder(rows) && forall i :: 0 <= i < |rows| ==> !Earlier(x, rows[i])
    ensures InOrder(rows + [x])
  {}

  /** What is not before the last row is before none of them. */
  lemma LastIsLatest(rows: seq<Entry>, x: Entry, i: nat)
    requires InOrder(rows) && i < |rows| && !Earlier(x, rows[|rows| - 1])
    ensures !Earlier(x, rows[i])
  {
    if i < |rows| - 1 { assert !Earlier(rows[|rows| - 1], rows[i]); }
  }

  lemma {:induction false} InsertKeeps(rows: seq<Entry>, x: Entry)
    requires InOrder(rows)
    ensures InOrder(Insert(rows, x)) && multiset(Insert(rows, x)) == multiset(rows) + multiset{x}
    decreases |rows|
  {
    if rows == [] || !Earlier(x, rows[|rows| - 1]) {
      forall i | 0 <= i < |rows| ensures !Earlier(x, rows[i]) { LastIsLatest(rows, x, i); }
      AppendInOrder(rows, x);
    } else {
      var last, init := rows[|rows| - 1], rows[..|rows| - 1];
      InsertKeeps(init, x);
      assert rows == init + [last];
      var r := Insert(init, x);
      forall k | 0 <= k < |r| ensures !Earlier(last, r[k]) { InsertedEarlier(rows, x, r, k); }
      AppendInOrder(r, last);
    }
  }

  lemma InsertedEarlier(rows: seq<Entry>, x: Entry, r: seq<Entry>, k: nat)
    requires InOrder(rows) && rows != [] && Earlier(x, rows[|rows| - 1]) && k < |r|
    requires multiset(r) == multiset(rows[..|rows| - 1]) + multiset{x}
    ensures !Earlier(rows[|rows| - 1], r[k])
  {
    var init := rows[..|rows| - 1];
    assert r[k] in multiset(r);
    if r[k] != x {
      assert r[k] in multiset(init);
      var i :| 0 <= i < |init| && init[i] == r[k];
      assert !Earlier(rows[|rows| - 1], rows[i]);
    }
  }

  /** Merge one workflow's log into the rows. */
  method MergeLog(rows0: seq<Entry>, id: Id, log: seq<Event>) returns (rows: seq<Entry>)
    requires InOrder(rows0)
    ensures InOrder(rows)
    ensures forall x: Entry ::
              multiset(rows)[x] == multiset(rows0)[x] + (if x.wf == id then multiset(log)[x.event] else 0)
  {
    rows := rows0;
    for i := 0 to |log|
      invariant InOrder(rows)
      invariant forall x: Entry ::
        multiset(rows)[x] == multiset(rows0)[x] + (if x.wf == id then multiset(log[..i])[x.event] else 0)
    {
      InsertKeeps(rows, Entry(id, log[i]));
      assert log[..i + 1] == log[..i] + [log[i]];
      rows := Insert(rows, Entry(id, log[i]));
    }
    assert log[..|log|] == log;
  }

  function Members(s: seq<Id>): set<Id> { set x | x in s }

  /** The timeline of the workflows a tree walk expanded. */
  method TimelineWorkflow(db: Db, maxDepth: nat, id: Id, limit: nat) returns (rows: seq<Entry>)
    requires Reachable(db, maxDepth) && id in db
    ensures var shown := Expanded(Tree(db, id, limit, 0, {}));
            IsTimeline(db, Members(shown), rows)
            && forall x :: x in shown ==> x in db && Only(rows, x) == db[x].events
  {
    hide Reachable, Inv, ChildIds;
    ReachableInv(db, maxDepth);
    var tree := TreeWorkflow(db, id, limit, 0, {});
    var shown := Expanded(tree);
    TreeExpandsForestOnce(db, maxDepth, id, limit);
    forall x | x in shown ensures x in db {
      assert Below(db, x, id, limit);
      var k: nat :| k <= limit && Up(db, x, k) == Some(id);
    }
    rows := [];
    for i := 0 to |shown|
      invariant InOrder(rows)
      invariant forall x: Entry :: multiset(rows)[x] == Times(db, Members(shown[..i]), x)
    {
      ghost var before := rows;
      rows := MergeLog(rows, shown[i], db[shown[i]].events);
      assert shown[i] !in shown[..i];
      assert forall y :: y in shown[..i + 1] <==> y in shown[..i] || y == shown[i];
    }
    assert shown[..|shown|] == shown;
    forall x | x in shown ensures Only(rows, x) == db[x].events {
      TimelineRestricts(db, maxDepth, Members(shown), rows, x);
    }
  }
}
