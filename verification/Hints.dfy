/** The status hint of a call sidecar: a display cache fed by reports in any order.
  *
  * No guard reads a hint. What it promises is that a late, repeated or reordered report never
  * overwrites a fresher one.
  */
module Hints {
  import opened Options
  import opened Rows

  datatype ChildStatus = ChildPending | ChildCompleted | ChildFailed | ChildBlocked

  datatype Hint = Hint(status: ChildStatus, inspected: Option<Ts>)

  /** What a submission inserts. */
  const UNSEEN := Hint(ChildPending, None)

  datatype Report = Report(status: ChildStatus, ts: Ts)

  datatype RefreshReply = BadPosition | NoSuchCall | HintRefreshed

  /** A report counts only when it is later than the one on display. */
  function Refreshed(h: Hint, r: Report): Hint {
    if h.inspected.None? || r.ts > h.inspected.value then Hint(r.status, Some(r.ts)) else h
  }

  function AfterAll(h: Hint, reports: seq<Report>): Hint
    decreases |reports|
  {
    if reports == [] then h else AfterAll(Refreshed(h, reports[0]), reports[1..])
  }

  /** Report `i` is the first among those with the latest time. */
  predicate Freshest(reports: seq<Report>, i: nat) {
    i < |reports|
    && (forall j :: 0 <= j < |reports| ==> reports[j].ts <= reports[i].ts)
    && (forall j :: 0 <= j < i ==> reports[j].ts < reports[i].ts)
  }

  lemma {:induction false} AfterAllFrom(h: Hint, reports: seq<Report>)
    requires h.inspected.Some?
    ensures var n := AfterAll(h, reports);
            if forall j :: 0 <= j < |reports| ==> reports[j].ts <= h.inspected.value then n == h
            else exists i: nat :: Freshest(reports, i) && n == Hint(reports[i].status, Some(reports[i].ts))
    decreases |reports|
  {
    if reports != [] {
      var next := Refreshed(h, reports[0]);
      var rest := reports[1..];
      AfterAllFrom(next, rest);
      assert forall j :: 1 <= j < |reports| ==> reports[j] == rest[j - 1];
      if forall j :: 0 <= j < |rest| ==> rest[j].ts <= next.inspected.value {
        if next != h { assert Freshest(reports, 0); }
      } else {
        var i: nat :| Freshest(rest, i) && AfterAll(next, rest) == Hint(rest[i].status, Some(rest[i].ts));
        assert Freshest(reports, i + 1);
      }
    }
  }

  /** Whatever the order of arrival, the hint shows the first of the latest reports. */
  lemma FreshestShown(reports: seq<Report>)
    requires reports != []
    ensures exists i: nat ::
              Freshest(reports, i) && AfterAll(UNSEEN, reports) == Hint(reports[i].status, Some(reports[i].ts))
  {
    var h := Refreshed(UNSEEN, reports[0]);
    var rest := reports[1..];
    AfterAllFrom(h, rest);
    assert forall j :: 1 <= j < |reports| ==> reports[j] == rest[j - 1];
    if forall j :: 0 <= j < |rest| ==> rest[j].ts <= reports[0].ts {
      assert Freshest(reports, 0);
    } else {
      var i: nat :| Freshest(rest, i) && AfterAll(h, rest) == Hint(rest[i].status, Some(rest[i].ts));
      assert Freshest(reports, i + 1);
    }
  }

  /** Reports with one time agree on the status. */
  predicate Consistent(reports: seq<Report>) {
    forall i, j :: 0 <= i < |reports| && 0 <= j < |reports| && reports[i].ts == reports[j].ts ==>
      reports[i].status == reports[j].status
  }

  /** The same reports, repeated or reordered, end in the same hint. */
  lemma OrderIrrelevant(a: seq<Report>, b: seq<Report>)
    requires Consistent(a) && (forall r :: r in a <==> r in b)
    ensures AfterAll(UNSEEN, a) == AfterAll(UNSEEN, b)
  {
    assert b != [] ==> b[0] in a;
    if a != [] {
      assert a[0] in b;
      FreshestShown(a);
      FreshestShown(b);
      var i: nat :| Freshest(a, i) && AfterAll(UNSEEN, a) == Hint(a[i].status, Some(a[i].ts));
      var j: nat :| Freshest(b, j) && AfterAll(UNSEEN, b) == Hint(b[j].status, Some(b[j].ts));
      assert a[i] in b && b[j] in a;
      var k :| 0 <= k < |a| && a[k] == b[j];
    }
  }
}
