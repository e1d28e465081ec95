/** A run from the empty store that breaks the call-tree guarantee: the procedures settle a call before
  * its child is over, and compensate its checkpoint like a participant's. */
module Betrayal {
  import opened Options
  import opened Rows
  import opened Procedures
  import opened Coordinator
  import opened InvariantSteps
  import opened Unwinding

  const PLAN := Pin("1", "h", 2)
  const UNDO := Binding(7, "undo", 1, "{}", "i")

  /** The parent while it runs forward under one claim. */
  function Calling(): Workflow {
    NewWorkflow("p", PLAN, "{}", None, "{}", 0, 0).(lease := Some(Lease(9, 100)), token := 1)
  }

  function Submission(): Cmd {
    CallSubmit(1, 9, 1, 1, 2, "{}", "i", "{}", 1, 2, "c", PLAN, "{}", 0, "n", 4)
  }

  function Commands(): seq<Cmd> {
    [CreatePlanned(1, "p", PLAN, 0, 0, "{}", "{}"), Claim(1, 9, 0, 100), Submission(),
     OperationSettle(1, 9, 1, 1, 2, 1, "{}", "{}", None, "{}", 2, false), AuthoredFail(1, 9, 1, 2, 3, "why"),
     ReverseRequest(1, 9, 1, 1, UNDO, 4)]
  }

  /** The store with the parent in a given shape beside its freshly created child. */
  predicate Beside(db: Db, w: Workflow) { db == map[1 := w, 2 := SubmittedChild(Calling(), Submission())] }

  lemma Submits(db: Db)
    requires db == map[1 := Calling()]
    ensures Beside(Apply(db, Submission()).db, SubmittedParent(Calling(), Submission()))
  {
    assert Lineage(db, 1, 4) == [1];
  }

  lemma OnlyOneActive(w: Workflow)
    requires w.cps.Keys == {1} && w.cps[1].reversal.Active?
    ensures w.Top() == Some(1)
  {}

  /** A call checkpoint under a participant's binding, its child still running forward. */
  ghost predicate Misbound(w: Workflow) {
    && w.state.Reversing? && w.lease == Some(Lease(9, 100)) && w.token == 1 && w.eventTs == 4
    && w.cps.Keys == {1} && w.cps[1].reversal.Active? && w.cps[1].binding == Some(UNDO)
    && 1 in w.calls && w.calls[1].child == 2
  }

  /** The parent after settling the call at once, failing by its own script, and binding its checkpoint. */
  function Turned(): Workflow {
    var w0 := SubmittedParent(Calling(), Submission());
    var w1 := LocalStep(w0, Commands()[3]).next;
    var w2 := LocalStep(w1, Commands()[4]).next;
    LocalStep(w2, Commands()[5]).next
  }

  lemma TurnedIsMisbound()
    ensures Misbound(Turned())
  {
    hide TopOf;
    var w1 := LocalStep(SubmittedParent(Calling(), Submission()), Commands()[3]).next;
    OnlyOneActive(w1);
    OnlyOneActive(LocalStep(w1, Commands()[4]).next);
  }

  /** A local command of the parent leaves the child beside it. */
  lemma LocalBeside(db: Db, w: Workflow, c: Cmd)
    requires Beside(db, w) && IsLocal(c) && !c.OperationRequest? && c.wf == 1 && !Malformed(c)
    ensures Beside(Apply(db, c).db, LocalStep(w, c).next)
  {
    hide LocalStep, Malformed;
  }

  lemma ParentTurns(db: Db)
    requires Beside(db, SubmittedParent(Calling(), Submission()))
    ensures Beside(Apply(Apply(Apply(db, Commands()[3]).db, Commands()[4]).db, Commands()[5]).db, Turned())
  {
    hide LocalStep, Apply, Beside;
    var w0 := SubmittedParent(Calling(), Submission());
    var w1 := LocalStep(w0, Commands()[3]).next;
    LocalBeside(db, w0, Commands()[3]);
    LocalBeside(Apply(db, Commands()[3]).db, w1, Commands()[4]);
    LocalBeside(Apply(Apply(db, Commands()[3]).db, Commands()[4]).db, LocalStep(w1, Commands()[4]).next, Commands()[5]);
  }

  lemma {:induction false} RunsTo(cmds: seq<Cmd>, k: nat)
    requires k < |cmds|
    ensures Run(map[], cmds[..k + 1]) == Apply(Run(map[], cmds[..k]), cmds[k]).db
  {
    assert cmds[..k + 1] == cmds[..k] + [cmds[k]];
    RunOneMore(map[], cmds[..k], cmds[k]);
  }

  lemma Claims()
    ensures Run(map[], Commands()[..2]) == map[1 := Calling()]
  {
    RunsTo(Commands(), 0);
    RunsTo(Commands(), 1);
  }

  lemma LastStep(db: Db, w: Workflow) returns (done: Db)
    requires Beside(db, w) && Misbound(w)
    ensures done == Apply(db, ReverseSettle(1, 9, 1, 1, 7, 5)).db && 1 in done && 2 in done
    ensures done[1].state.Reversed? && done[2].state.Forward? && !AllCallsUnwound(done)
  {
    OnlyOneActive(w);
    done := Apply(db, ReverseSettle(1, 9, 1, 1, 7, 5)).db;
    var undone := w.cps[1 := w.cps[1].(reversal := Undone)];
    assert TopOf(undone).None?;
    assert !CallUnwound(done, 1, 1);
  }

  lemma SixCommands()
    ensures Beside(Run(map[], Commands()), Turned()) && Misbound(Turned())
  {
    hide Apply, Run, Beside, Misbound, Turned;
    Claims();
    RunsTo(Commands(), 2);
    Submits(Run(map[], Commands()[..2]));
    ParentTurns(Run(map[], Commands()[..3]));
    TurnedIsMisbound();
    RunsTo(Commands(), 3);
    RunsTo(Commands(), 4);
    RunsTo(Commands(), 5);
    assert Commands()[..6] == Commands();
  }

  /** The guarantee is lost in a run of seven commands: afterwards the parent is reversed and its
    * child still runs forward. */
  lemma GuaranteeCanBeLost() returns (cmds: seq<Cmd>)
    ensures forall i :: 0 <= i < |cmds| ==> InvariantSteps.Bounded(cmds[i], 4)
    ensures 1 in Run(map[], cmds) && 2 in Run(map[], cmds)
    ensures Run(map[], cmds)[1].state.Reversed? && Run(map[], cmds)[2].state.Forward?
    ensures !AllCallsUnwound(Run(map[], cmds))
  {
    hide Apply, Run, Beside, Misbound, Turned, AllCallsUnwound;
    SixCommands();
    cmds := Commands() + [ReverseSettle(1, 9, 1, 1, 7, 5)];
    RunOneMore(map[], Commands(), ReverseSettle(1, 9, 1, 1, 7, 5));
    var done := LastStep(Run(map[], Commands()), Turned());
  }
}
