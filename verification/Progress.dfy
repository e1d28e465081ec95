/** No workflow is ever stuck for want of a command: what can still be done from every reachable store. */
module Progress {
  import opened Options
  import opened Rows
  import opened Procedures
  import opened Coordinator
  import opened Soundness
  import opened Evolution
  import opened Invariant
  import opened InvariantSteps
  import opened Driving
  import opened Unwinding
  import opened Schedule
  import opened Ledger

  // ---------------------------------------------------------------- runs

  lemma {:induction false} RunJoin(db: Db, a: seq<Cmd>, b: seq<Cmd>)
    ensures Run(db, a + b) == Run(Run(db, a), b)
    decreases |a|
  {
    hide Apply;
    if a == [] {
      assert a + b == b;
    } else {
      assert (a + b)[1..] == a[1..] + b;
      RunJoin(Apply(db, a[0]).db, a[1..], b);
    }
  }

  lemma RunCons(db: Db, c: Cmd, b: seq<Cmd>)
    ensures Run(db, [c] + b) == Run(Apply(db, c).db, b)
  {
    hide Apply;
    assert ([c] + b)[1..] == b;
  }

  lemma RunNothing(db: Db)
    ensures Run(db, []) == db
  {}

  /** An operation id no workflow uses. */
  lemma UnusedId(db: Db) returns (x: Id)
    ensures !OpIdTaken(db, x)
  {
    var used: set<nat> := set id, p | id in db && p in db[id].ops :: db[id].ops[p].id;
    if used == {} {
      x := 0;
    } else {
      x := Max(used) + 1;
    }
    forall id, p | id in db && p in db[id].ops ensures db[id].ops[p].id != x { assert db[id].ops[p].id in used; }
  }

  // ---------------------------------------------------------------- one step forward

  /** A live workflow can be claimed, once its lease and its schedule are over. */
  lemma CanClaim(db: Db, id: Id) returns (c: Cmd)
    requires id in db && (db[id].state.Forward? || db[id].state.Reversing?)
    ensures c.Claim? && c.wf == id && Apply(db, c).out.Claimed?
    ensures id in Apply(db, c).db
    ensures Apply(db, c).db[id] == db[id].(lease := Apply(db, c).db[id].lease, token := Apply(db, c).db[id].token)
    ensures Held(Apply(db, c).db, id, c.executor, Apply(db, c).out.token, c.expires)
  {
    var w := db[id];
    var now := w.nextAttempt + (if w.lease.Some? && w.lease.value.expires >= w.nextAttempt
                                then w.lease.value.expires - w.nextAttempt + 1 else 0);
    c := Claim(id, 1, now, now + 1);
  }

  /** The next position can be requested. */
  lemma CanRequest(db: Db, id: Id, owner: Id, token: nat, until: Ts, k: nat) returns (c: Cmd)
    requires Held(db, id, owner, token, until) && Sound(db[id]) && db[id].state.Forward?
    requires SettledUpTo(db[id], k) && k < db[id].pin.length && k + 1 !in db[id].ops
    ensures !c.CallSubmit? && Apply(db, c).out.Requested?
    ensures Held(Apply(db, c).db, id, owner, token, until)
    ensures var n := Apply(db, c).db[id];
            n.state.Forward? && n.pin == db[id].pin && SettledUpTo(n, k) && k + 1 in n.ops
  {
    var x := UnusedId(db);
    c := OperationRequest(id, owner, token, k + 1, x, "operation", 1, "{}", "hash", "{}", db[id].eventTs + 1);
    RequestLands(db, c, k);
  }

  lemma RequestLands(db: Db, c: Cmd, k: nat)
    requires c.OperationRequest? && c.wf in db && !Malformed(c) && !OpIdTaken(db, c.opId)
    requires db[c.wf].state.Forward? && Holds(db[c.wf], c.executor, c.token)
    requires SettledUpTo(db[c.wf], k) && k < db[c.wf].pin.length && c.pos == k + 1 && c.pos !in db[c.wf].ops
    requires c.ts > db[c.wf].eventTs
    ensures Apply(db, c).out.Requested? && c.wf in Apply(db, c).db
    ensures var w, n := db[c.wf], Apply(db, c).db[c.wf];
            n.lease == w.lease && n.token == w.token && n.state.Forward? && n.pin == w.pin && SettledUpTo(n, k)
            && k + 1 in n.ops
  {
    hide OpIdTaken, SettledUpTo;
    NextInOrder(db[c.wf], k);
    var n := Apply(db, c).db[c.wf];
    SameSettled(db[c.wf], n, k);
  }

  lemma NextInOrder(w: Workflow, k: nat)
    requires SettledUpTo(w, k) && k < w.pin.length
    ensures OrderGuard(w, k + 1).None?
  {
    assert k >= 1 ==> w.IsSettled(k);
  }

  lemma SameSettled(w: Workflow, n: Workflow, k: nat)
    requires SettledUpTo(w, k) && forall p: nat :: n.IsSettled(p) <==> w.IsSettled(p)
    ensures SettledUpTo(n, k)
  {}

  /** The requested position can be settled; with the last one the workflow completes. */
  lemma CanSettle(db: Db, id: Id, owner: Id, token: nat, until: Ts, k: nat) returns (c: Cmd)
    requires Held(db, id, owner, token, until) && Sound(db[id]) && db[id].state.Forward?
    requires SettledUpTo(db[id], k) && k < db[id].pin.length && k + 1 in db[id].ops
    ensures !c.CallSubmit? && Apply(db, c).out.Settled? && id in Apply(db, c).db
    ensures var n := Apply(db, c).db[id];
            if k + 1 == db[id].pin.length then n.state.Completed?
            else Held(Apply(db, c).db, id, owner, token, until) && n.state.Forward? && n.pin == db[id].pin
                 && SettledUpTo(n, k + 1)
  {
    var final := k + 1 == db[id].pin.length;
    c := OperationSettle(id, owner, token, k + 1, db[id].ops[k + 1].id, k + 1, "{}", "{}",
                         if final then Some("{}") else None, "{}", db[id].eventTs + 1, final);
    TokenPositive(db[id]);
    assert !db[id].IsSettled(k + 1);
    SettleLands(db, c);
    hide Sound, SettledUpTo, Apply;
    OneMoreSettled(db[id], Apply(db, c).db[id], k);
  }

  lemma SettleLands(db: Db, c: Cmd)
    requires c.OperationSettle? && !Malformed(c) && c.wf in db
    requires var w := db[c.wf];
             w.state.Forward? && Holds(w, c.executor, c.token) && c.ts > w.eventTs && 1 <= c.pos <= w.pin.length
             && c.cpPos == c.pos && (c.final ==> c.pos == w.pin.length)
             && c.pos in w.ops && w.ops[c.pos].id == c.opId && !w.IsSettled(c.pos)
    ensures Apply(db, c).out.Settled?
    ensures c.wf in Apply(db, c).db
    ensures var w, n := db[c.wf], Apply(db, c).db[c.wf];
            && n.pin == w.pin && n.ops == w.ops[c.pos := w.ops[c.pos].(result := Some(c.result))]
            && (if c.final then n.state.Completed? else n.state.Forward? && n.lease == w.lease && n.token == w.token)
  {
    hide Malformed, Holds;
  }

  lemma TokenPositive(w: Workflow)
    requires Sound(w) && w.lease.Some?
    ensures w.token >= 1
  {}

  lemma OneMoreSettled(w: Workflow, n: Workflow, k: nat)
    requires SettledUpTo(w, k) && forall p: nat :: n.IsSettled(p) <==> w.IsSettled(p) || p == k + 1
    ensures SettledUpTo(n, k + 1)
  {}

  // ---------------------------------------------------------------- to completion

  lemma {:induction false} FinishForward(db: Db, maxDepth: nat, id: Id, owner: Id, token: nat, until: Ts, k: nat)
    returns (cmds: seq<Cmd>)
    requires Inv(db, maxDepth) && Held(db, id, owner, token, until) && db[id].state.Forward?
    requires SettledUpTo(db[id], k) && k < db[id].pin.length
    ensures forall i :: 0 <= i < |cmds| ==> !cmds[i].CallSubmit?
    ensures id in Run(db, cmds) && Run(db, cmds)[id].state.Completed?
    decreases db[id].pin.length - k, if k + 1 in db[id].ops then 0 else 1
  {
    hide Inv, Held, Apply, Run, SettledUpTo, Sound;
    HeldRow(db, id, owner, token, until);
    SoundRow(db, maxDepth, id);
    var c;
    var rest := [];
    if k + 1 in db[id].ops {
      c := CanSettle(db, id, owner, token, until, k);
      if k + 1 < db[id].pin.length {
        ApplyInvOnly(db, maxDepth, c);
        rest := FinishForward(Apply(db, c).db, maxDepth, id, owner, token, until, k + 1);
      } else {
        RunNothing(Apply(db, c).db);
      }
    } else {
      c := CanRequest(db, id, owner, token, until, k);
      ApplyInvOnly(db, maxDepth, c);
      rest := FinishForward(Apply(db, c).db, maxDepth, id, owner, token, until, k);
    }
    cmds := [c] + rest;
    RunCons(db, c, rest);
  }

  lemma HeldRow(db: Db, id: Id, owner: Id, token: nat, until: Ts)
    requires Held(db, id, owner, token, until)
    ensures id in db
  {}

  lemma SoundRow(db: Db, maxDepth: nat, id: Id)
    requires Inv(db, maxDepth) && id in db
    ensures Sound(db[id])
  {}

  lemma ApplyInvOnly(db: Db, maxDepth: nat, c: Cmd)
    requires Inv(db, maxDepth) && !c.CallSubmit?
    ensures Inv(Apply(db, c).db, maxDepth)
  {
    hide Inv, Apply, DbGrows;
    ApplyInv(db, maxDepth, c);
  }

  // ---------------------------------------------------------------- to the end of an unwind

  /** The checkpoints still to be compensated belong to participant operations. */
  ghost predicate NoCallsLeft(w: Workflow) {
    forall p: nat :: p in w.cps && w.cps[p].reversal.Active? ==> p !in w.calls
  }

  /** The top checkpoint can be dispatched for compensation. */
  lemma CanDispatch(db: Db, id: Id, owner: Id, token: nat, until: Ts) returns (c: Cmd)
    requires Held(db, id, owner, token, until) && Sound(db[id]) && db[id].state.Reversing?
    requires db[id].Top().Some? && db[id].cps[db[id].Top().value].binding.None?
    ensures c.ReverseRequest? && c.wf == id && Some(c.pos) == db[id].Top() && Apply(db, c).out.Dispatched?
    ensures Held(Apply(db, c).db, id, owner, token, until)
    ensures var n := Apply(db, c).db[id];
            n.state.Reversing? && n.calls == db[id].calls && n.Top() == db[id].Top()
            && n.cps == db[id].cps[c.pos := db[id].cps[c.pos].(binding := Some(c.binding))]
  {
    var w := db[id];
    var top := w.Top().value;
    c := ReverseRequest(id, owner, token, top, Binding(0, "compensation", 1, "{}", "hash"), w.eventTs + 1);
    TokenPositive(w);
    TopTouch(w.cps, top, w.cps[top].(binding := Some(c.binding)));
    hide Sound, TopOf;
  }

  /** A dispatched top checkpoint can be settled; with the last one the workflow is reversed. */
  lemma CanUndo(db: Db, id: Id, owner: Id, token: nat, until: Ts) returns (c: Cmd)
    requires Held(db, id, owner, token, until) && Sound(db[id]) && db[id].state.Reversing?
    requires db[id].Top().Some? && db[id].cps[db[id].Top().value].binding.Some?
    ensures !c.CallSubmit? && !c.ReverseRequest? && id in Apply(db, c).db
    ensures var w, n := db[id], Apply(db, c).db[id];
            var top := w.Top().value;
            && n.calls == w.calls && n.cps == w.cps[top := w.cps[top].(reversal := Undone)]
            && (if n.Top().None? then n.state.Reversed?
                else Held(Apply(db, c).db, id, owner, token, until) && n.state.Reversing? && n.Top().value < top
                     && n.cps[n.Top().value].binding.None?)
  {
    var w := db[id];
    var top := w.Top().value;
    c := ReverseSettle(id, owner, token, top, w.cps[top].binding.value.id, w.eventTs + 1);
    TokenPositive(w);
    StackFacts(w);
    NextTop(w.cps, w.calls, top);
    UndoLands(db, c);
    hide Sound, TopOf, Apply;
  }

  lemma UndoLands(db: Db, c: Cmd)
    requires c.ReverseSettle? && !Malformed(c) && c.wf in db
    requires var w := db[c.wf];
             w.state.Reversing? && Holds(w, c.executor, c.token) && w.Top() == Some(c.pos) && c.ts > w.eventTs
             && w.cps[c.pos].binding.Some? && w.cps[c.pos].binding.value.id == c.revId
    ensures Apply(db, c).db == db[c.wf := Unwind(db[c.wf], c.pos, c.ts, c.executor).next]
  {
    hide Malformed, Holds, TopOf, Unwind;
  }

  lemma StackFacts(w: Workflow)
    requires Sound(w) && w.state.Reversing?
    ensures Lifo(w.cps, w.calls) && NoneParked(w.cps) && w.Top().Some?
  {}

  lemma {:induction false} FinishReverse(db: Db, maxDepth: nat, id: Id, owner: Id, token: nat, until: Ts)
    returns (cmds: seq<Cmd>)
    requires Inv(db, maxDepth) && Held(db, id, owner, token, until) && db[id].state.Reversing?
    requires NoCallsLeft(db[id]) && db[id].Top().Some?
    ensures forall i :: 0 <= i < |cmds| ==> !cmds[i].CallSubmit?
    ensures AllThroughChild(db, cmds)
    ensures id in Run(db, cmds) && Run(db, cmds)[id].state.Reversed?
    decreases db[id].Top().value, if db[id].cps[db[id].Top().value].binding.None? then 1 else 0
  {
    hide Inv, Held, Apply, Run, Sound, TopOf;
    HeldRow(db, id, owner, token, until);
    SoundRow(db, maxDepth, id);
    var c;
    var rest := [];
    if db[id].cps[db[id].Top().value].binding.None? {
      c := CanDispatch(db, id, owner, token, until);
      HeldRow(Apply(db, c).db, id, owner, token, until);
      ApplyInvOnly(db, maxDepth, c);
      rest := FinishReverse(Apply(db, c).db, maxDepth, id, owner, token, until);
    } else {
      c := CanUndo(db, id, owner, token, until);
      if Apply(db, c).db[id].Top().Some? {
        ApplyInvOnly(db, maxDepth, c);
        rest := FinishReverse(Apply(db, c).db, maxDepth, id, owner, token, until);
      } else {
        RunNothing(Apply(db, c).db);
      }
    }
    cmds := [c] + rest;
    RunCons(db, c, rest);
    ThroughCons(db, c, rest);
  }

  lemma ThroughCons(db: Db, c: Cmd, rest: seq<Cmd>)
    requires ThroughChild(db, c) && AllThroughChild(Apply(db, c).db, rest)
    ensures AllThroughChild(db, [c] + rest)
  {
    hide Apply;
    assert ([c] + rest)[1..] == rest;
  }

  // ---------------------------------------------------------------- what cannot be done any more

  /** Only the settle of an unsettled operation completes a workflow. */
  lemma LocalCompletes(w: Workflow, c: Cmd)
    requires IsLocal(c) && LocalStep(w, c).next.state.Completed? && !w.state.Completed?
    ensures c.OperationSettle? && c.pos in w.ops && !w.IsSettled(c.pos)
  {
    hide TopOf, Holds, Exhausted, Overdue, OrderGuard, Charge, Escalate, Observe, Claimable;
  }

  lemma SpanCompletes(db: Db, c: Cmd, id: Id)
    requires !IsLocal(c) && id in db && id in Apply(db, c).db && Apply(db, c).db[id].state.Completed?
    ensures db[id].state.Completed?
  {
    hide TopOf, Holds, OrderGuard, InLineage, SameSubmission, OpIdTaken, Malformed, IsCallerOf;
  }

  /** The whole plan is settled, and yet the workflow is not completed. */
  ghost predicate Exhausts(w: Workflow) { !w.state.Completed? && SettledUpTo(w, w.pin.length) }

  lemma NeverCompletes(db: Db, maxDepth: nat, c: Cmd, id: Id)
    requires Inv(db, maxDepth) && Bounded(c, maxDepth) && id in db && Exhausts(db[id])
    ensures id in Apply(db, c).db && Exhausts(Apply(db, c).db[id])
  {
    hide Apply, LocalStep, Inv;
    ApplyInv(db, maxDepth, c);
    SoundRow(db, maxDepth, id);
    SoundRow(Apply(db, c).db, maxDepth, id);
    var w, n := db[id], Apply(db, c).db[id];
    assert Grows(w, n);
    StillSettled(w, n);
    hide Grows, Sound, DbGrows;
    if n.state.Completed? {
      if IsLocal(c) {
        Lands(db, c);
        LocalCompletes(w, c);
        InRange(w, c.pos);
      } else {
        SpanCompletes(db, c, id);
      }
    }
  }

  lemma InRange(w: Workflow, p: nat)
    requires Sound(w) && p in w.ops
    ensures 1 <= p <= w.pin.length
  {}

  lemma StillSettled(w: Workflow, n: Workflow)
    requires Grows(w, n) && Sound(n) && SettledUpTo(w, w.pin.length)
    ensures SettledUpTo(n, n.pin.length)
  {
    hide CpsGrow, CallsGrow, Lifo, Agrees, Chronology, Fields;
    forall p: nat | 1 <= p <= n.pin.length ensures n.IsSettled(p) { assert w.IsSettled(p); }
  }

  lemma {:induction false} NeverCompletesRun(db: Db, maxDepth: nat, cmds: seq<Cmd>, id: Id)
    requires Inv(db, maxDepth) && id in db && Exhausts(db[id])
    requires forall i :: 0 <= i < |cmds| ==> Bounded(cmds[i], maxDepth)
    ensures id in Run(db, cmds) && !Run(db, cmds)[id].state.Completed?
    decreases |cmds|
  {
    hide Inv, Apply, Exhausts, DbGrows;
    if cmds == [] {
      NotYet(db[id]);
    } else {
      NeverCompletes(db, maxDepth, cmds[0], id);
      ApplyInv(db, maxDepth, cmds[0]);
      NeverCompletesRun(Apply(db, cmds[0]).db, maxDepth, cmds[1..], id);
    }
  }

  lemma NotYet(w: Workflow)
    requires Exhausts(w)
    ensures !w.state.Completed?
  {}

  // ---------------------------------------------------------------- the theorems

  /** From every reachable store a workflow that runs forward can be driven to completion, whoever holds its
    * lease now, if and only if some position of its plan is not settled: the last settle has to be the final
    * one, for after it no command completes the workflow any more. */
  lemma CompletesExactly(db: Db, maxDepth: nat, id: Id, k: nat)
    requires Reachable(db, maxDepth) && id in db && db[id].state.Forward?
    requires SettledUpTo(db[id], k) && k <= db[id].pin.length
    ensures k < db[id].pin.length <==>
              exists cmds: seq<Cmd> ::
                (forall i :: 0 <= i < |cmds| ==> Bounded(cmds[i], maxDepth))
                && id in Run(db, cmds) && Run(db, cmds)[id].state.Completed?
  {
    hide Reachable, Inv, Run, Apply, SettledUpTo, Held;
    ReachableInv(db, maxDepth);
    if k < db[id].pin.length {
      var c := CanClaim(db, id);
      ApplyInvOnly(db, maxDepth, c);
      ClaimKeepsSettled(db[id], Apply(db, c).db[id], k);
      var rest := FinishForward(Apply(db, c).db, maxDepth, id, c.executor, Apply(db, c).out.token, c.expires, k);
      RunCons(db, c, rest);
      var cmds := [c] + rest;
      assert forall i :: 0 <= i < |cmds| ==> Bounded(cmds[i], maxDepth);
    } else {
      forall cmds | forall i :: 0 <= i < |cmds| ==> Bounded(cmds[i], maxDepth)
        ensures id in Run(db, cmds) && !Run(db, cmds)[id].state.Completed?
      {
        NeverCompletesRun(db, maxDepth, cmds, id);
      }
    }
  }

  lemma ClaimKeepsSettled(w: Workflow, n: Workflow, k: nat)
    requires SettledUpTo(w, k) && n.ops == w.ops
    ensures SettledUpTo(n, k)
  {
    assert forall p: nat :: n.IsSettled(p) <==> w.IsSettled(p);
  }

  /** From every reachable store a workflow that is being unwound can be unwound to the end, one dispatched
    * compensation after the other, unless a call is left to compensate: that waits for its child. */
  lemma UnwindsToTheEnd(db: Db, maxDepth: nat, id: Id)
    requires Reachable(db, maxDepth) && id in db && db[id].state.Reversing? && NoCallsLeft(db[id])
    ensures exists cmds: seq<Cmd> ::
              (forall i :: 0 <= i < |cmds| ==> Bounded(cmds[i], maxDepth)) && AllThroughChild(db, cmds)
              && id in Run(db, cmds) && Run(db, cmds)[id].state.Reversed?
  {
    hide Reachable, Inv, Run, Apply, Held, TopOf, Sound;
    ReachableInv(db, maxDepth);
    SoundRow(db, maxDepth, id);
    StackFacts(db[id]);
    var c := CanClaim(db, id);
    ApplyInvOnly(db, maxDepth, c);
    var rest := FinishReverse(Apply(db, c).db, maxDepth, id, c.executor, Apply(db, c).out.token, c.expires);
    RunCons(db, c, rest);
    ThroughCons(db, c, rest);
    var cmds := [c] + rest;
    assert forall i :: 0 <= i < |cmds| ==> Bounded(cmds[i], maxDepth);
  }
}
