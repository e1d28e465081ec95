/** What the loops and expressions of the graph language mean, element by element. */
module Loops {
  import opened Options
  import opened Sets
  import opened Graph

  /** The value of the body at one element. */
  function At(l: Loop, x: Json, running: Json, args: Json, settled: Settled, env: Env): Option<Json> {
    Eval(l.body, args, settled, BodyEnv(l, env, x, running))
  }

  /** The body of a map or a filter sees the outer locals and the element, nothing else. */
  lemma BodySees(l: Loop, x: Json, running: Json, args: Json, settled: Settled, env: Env)
    requires !l.kind.LFold?
    ensures At(l, x, running, args, settled, env) == Eval(l.body, args, settled, env + [Local(l.elem, x)])
  {
    assert BodyEnv(l, env, x, running) == env + [Local(l.elem, x)];
  }

  /** One more element. */
  lemma OneMore(l: Loop, arr: seq<Json>, start: Json, args: Json, settled: Settled, env: Env)
    requires arr != [] && (!l.kind.LFold? ==> start == JArr([]))
    ensures var before := EvalElems(l, arr[..|arr| - 1], start, args, settled, env);
            var x := arr[|arr| - 1];
            var r := EvalElems(l, arr, start, args, settled, env);
            if before.None? then r.None?
            else
              var v := At(l, x, before.value, args, settled, env);
              && (l.kind.LFold? ==> r == v)
              && (l.kind.LFilter? && before.value.JArr? ==>
                    r == if !IsTruth(v) then None
                         else if v.value.b then Some(JArr(before.value.elems + [x])) else before)
  {
    hide Eval;
  }

  /** The positions, in ascending order, whose element the body accepts. */
  ghost predicate Accepted(l: Loop, arr: seq<Json>, args: Json, settled: Settled, env: Env, ks: seq<nat>) {
    && (forall i, j :: 0 <= i < j < |ks| ==> ks[i] < ks[j])
    && (forall k :: k in ks <==>
          0 <= k < |arr| && Eval(l.body, args, settled, env + [Local(l.elem, arr[k])]) == Some(JBool(true)))
  }

  function Chosen(arr: seq<Json>, ks: seq<nat>): seq<Json>
    requires forall k :: k in ks ==> k < |arr|
  {
    seq(|ks|, i requires 0 <= i < |ks| => assert ks[i] in ks; arr[ks[i]])
  }

  /** A filter faults exactly when its body is not a boolean somewhere; otherwise it keeps, in order,
    * the elements at which the body is true. */
  lemma {:induction false} FilterKeeps(l: Loop, arr: seq<Json>, args: Json, settled: Settled, env: Env)
    returns (ks: seq<nat>)
    requires l.kind.LFilter?
    ensures var r := EvalElems(l, arr, JArr([]), args, settled, env);
            && (r.None? <==> exists x :: x in arr && !IsTruth(Eval(l.body, args, settled, env + [Local(l.elem, x)])))
            && (r.Some? ==> Accepted(l, arr, args, settled, env, ks) && r.value == JArr(Chosen(arr, ks)))
    decreases |arr|
  {
    ks := [];
    if arr != [] {
      var last := |arr| - 1;
      var init := arr[..last];
      ks := FilterKeeps(l, init, args, settled, env);
      OneMore(l, arr, JArr([]), args, settled, env);
      LastIn(arr);
      hide Eval, EvalElems;
      var before := EvalElems(l, init, JArr([]), args, settled, env);
      if before.Some? {
        BodySees(l, arr[last], before.value, args, settled, env);
        var v := At(l, arr[last], before.value, args, settled, env);
        if IsTruth(v) && v.value.b {
          AcceptedLonger(l, arr, args, settled, env, ks);
          ChosenLonger(arr, ks);
          ks := ks + [last];
        } else if IsTruth(v) {
          AcceptedStill(l, arr, args, settled, env, ks);
          assert Chosen(arr, ks) == Chosen(init, ks);
        }
      }
    }
  }

  lemma ChosenLonger(arr: seq<Json>, ks: seq<nat>)
    requires arr != [] && forall k :: k in ks ==> k < |arr| - 1
    ensures Chosen(arr, ks + [|arr| - 1]) == Chosen(arr[..|arr| - 1], ks) + [arr[|arr| - 1]]
  {
    var longer := ks + [|arr| - 1];
    assert forall i :: 0 <= i < |ks| ==> longer[i] == ks[i] && ks[i] in ks;
  }

  lemma AcceptedStill(l: Loop, arr: seq<Json>, args: Json, settled: Settled, env: Env, ks: seq<nat>)
    requires arr != [] && Accepted(l, arr[..|arr| - 1], args, settled, env, ks)
    requires Eval(l.body, args, settled, env + [Local(l.elem, arr[|arr| - 1])]) != Some(JBool(true))
    ensures Accepted(l, arr, args, settled, env, ks)
  {
    hide Eval;
  }

  lemma AcceptedLonger(l: Loop, arr: seq<Json>, args: Json, settled: Settled, env: Env, ks: seq<nat>)
    requires arr != [] && Accepted(l, arr[..|arr| - 1], args, settled, env, ks)
    requires Eval(l.body, args, settled, env + [Local(l.elem, arr[|arr| - 1])]) == Some(JBool(true))
    ensures Accepted(l, arr, args, settled, env, ks + [|arr| - 1])
  {
    hide Eval;
    assert forall i :: 0 <= i < |ks| ==> ks[i] in ks;
  }

  predicate IsTruth(v: Option<Json>) { v.Some? && v.value.JBool? }

  /** A map faults exactly when its body does somewhere; otherwise it answers element by element. */
  lemma {:induction false} MapPointwise(l: Loop, arr: seq<Json>, args: Json, settled: Settled, env: Env)
    requires l.kind.LMap?
    ensures var r := EvalElems(l, arr, JArr([]), args, settled, env);
            && (r.None? <==> exists x :: x in arr && Eval(l.body, args, settled, env + [Local(l.elem, x)]).None?)
            && (r.Some? ==>
                  && r.value.JArr? && |r.value.elems| == |arr|
                  && forall i :: 0 <= i < |arr| ==>
                       Some(r.value.elems[i]) == Eval(l.body, args, settled, env + [Local(l.elem, arr[i])]))
    decreases |arr|
  {
    hide Eval;
    if arr != [] {
      var last := |arr| - 1;
      var init := arr[..last];
      MapPointwise(l, init, args, settled, env);
      assert arr == init + [arr[last]];
      var before := EvalElems(l, init, JArr([]), args, settled, env);
      if before.Some? { BodySees(l, arr[last], before.value, args, settled, env); }
    }
  }

  /** The accumulators of a fold: each is the body at the element and the one before. */
  ghost predicate Folds(l: Loop, arr: seq<Json>, start: Json, args: Json, settled: Settled, env: Env, accs: seq<Json>) {
    && |accs| == |arr| + 1 && accs[0] == start
    && forall i :: 0 <= i < |arr| ==>
         Eval(l.body, args, settled, env + [Local(l.elem, arr[i]), Local(l.acc, accs[i])]) == Some(accs[i + 1])
  }

  lemma {:induction false} FoldRuns(l: Loop, arr: seq<Json>, start: Json, args: Json, settled: Settled, env: Env)
    returns (accs: seq<Json>)
    requires l.kind.LFold? && EvalElems(l, arr, start, args, settled, env).Some?
    ensures Folds(l, arr, start, args, settled, env, accs)
    ensures accs[|arr|] == EvalElems(l, arr, start, args, settled, env).value
    decreases |arr|
  {
    hide Eval;
    accs := [start];
    if arr != [] {
      OneMore(l, arr, start, args, settled, env);
      accs := FoldRuns(l, arr[..|arr| - 1], start, args, settled, env);
      var v := EvalElems(l, arr, start, args, settled, env).value;
      FoldsLonger(l, arr, start, args, settled, env, accs, v);
      accs := accs + [v];
    }
  }

  lemma {:induction false} FoldsAnswer(l: Loop, arr: seq<Json>, start: Json, args: Json, settled: Settled, env: Env,
                                       accs: seq<Json>)
    requires l.kind.LFold? && Folds(l, arr, start, args, settled, env, accs)
    ensures EvalElems(l, arr, start, args, settled, env) == Some(accs[|arr|])
    decreases |arr|
  {
    hide Eval;
    if arr != [] {
      OneMore(l, arr, start, args, settled, env);
      FoldsShorter(l, arr, start, args, settled, env, accs);
      FoldsAnswer(l, arr[..|arr| - 1], start, args, settled, env, accs[..|arr|]);
    }
  }

  /** A fold answers exactly with the last of its accumulators; without them it faults. */
  lemma FoldSteps(l: Loop, arr: seq<Json>, start: Json, args: Json, settled: Settled, env: Env, v: Json)
    requires l.kind.LFold?
    ensures EvalElems(l, arr, start, args, settled, env) == Some(v) <==>
              exists accs :: Folds(l, arr, start, args, settled, env, accs) && accs[|arr|] == v
  {
    hide Eval, EvalElems;
    if EvalElems(l, arr, start, args, settled, env) == Some(v) {
      var accs := FoldRuns(l, arr, start, args, settled, env);
    }
    if accs :| Folds(l, arr, start, args, settled, env, accs) && accs[|arr|] == v {
      FoldsAnswer(l, arr, start, args, settled, env, accs);
    }
  }

  lemma FoldsLonger(l: Loop, arr: seq<Json>, start: Json, args: Json, settled: Settled, env: Env, accs: seq<Json>,
                    v: Json)
    requires l.kind.LFold? && arr != [] && Folds(l, arr[..|arr| - 1], start, args, settled, env, accs)
    requires At(l, arr[|arr| - 1], accs[|arr| - 1], args, settled, env) == Some(v)
    ensures Folds(l, arr, start, args, settled, env, accs + [v]) && (accs + [v])[|arr|] == v
  {
    hide Eval;
    var last := |arr| - 1;
    assert BodyEnv(l, env, arr[last], accs[last]) == env + [Local(l.elem, arr[last]), Local(l.acc, accs[last])];
  }

  lemma FoldsShorter(l: Loop, arr: seq<Json>, start: Json, args: Json, settled: Settled, env: Env, accs: seq<Json>)
    requires l.kind.LFold? && arr != [] && Folds(l, arr, start, args, settled, env, accs)
    ensures Folds(l, arr[..|arr| - 1], start, args, settled, env, accs[..|arr|])
    ensures accs[..|arr|][|arr| - 1] == accs[|arr| - 1]
    ensures At(l, arr[|arr| - 1], accs[|arr| - 1], args, settled, env) == Some(accs[|arr|])
  {
    hide Eval;
    var last := |arr| - 1;
    assert BodyEnv(l, env, arr[last], accs[last]) == env + [Local(l.elem, arr[last]), Local(l.acc, accs[last])];
  }

  /** A filter over an array keeps, in order, the elements its body is true of. */
  lemma FilterLoop(l: Loop, arr: seq<Json>, args: Json, settled: Settled, env: Env) returns (ks: seq<nat>)
    requires l.kind.LFilter? && Eval(l.source, args, settled, env) == Some(JArr(arr))
    ensures var r := EvalLoop(l, args, settled, env);
            && (r.None? <==> exists x :: x in arr && !IsTruth(Eval(l.body, args, settled, env + [Local(l.elem, x)])))
            && (r.Some? ==> Accepted(l, arr, args, settled, env, ks) && r.value == JArr(Chosen(arr, ks)))
  {
    hide Eval, EvalElems, Accepted;
    ks := FilterKeeps(l, arr, args, settled, env);
  }

  /** A map over an array answers its body at each element. */
  lemma MapLoop(l: Loop, arr: seq<Json>, args: Json, settled: Settled, env: Env)
    requires l.kind.LMap? && Eval(l.source, args, settled, env) == Some(JArr(arr))
    ensures var r := EvalLoop(l, args, settled, env);
            && (r.None? <==> exists x :: x in arr && Eval(l.body, args, settled, env + [Local(l.elem, x)]).None?)
            && (r.Some? ==>
                  && r.value.JArr? && |r.value.elems| == |arr|
                  && forall i :: 0 <= i < |arr| ==>
                       Some(r.value.elems[i]) == Eval(l.body, args, settled, env + [Local(l.elem, arr[i])]))
  {
    hide Eval, EvalElems;
    MapPointwise(l, arr, args, settled, env);
  }

  /** A fold answers exactly with the last of its accumulators, the first being the initial value. */
  lemma FoldLoop(l: Loop, arr: seq<Json>, args: Json, settled: Settled, env: Env, v: Json)
    requires l.kind.LFold? && Eval(l.source, args, settled, env) == Some(JArr(arr))
    ensures EvalLoop(l, args, settled, env) == Some(v) <==>
              exists start, accs ::
                Eval(l.init, args, settled, env) == Some(start)
                && Folds(l, arr, start, args, settled, env, accs) && accs[|arr|] == v
  {
    hide Eval, EvalElems;
    var init := Eval(l.init, args, settled, env);
    if init.Some? { FoldSteps(l, arr, init.value, args, settled, env, v); }
  }

  // ---------------------------------------------------------------- expressions

  /** A path is followed one field after the other. */
  lemma {:induction false} ProjectComposes(v: Json, p: seq<string>, q: seq<string>)
    ensures Project(v, p + q) == if Project(v, p).Some? then Project(Project(v, p).value, q) else None
    decreases |p|
  {
    if p == [] {
      assert p + q == q;
    } else {
      assert (p + q)[0] == p[0] && (p + q)[1..] == p[1..] + q;
      if v.JObj? && p[0] in v.fields { ProjectComposes(v.fields[p[0]], p[1..], q); }
    }
  }

  /** A name means its first binding. */
  lemma {:induction false} FirstBinding(env: Env, name: string, i: nat)
    requires i <= |env| && (forall j :: 0 <= j < i ==> env[j].name != name)
    requires i < |env| ==> env[i].name == name
    ensures Lookup(env, name) == if i < |env| then Some(env[i].value) else None
    decreases |env|
  {
    if i > 0 {
      assert forall j :: 0 <= j < i - 1 ==> env[1..][j] == env[j + 1];
      FirstBinding(env[1..], name, i - 1);
    }
  }

  /** A case goes to the first arm whose literal is the value, or to the default. */
  lemma {:induction false} FirstArm(arms: seq<Arm>, v: Json, otherwise: NodeId, i: nat)
    requires i <= |arms| && (forall j :: 0 <= j < i ==> arms[j].lit != v)
    requires i < |arms| ==> arms[i].lit == v
    ensures Target(arms, v, otherwise) == if i < |arms| then arms[i].target else otherwise
    decreases |arms|
  {
    if i > 0 {
      assert forall j :: 0 <= j < i - 1 ==> arms[1..][j] == arms[j + 1];
      FirstArm(arms[1..], v, otherwise, i - 1);
    }
  }

  lemma {:induction false} AllPointwise(es: seq<Expr>, args: Json, settled: Settled, env: Env)
    ensures var r := EvalAll(es, args, settled, env);
            && (r.None? <==> exists e :: e in es && Eval(e, args, settled, env).None?)
            && (r.Some? ==> |r.value| == |es|
                            && forall i :: 0 <= i < |es| ==> Eval(es[i], args, settled, env) == Some(r.value[i]))
    decreases |es|
  {
    hide Eval;
    if es != [] {
      var init := es[..|es| - 1];
      AllPointwise(init, args, settled, env);
      LastIn(es);
      if EvalAll(init, args, settled, env).None? {
        var e :| e in init && Eval(e, args, settled, env).None?;
        assert e in es;
      } else if EvalAll(es, args, settled, env).None? {
        var e := es[|es| - 1];
        assert e in es && Eval(e, args, settled, env).None?;
      } else {
        forall e | e in es ensures Eval(e, args, settled, env).Some? { assert e in init || e == es[|es| - 1]; }
      }
    }
  }

  /** An array expression answers pointwise, and faults exactly when an element does. */
  lemma ArrayPointwise(es: seq<Expr>, args: Json, settled: Settled, env: Env)
    ensures var r := Eval(EArray(es), args, settled, env);
            && (r.None? <==> exists e :: e in es && Eval(e, args, settled, env).None?)
            && (r.Some? ==>
                  && r.value.JArr? && |r.value.elems| == |es|
                  && forall i :: 0 <= i < |es| ==> Eval(es[i], args, settled, env) == Some(r.value.elems[i]))
  {
    AllPointwise(es, args, settled, env);
    hide EvalAll;
  }

  lemma {:induction false} FieldKeys(fs: seq<Field>, args: Json, settled: Settled, env: Env)
    ensures var r := EvalFields(fs, args, settled, env);
            && (r.None? <==> exists f :: f in fs && Eval(f.value, args, settled, env).None?)
            && (r.Some? ==> forall k :: k in r.value <==> exists f :: f in fs && f.key == k)
    decreases |fs|
  {
    hide Eval;
    if fs != [] {
      FieldKeys(fs[..|fs| - 1], args, settled, env);
      LastIn(fs);
    }
  }

  lemma {:induction false} LastFieldWins(fs: seq<Field>, args: Json, settled: Settled, env: Env, i: nat)
    requires i < |fs| && (forall j :: i < j < |fs| ==> fs[j].key != fs[i].key)
    requires EvalFields(fs, args, settled, env).Some?
    ensures var r := EvalFields(fs, args, settled, env).value;
            fs[i].key in r && Eval(fs[i].value, args, settled, env) == Some(r[fs[i].key])
    decreases |fs|
  {
    hide Eval;
    if i < |fs| - 1 {
      assert fs[|fs| - 1].key != fs[i].key;
      LastFieldWins(fs[..|fs| - 1], args, settled, env, i);
    }
  }

  /** An object expression faults exactly when a field does and has exactly its keys. */
  lemma ObjectKeys(fs: seq<Field>, args: Json, settled: Settled, env: Env)
    ensures var r := Eval(EObject(fs), args, settled, env);
            && (r.None? <==> exists f :: f in fs && Eval(f.value, args, settled, env).None?)
            && (r.Some? ==> r.value.JObj? && forall k :: k in r.value.fields <==> exists f :: f in fs && f.key == k)
  {
    FieldKeys(fs, args, settled, env);
    hide EvalFields;
  }

  /** At a key stands the value of the last field that gives it. */
  lemma ObjectFields(fs: seq<Field>, args: Json, settled: Settled, env: Env, i: nat)
    requires i < |fs| && (forall j :: i < j < |fs| ==> fs[j].key != fs[i].key)
    requires Eval(EObject(fs), args, settled, env).Some?
    ensures var r := Eval(EObject(fs), args, settled, env).value;
            r.JObj? && fs[i].key in r.fields && Eval(fs[i].value, args, settled, env) == Some(r.fields[fs[i].key])
  {
    LastFieldWins(fs, args, settled, env, i);
    hide EvalFields;
  }
}
