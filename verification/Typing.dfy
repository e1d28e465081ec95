/** Evaluation agrees with inference: exactly which expressions never fault, and with what types. */
module Typing {
  import opened Options
  import opened Graph
  import opened Types
  import opened Inference

  ghost predicate Fits(v: Json, b: Binding) {
    && (b.ty.Known? ==> Valid(v, b.ty.ty))
    && (b.literal.Some? ==> v == b.literal.value)
  }

  ghost predicate EnvFits(env: Env, scope: Scope) {
    forall x :: Lookup(env, x).Some? && Bound(scope, x).Some? ==> Fits(Lookup(env, x).value, Bound(scope, x).value)
  }

  /** Every settled result has the type its operation or callee declares. */
  ghost predicate ResultsFit(g: IrGraph, sig: Signature, settled: Settled) {
    forall id: NodeId :: id in settled && ResultType(g, sig, id).Known? ==>
      Valid(settled[id], ResultType(g, sig, id).ty)
  }

  /** Arguments, results and locals of the declared and inferred types. */
  ghost predicate World(g: IrGraph, sig: Signature, scope: Scope, args: Json, settled: Settled, env: Env) {
    Valid(args, sig.arg) && ResultsFit(g, sig, settled) && EnvFits(env, scope)
  }

  /** Everything the expression refers to is there. */
  predicate Refers(e: Expr, settled: Settled, env: Env)
    decreases e
  {
    match e
    case EResult(node, _) => node in settled
    case ELocal(name, _) => Lookup(env, name).Some?
    case EObject(fields) => forall f :: f in fields ==> Refers(f.value, settled, env)
    case EArray(elems) => forall x :: x in elems ==> Refers(x, settled, env)
    case _ => true
  }

  /** Every projection follows required fields, or reaches into a literal that has them. */
  predicate Solid(e: Expr, g: IrGraph, sig: Signature, scope: Scope)
    decreases e
  {
    match e
    case EConst(_) => true
    case EArg(path) => Required(sig.arg, path)
    case EResult(node, path) =>
      path == [] || (ResultType(g, sig, node).Known? && Required(ResultType(g, sig, node).ty, path))
    case ELocal(name, path) =>
      var b := Bound(scope, name);
      if b.Some? && b.value.literal.Some? then Project(b.value.literal.value, path).Some?
      else path == [] || (b.Some? && b.value.ty.Known? && Required(b.value.ty.ty, path))
    case EObject(fields) => forall f :: f in fields ==> Solid(f.value, g, sig, scope)
    case EArray(elems) => forall x :: x in elems ==> Solid(x, g, sig, scope)
  }

  predicate SizedExpr(e: Expr)
    decreases e
  {
    match e
    case EConst(v) => Sized(v)
    case EObject(fields) => forall f :: f in fields ==> SizedExpr(f.value)
    case EArray(elems) => forall x :: x in elems ==> SizedExpr(x)
    case _ => true
  }

  // ---------------------------------------------------------------- no faults

  lemma {:induction false} EvalTotal(e: Expr, g: IrGraph, sig: Signature, scope: Scope, args: Json, settled: Settled,
                                     env: Env)
    requires World(g, sig, scope, args, settled, env) && Refers(e, settled, env) && Solid(e, g, sig, scope)
    ensures Eval(e, args, settled, env).Some?
    ensures LiteralOf(e, scope).Some? ==> Eval(e, args, settled, env) == LiteralOf(e, scope)
    decreases e
  {
    match e
    case EConst(_) =>
    case EArg(path) => RequiredReaches(args, sig.arg, path);
    case EResult(node, path) =>
      if path != [] { RequiredReaches(settled[node], ResultType(g, sig, node).ty, path); }
    case ELocal(name, path) =>
      var b := Bound(scope, name);
      if b.Some? && b.value.literal.None? && path != [] {
        RequiredReaches(Lookup(env, name).value, b.value.ty.ty, path);
      }
    case EObject(fields) => FieldsTotal(fields, g, sig, scope, args, settled, env);
    case EArray(elems) => AllTotal(elems, g, sig, scope, args, settled, env);
  }

  lemma {:induction false} FieldsTotal(fs: seq<Field>, g: IrGraph, sig: Signature, scope: Scope,
                                       args: Json, settled: Settled, env: Env)
    requires World(g, sig, scope, args, settled, env)
    requires forall f :: f in fs ==> Refers(f.value, settled, env) && Solid(f.value, g, sig, scope)
    ensures EvalFields(fs, args, settled, env).Some?
    decreases fs
  {
    if fs != [] {
      FieldsTotal(fs[..|fs| - 1], g, sig, scope, args, settled, env);
      EvalTotal(fs[|fs| - 1].value, g, sig, scope, args, settled, env);
    }
  }

  lemma {:induction false} AllTotal(es: seq<Expr>, g: IrGraph, sig: Signature, scope: Scope,
                                    args: Json, settled: Settled, env: Env)
    requires World(g, sig, scope, args, settled, env)
    requires forall x :: x in es ==> Refers(x, settled, env) && Solid(x, g, sig, scope)
    ensures EvalAll(es, args, settled, env).Some?
    decreases es
  {
    if es != [] {
      AllTotal(es[..|es| - 1], g, sig, scope, args, settled, env);
      EvalTotal(es[|es| - 1], g, sig, scope, args, settled, env);
    }
  }

  // ---------------------------------------------------------------- some fault otherwise

  /** The second world knows at least the results and locals of the first. */
  predicate Wider(settled: Settled, env: Env, settled': Settled, env': Env) {
    settled.Keys <= settled'.Keys && forall l :: l in env ==> l in env'
  }

  lemma {:induction false} LookupMember(env: Env, name: string)
    ensures Lookup(env, name).Some? <==> exists l :: l in env && l.name == name
    decreases |env|
  {
    if env != [] && env[0].name != name {
      LookupMember(env[1..], name);
      assert env == [env[0]] + env[1..];
    }
  }

  lemma {:induction false} RefersWider(e: Expr, settled: Settled, env: Env, settled': Settled, env': Env)
    requires Refers(e, settled, env) && Wider(settled, env, settled', env')
    ensures Refers(e, settled', env')
    decreases e
  {
    match e
    case ELocal(name, _) => LookupMember(env, name); LookupMember(env', name);
    case EObject(fields) =>
      forall f | f in fields ensures Refers(f.value, settled', env') {
        RefersWider(f.value, settled, env, settled', env');
      }
    case EArray(elems) =>
      forall x | x in elems ensures Refers(x, settled', env') { RefersWider(x, settled, env, settled', env'); }
    case _ =>
  }

  lemma {:induction false} FieldsFault(fs: seq<Field>, f: Field, args: Json, settled: Settled, env: Env)
    requires f in fs && Eval(f.value, args, settled, env).None?
    ensures EvalFields(fs, args, settled, env).None?
    decreases fs
  {
    if fs[|fs| - 1] != f { FieldsFault(fs[..|fs| - 1], f, args, settled, env); }
  }

  lemma {:induction false} AllFault(es: seq<Expr>, x: Expr, args: Json, settled: Settled, env: Env)
    requires x in es && Eval(x, args, settled, env).None?
    ensures EvalAll(es, args, settled, env).None?
    decreases es
  {
    if es[|es| - 1] != x { AllFault(es[..|es| - 1], x, args, settled, env); }
  }

  /** A value of the type, if there is one to respect, that the path does not reach. */
  ghost function HollowOf(t: Inferred, path: seq<string>): (v: Json)
    requires path != [] && !(t.Known? && Required(t.ty, path))
    ensures (t.Known? ==> Valid(v, t.ty)) && Project(v, path).None?
  {
    if t.Known? then Hollow(t.ty, path) else JNull
  }

  lemma {:induction false} FaultExists(e: Expr, g: IrGraph, sig: Signature, scope: Scope, args: Json,
                                       settled: Settled, env: Env)
    returns (args': Json, settled': Settled, env': Env)
    requires World(g, sig, scope, args, settled, env) && Refers(e, settled, env) && !Solid(e, g, sig, scope)
    ensures World(g, sig, scope, args', settled', env') && Wider(settled, env, settled', env')
    ensures Eval(e, args', settled', env').None?
    decreases e
  {
    args', settled', env' := args, settled, env;
    match e
    case EArg(path) => args' := Hollow(sig.arg, path);
    case EResult(node, path) => settled' := settled[node := HollowOf(ResultType(g, sig, node), path)];
    case ELocal(name, path) =>
      var b := Bound(scope, name);
      if b.None? || b.value.literal.None? {
        var t := if b.Some? then b.value.ty else Unknown;
        env' := [Local(name, HollowOf(t, path))] + env;
        assert env'[1..] == env;
        assert forall x :: x != name ==> Lookup(env', x) == Lookup(env, x);
      }
    case EObject(fields) =>
      var f :| f in fields && !Solid(f.value, g, sig, scope);
      args', settled', env' := FaultExists(f.value, g, sig, scope, args, settled, env);
      FieldsFault(fields, f, args', settled', env');
    case EArray(elems) =>
      var x :| x in elems && !Solid(x, g, sig, scope);
      args', settled', env' := FaultExists(x, g, sig, scope, args, settled, env);
      AllFault(elems, x, args', settled', env');
    case EConst(_) =>
  }

  /** An expression evaluates in every well-typed world that has what it refers to exactly when all
    * its projections are solid. The checker asks less: it looks through optional fields, and lets
    * anything be projected out of an imprecise literal or an untyped source. */
  lemma NeverFaultsExactly(e: Expr, g: IrGraph, sig: Signature, scope: Scope, args: Json, settled: Settled, env: Env)
    requires World(g, sig, scope, args, settled, env) && Refers(e, settled, env)
    ensures Solid(e, g, sig, scope) <==>
            forall a, s, n :: World(g, sig, scope, a, s, n) && Refers(e, s, n) ==> Eval(e, a, s, n).Some?
  {
    if Solid(e, g, sig, scope) {
      forall a, s, n | World(g, sig, scope, a, s, n) && Refers(e, s, n) ensures Eval(e, a, s, n).Some? {
        EvalTotal(e, g, sig, scope, a, s, n);
      }
    } else {
      var a, s, n := FaultExists(e, g, sig, scope, args, settled, env);
      RefersWider(e, settled, env, s, n);
    }
  }

  // ---------------------------------------------------------------- types

  lemma {:induction false} InferSound(e: Expr, g: IrGraph, sig: Signature, scope: Scope, args: Json, settled: Settled,
                                      env: Env)
    requires World(g, sig, scope, args, settled, env) && Refers(e, settled, env)
    requires Solid(e, g, sig, scope) && SizedExpr(e)
    ensures Eval(e, args, settled, env).Some?
    ensures Infer(e, g, sig, scope).Known? ==> Valid(Eval(e, args, settled, env).value, Infer(e, g, sig, scope).ty)
    decreases e
  {
    EvalTotal(e, g, sig, scope, args, settled, env);
    if Infer(e, g, sig, scope).Known? {
      match e
      case EConst(v) => LiteralTyped(v);
      case EArg(path) => ProjectTyped(args, sig.arg, path);
      case EResult(node, path) => ProjectTyped(settled[node], ResultType(g, sig, node).ty, path);
      case ELocal(name, path) => ProjectTyped(Lookup(env, name).value, Bound(scope, name).value.ty.ty, path);
      case EObject(fields) => FieldsSound(fields, g, sig, scope, args, settled, env);
      case EArray(elems) => AllSound(elems, Infer(e, g, sig, scope).ty.elem, g, sig, scope, args, settled, env);
    }
  }

  lemma {:induction false} FieldsSound(fs: seq<Field>, g: IrGraph, sig: Signature, scope: Scope,
                                       args: Json, settled: Settled, env: Env)
    requires World(g, sig, scope, args, settled, env)
    requires forall f :: f in fs ==>
               Refers(f.value, settled, env) && Solid(f.value, g, sig, scope) && SizedExpr(f.value)
    requires InferFields(fs, g, sig, scope).Known?
    ensures EvalFields(fs, args, settled, env).Some?
    ensures Valid(JObj(EvalFields(fs, args, settled, env).value), InferFields(fs, g, sig, scope).ty)
    decreases fs
  {
    if fs != [] {
      FieldsSound(fs[..|fs| - 1], g, sig, scope, args, settled, env);
      InferSound(fs[|fs| - 1].value, g, sig, scope, args, settled, env);
    }
  }

  lemma {:induction false} AllSound(es: seq<Expr>, t: Ty, g: IrGraph, sig: Signature, scope: Scope,
                                    args: Json, settled: Settled, env: Env)
    requires World(g, sig, scope, args, settled, env)
    requires forall x :: x in es ==> Refers(x, settled, env) && Solid(x, g, sig, scope) && SizedExpr(x)
    requires OneType(InferAll(es, g, sig, scope), t)
    ensures EvalAll(es, args, settled, env).Some?
    ensures Valid(JArr(EvalAll(es, args, settled, env).value), TArray(t))
    decreases es
  {
    if es != [] {
      AllSound(es[..|es| - 1], t, g, sig, scope, args, settled, env);
      InferSound(es[|es| - 1], g, sig, scope, args, settled, env);
    }
  }

  /** The parts are all known and of one type. */
  predicate OneType(p: Parts, t: Ty) {
    !p.clash && !p.unknown && !p.imprecise && !p.rejected && (p.first == Some(t) || p.first.None?)
  }

  /** What passes the check at a typed boundary has the type there, unless its source is untyped. */
  lemma HasTypeSound(e: Expr, t: Ty, g: IrGraph, sig: Signature, scope: Scope, args: Json, settled: Settled, env: Env)
    requires World(g, sig, scope, args, settled, env) && Refers(e, settled, env)
    requires Solid(e, g, sig, scope) && SizedExpr(e)
    requires HasType(e, t, g, sig, scope) && !Infer(e, g, sig, scope).Unknown?
    ensures Eval(e, args, settled, env).Some? && Valid(Eval(e, args, settled, env).value, t)
  {
    EvalTotal(e, g, sig, scope, args, settled, env);
    InferSound(e, g, sig, scope, args, settled, env);
    if LiteralOf(e, scope).None? {
      AssignableSound(Eval(e, args, settled, env).value, Infer(e, g, sig, scope).ty, t);
    }
  }

  // ---------------------------------------------------------------- loops

  lemma {:induction false} LookupAppend(env: Env, l: Local, x: string)
    ensures Lookup(env + [l], x)
            == if Lookup(env, x).Some? then Lookup(env, x) else if l.name == x then Some(l.value) else None
    decreases |env|
  {
    if env != [] {
      assert (env + [l])[1..] == env[1..] + [l];
      LookupAppend(env[1..], l, x);
    }
  }

  lemma {:induction false} BoundAppend(scope: Scope, b: Binding, x: string)
    ensures Bound(scope + [b], x)
            == if Bound(scope, x).Some? then Bound(scope, x) else if b.name == x then Some(b) else None
    decreases |scope|
  {
    if scope != [] {
      assert (scope + [b])[1..] == scope[1..] + [b];
      BoundAppend(scope[1..], b, x);
    }
  }

  /** A new name keeps the locals of their types. */
  lemma EnvFitsGrows(env: Env, scope: Scope, v: Json, b: Binding)
    requires EnvFits(env, scope) && Fits(v, b) && Bound(scope, b.name).None? && Lookup(env, b.name).None?
    ensures EnvFits(env + [Local(b.name, v)], scope + [b])
  {
    hide Lookup, Bound, Fits;
    forall x | Lookup(env + [Local(b.name, v)], x).Some? && Bound(scope + [b], x).Some?
      ensures Fits(Lookup(env + [Local(b.name, v)], x).value, Bound(scope + [b], x).value)
    {
      LookupAppend(env, Local(b.name, v), x);
      BoundAppend(scope, b, x);
    }
  }

  /** A loop as the build accepts it, over a source of known type and not folded from `null`. */
  predicate FirmLoop(l: Loop, g: IrGraph, sig: Signature, scope: Scope) {
    var source := Infer(l.source, g, sig, scope);
    && Solid(l.source, g, sig, scope) && SizedExpr(l.source) && source.Known? && source.ty.TArray?
    && (l.kind.LFold? ==>
        Solid(l.init, g, sig, scope) && SizedExpr(l.init) && Infer(l.init, g, sig, scope) != Known(TNull))
    && Solid(l.body, g, sig, BodyScope(l, g, sig, scope)) && SizedExpr(l.body)
    && !LoopType(l, g, sig, scope).Rejected? && !Infer(l.body, g, sig, BodyScope(l, g, sig, scope)).Unknown?
  }

  /** The loop's own names are new, and everything else it refers to is there. */
  ghost predicate LoopRefers(l: Loop, scope: Scope, settled: Settled, env: Env) {
    && l.elem != l.acc
    && Bound(scope, l.elem).None? && Lookup(env, l.elem).None?
    && Bound(scope, l.acc).None? && Lookup(env, l.acc).None?
    && Refers(l.source, settled, env)
    && (l.kind.LFold? ==> Refers(l.init, settled, env))
    && forall x, running :: Refers(l.body, settled, BodyEnv(l, env, x, running))
  }

  /** Each round of a loop body happens in a well-typed world. */
  lemma RoundWorld(l: Loop, x: Json, running: Json, g: IrGraph, sig: Signature, scope: Scope, args: Json,
                   settled: Settled, env: Env)
    requires World(g, sig, scope, args, settled, env) && FirmLoop(l, g, sig, scope)
             && LoopRefers(l, scope, settled, env)
    requires Valid(x, Infer(l.source, g, sig, scope).ty.elem)
    requires l.kind.LFold? && Infer(l.init, g, sig, scope).Known? ==> Valid(running, Infer(l.init, g, sig, scope).ty)
    ensures World(g, sig, BodyScope(l, g, sig, scope), args, settled, BodyEnv(l, env, x, running))
  {
    hide Infer, Valid, Lookup, Bound, EnvFits, Refers, Solid, SizedExpr, ResultsFit, LoopType;
    var elem := Binding(l.elem, Known(Infer(l.source, g, sig, scope).ty.elem), None);
    EnvFitsGrows(env, scope, x, elem);
    LookupAppend(env, Local(l.elem, x), l.acc);
    BoundAppend(scope, elem, l.acc);
    if l.kind.LFold? {
      EnvFitsGrows(env + [Local(l.elem, x)], scope + [elem], running,
                   Binding(l.acc, Infer(l.init, g, sig, scope), None));
      assert BodyEnv(l, env, x, running) == env + [Local(l.elem, x)] + [Local(l.acc, running)];
    } else {
      assert BodyEnv(l, env, x, running) == env + [Local(l.elem, x)];
      assert BodyScope(l, g, sig, scope) == scope + [elem];
    }
  }

  /** What the rounds so far have made of the start value. */
  ghost predicate Running(l: Loop, g: IrGraph, sig: Signature, scope: Scope, v: Json) {
    var t := LoopType(l, g, sig, scope);
    if l.kind.LFold? then (Infer(l.init, g, sig, scope).Known? ==> Valid(v, Infer(l.init, g, sig, scope).ty))
    else v.JArr? && (t.Known? ==> Valid(v, t.ty))
  }

  lemma OneRound(l: Loop, x: Json, running: Json, g: IrGraph, sig: Signature, scope: Scope, args: Json,
                 settled: Settled, env: Env)
    requires World(g, sig, scope, args, settled, env) && FirmLoop(l, g, sig, scope)
             && LoopRefers(l, scope, settled, env)
    requires Valid(x, Infer(l.source, g, sig, scope).ty.elem) && Running(l, g, sig, scope, running)
    ensures var v := Eval(l.body, args, settled, BodyEnv(l, env, x, running));
            && v.Some?
            && (l.kind.LFold? ==> Running(l, g, sig, scope, v.value))
            && (l.kind.LMap? ==> Running(l, g, sig, scope, JArr(running.elems + [v.value])))
            && (l.kind.LFilter? ==> v.value.JBool? && Running(l, g, sig, scope, JArr(running.elems + [x])))
  {
    RoundWorld(l, x, running, g, sig, scope, args, settled, env);
    InferSound(l.body, g, sig, BodyScope(l, g, sig, scope), args, settled, BodyEnv(l, env, x, running));
    hide Infer, Lookup, Bound, EnvFits, Refers, Solid, SizedExpr, ResultsFit, BodyScope, BodyEnv, World;
  }

  lemma {:induction false} RoundsSound(l: Loop, arr: seq<Json>, start: Json, g: IrGraph, sig: Signature, scope: Scope,
                                       args: Json, settled: Settled, env: Env)
    requires World(g, sig, scope, args, settled, env) && FirmLoop(l, g, sig, scope)
             && LoopRefers(l, scope, settled, env)
    requires forall x :: x in arr ==> Valid(x, Infer(l.source, g, sig, scope).ty.elem)
    requires Running(l, g, sig, scope, start) && (!l.kind.LFold? ==> start == JArr([]))
    ensures EvalElems(l, arr, start, args, settled, env).Some?
    ensures Running(l, g, sig, scope, EvalElems(l, arr, start, args, settled, env).value)
    decreases |arr|
  {
    hide FirmLoop, LoopRefers, Running, World, Infer, Valid, Eval, BodyEnv;
    if arr != [] {
      RoundsSound(l, arr[..|arr| - 1], start, g, sig, scope, args, settled, env);
      OneRound(l, arr[|arr| - 1], EvalElems(l, arr[..|arr| - 1], start, args, settled, env).value,
               g, sig, scope, args, settled, env);
    }
  }

  /** A loop never faults, and its result has the inferred type. */
  lemma LoopSound(l: Loop, g: IrGraph, sig: Signature, scope: Scope, args: Json, settled: Settled, env: Env)
    requires World(g, sig, scope, args, settled, env) && FirmLoop(l, g, sig, scope)
             && LoopRefers(l, scope, settled, env)
    ensures EvalLoop(l, args, settled, env).Some?
    ensures LoopType(l, g, sig, scope).Known? ==>
              Valid(EvalLoop(l, args, settled, env).value, LoopType(l, g, sig, scope).ty)
  {
    InferSound(l.source, g, sig, scope, args, settled, env);
    var arr := Eval(l.source, args, settled, env).value;
    if l.kind.LFold? {
      InferSound(l.init, g, sig, scope, args, settled, env);
      RoundsSound(l, arr.elems, Eval(l.init, args, settled, env).value, g, sig, scope, args, settled, env);
    } else {
      RoundsSound(l, arr.elems, JArr([]), g, sig, scope, args, settled, env);
    }
  }
}
