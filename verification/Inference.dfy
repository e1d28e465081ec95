/** Type inference over expressions and the type check of a whole graph. */
module Inference {
  import opened Options
  import opened Graph
  import opened OpDepth
  import opened Types

  /** What inference knows: a type; nothing, because a source is untyped; or that a literal without
    * a precise type is involved. `Rejected` is a type error. */
  datatype Inferred = Known(ty: Ty) | Unknown | Imprecise | Rejected

  datatype Contract = Contract(input: Option<Ty>, result: Option<Ty>)

  datatype Callee = Callee(child: string, version: string)

  datatype Declared = Declared(arg: Ty, ret: Option<Ty>)

  /** The declared types of a script: its argument and return type, its operations, and the scripts
    * it can call when a manifest is at hand. */
  datatype Signature = Signature(arg: Ty, ret: Option<Ty>, ops: map<string, Contract>,
                                 targets: Option<map<Callee, Declared>>)

  /** A local in scope: its inferred type, and its value where that is a literal. */
  datatype Binding = Binding(name: string, ty: Inferred, literal: Option<Json>)

  type Scope = seq<Binding>

  function Bound(scope: Scope, name: string): (r: Option<Binding>)
    ensures r.Some? ==> r.value in scope && r.value.name == name
    ensures r.None? ==> forall b :: b in scope ==> b.name != name
    decreases |scope|
  {
    if scope == [] then None
    else if scope[0].name == name then Some(scope[0])
    else Bound(scope[1..], name)
  }

  // ---------------------------------------------------------------- expressions

  function Projected(t: Ty, path: seq<string>): Inferred {
    if ProjectType(t, path).Some? then Known(ProjectType(t, path).value) else Rejected
  }

  /** The declared type of the result a node leaves behind. */
  function ResultType(g: IrGraph, sig: Signature, id: NodeId): Inferred {
    match Find(g.nodes, id)
    case Some(NCall(_, child, version, _, _)) =>
      if sig.targets.None? then Unknown
      else if Callee(child, version) !in sig.targets.value then Rejected
      else
        var ret := sig.targets.value[Callee(child, version)].ret;
        if ret.Some? then Known(ret.value) else Rejected
    case Some(NOperation(_, operation, _, _)) =>
      if operation in sig.ops && sig.ops[operation].result.Some? then Known(sig.ops[operation].result.value)
      else Unknown
    case _ => Unknown
  }

  /** What a list of inferred parts amounts to: the first known type, and what else was met. */
  datatype Parts = Parts(first: Option<Ty>, clash: bool, unknown: bool, imprecise: bool, rejected: bool)

  const NO_PARTS: Parts := Parts(None, false, false, false, false)

  function AddPart(p: Parts, i: Inferred): Parts {
    match i
    case Known(t) => if p.first.None? then p.(first := Some(t)) else if p.first.value == t then p else p.(clash := true)
    case Unknown => p.(unknown := true)
    case Imprecise => p.(imprecise := true)
    case Rejected => p.(rejected := true)
  }

  function Infer(e: Expr, g: IrGraph, sig: Signature, scope: Scope): Inferred
    decreases e
  {
    match e
    case EConst(v) => if LiteralType(v).Some? then Known(LiteralType(v).value) else Imprecise
    case EArg(path) => Projected(sig.arg, path)
    case EResult(node, path) =>
      var r := ResultType(g, sig, node);
      if r.Known? then Projected(r.ty, path) else r
    case ELocal(name, path) =>
      var b := Bound(scope, name);
      if b.None? then Unknown
      else if b.value.ty.Known? then Projected(b.value.ty.ty, path)
      else b.value.ty
    case EObject(fields) => InferFields(fields, g, sig, scope)
    case EArray(elems) =>
      var p := InferAll(elems, g, sig, scope);
      if p.rejected then Rejected
      else if elems == [] || p.imprecise || p.clash then Imprecise
      else if p.unknown || p.first.None? then Unknown
      else Known(TArray(p.first.value))
  }

  function InferFields(fs: seq<Field>, g: IrGraph, sig: Signature, scope: Scope): (r: Inferred)
    ensures r.Known? ==> r.ty.TObject?
    decreases fs
  {
    if fs == [] then Known(TObject(map[]))
    else
      var rest := InferFields(fs[..|fs| - 1], g, sig, scope);
      var last := Infer(fs[|fs| - 1].value, g, sig, scope);
      if rest.Rejected? || last.Rejected? then Rejected
      else if rest.Imprecise? || last.Imprecise? then Imprecise
      else if rest.Unknown? || last.Unknown? then Unknown
      else Known(TObject(rest.ty.fields[fs[|fs| - 1].key := last.ty]))
  }

  function InferAll(es: seq<Expr>, g: IrGraph, sig: Signature, scope: Scope): Parts
    decreases es
  {
    if es == [] then NO_PARTS
    else AddPart(InferAll(es[..|es| - 1], g, sig, scope), Infer(es[|es| - 1], g, sig, scope))
  }

  /** The literal an expression stands for, if it is one or reaches one through a `let`. */
  function LiteralOf(e: Expr, scope: Scope): Option<Json> {
    match e
    case EConst(v) => Some(v)
    case ELocal(name, path) =>
      var b := Bound(scope, name);
      if b.Some? && b.value.literal.Some? then Project(b.value.literal.value, path) else None
    case _ => None
  }

  /** A literal is checked by value, anything else by assignability; an untyped source passes. */
  predicate HasType(e: Expr, expected: Ty, g: IrGraph, sig: Signature, scope: Scope) {
    var v := LiteralOf(e, scope);
    if v.Some? then Valid(v.value, expected)
    else
      match Infer(e, g, sig, scope)
      case Known(t) => Assignable(t, expected)
      case Unknown => true
      case _ => false
  }

  // ---------------------------------------------------------------- nodes

  /** The scope of a loop body; the element is untyped when the source is a literal. */
  function BodyScope(l: Loop, g: IrGraph, sig: Signature, scope: Scope): Scope {
    var source := Infer(l.source, g, sig, scope);
    var elem := if source.Known? && source.ty.TArray? then Known(source.ty.elem) else Unknown;
    scope + [Binding(l.elem, elem, None)]
    + (if l.kind.LFold? then [Binding(l.acc, Infer(l.init, g, sig, scope), None)] else [])
  }

  function LoopType(l: Loop, g: IrGraph, sig: Signature, scope: Scope): Inferred {
    var source := Infer(l.source, g, sig, scope);
    var literal := LiteralOf(l.source, scope);
    if source.Rejected? || (source.Known? && !source.ty.TArray?) then Rejected
    else if source.Imprecise? && !(literal.Some? && literal.value.JArr?) then Rejected
    else
      var body := Infer(l.body, g, sig, BodyScope(l, g, sig, scope));
      if body.Rejected? then Rejected
      else match l.kind
        case LFold =>
          var init := Infer(l.init, g, sig, scope);
          if init.Rejected? then Rejected
          else if init == Known(TNull) then body
          else if init.Known? && (body.Imprecise? || (body.Known? && body.ty != init.ty)) then Rejected
          else init
        case LFilter => if body.Imprecise? || (body.Known? && body.ty != TBool) then Rejected else source
        case LMap => if body.Known? then Known(TArray(body.ty)) else body
  }

  function Values(sources: seq<Source>): seq<Expr> {
    seq(|sources|, i requires 0 <= i < |sources| => sources[i].value)
  }

  /** Known sources must agree; one imprecise source makes the merge imprecise. */
  function MergeType(sources: seq<Source>, g: IrGraph, sig: Signature, scope: Scope): Inferred {
    var p := InferAll(Values(sources), g, sig, scope);
    if p.rejected || p.clash then Rejected
    else if p.imprecise then Imprecise
    else if p.first.Some? then Known(p.first.value)
    else Unknown
  }

  /** The name a node binds for what comes after it. */
  function Binder(n: Node): Option<string> {
    match n
    case NLet(_, name, _, _) => Some(name)
    case NLoop(_, loop, _) => Some(loop.acc)
    case NMerge(_, name, _, _) => Some(name)
    case _ => None
  }

  function BinderType(n: Node, g: IrGraph, sig: Signature, scope: Scope): Inferred
    requires Binder(n).Some?
  {
    match n
    case NLet(_, _, value, _) => Infer(value, g, sig, scope)
    case NLoop(_, loop, _) => LoopType(loop, g, sig, scope)
    case NMerge(_, _, sources, _) => MergeType(sources, g, sig, scope)
  }

  predicate NodeAccepted(n: Node, g: IrGraph, sig: Signature, scope: Scope) {
    match n
    case NOperation(_, operation, input, _) =>
      operation in sig.ops && sig.ops[operation].input.Some? ==>
        HasType(input, sig.ops[operation].input.value, g, sig, scope)
    case NCall(_, child, version, input, _) =>
      if sig.targets.None? then !Infer(input, g, sig, scope).Rejected?
      else
        && Callee(child, version) in sig.targets.value
        && HasType(input, sig.targets.value[Callee(child, version)].arg, g, sig, scope)
    case NIf(_, cond, _, _) => Infer(cond, g, sig, scope) in {Known(TBool), Unknown}
    case NFail(_, reason) => Infer(reason, g, sig, scope) in {Known(TString), Unknown, Imprecise}
    case NCase(_, scrutinee, arms, _) =>
      var s := Infer(scrutinee, g, sig, scope);
      !s.Rejected? && (s.Known? ==> forall a :: a in arms ==> Valid(a.lit, s.ty))
    case NReturn(_, value) =>
      && !Infer(value, g, sig, scope).Rejected?
      && (value != EConst(JNull) && sig.ret.Some? ==> HasType(value, sig.ret.value, g, sig, scope))
    case _ => !BinderType(n, g, sig, scope).Rejected?
  }

  /** The scope after a node. */
  function Bind(n: Node, g: IrGraph, sig: Signature, scope: Scope): Scope {
    if Binder(n).None? then scope
    else scope + [Binding(Binder(n).value, BinderType(n, g, sig, scope),
                          if n.NLet? then LiteralOf(n.value, scope) else None)]
  }

  /** The scope after a list of nodes checked in this order, `None` if one of them is rejected. */
  function CheckAll(order: seq<Node>, g: IrGraph, sig: Signature): Option<Scope> {
    if order == [] then Some([])
    else
      var before := CheckAll(order[..|order| - 1], g, sig);
      if before.None? || !NodeAccepted(order[|order| - 1], g, sig, before.value) then None
      else Some(Bind(order[|order| - 1], g, sig, before.value))
  }

  /** The check of a whole graph, node by node in topological order. */
  method TypeCheck(order: seq<Node>, g: IrGraph, sig: Signature) returns (ok: bool)
    ensures ok <==> CheckAll(order, g, sig).Some?
  {
    var scope: Scope := [];
    for k := 0 to |order|
      invariant CheckAll(order[..k], g, sig) == Some(scope)
    {
      assert order[..k + 1][..k] == order[..k];
      if !NodeAccepted(order[k], g, sig, scope) {
        RejectionStays(order, k + 1, g, sig);
        return false;
      }
      scope := Bind(order[k], g, sig, scope);
    }
    assert order[..|order|] == order;
    return true;
  }

  lemma {:induction false} RejectionStays(order: seq<Node>, k: nat, g: IrGraph, sig: Signature)
    requires k <= |order| && CheckAll(order[..k], g, sig).None?
    ensures CheckAll(order, g, sig).None?
    decreases |order| - k
  {
    if k == |order| {
      assert order[..k] == order;
    } else {
      assert order[..k + 1][..k] == order[..k];
      RejectionStays(order, k + 1, g, sig);
    }
  }
}
