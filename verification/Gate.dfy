/** The type gate accepts no less than it has to: what it refuses is refused for a reason. */
module Gate {
  import opened Options
  import opened Sets
  import opened Graph
  import opened Types
  import opened Inference

  // ---------------------------------------------------------------- assignability

  /** No arrays and no optionals anywhere. */
  predicate Rigid(t: Ty)
    decreases t
  {
    match t
    case TArray(_) => false
    case TOptional(_) => false
    case TObject(fields) => forall k :: k in fields ==> Rigid(fields[k])
    case _ => true
  }

  ghost predicate Included(actual: Ty, expected: Ty) { forall v :: Valid(v, actual) ==> Valid(v, expected) }

  /** A value of the one type that is none of the other. */
  lemma {:induction false} Separates(actual: Ty, expected: Ty) returns (v: Json)
    requires Rigid(actual) && !Assignable(actual, expected)
    ensures Valid(v, actual) && !Valid(v, expected)
    decreases expected
  {
    v := Witness(actual);
    match expected
    case TOptional(inner) => v := Separates(actual, inner);
    case TObject(efields) =>
      if actual.TObject? && FieldsPresent(actual.fields, efields) {
        var k :| k in efields && k in actual.fields && !Assignable(actual.fields[k], efields[k]);
        var u := Separates(actual.fields[k], efields[k]);
        v := JObj(v.fields[k := u]);
      }
    case _ =>
  }

  /** No field too many, and none missing that must be there. */
  predicate FieldsPresent(fields: map<string, Ty>, efields: map<string, Ty>) {
    (forall k :: k in fields ==> k in efields) && (forall k :: k in efields && k !in fields ==> efields[k].TOptional?)
  }

  /** On types without arrays and optionals, assignable is exactly what is included: the gate lets
    * every value pass that is always a value of the expected type, of whatever form that is. */
  lemma AssignableExactly(actual: Ty, expected: Ty)
    requires Rigid(actual)
    ensures Assignable(actual, expected) <==> Included(actual, expected)
  {
    if Assignable(actual, expected) {
      forall v | Valid(v, actual) ensures Valid(v, expected) { AssignableSound(v, actual, expected); }
    } else {
      var v := Separates(actual, expected);
    }
  }

  /** Inside arrays, and where the actual type is optional itself, the gate asks for the same type: there
    * it refuses what would fit. */
  lemma RefusesMore()
    ensures var loose := TOptional(TInt);
            && Included(TArray(TInt), TArray(loose)) && !Assignable(TArray(TInt), TArray(loose))
            && Included(TOptional(TNull), TNull) && !Assignable(TOptional(TNull), TNull)
  {}

  /** The declared type at the boundary a node carries a value over. */
  function Boundary(n: Node, sig: Signature): Option<(Expr, Ty)> {
    match n
    case NOperation(_, operation, input, _) =>
      if operation in sig.ops && sig.ops[operation].input.Some? then Some((input, sig.ops[operation].input.value))
      else None
    case NCall(_, child, version, input, _) =>
      if sig.targets.Some? && Callee(child, version) in sig.targets.value
      then Some((input, sig.targets.value[Callee(child, version)].arg)) else None
    case NReturn(_, value) =>
      if sig.ret.Some? && value != EConst(JNull) then Some((value, sig.ret.value)) else None
    case _ => None
  }

  /** At a typed boundary a literal passes exactly when it is a value of the declared type, and anything
    * else of a known type exactly when all values of that type are. */
  lemma BoundaryExactly(n: Node, g: IrGraph, sig: Signature, scope: Scope)
    requires Boundary(n, sig).Some?
    ensures var (e, expected) := Boundary(n, sig).value;
            var literal, t := LiteralOf(e, scope), Infer(e, g, sig, scope);
            && (literal.Some? && !t.Rejected? ==> (NodeAccepted(n, g, sig, scope) <==> Valid(literal.value, expected)))
            && (literal.None? && t.Known? && Rigid(t.ty) ==>
                  (NodeAccepted(n, g, sig, scope) <==> Included(t.ty, expected)))
            && (literal.None? && t.Unknown? ==> NodeAccepted(n, g, sig, scope))
  {
    hide Infer, Valid, Assignable, Included, LiteralOf, Rigid;
    var (e, expected) := Boundary(n, sig).value;
    var t := Infer(e, g, sig, scope);
    if t.Known? && Rigid(t.ty) { AssignableExactly(t.ty, expected); }
  }

  // ---------------------------------------------------------------- projections and literals

  /** A value of the type with something at the end of the path. */
  ghost function Filled(t: Ty, path: seq<string>): (v: Json)
    requires ProjectType(t, path).Some?
    ensures Valid(v, t) && Project(v, path).Some?
    decreases |path|, t
  {
    if path == [] then Witness(t)
    else match t
      case TObject(fields) => JObj(Witness(t).fields[path[0] := Filled(fields[path[0]], path[1..])])
      case TOptional(inner) => Filled(inner, path)
  }

  lemma {:induction false} ReachedTyped(v: Json, t: Ty, path: seq<string>)
    requires Valid(v, t) && Project(v, path).Some?
    ensures ProjectType(t, path).Some?
    decreases |path|, t
  {
    if path != [] {
      match t
      case TObject(fields) => ReachedTyped(v.fields[path[0]], fields[path[0]], path[1..]);
      case TOptional(inner) => ReachedTyped(v, inner, path);
      case _ =>
    }
  }

  /** A path is refused exactly when no value of the type has anything there. */
  lemma ProjectionRefusedExactly(t: Ty, path: seq<string>)
    ensures ProjectType(t, path).Some? <==> exists v :: Valid(v, t) && Project(v, path).Some?
  {
    if ProjectType(t, path).Some? {
      var v := Filled(t, path);
      assert Valid(v, t) && Project(v, path).Some?;
    }
    if v :| Valid(v, t) && Project(v, path).Some? { ReachedTyped(v, t, path); }
  }

  /** The value has this type and shows all of it: no array is empty, no optional is left open. */
  predicate Shows(v: Json, t: Ty)
    decreases t
  {
    match t
    case TNull => v.JNull?
    case TBool => v.JBool?
    case TInt => v.JNum? && !FloatShaped(v.raw)
    case TFloat => v.JNum? && FloatShaped(v.raw)
    case TString => v.JStr?
    case TArray(elem) => v.JArr? && v.elems != [] && forall x :: x in v.elems ==> Shows(x, elem)
    case TObject(fields) =>
      v.JObj? && v.fields.Keys == fields.Keys && forall k :: k in fields ==> Shows(v.fields[k], fields[k])
    case TOptional(_) => false
  }

  /** A literal has a precise type exactly when it shows one, and then that one. */
  lemma {:induction false} LiteralExactly(v: Json, t: Ty)
    ensures LiteralType(v) == Some(t) <==> Shows(v, t)
    decreases v
  {
    match v
    case JArr(elems) =>
      if elems != [] {
        assert elems[0] in elems;
        if t.TArray? {
          forall x | x in elems ensures LiteralType(x) == Some(t.elem) <==> Shows(x, t.elem) {
            LiteralExactly(x, t.elem);
          }
        }
      }
    case JObj(fields) =>
      if t.TObject? && fields.Keys == t.fields.Keys {
        forall k | k in fields ensures LiteralType(fields[k]) == Some(t.fields[k]) <==> Shows(fields[k], t.fields[k]) {
          LiteralExactly(fields[k], t.fields[k]);
        }
        if Shows(v, t) {
          assert fields == v.fields;
          assert forall k :: k in fields ==> k in t.fields && LiteralType(fields[k]) == Some(t.fields[k]);
          assert forall k :: k in fields ==> LiteralType(fields[k]).Some?;
          assert LiteralType(v).Some? && LiteralType(v).value.TObject?;
          assert LiteralType(v).value.fields == t.fields;
        }
      }
    case _ =>
  }

  // ---------------------------------------------------------------- lists of expressions

  /** What the parts of a list infer to. */
  ghost function Met(es: seq<Expr>, g: IrGraph, sig: Signature, scope: Scope): set<Inferred> {
    set e | e in es :: Infer(e, g, sig, scope)
  }

  lemma MetOneMore(es: seq<Expr>, g: IrGraph, sig: Signature, scope: Scope)
    requires es != []
    ensures Met(es, g, sig, scope) == Met(es[..|es| - 1], g, sig, scope) + {Infer(es[|es| - 1], g, sig, scope)}
  {
    hide Infer;
    LastIn(es);
  }

  lemma {:induction false} PartsExactly(es: seq<Expr>, g: IrGraph, sig: Signature, scope: Scope)
    ensures var p, met := InferAll(es, g, sig, scope), Met(es, g, sig, scope);
            && (p.rejected <==> Rejected in met) && (p.imprecise <==> Imprecise in met)
            && (p.unknown <==> Unknown in met)
            && (p.first.None? <==> forall t :: Known(t) !in met)
            && (p.first.Some? ==> Known(p.first.value) in met)
            && (p.clash <==> p.first.Some? && exists t :: Known(t) in met && t != p.first.value)
    decreases |es|
  {
    hide Infer, Met;
    if es == [] {
      assert Met(es, g, sig, scope) == {} by { NothingMet(g, sig, scope); }
    } else {
      PartsExactly(es[..|es| - 1], g, sig, scope);
      MetOneMore(es, g, sig, scope);
    }
  }

  lemma NothingMet(g: IrGraph, sig: Signature, scope: Scope)
    ensures Met([], g, sig, scope) == {}
  {}

  /** An array expression has a type exactly when it is not empty and all its elements have one and the
    * same; it is an error exactly when one of them is. */
  lemma ArrayInferred(es: seq<Expr>, g: IrGraph, sig: Signature, scope: Scope, t: Ty)
    ensures Infer(EArray(es), g, sig, scope) == Known(t) <==>
              t.TArray? && Met(es, g, sig, scope) == {Known(t.elem)}
    ensures Infer(EArray(es), g, sig, scope) == Rejected <==> Rejected in Met(es, g, sig, scope)
  {
    PartsExactly(es, g, sig, scope);
    NothingMet(g, sig, scope);
    hide InferAll, Met;
    var met := Met(es, g, sig, scope);
    if Infer(EArray(es), g, sig, scope) == Known(t) {
      assert forall r :: r in met ==> r.Known? && r == Known(t.elem);
    }
  }

  /** A merge is an error exactly when a source is, or two sources have different types; it has a type
    * exactly when some source has it and no source another, or an imprecise one. */
  lemma MergeInferred(sources: seq<Source>, g: IrGraph, sig: Signature, scope: Scope, t: Ty)
    ensures var r, met := MergeType(sources, g, sig, scope), Met(Values(sources), g, sig, scope);
            && (r == Rejected <==> Rejected in met || exists a, b :: Known(a) in met && Known(b) in met && a != b)
            && (r == Known(t) <==> Known(t) in met && met <= {Known(t), Unknown})
  {
    PartsExactly(Values(sources), g, sig, scope);
    hide InferAll, Infer, Met;
    var met := Met(Values(sources), g, sig, scope);
    assert forall r :: r in met ==> r.Known? || r.Unknown? || r.Imprecise? || r.Rejected?;
  }

  /** An object expression has a type exactly when all its fields have one; it is an error exactly when one
    * of them is. */
  lemma {:induction false} ObjectInferred(fs: seq<Field>, g: IrGraph, sig: Signature, scope: Scope)
    ensures var r := InferFields(fs, g, sig, scope);
            && (r.Known? <==> forall f :: f in fs ==> Infer(f.value, g, sig, scope).Known?)
            && (r.Rejected? <==> exists f :: f in fs && Infer(f.value, g, sig, scope).Rejected?)
            && (r.Known? ==> forall k :: k in r.ty.fields <==> exists f :: f in fs && f.key == k)
    decreases |fs|
  {
    hide Infer;
    if fs != [] {
      ObjectInferred(fs[..|fs| - 1], g, sig, scope);
      LastIn(fs);
    }
  }

  lemma {:induction false} ObjectFieldInferred(fs: seq<Field>, g: IrGraph, sig: Signature, scope: Scope, i: nat)
    requires i < |fs| && (forall j :: i < j < |fs| ==> fs[j].key != fs[i].key)
    requires InferFields(fs, g, sig, scope).Known?
    ensures var r := InferFields(fs, g, sig, scope).ty.fields;
            fs[i].key in r && Infer(fs[i].value, g, sig, scope) == Known(r[fs[i].key])
    decreases |fs|
  {
    hide Infer;
    if i < |fs| - 1 {
      assert fs[|fs| - 1].key != fs[i].key;
      ObjectFieldInferred(fs[..|fs| - 1], g, sig, scope, i);
    }
  }

  // ---------------------------------------------------------------- loops and branches

  /** What a loop may run over: an array, an untyped source, or an array literal. */
  predicate Iterable(l: Loop, g: IrGraph, sig: Signature, scope: Scope) {
    match Infer(l.source, g, sig, scope)
    case Known(t) => t.TArray?
    case Unknown => true
    case Imprecise => LiteralOf(l.source, scope).Some? && LiteralOf(l.source, scope).value.JArr?
    case Rejected => false
  }

  /** A loop over anything else is an error. With a body of known type, a map has the array of that type; a
    * filter keeps its source's type and is an error exactly when its body is not a boolean; a fold has the type
    * of its initial value, or of its body when it starts from null, and is an error exactly when the two
    * differ. The body sees the element with its type. */
  lemma LoopInferred(l: Loop, g: IrGraph, sig: Signature, scope: Scope, body: Ty)
    requires Infer(l.body, g, sig, BodyScope(l, g, sig, scope)) == Known(body)
    ensures var r, source := LoopType(l, g, sig, scope), Infer(l.source, g, sig, scope);
            if !Iterable(l, g, sig, scope) then r == Rejected
            else
              match l.kind
              case LMap => r == Known(TArray(body))
              case LFilter => r == if body == TBool then source else Rejected
              case LFold => forall init :: Infer(l.init, g, sig, scope) == Known(init) ==>
                              r == if init == TNull || init == body then Known(body) else Rejected
    ensures BodyScope(l, g, sig, scope)[|scope|].name == l.elem
    ensures forall elem :: Infer(l.source, g, sig, scope) == Known(TArray(elem)) ==>
              BodyScope(l, g, sig, scope)[|scope|].ty == Known(elem)
    ensures l.kind.LFold? ==> |BodyScope(l, g, sig, scope)| == |scope| + 2
                              && BodyScope(l, g, sig, scope)[|scope| + 1].name == l.acc
                              && BodyScope(l, g, sig, scope)[|scope| + 1].ty == Infer(l.init, g, sig, scope)
  {
    hide Infer;
  }

  /** A branch on a known type passes exactly when that type is a boolean, a failure exactly when it is a
    * string, a case exactly when every arm is a value of it; an untyped one passes everywhere. */
  lemma BranchExactly(n: Node, g: IrGraph, sig: Signature, scope: Scope, t: Ty)
    ensures n.NIf? && Infer(n.cond, g, sig, scope) == Known(t) ==> (NodeAccepted(n, g, sig, scope) <==> t == TBool)
    ensures n.NFail? && Infer(n.reason, g, sig, scope) == Known(t) ==>
              (NodeAccepted(n, g, sig, scope) <==> t == TString)
    ensures n.NCase? && Infer(n.scrutinee, g, sig, scope) == Known(t) ==>
              (NodeAccepted(n, g, sig, scope) <==> forall a :: a in n.arms ==> Valid(a.lit, t))
    ensures n.NIf? && Infer(n.cond, g, sig, scope).Unknown? ==> NodeAccepted(n, g, sig, scope)
    ensures n.NFail? && Infer(n.reason, g, sig, scope).Unknown? ==> NodeAccepted(n, g, sig, scope)
    ensures n.NCase? && Infer(n.scrutinee, g, sig, scope).Unknown? ==> NodeAccepted(n, g, sig, scope)
  {
    hide Infer, Valid;
  }
}
