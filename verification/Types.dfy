/** The value types of the graph language: validation, projection, literal types, assignability. */
module Types {
  import opened Options
  import opened Graph

  datatype Ty =
    | TNull | TBool | TInt | TFloat | TString
    | TArray(elem: Ty) | TObject(fields: map<string, Ty>) | TOptional(inner: Ty)

  /** Number literals fall into two types by their shape alone. */
  predicate FloatShaped(raw: string) { '.' in raw || 'e' in raw || 'E' in raw }

  /** `validate`: objects are closed, and only a field of optional type may be absent. */
  predicate Valid(v: Json, t: Ty)
    decreases t
  {
    match t
    case TNull => v.JNull?
    case TBool => v.JBool?
    case TInt => v.JNum? && !FloatShaped(v.raw) && v.fits
    case TFloat => v.JNum? && FloatShaped(v.raw) && v.fits
    case TString => v.JStr?
    case TArray(elem) => v.JArr? && forall x :: x in v.elems ==> Valid(x, elem)
    case TOptional(inner) => v.JNull? || Valid(v, inner)
    case TObject(fields) =>
      && v.JObj?
      && (forall k :: k in v.fields ==> k in fields)
      && (forall k :: k in fields ==> if k in v.fields then Valid(v.fields[k], fields[k]) else fields[k].TOptional?)
  }

  /** The type at the end of a path; an optional on the way is looked through. */
  function ProjectType(t: Ty, path: seq<string>): Option<Ty>
    decreases |path|, t
  {
    if path == [] then Some(t)
    else match t
      case TObject(fields) => if path[0] in fields then ProjectType(fields[path[0]], path[1..]) else None
      case TOptional(inner) => ProjectType(inner, path)
      case _ => None
  }

  /** Every step of the path is a field that must be present. */
  predicate Required(t: Ty, path: seq<string>)
    decreases |path|
  {
    path == []
    || (t.TObject? && path[0] in t.fields && !t.fields[path[0]].TOptional? && Required(t.fields[path[0]], path[1..]))
  }

  /** A value of every type: nothing is uninhabited. */
  function Witness(t: Ty): (v: Json)
    ensures Valid(v, t)
    decreases t
  {
    match t
    case TNull => JNull
    case TBool => JBool(false)
    case TInt => JNum("0", true)
    case TFloat => JNum("0.0", true)
    case TString => JStr("")
    case TArray(_) => JArr([])
    case TOptional(_) => JNull
    case TObject(fields) => JObj(map k | k in fields :: Witness(fields[k]))
  }

  /** A valid value the path does not reach. */
  ghost function Hollow(t: Ty, path: seq<string>): (v: Json)
    requires !Required(t, path)
    ensures Valid(v, t) && Project(v, path).None?
    decreases |path|
  {
    if !t.TObject? then Witness(t)
    else if path[0] !in t.fields then Witness(t)
    else
      var w := Witness(t);
      if t.fields[path[0]].TOptional? then JObj(map k | k in w.fields && k != path[0] :: w.fields[k])
      else JObj(w.fields[path[0] := Hollow(t.fields[path[0]], path[1..])])
  }

  /** A required path is accepted, and leads somewhere in every value. */
  lemma {:induction false} RequiredReaches(v: Json, t: Ty, path: seq<string>)
    requires Valid(v, t) && Required(t, path)
    ensures ProjectType(t, path).Some? && Project(v, path).Some?
    decreases |path|
  {
    if path != [] { RequiredReaches(v.fields[path[0]], t.fields[path[0]], path[1..]); }
  }

  /** What a path leads to has the projected type. */
  lemma {:induction false} ProjectTyped(v: Json, t: Ty, path: seq<string>)
    requires Valid(v, t) && Project(v, path).Some? && ProjectType(t, path).Some?
    ensures Valid(Project(v, path).value, ProjectType(t, path).value)
    decreases |path|, t
  {
    if path != [] {
      match t
      case TObject(fields) => ProjectTyped(v.fields[path[0]], fields[path[0]], path[1..]);
      case TOptional(inner) => ProjectTyped(v, inner, path);
      case _ =>
    }
  }

  /** A projection of a declared type is total exactly on the paths of required fields, although the
    * checker accepts every path that `ProjectType` accepts. */
  lemma ProjectionTotalExactly(t: Ty, path: seq<string>)
    ensures (forall v :: Valid(v, t) ==> Project(v, path).Some?) <==> Required(t, path)
    ensures Required(t, path) ==> ProjectType(t, path).Some?
  {
    if Required(t, path) {
      RequiredReaches(Witness(t), t, path);
      forall v | Valid(v, t) ensures Project(v, path).Some? { RequiredReaches(v, t, path); }
    } else {
      var v := Hollow(t, path);
      assert Valid(v, t) && Project(v, path).None?;
    }
  }

  // ---------------------------------------------------------------- literals

  /** Every number literal in the value is within the range of the type of its shape. */
  predicate Sized(v: Json)
    decreases v
  {
    match v
    case JNum(_, fits) => fits
    case JArr(elems) => forall x :: x in elems ==> Sized(x)
    case JObj(fields) => forall k :: k in fields ==> Sized(fields[k])
    case _ => true
  }

  /** The type read off a literal, `None` where it is imprecise: an empty or mixed array, or
    * anything around one. */
  function LiteralType(v: Json): Option<Ty>
    decreases v
  {
    match v
    case JNull => Some(TNull)
    case JBool(_) => Some(TBool)
    case JNum(raw, _) => Some(if FloatShaped(raw) then TFloat else TInt)
    case JStr(_) => Some(TString)
    case JArr(elems) =>
      if elems == [] then None
      else
        var first := LiteralType(elems[0]);
        if first.Some? && (forall x :: x in elems ==> LiteralType(x) == first) then Some(TArray(first.value)) else None
    case JObj(fields) =>
      if forall k :: k in fields ==> LiteralType(fields[k]).Some?
      then Some(TObject(map k | k in fields :: LiteralType(fields[k]).value))
      else None
  }

  lemma {:induction false} LiteralTyped(v: Json)
    requires LiteralType(v).Some? && Sized(v)
    ensures Valid(v, LiteralType(v).value)
    decreases v
  {
    match v
    case JArr(elems) =>
      forall x | x in elems ensures Valid(x, LiteralType(elems[0]).value) { LiteralTyped(x); }
    case JObj(fields) =>
      forall k | k in fields ensures Valid(fields[k], LiteralType(fields[k]).value) { LiteralTyped(fields[k]); }
    case _ =>
  }

  // ---------------------------------------------------------------- assignability

  predicate Assignable(actual: Ty, expected: Ty)
    decreases expected
  {
    actual == expected ||
    match expected
    case TOptional(inner) => actual.TNull? || Assignable(actual, inner)
    case TObject(efields) =>
      && actual.TObject?
      && (forall k :: k in efields ==>
            if k in actual.fields then Assignable(actual.fields[k], efields[k]) else efields[k].TOptional?)
      && (forall k :: k in actual.fields ==> k in efields)
    case _ => false
  }

  /** What is assignable is substitutable: every value of the one type is a value of the other. */
  lemma {:induction false} AssignableSound(v: Json, actual: Ty, expected: Ty)
    requires Assignable(actual, expected) && Valid(v, actual)
    ensures Valid(v, expected)
    decreases expected
  {
    if actual != expected {
      match expected
      case TOptional(inner) => if !actual.TNull? { AssignableSound(v, actual, inner); }
      case TObject(efields) =>
        forall k | k in efields
          ensures if k in v.fields then Valid(v.fields[k], efields[k]) else efields[k].TOptional?
        {
          if k in v.fields { AssignableSound(v.fields[k], actual.fields[k], efields[k]); }
        }
      case _ =>
    }
  }
}
