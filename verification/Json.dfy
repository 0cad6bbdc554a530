/** JSON values as Python holds them after `json.loads`, and Python's equality on them. */
module Json {

  /** One number type: integers and floats that print alike are the same number
      (section 3.2.2.3 of RFC 8785). */
  datatype Json =
    | Null | Bool(b: bool) | Num(n: real) | Str(s: string)
    | Arr(items: seq<Json>) | Obj(fields: map<string, Json>)

  /** A ledger entry: a JSON object. */
  type Entry = map<string, Json>

  /** `a == b` in Python: structural, except that `True == 1` and `False == 0`. */
  predicate PyEq(a: Json, b: Json)
    decreases a, 1
  {
    match (a, b)
    case (Null, Null) => true
    case (Bool(x), Bool(y)) => x == y
    case (Num(x), Num(y)) => x == y
    case (Bool(x), Num(y)) => y == AsNumber(x)
    case (Num(x), Bool(y)) => x == AsNumber(y)
    case (Str(x), Str(y)) => x == y
    case (Arr(_), Arr(_)) => ItemsEq(a, b)
    case (Obj(_), Obj(_)) => FieldsEq(a, b)
    case _ => false
  }

  predicate ItemsEq(a: Json, b: Json)
    requires a.Arr? && b.Arr?
    decreases a, 0
  {
    |a.items| == |b.items| && forall i :: 0 <= i < |a.items| ==> PyEq(a.items[i], b.items[i])
  }

  predicate FieldsEq(a: Json, b: Json)
    requires a.Obj? && b.Obj?
    decreases a, 0
  {
    a.fields.Keys == b.fields.Keys && forall k :: k in a.fields ==> PyEq(a.fields[k], b.fields[k])
  }

  /** Python equality of two entries. */
  predicate EntryEq(a: Entry, b: Entry) {
    a.Keys == b.Keys && forall k :: k in a ==> PyEq(a[k], b[k])
  }

  function AsNumber(b: bool): real {
    if b then 1.0 else 0.0
  }

  lemma {:induction false} PyEqReflexive(a: Json)
    ensures PyEq(a, a)
  {
    match a {
      case Arr(x) => forall i | 0 <= i < |x| ensures PyEq(x[i], x[i]) { PyEqReflexive(x[i]); }
      case Obj(x) => forall k | k in x ensures PyEq(x[k], x[k]) { PyEqReflexive(x[k]); }
      case _ =>
    }
  }

  predicate BoolFree(a: Json)
    decreases a
  {
    match a
    case Bool(_) => false
    case Arr(x) => forall i :: 0 <= i < |x| ==> BoolFree(x[i])
    case Obj(x) => forall k :: k in x ==> BoolFree(x[k])
    case _ => true
  }

  /** Without booleans Python's equality is equality. */
  lemma {:induction false} PyEqIsEquality(a: Json, b: Json)
    requires BoolFree(a) && BoolFree(b)
    ensures PyEq(a, b) <==> a == b
    decreases a
  {
    PyEqReflexive(a);
    if PyEq(a, b) {
      match (a, b) {
        case (Arr(x), Arr(y)) =>
          assert ItemsEq(a, b);
          forall i | 0 <= i < |x| ensures x[i] == y[i] { PyEqIsEquality(x[i], y[i]); }
        case (Obj(x), Obj(y)) =>
          assert FieldsEq(a, b);
          forall k | k in x ensures x[k] == y[k] { PyEqIsEquality(x[k], y[k]); }
          assert x == y;
        case _ =>
      }
    }
  }

  /** The same value with every boolean written as the number it equals. */
  function AsNumbers(a: Json): Json
    decreases a
  {
    match a
    case Bool(b) => Num(AsNumber(b))
    case Arr(x) => Arr(seq(|x|, i requires 0 <= i < |x| => AsNumbers(x[i])))
    case Obj(x) => Obj(map k | k in x :: AsNumbers(x[k]))
    case _ => a
  }

  lemma {:induction false} AsNumbersEquals(a: Json)
    ensures PyEq(a, AsNumbers(a)) && BoolFree(AsNumbers(a))
    decreases a
  {
    match a {
      case Arr(x) => forall i | 0 <= i < |x| ensures PyEq(x[i], AsNumbers(x[i])) && BoolFree(AsNumbers(x[i])) { AsNumbersEquals(x[i]); }
      case Obj(x) => forall k | k in x ensures PyEq(x[k], AsNumbers(x[k])) && BoolFree(AsNumbers(x[k])) { AsNumbersEquals(x[k]); }
      case _ =>
    }
  }

  /** A value that nothing else equals in Python: no boolean, and neither of the two numbers
      that a boolean equals, at any depth. */
  predicate Plain(a: Json)
    decreases a
  {
    match a
    case Bool(_) => false
    case Num(n) => n != 0.0 && n != 1.0
    case Arr(x) => forall i :: 0 <= i < |x| ==> Plain(x[i])
    case Obj(x) => forall k :: k in x ==> Plain(x[k])
    case _ => true
  }

  /** A plain value is equal, in Python, to itself only. */
  lemma {:induction false} PlainEqualsItself(a: Json, b: Json)
    requires Plain(a)
    ensures PyEq(a, b) <==> a == b
    decreases a
  {
    PyEqReflexive(a);
    if PyEq(a, b) {
      match (a, b) {
        case (Arr(x), Arr(y)) =>
          assert ItemsEq(a, b);
          forall i | 0 <= i < |x| ensures x[i] == y[i] { PlainEqualsItself(x[i], y[i]); }
        case (Obj(x), Obj(y)) =>
          assert FieldsEq(a, b);
          forall k | k in x ensures x[k] == y[k] { PlainEqualsItself(x[k], y[k]); }
          assert x == y;
        case _ =>
      }
    }
  }

  /** Any other value has a look-alike: a different value that Python finds equal. */
  lemma {:induction false} LookAlike(a: Json) returns (b: Json)
    requires !Plain(a)
    ensures PyEq(a, b) && a != b
    decreases a
  {
    match a {
      case Bool(x) => b := Num(AsNumber(x));
      case Num(n) => b := Bool(n == 1.0);
      case Arr(x) =>
        var i :| 0 <= i < |x| && !Plain(x[i]);
        var other := LookAlike(x[i]);
        b := Arr(x[i := other]);
        forall j | 0 <= j < |x| ensures PyEq(x[j], b.items[j]) { PyEqReflexive(x[j]); }
        assert ItemsEq(a, b) && b.items[i] != x[i];
      case Obj(x) =>
        var k :| k in x && !Plain(x[k]);
        var other := LookAlike(x[k]);
        b := Obj(x[k := other]);
        forall j | j in x ensures PyEq(x[j], b.fields[j]) { PyEqReflexive(x[j]); }
        assert FieldsEq(a, b) && b.fields[k] != x[k];
    }
  }

  /** A string equals only itself. */
  lemma PyEqString(s: string, b: Json)
    ensures PyEq(Str(s), b) <==> b == Str(s)
    ensures PyEq(b, Str(s)) <==> b == Str(s)
  {
  }

  /** `e.get(k)`; a missing key and an explicit null look the same. */
  function Get(e: Entry, k: string): Json {
    if k in e then e[k] else Null
  }

  function GetOr(e: Entry, k: string, default: Json): Json {
    if k in e then e[k] else default
  }

  /** Python truthiness. */
  predicate Truthy(j: Json) {
    match j
    case Null => false
    case Bool(b) => b
    case Num(n) => n != 0.0
    case Str(s) => s != ""
    case Arr(x) => x != []
    case Obj(x) => x != map[]
  }
}
