/**
 * JSON values as Python's `json` module produces them, and Python's `==` on
 * those values, which is what the harness compares with.
 */
module JsonValue {
  import opened Wrappers

  /**
   * A decoded JSON document. Python keeps integers and floats apart, but
   * compares them by exact value, so both are a `real` here; NaN and the
   * infinities are not modelled. An object is a dictionary with string keys.
   */
  datatype Json =
    | JNull
    | JBool(b: bool)
    | JNum(n: real)
    | JStr(s: string)
    | JArr(items: seq<Json>)
    | JObj(fields: map<string, Json>)

  /** The numeric value Python gives a value in `==`: `bool` is a subclass of `int`. */
  function NumericValue(j: Json): (v: Option<real>)
    ensures v.Some? <==> j.JBool? || j.JNum?
    ensures j.JNum? ==> v == Some(j.n)
    ensures j.JBool? ==> v == Some(if j.b then 1.0 else 0.0)
  {
    match j
    case JBool(b) => Some(if b then 1.0 else 0.0)
    case JNum(n) => Some(n)
    case _ => None
  }

  /**
   * Python's `a == b` on decoded JSON values: numbers (and booleans) by
   * value, strings exactly, lists element by element, dictionaries by key
   * set and value per key; values of different kinds are unequal.
   */
  predicate PyEq(a: Json, b: Json)
    ensures PyEq(a, b) ==> (NumericValue(a).Some? <==> NumericValue(b).Some?)
    ensures PyEq(a, b) && NumericValue(a).None? ==> a.JStr? == b.JStr? && a.JArr? == b.JArr? && a.JObj? == b.JObj?
    ensures a.JStr? ==> (PyEq(a, b) <==> a == b)
  {
    if NumericValue(a).Some? || NumericValue(b).Some? then
      NumericValue(a) == NumericValue(b)
    else
      match (a, b)
      case (JNull, JNull) => true
      case (JStr(s), JStr(t)) => s == t
      case (JArr(xs), JArr(ys)) =>
        |xs| == |ys| && forall i :: 0 <= i < |xs| ==> PyEq(xs[i], ys[i])
      case (JObj(m), JObj(n)) =>
        m.Keys == n.Keys && forall k :: k in m ==> PyEq(m[k], n[k])
      case _ => false
  }

  /** Every decoded value equals itself, however deeply it is nested. */
  lemma {:induction false} PyEqReflexive(a: Json)
    ensures PyEq(a, a)
  {
    match a
    case JArr(xs) =>
      forall i | 0 <= i < |xs| ensures PyEq(xs[i], xs[i]) {
        PyEqReflexive(xs[i]);
      }
    case JObj(m) =>
      forall k | k in m ensures PyEq(m[k], m[k]) {
        PyEqReflexive(m[k]);
      }
    case _ =>
  }

  /** `a == b` and `b == a` agree. */
  lemma {:induction false} PyEqSymmetric(a: Json, b: Json)
    ensures PyEq(a, b) <==> PyEq(b, a)
  {
    if NumericValue(a).None? && NumericValue(b).None? {
      match (a, b)
      case (JArr(xs), JArr(ys)) =>
        if |xs| == |ys| {
          forall i | 0 <= i < |xs| ensures PyEq(xs[i], ys[i]) <==> PyEq(ys[i], xs[i]) {
            PyEqSymmetric(xs[i], ys[i]);
          }
        }
      case (JObj(m), JObj(n)) =>
        if m.Keys == n.Keys {
          forall k | k in m ensures PyEq(m[k], n[k]) <==> PyEq(n[k], m[k]) {
            PyEqSymmetric(m[k], n[k]);
          }
        }
      case _ =>
    }
  }

  /**
   * Python's `==` is coarser than structural equality: a boolean equals the
   * number 1 or 0, so `True == 1` and `[False] == [0]`.
   */
  lemma BoolEqualsNumber(b: bool, n: real)
    ensures PyEq(JBool(b), JNum(n)) <==> n == (if b then 1.0 else 0.0)
    ensures JBool(b) != JNum(n)
    ensures PyEq(JArr([JBool(false)]), JArr([JNum(0.0)]))
  {
    assert PyEq(JBool(false), JNum(0.0));
  }
}
