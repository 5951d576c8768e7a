/**
 * The loosely-typed values that flow through the ingestion path: request
 * bodies, result dictionaries and stored documents are Python dicts of
 * JSON-like values. This module gives them a datatype together with the few
 * Python built-ins the path applies to them: `dict.get`, truthiness,
 * `float(v)` and `==`.
 */
module Values {

  import opened Wrappers
  import Decimal

  datatype Value =
    | VNone
    | VBool(b: bool)
    | VInt(i: int)
    | VFloat(f: real)
    | VStr(s: string)
    | VList(items: seq<Value>)
    | VDict(fields: map<string, Value>)

  /** A Python `Dict[str, Any]`. */
  type Document = map<string, Value>

  /** Why a step raised, following the error taxonomy of the pipeline. */
  datatype Error =
    | ValidationError                // ValueError, TypeError or AttributeError on malformed input
    | ScoringError                   // a scoring collaborator failed or gave an unusable value
    | RawStoreError                  // `insert_one` raised: nothing was stored
    | CommitError(orphanId: string)  // the commit failed; the raw document stays under `orphanId`

  datatype Result<+T> = Ok(value: T) | Err(error: Error)

  /** `d.get(key, default)`. */
  function Get(d: Document, key: string, default: Value): Value {
    if key in d then d[key] else default
  }

  /** Python truthiness (`if v:`). */
  predicate Truthy(v: Value) {
    match v
    case VNone => false
    case VBool(b) => b
    case VInt(i) => i != 0
    case VFloat(f) => f != 0.0
    case VStr(s) => s != ""
    case VList(items) => items != []
    case VDict(fields) => fields != map[]
  }

  predicate IsNumber(v: Value) {
    v.VBool? || v.VInt? || v.VFloat?
  }

  /** The number a bool, int or float stands for (`True == 1`). */
  function Number(v: Value): real
    requires IsNumber(v)
  {
    match v
    case VBool(b) => if b then 1.0 else 0.0
    case VInt(i) => i as real
    case VFloat(f) => f
  }

  /**
   * Python's `float(v)`: numbers convert, strings are parsed, and `None`,
   * lists and dicts raise.
   */
  function ToFloat(v: Value): (r: Result<real>)
    ensures IsNumber(v) ==> r == Ok(Number(v))
    ensures (v.VNone? || v.VList? || v.VDict?) ==> r == Err(ValidationError)
    ensures r.Err? ==> r.error == ValidationError
    ensures v.VStr? ==> (r.Ok? <==> Decimal.ParseFloat(v.s).Some?)
    ensures v.VStr? && r.Ok? ==> r.value == Decimal.ParseFloat(v.s).value
  {
    match v
    case VStr(s) =>
      (match Decimal.ParseFloat(s)
       case Some(x) => Ok(x)
       case None => Err(ValidationError))
    case VNone => Err(ValidationError)
    case VList(_) => Err(ValidationError)
    case VDict(_) => Err(ValidationError)
    case _ => Ok(Number(v))
  }

  /** A string holding the decimal form of an int converts to that number: `float("5000") == 5000.0`. */
  lemma ToFloatOfIntString(i: int)
    ensures ToFloat(VStr(Decimal.IntToString(i))) == Ok(i as real)
  {
    Decimal.ParseFloatOfIntToString(i);
  }

  /** A string with a character outside sign, digits, dot and white space raises: `float("abc")` is an error. */
  lemma ToFloatRejectsOtherCharacters(s: string, k: nat)
    requires k < |s| && !Decimal.FloatChar(s[k])
    ensures ToFloat(VStr(s)) == Err(ValidationError)
  {
  }

  /**
   * Python's `a == b` on these values: numbers compare by value across bool,
   * int and float; lists element by element; dicts key by key.
   */
  predicate PyEq(a: Value, b: Value)
    decreases a
  {
    match a
    case VNone => b.VNone?
    case VStr(s) => b.VStr? && b.s == s
    case VList(xs) =>
      b.VList? && |xs| == |b.items| && forall k :: 0 <= k < |xs| ==> PyEq(xs[k], b.items[k])
    case VDict(m) =>
      b.VDict? && m.Keys == b.fields.Keys && forall k :: k in m ==> PyEq(m[k], b.fields[k])
    case _ => IsNumber(b) && Number(a) == Number(b)
  }

  /** Every value equals itself. */
  lemma {:induction false} PyEqReflexive(a: Value)
    ensures PyEq(a, a)
    decreases a
  {
    match a
    case VList(xs) =>
      forall k | 0 <= k < |xs| ensures PyEq(xs[k], xs[k]) {
        PyEqReflexive(xs[k]);
      }
    case VDict(m) =>
      forall k | k in m ensures PyEq(m[k], m[k]) {
        PyEqReflexive(m[k]);
      }
    case _ =>
  }
}
