/** The prediction service's JSON response as the page sees it: a dictionary of
    loosely typed values, read with JavaScript's `value || default` idiom. */
module MlData {

  /** A JSON value as far as the triage engine distinguishes them; `Other`
      stands for any object, which is truthy and carries nothing the engine
      reads. */
  datatype Value =
    | Str(s: string)
    | Num(n: real)
    | Bool(b: bool)
    | Null
    | List(items: seq<Value>)
    | Other

  /** JavaScript truthiness: "", 0, false and null are falsy; every array and
      object is truthy, even an empty one. */
  predicate Truthy(v: Value) {
    match v
    case Str(s) => s != ""
    case Num(n) => n != 0.0
    case Bool(b) => b
    case Null => false
    case List(_) => true
    case Other => true
  }

  /** `m[key]`, with a missing key read as `null` (both are falsy and neither
      is a string or number). */
  function Get(m: map<string, Value>, key: string): (v: Value)
    ensures key !in m ==> v == Null
    ensures key in m ==> v == m[key]
  {
    if key in m then m[key] else Null
  }

  /** `m[key] || fallback` */
  function GetOr(m: map<string, Value>, key: string, fallback: Value): (v: Value)
    ensures Truthy(Get(m, key)) ==> v == m[key]
    ensures !Truthy(Get(m, key)) ==> v == fallback
  {
    var v := Get(m, key);
    if Truthy(v) then v else fallback
  }

  /** `m[key] || 0` used as a number; a value that is not a number is read as
      0. */
  function NumberOrZero(m: map<string, Value>, key: string): (x: real)
    ensures Get(m, key).Num? ==> x == Get(m, key).n
    ensures !Get(m, key).Num? ==> x == 0.0
  {
    match Get(m, key)
    case Num(n) => n
    case _ => 0.0
  }

  function Max(a: real, b: real): real {
    if a >= b then a else b
  }

  function Min(a: real, b: real): real {
    if a <= b then a else b
  }

  /** Wraps a list of strings as a JSON array. */
  function Strings(xs: seq<string>): (v: Value)
    ensures v.List? && |v.items| == |xs|
    ensures forall i :: 0 <= i < |xs| ==> v.items[i] == Str(xs[i])
  {
    List(seq(|xs|, i requires 0 <= i < |xs| => Str(xs[i])))
  }
}
