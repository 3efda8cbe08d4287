/** Decoded JSON values (RFC 8259) as the Python program sees them after
    `json.loads`, with the parts of Python's object protocol the relay uses:
    truthiness, `dict.get` and the `in` operator. */
module Json {
  import opened Strings
  import opened Wrappers

  /** A decoded JSON value. Python's `None` and JSON `null` are the same value
      here. Numbers are exact reals (Python's int and float both map here). */
  datatype Json =
    | JNull
    | JBool(b: bool)
    | JNumber(n: real)
    | JString(s: string)
    | JArray(items: seq<Json>)
    | JObject(fields: map<string, Json>)

  /** Python truthiness: `None`, `False`, zero, and empty strings, lists and
      dicts are false; everything else is true. */
  predicate Truthy(v: Json)
  {
    match v
    case JNull => false
    case JBool(b) => b
    case JNumber(n) => n != 0.0
    case JString(s) => s != ""
    case JArray(items) => items != []
    case JObject(fields) => fields != map[]
  }

  /** Python's `a or b`: the first operand when it is truthy, else the second. */
  function Or(a: Json, b: Json): (r: Json)
    ensures Truthy(r) <==> Truthy(a) || Truthy(b)
    ensures Truthy(a) ==> r == a
  {
    if Truthy(a) then a else b
  }

  /** Python's `d.get(k, default)` on a dict. */
  function Get(fields: map<string, Json>, k: string, default: Json): Json
  {
    if k in fields then fields[k] else default
  }

  /** A non-empty JSON string, the test `isinstance(v, str) and v`. */
  predicate IsNonEmptyString(v: Json)
  {
    v.JString? && v.s != ""
  }

  /** Python raises TypeError for `x in v` when v is a number, a bool or None. */
  datatype TypeError = TypeError

  /** Python's `sub in v` for a string `sub` and a decoded JSON value `v`:
      substring test on a string, element test on a list, key test on a dict. */
  function Contains(v: Json, sub: string): (r: Result<bool, TypeError>)
    ensures r.Success? <==> v.JString? || v.JArray? || v.JObject?
    ensures v.JString? ==> (r == Success(true) <==> exists i :: OccursAt(sub, v.s, i))
    ensures v.JArray? ==> (r == Success(true) <==> exists i :: 0 <= i < |v.items| && v.items[i] == JString(sub))
    ensures v.JObject? ==> (r == Success(true) <==> sub in v.fields)
  {
    match v
    case JString(s) => IsSubstringIff(sub, s); Success(IsSubstring(sub, s))
    case JArray(items) => Success(JString(sub) in items)
    case JObject(fields) => Success(sub in fields)
    case _ => Failure(TypeError)
  }

  /** Python's `any(m in v for m in markers)`: short-circuits on the first
      marker found, and raises on the first test that raises. */
  function ContainsAny(v: Json, markers: seq<string>): (r: Result<bool, TypeError>)
    ensures |markers| > 0 ==> (r.Success? <==> v.JString? || v.JArray? || v.JObject?)
    ensures r.Success? ==> (r.value <==> exists j :: 0 <= j < |markers| && Contains(v, markers[j]) == Success(true))
    decreases |markers|
  {
    if markers == [] then Success(false)
    else
      match Contains(v, markers[0])
      case Failure(e) => Failure(e)
      case Success(true) => Success(true)
      case Success(false) =>
        var rest := ContainsAny(v, markers[1..]);
        assert forall j :: 1 <= j < |markers| ==> markers[j] == markers[1..][j - 1];
        rest
  }
}
