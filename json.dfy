/**
 * Decoded JSON documents as the actuator manager sees them after
 * `json.loads`, and Python's `dict.get` on them.
 *
 * Python's `None` is JSON `null`, so a missing key and a key bound to
 * `null` both read as `JNull`, exactly as `dict.get` returns `None` for
 * both.  Calling `.get` on anything that is not a dictionary (a string,
 * a number, a list, `None`) raises `AttributeError`; `Eval` records that.
 */
module Json {
  import opened Wrappers

  /** A decoded JSON value.  Numbers are kept as integers: the model only
      ever asks whether a value is an object, null or a given string. */
  datatype Json =
    | JNull
    | JBool(b: bool)
    | JNumber(n: int)
    | JString(s: string)
    | JArray(items: seq<Json>)
    | JObject(fields: map<string, Json>)

  /** The result of a Python expression that may raise `AttributeError`. */
  datatype Eval<+T> = Returns(value: T) | Raises

  predicate IsObject(v: Json) { v.JObject? }

  /** The value `v[key]` reads as when `v` is a dictionary; `JNull` otherwise.
      Total, for use in specifications. */
  function Field(v: Json, key: string): Json
  {
    if v.JObject? && key in v.fields then v.fields[key] else JNull
  }

  /** Python's `v.get(key)`: the field's value (`JNull` when the key is
      missing), and `AttributeError` when `v` is not a dictionary. */
  function Get(v: Json, key: string): (r: Eval<Json>)
    ensures r.Raises? <==> !IsObject(v)
    ensures r.Returns? ==> r.value == Field(v, key)
    ensures IsObject(v) && key !in v.fields ==> r == Returns(JNull)
  {
    if IsObject(v) then Returns(Field(v, key)) else Raises
  }

  /** How a stored Python `str | None` compares under `==` with a decoded
      JSON value: `None` equals only `null`, a string equals only the same
      string. */
  function AsJson(v: Option<string>): (r: Json)
    ensures r == JNull <==> v.None?
    ensures v.Some? ==> r.JString? && r.s == v.value
  {
    match v
    case None => JNull
    case Some(s) => JString(s)
  }
}
