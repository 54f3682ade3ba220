/** JSON values as the provider's response decodes them in Python, and the
    Python idioms the integration applies to them (`dict.get`, truthiness,
    arithmetic on numbers). */
module JsonValues {
  import opened Wrappers

  /** A decoded JSON document: `null`, booleans, integers, floating-point
      numbers (as reals), strings, arrays and objects. */
  datatype Json =
    | JNull
    | JBool(b: bool)
    | JInt(i: int)
    | JFloat(x: real)
    | JStr(s: string)
    | JList(items: seq<Json>)
    | JObj(fields: map<string, Json>)

  /** Python's `d.get(key)`: a missing key and an explicit `null` both give `None`. */
  function Get(d: map<string, Json>, key: string): (r: Json)
    ensures key !in d ==> r == JNull
    ensures key in d ==> r == d[key]
  {
    GetOr(d, key, JNull)
  }

  /** Python's `d.get(key, default)`: the default applies only when the key is absent;
      a key present with value `null` yields `null`. */
  function GetOr(d: map<string, Json>, key: string, default: Json): (r: Json)
    ensures key in d ==> r == d[key]
    ensures key !in d ==> r == default
  {
    if key in d then d[key] else default
  }

  /** Truthiness of an optional string (`x or y` takes `y` when this is false):
      `None` and `""` are false. */
  predicate Truthy(s: Option<string>) {
    s.Some? && s.value != ""
  }

  /** The numeric value Python uses when a JSON value takes part in `>` or `/`:
      `bool` is a subclass of `int` (True is 1); every other kind raises `TypeError`. */
  function AsNumber(j: Json): (r: Option<real>)
    ensures r.Some? <==> (j.JInt? || j.JFloat? || j.JBool?)
    ensures j.JInt? ==> r == Some(j.i as real)
    ensures j.JFloat? ==> r == Some(j.x)
  {
    match j
    case JInt(i) => Some(i as real)
    case JFloat(x) => Some(x)
    case JBool(b) => Some(if b then 1.0 else 0.0)
    case _ => None
  }
}
