/**
 * The dynamically typed values the bridge reads from JSON (its config and
 * state files, and request bodies), with the three Python operations the
 * code applies to them: truthiness (`if v`, `v or default`), `int(v)` and
 * `str(v)`.
 */
module PyValue {
  import opened Common
  import opened Text

  /**
   * A JSON value as Python holds it after `json.load`. Arrays and objects
   * are abstracted to whether they are non-empty and the text `str()`
   * gives for them: nothing in the model looks inside them.
   */
  datatype Json =
    | JNull
    | JBool(b: bool)
    | JNum(n: int)
    | JStr(s: string)
    | JCompound(nonEmpty: bool, text: string)

  /** Python truthiness. */
  predicate Truthy(v: Json) {
    match v
    case JNull => false
    case JBool(b) => b
    case JNum(n) => n != 0
    case JStr(s) => s != []
    case JCompound(nonEmpty, _) => nonEmpty
  }

  /** Python's `v or default`. */
  function Or(v: Json, default: Json): (r: Json)
    ensures Truthy(v) ==> r == v
    ensures !Truthy(v) ==> r == default
  {
    if Truthy(v) then v else default
  }

  /** Python's `d.get(key)` on a JSON object: `None` (null) when the key is absent. */
  function Get(d: map<string, Json>, key: string): (r: Json)
    ensures key in d ==> r == d[key]
    ensures key !in d ==> r == JNull
  {
    if key in d then d[key] else JNull
  }

  /** Python's `int(v)`; `None` where Python raises `TypeError` or `ValueError`. */
  function PyInt(v: Json): (r: Option<int>)
    ensures v.JNum? ==> r == Some(v.n)
    ensures v.JNull? || v.JCompound? ==> r == None
  {
    match v
    case JNull => None
    case JBool(b) => Some(if b then 1 else 0)
    case JNum(n) => Some(n)
    case JStr(s) => PyIntText(s)
    case JCompound(_, _) => None
  }

  /** Python's `str(v)`. */
  function PyStr(v: Json): (r: string)
    ensures v.JStr? ==> r == v.s
    ensures v.JNum? ==> PyIntText(r) == Some(v.n)
  {
    match v
    case JNull => "None"
    case JBool(b) => if b then "True" else "False"
    case JNum(n) => IntToStringRoundTrip(n); IntToString(n)
    case JStr(s) => s
    case JCompound(_, text) => text
  }
}
