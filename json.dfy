/**
 * Parsed JSON values, as `json.loads` hands them to the handlers, together with
 * the two pieces of Python semantics the handlers lean on: truthiness (`if x:`)
 * and use of a value as a dictionary key (hashing).
 */
module Json {
  import opened Wrappers

  /** A JSON value. Numbers are integers in this model. */
  datatype Json =
    | JNull
    | JBool(b: bool)
    | JInt(i: int)
    | JStr(s: string)
    | JArr(items: seq<Json>)
    | JObj(fields: map<string, Json>)

  /** Python's `bool(x)` for a value produced by `json.loads`. */
  predicate Truthy(j: Json) {
    match j
    case JNull => false
    case JBool(b) => b
    case JInt(i) => i != 0
    case JStr(s) => s != ""
    case JArr(items) => items != []
    case JObj(fields) => fields != map[]
  }

  /** `d.get(key)`: the value stored under `key`, or `None` (JSON null) when absent. */
  function Get(fields: map<string, Json>, key: string): (r: Json)
    ensures key !in fields ==> r == JNull
    ensures key in fields ==> r == fields[key]
  {
    if key in fields then fields[key] else JNull
  }

  /** `d.get(key, default)`. */
  function GetOr(fields: map<string, Json>, key: string, default: Json): (r: Json)
    ensures key !in fields ==> r == default
    ensures key in fields ==> r == fields[key]
  {
    if key in fields then fields[key] else default
  }

  /**
   * A hashable JSON value as a dictionary key. Python's `True == 1` and
   * `False == 0` hash alike, so booleans become integers.
   */
  datatype Key = KNone | KInt(i: int) | KStr(s: string)

  /** The dictionary key of `j`, or `None` when `j` is unhashable (a list or a dict): using it raises TypeError. */
  function HashKey(j: Json): (r: Option<Key>)
    ensures r.None? <==> (j.JArr? || j.JObj?)
    ensures j.JStr? ==> r == Some(KStr(j.s))
  {
    match j
    case JNull => Some(KNone)
    case JBool(b) => Some(KInt(if b then 1 else 0))
    case JInt(i) => Some(KInt(i))
    case JStr(s) => Some(KStr(s))
    case JArr(_) => None
    case JObj(_) => None
  }

  /** A string-valued field as Pydantic reads an `Optional[str]`: absent or null is `None`, a string is kept, anything else fails. */
  function OptionalStr(fields: map<string, Json>, key: string): (r: Result<Option<string>, string>)
    ensures r.Success? <==> (Get(fields, key).JNull? || Get(fields, key).JStr?)
    ensures r.Success? && Get(fields, key).JStr? ==> r.value == Some(Get(fields, key).s)
    ensures r.Success? && Get(fields, key).JNull? ==> r.value == None
  {
    match Get(fields, key)
    case JNull => Success(None)
    case JStr(s) => Success(Some(s))
    case _ => Failure("Input should be a valid string")
  }
}
