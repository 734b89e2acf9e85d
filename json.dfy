/** The JSON-like tree a Telegram update arrives as, and the few Python
    operations the decoders apply to it: `d[k]`, `d.get(k)`, `d.get(k, default)`,
    `k in d` and truthiness. */
module JsonValues {
  import opened Wrappers
  import opened Exceptions

  datatype Json =
    | JNull
    | JBool(b: bool)
    | JInt(i: int)
    | JStr(s: string)
    | JArr(items: seq<Json>)
    | JObj(fields: map<string, Json>)

  /** A decoded JSON object: the whole update is one. */
  type Obj = map<string, Json>

  /** Python truthiness of a decoded JSON value. */
  predicate Truthy(j: Json) {
    match j
    case JNull => false
    case JBool(b) => b
    case JInt(i) => i != 0
    case JStr(s) => |s| > 0
    case JArr(items) => |items| > 0
    case JObj(fields) => |fields| > 0
  }

  /** `j[k]` with a string key: a KeyError on an object without `k`, a
      TypeError on a value that is not an object. */
  function Index(j: Json, k: string): (r: Result<Json, Failure>)
    ensures r.Ok? <==> j.JObj? && k in j.fields
    ensures r.Ok? ==> r.value == j.fields[k] && r.value < j
    ensures r.Err? && j.JObj? ==> r.error == KeyError(k)
  {
    match j
    case JObj(fields) => if k in fields then Ok(fields[k]) else Err(KeyError(k))
    case _ => Err(TypeError)
  }

  /** `j.get(k, default)`; only objects have `.get`. */
  function GetOr(j: Json, k: string, default: Json): (r: Result<Json, Failure>)
    ensures r.Ok? <==> j.JObj?
    ensures r.Ok? ==> r.value == if k in j.fields then j.fields[k] else default
  {
    match j
    case JObj(fields) => Ok(if k in fields then fields[k] else default)
    case _ => Err(AttributeError)
  }

  /** `j.get(k)`: the default is None, which JSON spells `null`. */
  function Get(j: Json, k: string): (r: Result<Json, Failure>)
    ensures r.Ok? <==> j.JObj?
    ensures r.Ok? && k !in j.fields ==> r.value == JNull
  {
    GetOr(j, k, JNull)
  }

  /** `needle` occurs somewhere in `s`. */
  predicate IsSubstring(needle: string, s: string)
    decreases |s|
  {
    (|needle| <= |s| && s[..|needle|] == needle)
    || (|s| > 0 && IsSubstring(needle, s[1..]))
  }

  /** `k in j` for a string `k`: key membership on an object, element
      membership on a list, substring on a string, a TypeError otherwise. */
  function Contains(j: Json, k: string): (r: Result<bool, Failure>)
    ensures j.JObj? ==> r == Ok(k in j.fields)
    ensures r.Err? <==> !(j.JObj? || j.JArr? || j.JStr?)
  {
    match j
    case JObj(fields) => Ok(k in fields)
    case JArr(items) => Ok(JStr(k) in items)
    case JStr(s) => Ok(IsSubstring(k, s))
    case _ => Err(TypeError)
  }

  /** `j[0]`: the first element of a list or the first character of a string;
      an object has no key `0`, and other values cannot be indexed. */
  function First(j: Json): (r: Result<Json, Failure>)
    ensures j.JArr? && |j.items| > 0 ==> r == Ok(j.items[0])
  {
    match j
    case JArr(items) => if |items| > 0 then Ok(items[0]) else Err(TypeError)
    case JStr(s) => if |s| > 0 then Ok(JStr([s[0]])) else Err(TypeError)
    case JObj(_) => Err(KeyError("0"))
    case _ => Err(TypeError)
  }

  /** A value copied into an integer field of a record. */
  function AsInt(j: Json): (r: Result<int, Failure>)
    ensures r.Ok? <==> j.JInt?
    ensures r.Ok? ==> r.value == j.i
  {
    if j.JInt? then Ok(j.i) else Err(TypeError)
  }

  /** A value copied into an optional integer field: `null` is None. */
  function AsOptInt(j: Json): (r: Result<Option<int>, Failure>)
    ensures r.Ok? <==> j.JNull? || j.JInt?
    ensures r == Ok(None) <==> j.JNull?
    ensures j.JInt? ==> r == Ok(Some(j.i))
  {
    match j
    case JNull => Ok(None)
    case JInt(i) => Ok(Some(i))
    case _ => Err(TypeError)
  }

  /** The value reached from `j` by following object keys, if every step
      finds its key. Used to state where a decoded field came from. */
  function Path(j: Json, keys: seq<string>): Option<Json>
    decreases |keys|
  {
    if |keys| == 0 then Some(j)
    else if j.JObj? && keys[0] in j.fields then Path(j.fields[keys[0]], keys[1..])
    else None
  }

  /** A value copied into a string field of a record. */
  function AsStr(j: Json): (r: Result<string, Failure>)
    ensures r.Ok? <==> j.JStr?
    ensures r.Ok? ==> r.value == j.s
  {
    if j.JStr? then Ok(j.s) else Err(TypeError)
  }

  /** A value copied into an optional string field: `null` (or an absent key
      read with `.get`) is None. */
  function AsOptStr(j: Json): (r: Result<Option<string>, Failure>)
    ensures r.Ok? <==> j.JNull? || j.JStr?
    ensures r == Ok(None) <==> j.JNull?
    ensures j.JStr? ==> r == Ok(Some(j.s))
  {
    match j
    case JNull => Ok(None)
    case JStr(s) => Ok(Some(s))
    case _ => Err(TypeError)
  }
}
