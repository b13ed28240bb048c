/** JSON values as Python's `json` module decodes them, together with the
    Python semantics the webhook handler leans on: truthiness, `dict.get`
    and subscripting by a string key. */
module JsonValues {
  import opened Wrappers

  datatype Json =
    | JNull
    | JBool(b: bool)
    | JInt(i: int)
    | JFloat(f: real)
    | JString(s: string)
    | JArray(items: seq<Json>)
    | JObject(fields: map<string, Json>)

  /** `bool(j)`: `None`, `False`, zero, and empty strings, lists and dicts are
      false; everything else is true. */
  predicate Truthy(j: Json) {
    match j
    case JNull => false
    case JBool(b) => b
    case JInt(i) => i != 0
    case JFloat(f) => f != 0.0
    case JString(s) => s != ""
    case JArray(items) => items != []
    case JObject(fields) => fields != map[]
  }

  /** The Python type name of a decoded value, as `type(j).__name__`. */
  function TypeName(j: Json): string {
    match j
    case JNull => "NoneType"
    case JBool(_) => "bool"
    case JInt(_) => "int"
    case JFloat(_) => "float"
    case JString(_) => "str"
    case JArray(_) => "list"
    case JObject(_) => "dict"
  }

  /** The three built-in exceptions a chain of lookups can raise. */
  datatype PyError =
    | KeyError(key: string)        // `d[k]` on a dict without `k`
    | TypeError(typeName: string)  // `x[k]` on a value that is not a dict
    | AttributeError(typeName: string)  // `x.get(...)` on a value that is not a dict

  /** `str(e)`: the quoted key of a `KeyError`; for the other two, CPython's
      (3.11 and later) wording for subscripting, or calling `get` on, a value
      of the named type with a string. */
  function ErrorText(e: PyError): string {
    match e
    case KeyError(k) => "'" + k + "'"
    case TypeError(t) =>
      if t == "list" then "list indices must be integers or slices, not str"
      else if t == "str" then "string indices must be integers, not 'str'"
      else "'" + t + "' object is not subscriptable"
    case AttributeError(t) => "'" + t + "' object has no attribute 'get'"
  }

  /** `j.get(key, default)`: only a dict has `get`; a missing key gives the
      default, a present key gives its value whatever that value is. */
  function DictGet(j: Json, key: string, default: Json): (r: Result<Json, PyError>)
    ensures r.Failure? <==> !j.JObject?
    ensures r.Failure? ==> r.error == AttributeError(TypeName(j))
    ensures r.Success? ==> r.value == (if key in j.fields then j.fields[key] else default)
  {
    match j
    case JObject(fields) => Success(if key in fields then fields[key] else default)
    case _ => Failure(AttributeError(TypeName(j)))
  }

  /** `j[key]` with a string key: a dict without the key raises `KeyError`,
      any other value raises `TypeError`. */
  function Subscript(j: Json, key: string): (r: Result<Json, PyError>)
    ensures r.Success? <==> j.JObject? && key in j.fields
    ensures r.Success? ==> r.value == j.fields[key]
    ensures r.Failure? ==> r.error == (if j.JObject? then KeyError(key) else TypeError(TypeName(j)))
  {
    match j
    case JObject(fields) => if key in fields then Success(fields[key]) else Failure(KeyError(key))
    case _ => Failure(TypeError(TypeName(j)))
  }

  /** One step of a path into a document: a dict key or a list position. */
  datatype Step = Key(name: string) | Index(pos: nat)

  /** The value found by following `path` from `j`, if every step exists.
      This is the plain reading of "the value at data.properties.Word...",
      without any of Python's defaults or exceptions. */
  function Lookup(j: Json, path: seq<Step>): Option<Json>
    decreases |path|
  {
    if path == [] then Some(j)
    else
      match path[0]
      case Key(k) =>
        if j.JObject? && k in j.fields then Lookup(j.fields[k], path[1..]) else None
      case Index(n) =>
        if j.JArray? && n < |j.items| then Lookup(j.items[n], path[1..]) else None
  }
}
