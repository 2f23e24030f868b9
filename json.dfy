/** Decoded JSON values as the client's Python code sees them: truthiness,
    `dict.get`, and the exceptions its dictionary accesses can raise. */
module Json {

  datatype Option<+T> = None | Some(value: T)

  datatype Result<+T, +E> = Success(value: T) | Failure(error: E) {
    predicate IsFailure() { Failure? }

    function PropagateFailure<U>(): Result<U, E>
      requires Failure?
    {
      Failure(error)
    }

    function Extract(): T
      requires Success?
    {
      value
    }
  }

  /** The exceptions the client's code raises on data it does not expect. */
  datatype PyError =
    | AttributeError  // `.get` called on a value that is not a dict
    | TypeError       // `>` between a non-number and 0, `str + non-str`, `list.extend(None)`

  /** A decoded JSON value. Numbers with a fractional part are not modelled. */
  datatype Json =
    | JNull
    | JBool(b: bool)
    | JInt(i: int)
    | JStr(s: string)
    | JArr(elems: seq<Json>)
    | JObj(fields: map<string, Json>)

  /** Python's truth value: None, False, 0, "", [] and {} are falsy. */
  predicate Truthy(j: Json) {
    match j
    case JNull => false
    case JBool(b) => b
    case JInt(i) => i != 0
    case JStr(s) => s != ""
    case JArr(elems) => elems != []
    case JObj(fields) => fields != map[]
  }

  /** `d.get(key)`: the value stored under `key`, or None when it is missing. */
  function PyGet(d: map<string, Json>, key: string): Json {
    if key in d then d[key] else JNull
  }

  /** The value reached from `j` by following `path` through nested objects;
      None as soon as a step is missing or lands on something that is not an object. */
  function Lookup(j: Json, path: seq<string>): Json
    decreases |path|
  {
    if path == [] then j
    else if j.JObj? && path[0] in j.fields then Lookup(j.fields[path[0]], path[1..])
    else JNull
  }
}
