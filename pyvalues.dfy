/** The Python values that flow through a Result and its transport mapping,
    with Python's truthiness and the exception/outcome shape of a call. */
module PyValues {

  datatype Option<+T> = None | Some(value: T)

  /** A Python value as it can appear as a Result field or a mapping value.
      Dictionaries are keyed by strings, as the transport mappings are. */
  datatype PyValue =
    | PyNone
    | PyBool(b: bool)
    | PyInt(i: int)
    | PyStr(s: string)
    | PyList(items: seq<PyValue>)
    | PyDict(entries: map<string, PyValue>)

  /** Python's `bool(v)`: None, False, 0 and empty containers are falsy. */
  predicate Truthy(v: PyValue) {
    match v
    case PyNone => false
    case PyBool(b) => b
    case PyInt(i) => i != 0
    case PyStr(s) => s != ""
    case PyList(items) => items != []
    case PyDict(entries) => entries != map[]
  }

  /** Python's `m.get(k, default)`. */
  function GetOr(m: map<string, PyValue>, k: string, default: PyValue): PyValue {
    if k in m then m[k] else default
  }

  /** The exceptions the core raises. */
  datatype Exception = TypeError(msg: string)

  /** A call either returns a value or raises. */
  datatype Outcome<+T> = Returned(value: T) | Raised(exc: Exception)
}
