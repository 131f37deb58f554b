/** JSON documents as the API serves them and as Python decodes them, and the outcome of
    one HTTP request made by the front end. */
module Json {

  datatype Option<+T> = None | Some(value: T)

  /** A JSON value, seen as the Python object `json` decodes it to: None, bool, a number,
      str, list or dict. Numbers are opaque: nothing in the system does arithmetic on them.
      The same type stands for a cell of a loaded table, where Null is pandas' NaN. */
  datatype Value =
    | Null
    | Bool(b: bool)
    | Num(n: real)
    | Str(text: string)
    | Arr(items: seq<Value>)
    | Obj(fields: map<string, Value>)

  /** Python truthiness of the decoded value. */
  predicate Truthy(v: Value)
  {
    match v
    case Null => false
    case Bool(b) => b
    case Num(n) => n != 0.0
    case Str(s) => s != []
    case Arr(items) => items != []
    case Obj(fields) => fields != map[]
  }

  /** `d.get(key, default)` on a dict. */
  function Get(fields: map<string, Value>, key: string, default: Value): Value
  {
    if key in fields then fields[key] else default
  }

  /** What `requests.get(url, timeout=10)` yields: an exception (network error, timeout),
      or a response with a status code and a body that does or does not decode as JSON. */
  datatype Outcome =
    | Raised(reason: string)
    | Replied(status: int, body: Option<Value>)
}
