/**
 * The Python values the stores receive and hand back: JSON-shaped request
 * bodies (`dict`, `list`, `str`, `int`, `bool`, `None`), Python truthiness,
 * item assignment on a dict, and the `(body, status)` pairs the store
 * methods return.
 */
module PyValues {

  /** A JSON-shaped Python value. */
  datatype Value =
    | Null
    | Bool(b: bool)
    | Int(i: int)
    | Str(s: string)
    | List(items: seq<Value>)
    | Dict(entries: map<string, Value>)

  /** Python's truth value: `None`, `False`, `0`, `""`, `[]` and `{}` are false. */
  predicate Truthy(v: Value)
  {
    match v
    case Null => false
    case Bool(b) => b
    case Int(i) => i != 0
    case Str(s) => s != ""
    case List(items) => items != []
    case Dict(entries) => entries != map[]
  }

  /** A value that can be a dict key; `list` and `dict` raise TypeError when hashed. */
  predicate Hashable(v: Value)
  {
    !v.List? && !v.Dict?
  }

  /** What `str(type(v))` prints, as it appears in an error message. */
  function TypeName(v: Value): string
  {
    match v
    case Null => "<class 'NoneType'>"
    case Bool(_) => "<class 'bool'>"
    case Int(_) => "<class 'int'>"
    case Str(_) => "<class 'str'>"
    case List(_) => "<class 'list'>"
    case Dict(_) => "<class 'dict'>"
  }

  /**
   * `d[key] = x` on a dict: the key now maps to `x`, every other entry is
   * kept, and an existing value under `key` is overwritten.
   */
  function SetItem(d: Value, key: string, x: Value): (r: Value)
    requires d.Dict?
    ensures r.Dict? && r.entries.Keys == d.entries.Keys + {key}
    ensures key in r.entries && r.entries[key] == x
    ensures forall k :: k in d.entries && k != key ==> r.entries[k] == d.entries[k]
  {
    Dict(d.entries[key := x])
  }

  /** The `(body, status)` pair a store method returns. */
  datatype Reply = Reply(body: Value, code: int)

  /** `{"error": message}` */
  function ErrorBody(message: string): Value
  {
    Dict(map["error" := Str(message)])
  }

  /** `{"status": status}` */
  function StatusBody(status: string): Value
  {
    Dict(map["status" := Str(status)])
  }

  /** The exception `Queue.add` raises. */
  datatype Raised = TypeError(message: string)
}
