/** JSON-shaped values: what the signed session cookie and the identity
    provider's replies hold, with Python's truthiness and `dict.get`. */
module Values {

  /** Python's `None` or a present value. */
  datatype Option<+T> = None | Some(value: T)

  /** A JSON value. Booleans and arrays never occur under the keys the
      modelled code reads, so they are left out. */
  datatype Value =
    | Null
    | Num(n: int)
    | Str(s: string)
    | Dict(fields: map<string, Value>)

  /** The server-side session: `request.session`, a plain dictionary. */
  type Session = map<string, Value>

  /** Python truthiness of a JSON value: None, 0, "" and {} are false. */
  predicate Truthy(v: Value) {
    match v
    case Null => false
    case Num(n) => n != 0
    case Str(s) => s != ""
    case Dict(m) => m != map[]
  }

  /** Truthiness of an optional string argument: None and "" are false. */
  predicate Given(o: Option<string>) {
    o.Some? && o.value != ""
  }

  /** `m.get(k, default)`: the default is used only when the key is absent,
      never when it is present with a falsy value. */
  function Get(m: map<string, Value>, k: string, default: Value): Value {
    if k in m then m[k] else default
  }

  /** A nullable string column value as JSON. */
  function OfText(o: Option<string>): Value {
    match o
    case None => Null
    case Some(s) => Str(s)
  }
}
