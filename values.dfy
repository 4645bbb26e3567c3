/** JavaScript values as the adapter sees them (configuration slices, tool
    input schemas), the errors that travel along the install path, and the
    small Option/Result wrappers used throughout. */
module Values {

  datatype Option<+T> = None | Some(value: T)

  datatype Result<+T, +E> = Ok(value: T) | Err(error: E)

  /** A JavaScript value. An object is the list of its own enumerable
      properties in the order `for...in` visits them; JavaScript keeps its
      keys distinct. Numbers are limited to integers. */
  datatype Value =
    | Undefined
    | Null
    | Bool(b: bool)
    | Num(n: int)
    | Str(s: string)
    | Arr(items: seq<Value>)
    | Obj(fields: seq<(string, Value)>)

  /** Property access `o[key]`: the value of the field named `key`, or None
      when the object has no such field (JavaScript then yields `undefined`). */
  function Lookup(fields: seq<(string, Value)>, key: string): (r: Option<Value>)
    ensures r.None? <==> forall i :: 0 <= i < |fields| ==> fields[i].0 != key
    ensures r.Some? ==> exists i :: 0 <= i < |fields| && fields[i] == (key, r.value)
  {
    if fields == [] then None
    else if fields[0].0 == key then Some(fields[0].1)
    else Lookup(fields[1..], key)
  }

  /** `v.key` on any value: `undefined` unless `v` is an object holding `key`. */
  function Get(v: Value, key: string): (r: Value)
    ensures r != Undefined ==> v.Obj? && Lookup(v.fields, key) == Some(r)
  {
    if v.Obj? then
      match Lookup(v.fields, key)
      case Some(x) => x
      case None => Undefined
    else Undefined
  }

  /** What can make one `register` or `install` call fail. */
  datatype Error =
    | UnknownConnectionType(typ: string)  // the default case of the transport switch
    | InvalidUrl(input: Value)            // `new URL(...)` refused its argument
    | ConfigRejected(key: string)         // the host refused a slice that does not match its schema
    | Thrown(message: string)             // raised by the client library or the host, passed on unchanged

  /** The `message` of the JavaScript Error each case stands for; the text
      the host throws for a refused slice is its own and is not modelled. */
  function Message(e: Error): string
    requires !e.ConfigRejected?
  {
    match e
    case UnknownConnectionType(t) => "Unknown connection type " + t
    case InvalidUrl(_) => "Invalid URL"
    case Thrown(m) => m
  }
}
