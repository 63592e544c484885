/** The JavaScript values that flow through the bridge: option values, request
    fields, job bodies, thrown errors and job results. Objects are plain
    property maps; functions and other host objects (sockets, jobs, a
    broker's methods) are opaque references known only by a tag, and no
    property of a reference is read. An object whose properties the code
    reads, such as a broker instance with its `assertQueue` method, is an
    `Obj` whose fields hold those references. */
module JsValues {

  datatype Option<T> = None | Some(value: T)

  datatype Result<T, E> = Success(value: T) | Failure(error: E)

  datatype Value =
    | Undefined
    | Null
    | Bool(b: bool)
    | Num(n: int)
    | Str(s: string)
    | Obj(fields: map<string, Value>)
    | Ref(tag: string)

  /** JavaScript truthiness (NaN is not a value of this model). */
  predicate Truthy(v: Value)
    ensures !Truthy(v) <==> v == Undefined || v == Null || v == Bool(false) || v == Num(0) || v == Str("")
  {
    match v
    case Undefined => false
    case Null => false
    case Bool(b) => b
    case Num(n) => n != 0
    case Str(s) => s != ""
    case Obj(_) => true
    case Ref(_) => true
  }

  /** `v == null` in JavaScript: property access on such a value throws. */
  predicate Nullish(v: Value) {
    v.Undefined? || v.Null?
  }

  /** `m.key`: a missing property reads as undefined. */
  function Lookup(m: map<string, Value>, key: string): Value {
    if key in m then m[key] else Undefined
  }
}
