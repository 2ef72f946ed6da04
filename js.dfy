/**
  JavaScript values as the builders see them: option bags read from the
  workspace configuration, JavaScript truthiness, and the exceptions that the
  builders either throw on purpose or run into (a property read on `undefined`).
 */
module Js {

  datatype Option<+T> = None | Some(value: T)

  /** Why an operation stopped: a TypeError raised by the runtime, or an
      `Error` thrown by the builder with a message. */
  datatype Error = TypeError | Thrown(message: string)

  datatype Result<+T> = Ok(value: T) | Err(error: Error) {
    predicate IsFailure() { Err? }

    function PropagateFailure<U>(): Result<U>
      requires Err?
    {
      Err(error)
    }

    function Extract(): T
      requires Ok?
    {
      value
    }
  }

  /** A JSON-like value. Numbers are integers: no option in this model needs a fraction. */
  datatype Json =
    | Undefined
    | Null
    | Bool(b: bool)
    | Num(n: int)
    | Str(s: string)
    | Arr(items: seq<Json>)
    | Obj(fields: map<string, Json>)

  /** A plain object: the builders' `JsonObject`. */
  type JsonObject = map<string, Json>

  /** JavaScript truthiness: `undefined`, `null`, `false`, `0` and `""` are falsy;
      every array and every object is truthy, even an empty one. */
  predicate Truthy(v: Json) {
    match v
    case Undefined => false
    case Null => false
    case Bool(b) => b
    case Num(n) => n != 0
    case Str(s) => s != ""
    case Arr(_) => true
    case Obj(_) => true
  }
}
