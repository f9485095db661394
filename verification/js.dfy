/** The host-language values the engine looks at, and the shapes of the
    outcomes of the caller-supplied callbacks. */
module Js {

  datatype Option<+T> = None | Some(value: T)

  datatype Result<+T, +E> = Ok(value: T) | Err(error: E)

  /** A JavaScript value. Plain objects and functions are told apart only by
      a reference number: the engine never looks inside them. `RuntimeTypeError`
      is the error object the runtime throws when the engine reads a property
      of `undefined` or `null`. */
  datatype JsVal =
    | Undefined
    | Null
    | Bool(b: bool)
    | Num(n: int)
    | Str(s: string)
    | Arr(items: seq<JsVal>)
    | Obj(ref: nat)
    | Fn(ref: nat)
    | RuntimeTypeError

  /** The values the runtime's type test reports as objects: null and arrays
      as well as plain objects. */
  predicate IsObjectType(v: JsVal) {
    v.Null? || v.Arr? || v.Obj? || v.RuntimeTypeError?
  }

  /** JavaScript truthiness. */
  predicate Truthy(v: JsVal) {
    match v
    case Undefined => false
    case Null => false
    case Bool(b) => b
    case Num(n) => n != 0
    case Str(s) => s != ""
    case _ => true
  }

  /** A falsy value replaced by null, a truthy one kept (src/Undojs.js lines
      61-62). */
  function OrNull(v: JsVal): JsVal {
    if Truthy(v) then v else Null
  }

  /** How an awaited value settles. Awaiting a value that is not a promise
      always fulfils. */
  datatype Settle = Fulfilled(value: JsVal) | Rejected(reason: JsVal)
}
