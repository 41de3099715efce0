/** JavaScript values as the auth package sees them, and the usual Option/Result wrappers. */
module Js {

  datatype Option<+T> = None | Some(value: T)

  datatype Result<+T, +E> = Ok(value: T) | Err(error: E)

  /** A JavaScript value whose type is known when it is there: `undefined`, `null`, or a T. */
  datatype JsVal<+T> = Undefined | Null | Is(v: T)

  /** `!!v` for a string-valued slot: `undefined`, `null` and the empty string are falsy. */
  predicate TruthyString(v: JsVal<string>) {
    v.Is? && v.v != ""
  }

  /** `!!v` for a number-valued slot: zero is falsy. */
  predicate TruthyNumber(v: JsVal<nat>) {
    v.Is? && v.v != 0
  }

  /** `a || b` where `a` holds a string. */
  function OrString(a: JsVal<string>, b: JsVal<string>): JsVal<string> {
    if TruthyString(a) then a else b
  }

  /** `a || b` where `a` holds an object; every object is truthy. */
  function OrObject<T>(a: JsVal<T>, b: JsVal<T>): JsVal<T> {
    if a.Is? then a else b
  }
}
