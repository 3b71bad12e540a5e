/** Wrappers used throughout the model: an optional value
    (a JavaScript property that may be `undefined`) and a result that is either
    a value or the message of a thrown `Error`. */
module Wrappers {

  datatype Option<+T> = None | Some(value: T) {

    /** The value when present, otherwise `default` (JavaScript's `x ?? d`). */
    function GetOr(default: T): T {
      match this
      case Some(v) => v
      case None => default
    }
  }

  datatype Result<+R> = Ok(value: R) | Err(message: string)

  /** JavaScript truthiness of an optional number: present and non-zero
      (the model has no NaN). */
  predicate TruthyNum(x: Option<real>) {
    x.Some? && x.value != 0.0
  }

  /** JavaScript truthiness of an optional string: present and non-empty. */
  predicate TruthyStr(s: Option<string>) {
    s.Some? && s.value != ""
  }

  /** `x || 0` for an optional number. */
  function OrZero(x: Option<real>): (r: real)
    ensures TruthyNum(x) ==> r == x.value
    ensures !TruthyNum(x) ==> r == 0.0
  {
    if TruthyNum(x) then x.value else 0.0
  }
}
