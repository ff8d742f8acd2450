/** Option and backend-reply datatypes shared by every model in this project. */
module Wrappers {

  /** A value that may be absent: JavaScript's `null`/`undefined`, or a number that failed to parse. */
  datatype Option<+T> = None | Some(value: T) {
    /** `this ?? default` */
    function GetOr(default: T): (r: T)
      ensures Some? ==> r == value
      ensures None? ==> r == default
    {
      match this
      case Some(v) => v
      case None => default
    }
  }

  /** The reply of one backend call: a row/result on success, or the error message the backend reported. */
  datatype Reply<+T> = Ok(value: T) | Failed(message: string)

  /** A reply to a call that returns no data (insert, update, delete). */
  type Ack = Reply<()>

  /** JavaScript truthiness of a `string | null` value: present and not the empty string. */
  predicate Truthy(s: Option<string>) {
    s.Some? && s.value != ""
  }

  /** `x > 0` on a parsed number: `None` stands for NaN or a failed parse, for which `x > 0` is false. */
  predicate Positive(x: Option<real>) {
    x.Some? && x.value > 0.0
  }
}
