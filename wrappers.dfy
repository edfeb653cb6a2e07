/** Optional values, the exceptions the backend raises, and results that carry one or the other. */
module Wrappers {

  /** JavaScript's `undefined`/`null` versus a present value. */
  datatype Option<+T> = None | Some(value: T)

  /** A string that JavaScript treats as true in a condition: present and non-empty. */
  predicate Truthy(s: Option<string>)
  {
    s.Some? && s.value != ""
  }

  /** JavaScript's `a || b` on optional strings. */
  function Or(a: Option<string>, b: Option<string>): (r: Option<string>)
    ensures Truthy(a) ==> r == a
    ensures !Truthy(a) ==> r == b
  {
    if Truthy(a) then a else b
  }

  /** The exceptions thrown by the services: the four HTTP exceptions of the framework, and any
      other error (database, mail delivery, a plain `Error`, a `TypeError`), which the framework
      answers with status 500. */
  datatype Error =
    | BadRequest(message: string)
    | Unauthorized(message: string)
    | NotFound(message: string)
    | Conflict(message: string)
    | Failed(message: string)

  /** The settled value of a promise: resolved with a value or rejected with an error. */
  datatype Result<+T> = Success(value: T) | Failure(error: Error)
}
