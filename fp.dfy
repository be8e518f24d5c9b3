/**
 * The functional shapes the services are written in: fp-ts `Option` and
 * `Either`, and the outcome of a settled JavaScript `Promise`.
 */
module Fp {

  datatype Option<+T> = None | Some(value: T) {
    /** fp-ts `getOrElse` */
    function GetOr(default: T): T {
      match this
      case Some(v) => v
      case None => default
    }
  }

  /** fp-ts `Either`: `Left` carries the failure, `Right` the value. */
  datatype Either<+L, +R> = Left(left: L) | Right(right: R)

  /**
   * A settled promise: it resolved with a value, or it was rejected
   * (an `async` function that threw, a callback that raised).
   */
  datatype Settled<+T, +E> = Resolved(value: T) | Rejected(reason: E)
}
