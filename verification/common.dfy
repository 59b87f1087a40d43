/** Shared wrappers for the order-service model.

    Java's boxed values (`Integer`, `Double`, `Long`, `String`) may be `null`;
    the model writes such a value as `Option<T>`, with `None` standing for `null`.
    Operations that throw in the source return a `Result` instead.
 */
module Common {

  /** A possibly-null value: `None` is Java's `null`. */
  datatype Option<+T> = None | Some(value: T)

  /** The outcome of an operation that either completes or throws. */
  datatype Result<+R, +E> = Ok(value: R) | Err(error: E)

  /** Unboxing with the source's null-to-zero convention (`x != null ? x : 0`). */
  function OrZero(x: Option<int>): (r: int)
    ensures x.Some? ==> r == x.value
    ensures x.None? ==> r == 0
  {
    match x
    case Some(v) => v
    case None => 0
  }
}
