/** Small shared vocabulary: optional values, results and time units. */
module Common {

  /** A nullable value: a database column declared `null=True`, or a lookup that may miss. */
  datatype Option<T> = None | Some(value: T)

  /** An outcome that is either a value or the error that stopped the computation. */
  datatype Result<T, E> = Success(value: T) | Failure(error: E)

  /** A calendar day, numbered consecutively (the granularity of a `DateField`). */
  type Day = int

  /** A point in time (the value of `timezone.now()`), in whole units. */
  type Timestamp = int
}
