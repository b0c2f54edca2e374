/** Shared result types for the benchmark engine and the file-sorting helpers. */
module Common {

  /** A value that may be absent (the "not a number" slot of a growth lookup). */
  datatype Option<T> = None | Some(value: T)

  /** The outcome of an operation that raises in the source. */
  datatype Result<T, E> = Ok(value: T) | Err(error: E)

  /** The three exceptions of the benchmark code this model covers. */
  datatype Error =
    | UnknownPattern   // make_dataset: ValueError("Unknown pattern")
    | EmptyRange       // random.randrange(n) with n <= 0
    | EmptyTimings     // min() of the empty list of repeat timings

  /** A subset is no larger than the set that holds it. */
  lemma SubsetCard<T>(a: set<T>, b: set<T>)
    requires a <= b
    ensures |a| <= |b|
  {
    assert b == a + (b - a);
  }
}
