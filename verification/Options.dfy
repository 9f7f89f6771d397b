/** Optional values: what a lookup, a handle or a nullable field of the services holds. And what several modules use. */
module Options {
  datatype Option<+T> = None | Some(value: T)

  /** The outcome of an operation that the services end by returning or by throwing. */
  datatype Result<+T, +E> = Ok(value: T) | Err(error: E)

  /** Milliseconds. */
  const DAY := 86400000

  function Max(a: int, b: int): (m: int) {
    if a < b then b else a
  }

  function Min(a: int, b: int): (m: int) {
    if a < b then a else b
  }

  lemma {:induction false} SubsetSize<T>(a: set<T>, b: set<T>)
    requires a <= b
    ensures |a| <= |b|
    decreases a
  {
    if a != {} {
      var x :| x in a;
      SubsetSize(a - {x}, b - {x});
    }
  }
}
