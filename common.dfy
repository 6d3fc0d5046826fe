/** Failure-carrying wrappers shared by every module of the model. */
module Common {

  datatype Option<+T> = None | Some(value: T)

  /** A value, or the error the Python implementation would raise instead of returning one. */
  datatype Result<+T, +E> = Success(value: T) | Failure(error: E)

  /** An exception raised by a network call (an HTTP error or an unparsable response). */
  datatype FetchError = FetchError(reason: string)

  /** Prepends already-produced items to a list-producing outcome; a failure stays a failure.
      Used as the "work still to do" form of loop invariants that append in order. */
  function Prefixed<T, E>(done: seq<T>, rest: Result<seq<T>, E>): (r: Result<seq<T>, E>)
    ensures rest.Success? <==> r.Success?
    ensures rest.Success? ==> r.value == done + rest.value
    ensures rest.Failure? ==> r.error == rest.error
  {
    match rest
    case Success(xs) => Success(done + xs)
    case Failure(e) => Failure(e)
  }

  lemma PrefixedNil<T, E>(rest: Result<seq<T>, E>)
    ensures Prefixed([], rest) == rest
  {
    if rest.Success? {
      assert [] + rest.value == rest.value;
    }
  }

  lemma PrefixedAssoc<T, E>(a: seq<T>, b: seq<T>, rest: Result<seq<T>, E>)
    ensures Prefixed(a, Prefixed(b, rest)) == Prefixed(a + b, rest)
  {
    if rest.Success? {
      assert a + (b + rest.value) == (a + b) + rest.value;
    }
  }
}
