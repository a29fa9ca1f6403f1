/**
 * The library's own success-or-error container (Sources/Enums/Result.swift) and the
 * errors that travel in it.  Later revisions of the library switched to Swift's
 * built-in `Result<Success, Error>`, which has the same two cases; the device models
 * reuse this datatype for it.
 */
module Results {
  import opened Optional

  /**
   * Swift's `Error` is an open protocol.  The model distinguishes the one error the
   * library raises itself, `ConnectionError.disconnected`, from errors the platform
   * stack reports, which are opaque and identified by a code.
   */
  datatype Error = Disconnected | PlatformError(code: int)

  datatype Result<V> = Success(payload: V) | Failure(err: Error) {

    /** `Result.value`: the payload of a success, nil for a failure. */
    function Value(): (r: Option<V>)
      ensures r.Some? <==> Success?
      ensures Success? ==> r == Some(payload)
    {
      match this
      case Success(v) => Some(v)
      case Failure(_) => None
    }

    /** `Result.error`: nil for a success, the carried error for a failure. */
    function ErrorValue(): (r: Option<Error>)
      ensures r.Some? <==> Failure?
      ensures Failure? ==> r == Some(err)
    {
      match this
      case Success(_) => None
      case Failure(e) => Some(e)
    }

    /** `Result.isSuccess`, defined by a switch on the case. */
    predicate IsSuccess() {
      match this
      case Success(_) => true
      case Failure(_) => false
    }

    /** `Result.isFailure`, defined as the negation of `isSuccess`. */
    predicate IsFailure() {
      !IsSuccess()
    }
  }

  /** `Result(value:)`. */
  function FromValue<V>(v: V): (r: Result<V>)
    ensures r.Success? && r.payload == v
  {
    Success(v)
  }

  /** `Result(error:)`. */
  function FromError<V>(e: Error): (r: Result<V>)
    ensures r.Failure? && r.err == e
  {
    Failure(e)
  }

  /**
   * The result a platform callback is turned into: `.success(value)`, replaced by
   * `.failure(e)` when the callback carries an error.
   */
  function FromCallback<V>(error: Option<Error>, success: V): (r: Result<V>)
    ensures r.Failure? <==> error.Some?
    ensures error.Some? ==> r.err == error.value
    ensures error.None? ==> r.payload == success
  {
    if error.Some? then Failure(error.value) else Success(success)
  }

  /** Exactly one of `value` and `error` is non-nil, and the two flags agree with them. */
  lemma ExactlyOneOfValueAndError<V>(r: Result<V>)
    ensures r.Value().Some? != r.ErrorValue().Some?
    ensures r.IsSuccess() <==> r.Success?
    ensures r.IsFailure() <==> r.ErrorValue().Some?
    ensures r.IsFailure() == !r.IsSuccess()
  {
  }

  /** `Result(value: v).value == v` and `Result(error: e).error == e`. */
  lemma ConstructorsRoundTrip<V>(v: V, e: Error)
    ensures FromValue(v).Value() == Some(v)
    ensures FromValue(v).ErrorValue() == None
    ensures FromError<V>(e).ErrorValue() == Some(e)
    ensures FromError<V>(e).Value() == None
  {
  }
}
