/** What the pipeline relies on from the .NET runtime: nullable values, exceptions with their chain of
    inner exceptions, the two ways a call completes, and when LoggingService.LogException itself throws. */
module Runtime {

  datatype Option<+T> = None | Some(value: T)

  /** An exception: its Message and its InnerException (null when absent). */
  datatype Exception = Exception(message: string, inner: Option<Exception>)

  /** How a call completes: it returns a value or it throws. */
  datatype Call<+T> = Returned(value: T) | Threw(e: Exception)

  const NullReferenceMessage := "Object reference not set to an instance of an object."

  /** The NullReferenceException a null dereference raises; it wraps nothing. */
  const NullReference := Exception(NullReferenceMessage, None)

  /** Number of exceptions nested below `e` through InnerException. */
  function InnerDepth(e: Exception): nat
  {
    match e.inner
    case None => 0
    case Some(i) => 1 + InnerDepth(i)
  }

  /** e.InnerException applied `k` times, or None once a null is met. */
  function Nested(e: Exception, k: nat): Option<Exception>
  {
    if k == 0 then Some(e)
    else match e.inner
      case None => None
      case Some(i) => Nested(i, k - 1)
  }

  lemma {:induction false} NestedIffDeep(e: Exception, k: nat)
    ensures Nested(e, k).Some? <==> k <= InnerDepth(e)
    decreases k
  {
    if k > 0 {
      match e.inner
      case None =>
      case Some(i) => NestedIffDeep(i, k - 1);
    }
  }

  /** LoggingService.LogException(e, ...) reads StackTrace and Message of e.InnerException nested one
      to five deep without null checks: it throws a NullReferenceException unless the fifth nested inner
      exception exists. The text it writes to the log is not modelled; only whether it throws. */
  function LogException(e: Exception): (r: Option<Exception>)
    ensures r.None? <==> InnerDepth(e) >= 5
    ensures r.Some? ==> r.value == NullReference
  {
    NestedIffDeep(e, 5);
    if Nested(e, 5).Some? then None else Some(NullReference)
  }

  /** A NullReferenceException wraps nothing, so logging one always throws again. */
  lemma LoggingNullReferenceThrows()
    ensures LogException(NullReference) == Some(NullReference)
  {
  }
}
