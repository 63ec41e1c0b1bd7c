/** What a controller reports to the managed reconciler: the observation and the
    error it returns. */
module Managed {
  import opened Wrappers
  import opened Helpers
  import opened CodeFreshClient

  /** ExternalObservation: whether the external resource exists and, if so, whether
      it matches the desired state. */
  datatype Observation = Observation(resourceExists: bool, resourceUpToDate: bool)

  /** The empty observation: does not exist. */
  const Absent := Observation(false, false)

  /** An error returned by a controller operation. */
  datatype ReconcileError =
    | New(message: string)                      // errors.New
    | Returned(cause: Failure)                  // a service error returned as it is
    | Wrapped(cause: Failure, context: string)  // errors.Wrap
  {
    function Message(): string
    {
      match this
      case New(m) => m
      case Returned(f) => f.Message()
      case Wrapped(f, c) => c + ": " + f.Message()
    }
  }

  /** A failed fetch that means "the remote resource is gone": the sentinel, or an
      error whose text passes IsResourceNotFoundErr for the kind. */
  predicate IsNotFoundClass(f: Failure, resourceName: string)
  {
    f.ResourceNotFound? || IsResourceNotFoundErr(f.Message(), resourceName)
  }

  /** How Observe turns the outcome of its one fetch into a verdict, for a resource
      whose stored id is not empty. `fetched` holds, on success, whether the fetched
      state matches the desired one. */
  ghost function ClassifyFetch(fetched: Result<bool, Failure>, resourceName: string)
    : (r: (Observation, Option<ReconcileError>))
    ensures r.0.resourceUpToDate ==> r.0.resourceExists
    ensures r.0.resourceExists <==> fetched.Success?
    ensures fetched.Success? ==> r.0.resourceUpToDate == fetched.value && r.1 == None
    ensures r.1 == None <==> fetched.Success? || IsNotFoundClass(fetched.error, resourceName)
    ensures r.1 != None ==> r.0 == Absent && r.1 == Some(Returned(fetched.error))
  {
    match fetched
    case Success(upToDate) => (Observation(true, upToDate), None)
    case Failure(f) =>
      if IsNotFoundClass(f, resourceName) then (Absent, None) else (Absent, Some(Returned(f)))
  }
}
