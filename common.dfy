/** Results and the errors the core lets propagate to the surrounding framework. */
module Common {

  datatype Option<+T> = None | Some(value: T)

  /** The repository's own failures (NotFoundException, UnauthorizedException), kept opaque. */
  datatype RepoError = NotFound | Unauthorized

  /** What a repository service gives back: the loaded value object, or the failure it threw. */
  datatype RepoResult<+T> = Loaded(value: T) | Failed(cause: RepoError)

  /** Everything the modelled code can throw. */
  datatype Error =
    | InvalidArgument(argumentName: string, whatIsWrong: string)  // eZ InvalidArgumentException
    | Repository(cause: RepoError)                                // propagated from a repository service
    | TypeError(expected: string)                                 // a declared parameter or return type violated
    | MethodCallFailed(methodName: string)                        // a method called on a value without it

  datatype Result<+T> = Success(value: T) | Failure(error: Error)

  /** The outcome of a handler that returns nothing but may throw. */
  datatype Outcome = Pass | Fail(error: Error)

  /** A repository call whose exception propagates unchanged. */
  function FromRepo<T>(r: RepoResult<T>): (res: Result<T>)
    ensures res.Success? <==> r.Loaded?
    ensures r.Loaded? ==> res.value == r.value
    ensures r.Failed? ==> res.error == Repository(r.cause)
  {
    match r
    case Loaded(v) => Success(v)
    case Failed(e) => Failure(Repository(e))
  }
}
