/** Types shared by the package-tracking backend model. */
module Common {

  datatype Option<+T> = None | Some(value: T)

  datatype Result<+T, +E> = Ok(value: T) | Err(error: E)

  /** Identifiers the database generates. They are opaque in the backend; here they are numbers. */
  type PackageId = nat
  type UserId = nat

  /** Failures the database layer reports: a unique constraint that a write would break,
      or an update/delete whose target row does not exist. */
  datatype StoreError = UniqueViolation | RecordNotFound

  /** The exceptions the services raise, by their HTTP class; a storage failure is passed on
      as whatever the database reported. */
  datatype ApiError =
    | Conflict
    | NotFound
    | InternalServerError
    | Unauthorized
    | Storage(cause: StoreError)

  /** How an asynchronous call ends: normally, or with an exception. */
  datatype Completion = Completed | Raised(error: ApiError)

  /** The first position in `s` whose element satisfies `p`, or `|s|` when there is none. */
  function FirstIndex<T>(s: seq<T>, p: T -> bool): (k: nat)
    ensures k <= |s|
    ensures k < |s| ==> p(s[k])
    ensures forall j :: 0 <= j < k ==> !p(s[j])
  {
    if |s| == 0 then 0
    else if p(s[0]) then 0
    else 1 + FirstIndex(s[1..], p)
  }
}
