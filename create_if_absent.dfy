/** What CreatePool and CreateJob do with the outcome of committing a new pool or
    job: they catch every BatchException, print a notice when its error code says
    the resource already exists, and let every other exception escape. */
module CreateIfAbsent {

  datatype Option<T> = None | Some(value: T)

  /** The two kinds of resource created with the same catch logic. */
  datatype ResourceKind = Pool | Job

  /** How the try block around the create-and-commit call ends. A BatchException's
      code is `ex.RequestInformation?.BatchError?.Code`, which is null when either
      link of that chain is missing. */
  datatype CommitOutcome = Committed | BatchError(code: Option<string>) | OtherError

  /** Whether the exception leaves the method, and the line printed, if any. */
  datatype Handling = Handling(rethrown: bool, message: Option<string>)

  /** BatchErrorCodeStrings.PoolExists and BatchErrorCodeStrings.JobExists. */
  const PoolExistsCode: string := "PoolExists"
  const JobExistsCode: string := "JobExists"

  function ExistsCode(kind: ResourceKind): (code: string)
  {
    match kind
    case Pool => PoolExistsCode
    case Job => JobExistsCode
  }

  function AlreadyExistedMessage(kind: ResourceKind): (message: string)
  {
    match kind
    case Pool => "The pool already existed when we tried to create it"
    case Job => "The job already existed when we tried to create it"
  }

  /** The catch clause shared by CreatePool and CreateJob. */
  function Handle(kind: ResourceKind, outcome: CommitOutcome): (h: Handling)
    ensures h.rethrown <==> outcome.OtherError?
    ensures h.message.Some? <==> outcome == BatchError(Some(ExistsCode(kind)))
    ensures h.message.Some? ==> h.message.value == AlreadyExistedMessage(kind)
  {
    match outcome
    case Committed => Handling(false, None)
    case BatchError(code) =>
      if code == Some(ExistsCode(kind)) then Handling(false, Some(AlreadyExistedMessage(kind)))
      else Handling(false, None)
    case OtherError => Handling(true, None)
  }

  /** CreatePool: no BatchException escapes, whatever its code; the notice is
      printed exactly for PoolExists; a successful commit prints nothing. */
  function CreatePool(outcome: CommitOutcome): (h: Handling)
    ensures h.rethrown <==> outcome.OtherError?
    ensures outcome.Committed? ==> h == Handling(false, None)
    ensures h.message.Some? <==> outcome.BatchError? && outcome.code == Some(PoolExistsCode)
    ensures h.message.Some? ==> h.message.value == "The pool already existed when we tried to create it"
  {
    Handle(Pool, outcome)
  }

  /** CreateJob: the same discipline, keyed on JobExists. */
  function CreateJob(outcome: CommitOutcome): (h: Handling)
    ensures h.rethrown <==> outcome.OtherError?
    ensures outcome.Committed? ==> h == Handling(false, None)
    ensures h.message.Some? <==> outcome.BatchError? && outcome.code == Some(JobExistsCode)
    ensures h.message.Some? ==> h.message.value == "The job already existed when we tried to create it"
  {
    Handle(Job, outcome)
  }

  /** A code that means "already exists" for the other kind of resource is
      swallowed silently: the pool check does not accept JobExists, nor the job
      check PoolExists. */
  lemma OtherKindsCodeIsSilent()
    ensures CreatePool(BatchError(Some(JobExistsCode))) == Handling(false, None)
    ensures CreateJob(BatchError(Some(PoolExistsCode))) == Handling(false, None)
  {
  }
}
