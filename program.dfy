/** The order in which the program's entry point runs the modelled steps: create
    the pool, then the job, then build the task descriptors. An exception that
    escapes one step ends the run before the next. */
module Program {
  import opened CreateIfAbsent

  /** How far a run gets: the pool step's handling, the job step's handling when
      it is reached, and whether the task descriptors are built and handed to AddTaskAsync. */
  datatype Progress = Progress(pool: Handling, job: Option<Handling>, tasksCreated: bool)

  function Provision(poolOutcome: CommitOutcome, jobOutcome: CommitOutcome): (p: Progress)
    ensures p.pool == CreatePool(poolOutcome)
    ensures p.job.Some? <==> !poolOutcome.OtherError?
    ensures p.job.Some? ==> p.job.value == CreateJob(jobOutcome)
    ensures p.tasksCreated <==> !poolOutcome.OtherError? && !jobOutcome.OtherError?
  {
    var pool := CreatePool(poolOutcome);
    if pool.rethrown then Progress(pool, None, false)
    else
      var job := CreateJob(jobOutcome);
      Progress(pool, Some(job), !job.rethrown)
  }

  /** Running again after a first run that created both resources: the commits
      report PoolExists and JobExists, both notices are printed and the tasks are
      still built. */
  lemma RerunStillCreatesTasks()
    ensures var p := Provision(BatchError(Some(PoolExistsCode)), BatchError(Some(JobExistsCode)));
            p.tasksCreated &&
            p.pool.message == Some("The pool already existed when we tried to create it") &&
            p.job == Some(Handling(false, Some("The job already existed when we tried to create it")))
  {
  }

  /** A failed commit that raises a BatchException, for whatever reason, does not
      stop the run: the tasks are still built. */
  lemma BatchErrorsNeverStopTheRun(poolCode: Option<string>, jobCode: Option<string>)
    ensures Provision(BatchError(poolCode), BatchError(jobCode)).tasksCreated
  {
  }
}
