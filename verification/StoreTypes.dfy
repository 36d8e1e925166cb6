/** The values the replicated store keeps and the commands that travel through the Raft log. */
module StoreTypes {
  datatype Option<+T> = None | Some(value: T)

  /** Nanoseconds since 0001-01-01T00:00:00Z, the instant Go calls the zero time. */
  type Time = int

  const ZERO_TIME: Time := 0

  datatype Job = Job(
    id: string,
    name: string,
    cronExpr: string,
    executor: string,
    payload: string,
    enabled: bool,
    catchupPolicy: string,
    partitionKey: string,
    createdAt: Time,
    updatedAt: Time,
    metadata: Option<map<string, string>>,
    nextRun: Time,
    lastRun: Time,
    lastStatus: string)

  datatype JobRun = JobRun(
    id: string,
    jobId: string,
    jobName: string,
    startedAt: Time,
    finishedAt: Option<Time>,
    status: string,
    errorMessage: string,
    durationMs: int,
    idempotencyKey: string,
    exitCode: int,
    output: string)

  /** The full state a snapshot carries. */
  datatype StoreState = StoreState(jobs: map<string, Job>, runs: seq<JobRun>)

  /**
    * A command as the store decodes it. `Malformed` is an entry decodeCommand rejects;
    * `Unknown` decodes, but its operation or its payload is one applyCommand ignores.
    */
  datatype Command =
    | CreateJob(job: Job)
    | UpdateJob(job: Job)
    | DeleteJob(id: string)
    | RecordRun(run: JobRun)
    | Unknown
    | Malformed
}
