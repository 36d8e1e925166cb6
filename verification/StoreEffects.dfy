/** What each command does to the jobs and the run table, and what jobs a history of commands leaves. */
module StoreEffects {
  import opened StoreTypes
  import opened Store

  // ----- one command -----

  /** Only job id is created, changed or removed. */
  ghost predicate OnlyJob(a: map<string, Job>, b: map<string, Job>, id: string) {
    forall k :: k != id ==> (k in a <==> k in b) && (k in a ==> a[k] == b[k])
  }

  /** Stored job j is the given one, each default taken only for a field left empty. */
  predicate StoredAs(j: Job, given: Job) {
    && j.id == given.id && j.name == given.name && j.cronExpr == given.cronExpr && j.executor == given.executor
    && j.payload == given.payload && j.nextRun == given.nextRun
    && (j.enabled <==> given.enabled || given.createdAt == ZERO_TIME)
    && j.partitionKey == (if given.partitionKey != "" then given.partitionKey else "default")
    && j.catchupPolicy == (if given.catchupPolicy != "" then given.catchupPolicy else "skip")
    && j.metadata == (if given.metadata.Some? then given.metadata else Some(map[]))
  }

  lemma DeleteEffect(s: StoreState, id: string, now: Time)
    ensures var s' := Apply(s, DeleteJob(id), now);
            id !in s'.jobs && OnlyJob(s.jobs, s'.jobs, id)
  {
  }

  /** Creating and updating are the same: the job is stored, its creation time kept from before if not given. */
  lemma PutEffect(s: StoreState, cmd: Command, now: Time)
    requires cmd.CreateJob? || cmd.UpdateJob?
    ensures var s', given := Apply(s, cmd, now), cmd.job;
            && given.id in s'.jobs && OnlyJob(s.jobs, s'.jobs, given.id) && s'.runs == s.runs
            && StoredAs(s'.jobs[given.id], given)
            && s'.jobs[given.id].lastRun == given.lastRun && s'.jobs[given.id].lastStatus == given.lastStatus
            && s'.jobs[given.id].updatedAt == (if given.updatedAt != ZERO_TIME then given.updatedAt else now)
            && s'.jobs[given.id].createdAt == (if given.createdAt != ZERO_TIME then given.createdAt
                                               else if given.id in s.jobs then s.jobs[given.id].createdAt else ZERO_TIME)
  {
  }

  /** Run r is the later record, with the earlier one's value wherever the later left a field empty. */
  predicate MergedFrom(r: JobRun, earlier: JobRun, later: JobRun) {
    && r.jobId == later.jobId && r.errorMessage == later.errorMessage && r.durationMs == later.durationMs
    && r.exitCode == later.exitCode && r.output == later.output
    && r.id == (if later.id != "" then later.id else earlier.id)
    && r.jobName == (if later.jobName != "" then later.jobName else earlier.jobName)
    && r.startedAt == (if later.startedAt != ZERO_TIME then later.startedAt else earlier.startedAt)
    && r.finishedAt == (if later.finishedAt.Some? then later.finishedAt else earlier.finishedAt)
    && r.status == (if later.status != "" then later.status else earlier.status)
    && r.idempotencyKey == (if later.idempotencyKey != "" then later.idempotencyKey else earlier.idempotencyKey)
  }

  /** The first run with this key is at p. */
  predicate FirstWith(runs: seq<JobRun>, key: string, p: nat) {
    && p < |runs| && key != "" && runs[p].idempotencyKey == key
    && forall i :: 0 <= i < p ==> runs[i].idempotencyKey != key
  }

  /**
    * A record changes the first run with its key, or is added as it is and pushes out the oldest of
    * a thousand; position p of the new table is where it went.
    */
  predicate RecordedAt(runs: seq<JobRun>, run: JobRun, runs': seq<JobRun>, p: nat) {
    p < |runs'| &&
    if FirstWith(runs, run.idempotencyKey, p) then
      |runs'| == |runs| && MergedFrom(runs'[p], runs[p], run) && forall i :: 0 <= i < |runs| && i != p ==> runs'[i] == runs[i]
    else
      && (forall i :: 0 <= i < |runs| ==> !FirstWith(runs, run.idempotencyKey, i))
      && p == |runs'| - 1 && runs'[p] == run
      && |runs'| == (if |runs| < 1000 then |runs| + 1 else 1000)
      && forall i :: 0 <= i < p ==> |runs| - p + i >= 0 && runs'[i] == runs[|runs| - p + i]
  }

  lemma RunsEffect(s: StoreState, run: JobRun, now: Time) returns (p: nat)
    ensures RecordedAt(s.runs, run, Apply(s, RecordRun(run), now).runs, p)
    ensures Apply(s, RecordRun(run), now).jobs == TouchJob(s.jobs, Apply(s, RecordRun(run), now).runs[p], now)
  {
    var runs', f := Apply(s, RecordRun(run), now).runs, Find(s.runs, run.idempotencyKey);
    p := if f < |s.runs| then f else |runs'| - 1;
    if f == |s.runs| {
      forall i | 0 <= i < |s.runs| ensures !FirstWith(s.runs, run.idempotencyKey, i) {}
    }
  }

  /** The job's last run and status are those of the merged run; nothing else about any job changes but updatedAt. */
  lemma RecordEffect(s: StoreState, run: JobRun, now: Time) returns (p: nat)
    ensures var s' := Apply(s, RecordRun(run), now);
            && RecordedAt(s.runs, run, s'.runs, p)
            && OnlyJob(s.jobs, s'.jobs, run.jobId) && (run.jobId in s'.jobs <==> run.jobId in s.jobs)
            && (run.jobId in s.jobs ==>
                  s'.jobs[run.jobId].lastRun == s'.runs[p].startedAt && s'.jobs[run.jobId].lastStatus == s'.runs[p].status
                  && s'.jobs[run.jobId].updatedAt == now
                  && s'.jobs[run.jobId].(lastRun := ZERO_TIME, lastStatus := "", updatedAt := ZERO_TIME)
                     == s.jobs[run.jobId].(lastRun := ZERO_TIME, lastStatus := "", updatedAt := ZERO_TIME))
  {
    p := RunsEffect(s, run, now);
    assert Apply(s, RecordRun(run), now).runs[p].jobId == run.jobId;
  }

  /** What does not decode, or is not known, changes nothing. */
  lemma OtherEffect(s: StoreState, cmd: Command, now: Time)
    requires cmd.Unknown? || cmd.Malformed?
    ensures Apply(s, cmd, now) == s
  {
  }

  // ----- any commands -----

  predicate Puts(cmd: Command, id: string) {
    (cmd.CreateJob? || cmd.UpdateJob?) && cmd.job.id == id
  }

  /** Command t creates or updates the job, and no later command does, or deletes it. */
  predicate LastPut(cmds: seq<Command>, id: string, t: nat) {
    t < |cmds| && Puts(cmds[t], id) && forall u :: t < u < |cmds| ==> !Puts(cmds[u], id) && cmds[u] != DeleteJob(id)
  }

  lemma OneMore(s: StoreState, cmd: Command, now: Time, id: string)
    ensures var s' := Apply(s, cmd, now);
            && (id in s'.jobs <==> Puts(cmd, id) || (id in s.jobs && cmd != DeleteJob(id)))
            && (Puts(cmd, id) ==> StoredAs(s'.jobs[id], cmd.job))
            && (id in s'.jobs && !Puts(cmd, id) ==> forall given :: StoredAs(s.jobs[id], given) ==> StoredAs(s'.jobs[id], given))
  {
    match cmd {
      case CreateJob(_) => PutEffect(s, cmd, now);
      case UpdateJob(_) => PutEffect(s, cmd, now);
      case DeleteJob(d) => DeleteEffect(s, d, now);
      case RecordRun(run) => var p := RecordEffect(s, run, now);
      case _ => OtherEffect(s, cmd, now);
    }
  }

  predicate LastPutBy(init: seq<Command>, last: Command, id: string, t: nat) {
    if Puts(last, id) then t == |init| else last != DeleteJob(id) && LastPut(init, id, t)
  }

  lemma LastPutMore(cmds: seq<Command>, id: string, t: nat)
    requires cmds != []
    ensures LastPut(cmds, id, t) <==> LastPutBy(cmds[..|cmds| - 1], cmds[|cmds| - 1], id, t)
  {
    var init := cmds[..|cmds| - 1];
    if LastPut(cmds, id, t) && t < |init| {
      forall u | t < u < |init| ensures !Puts(init[u], id) && init[u] != DeleteJob(id) {
        assert init[u] == cmds[u];
      }
    }
  }

  /** A job is there exactly when its last create or update has no later delete, and is what that stored. */
  lemma {:induction false} JobsAreLastPuts(cmds: seq<Command>, id: string)
    ensures id in Fold(cmds).jobs <==> exists t: nat :: LastPut(cmds, id, t)
    ensures forall t: nat :: LastPut(cmds, id, t) ==> StoredAs(Fold(cmds).jobs[id], cmds[t].job)
    decreases |cmds|
  {
    if cmds != [] {
      var init, last := cmds[..|cmds| - 1], cmds[|cmds| - 1];
      JobsAreLastPuts(init, id);
      OneMore(Fold(init), last, ZERO_TIME, id);
      forall t: nat ensures LastPut(cmds, id, t) <==> LastPutBy(init, last, id, t) {
        LastPutMore(cmds, id, t);
      }
      if Puts(last, id) {
        assert LastPutBy(init, last, id, |init|);
      } else if exists t: nat :: LastPut(init, id, t) && LastPutBy(init, last, id, t) {
        var t: nat :| LastPut(init, id, t) && LastPutBy(init, last, id, t);
        assert LastPut(cmds, id, t) && cmds[t] == init[t];
      }
    }
  }
}
