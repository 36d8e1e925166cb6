/**
  * What the scheduler leaves of a job and of a run: the cursor stays on the cron expression, all else
  * stays as it was created; a run is dispatched after its record, and ends in that record.
  */
module SchedulerEffects {
  import opened StoreTypes
  import opened Store
  import opened StoreEffects
  import opened Cron
  import opened CronText
  import opened RunKeys
  import opened P = Scheduler

  /** A property of an expression and a time. */
  type Trait = (string, Time) -> bool

  /** Every next occurrence has it. */
  ghost predicate Inherited(good: Trait) {
    forall expr, now, t :: NextRun(expr, now) == Some(t) ==> good(expr, t)
  }

  /** Storing the job again changes none of its defaults. */
  predicate Settled(j: Job) {
    j.partitionKey != "" && j.catchupPolicy != "" && j.metadata.Some? && (j.enabled || j.createdAt != ZERO_TIME)
  }

  predicate JobFits(j: Job, id: string, good: Trait) {
    j.id == id && good(j.cronExpr, j.nextRun) && Settled(j)
  }

  ghost predicate JobsFit(jobs: map<string, Job>, good: Trait) {
    forall id {:trigger id in jobs} :: id in jobs ==> JobFits(jobs[id], id, good)
  }

  /** The same job but for its cursor, its last run and when it was updated. */
  predicate SameJob(a: Job, b: Job) {
    a.(nextRun := ZERO_TIME, lastRun := ZERO_TIME, lastStatus := "", updatedAt := ZERO_TIME)
      == b.(nextRun := ZERO_TIME, lastRun := ZERO_TIME, lastStatus := "", updatedAt := ZERO_TIME)
  }

  /** Every job is still there, the same but for its cursor and its last run. */
  ghost predicate JobsKept(a: map<string, Job>, b: map<string, Job>) {
    forall id {:trigger id in a} :: id in a ==> id in b && SameJob(a[id], b[id])
  }

  lemma KeptTwice(a: map<string, Job>, b: map<string, Job>, c: map<string, Job>)
    requires JobsKept(a, b) && JobsKept(b, c)
    ensures JobsKept(a, c)
  {
  }

  // ----- one command -----

  lemma PutFits(good: Trait, s: StoreState, cmd: Command, now: Time)
    requires (cmd.CreateJob? || cmd.UpdateJob?) && good(cmd.job.cronExpr, cmd.job.nextRun) && JobsFit(s.jobs, good)
    ensures JobsFit(Apply(s, cmd, now).jobs, good)
  {
    PutEffect(s, cmd, now);
    var s', id := Apply(s, cmd, now), cmd.job.id;
    assert JobFits(s'.jobs[id], id, good);
  }

  lemma RecordFits(good: Trait, s: StoreState, run: JobRun, now: Time)
    requires JobsFit(s.jobs, good)
    ensures JobsFit(Apply(s, RecordRun(run), now).jobs, good)
    ensures JobsKept(s.jobs, Apply(s, RecordRun(run), now).jobs)
  {
    var p := RecordEffect(s, run, now);
  }

  /** An update of a stored job that moves its cursor. */
  lemma MovedFits(good: Trait, s: StoreState, id: string, next: Time, now: Time, ch: Chance)
    requires Inherited(good) && JobsFit(s.jobs, good) && id in s.jobs && NextRun(s.jobs[id].cronExpr, now) == Some(next)
    ensures var s' := SubmitTo(s, UpdateJob(Moved(s.jobs[id], next, ch)), ch.update, now);
            JobsFit(s'.jobs, good) && JobsKept(s.jobs, s'.jobs)
  {
    var j := s.jobs[id];
    assert JobFits(j, id, good);
    PutFits(good, s, UpdateJob(Moved(j, next, ch)), now);
    PutEffect(s, UpdateJob(Moved(j, next, ch)), now);
  }

  lemma LaunchFits(good: Trait, s: StoreState, run: JobRun, now: Time, ch: Chance)
    requires JobsFit(s.jobs, good)
    ensures var s' := Launch(s, run, now, ch).store; JobsFit(s'.jobs, good) && JobsKept(s.jobs, s'.jobs)
  {
    RecordFits(good, s, run, now);
  }

  // ----- one fire, one move -----

  lemma FireStores(s: StoreState, j: Job, key: string, next: Time, now: Time, ch: Chance)
    ensures var s' := FireWith(s, j, key, Some(next), now, ch).store;
            var s1 := SubmitTo(s, UpdateJob(Moved(j, next, ch)), ch.update, now);
            s' == s || s' == s1 || s' == Launch(s1, NewRun(j, key, ch), now, ch).store
  {
  }

  lemma ThenLaunchFits(good: Trait, s: StoreState, s1: StoreState, run: JobRun, now: Time, ch: Chance)
    requires JobsFit(s1.jobs, good) && JobsKept(s.jobs, s1.jobs)
    ensures var s' := Launch(s1, run, now, ch).store; JobsFit(s'.jobs, good) && JobsKept(s.jobs, s'.jobs)
  {
    LaunchFits(good, s1, run, now, ch);
    KeptTwice(s.jobs, s1.jobs, Launch(s1, run, now, ch).store.jobs);
  }

  lemma FireFits(good: Trait, s: StoreState, id: string, key: string, now: Time, ch: Chance)
    requires Inherited(good) && JobsFit(s.jobs, good) && id in s.jobs
    ensures var f := FireWith(s, s.jobs[id], key, NextRun(s.jobs[id].cronExpr, now), now, ch);
            JobsFit(f.store.jobs, good) && JobsKept(s.jobs, f.store.jobs)
  {
    var j, next := s.jobs[id], NextRun(s.jobs[id].cronExpr, now);
    if next.Some? {
      MovedFits(good, s, id, next.value, now, ch);
      ThenLaunchFits(good, s, SubmitTo(s, UpdateJob(Moved(j, next.value, ch)), ch.update, now), NewRun(j, key, ch), now, ch);
      FireStores(s, j, key, next.value, now, ch);
    }
  }

  lemma SkipFits(good: Trait, s: StoreState, id: string, now: Time, ch: Chance)
    requires Inherited(good) && JobsFit(s.jobs, good) && id in s.jobs
    ensures var s' := AdvanceNextRun(s, s.jobs[id], now, ch); JobsFit(s'.jobs, good) && JobsKept(s.jobs, s'.jobs)
  {
    var next := NextRun(s.jobs[id].cronExpr, now);
    if next.Some? {
      MovedFits(good, s, id, next.value, now, ch);
    }
  }

  lemma FireJobFits(good: Trait, s: StoreState, id: string, at: Time, now: Time, ch: Chance)
    requires Inherited(good) && JobsFit(s.jobs, good) && id in s.jobs
    ensures var f := FireJob(s, s.jobs[id], at, now, ch); JobsFit(f.store.jobs, good) && JobsKept(s.jobs, f.store.jobs)
  {
    FireFits(good, s, id, RunKey(s.jobs[id].id, MinuteAt(at)), now, ch);
  }

  lemma TickFits(good: Trait, s: StoreState, id: string, now: Time, ch: Chance)
    requires Inherited(good) && JobsFit(s.jobs, good) && id in s.jobs
    ensures var f := TickJob(s, s.jobs[id], now, ch); JobsFit(f.store.jobs, good) && JobsKept(s.jobs, f.store.jobs)
  {
    FireJobFits(good, s, id, s.jobs[id].nextRun, now, ch);
  }

  lemma ReconcileFits(good: Trait, s: StoreState, id: string, now: Time, ch: Chance)
    requires Inherited(good) && JobsFit(s.jobs, good) && id in s.jobs
    ensures var f := ReconcileJob(s, s.jobs[id], now, ch); JobsFit(f.store.jobs, good) && JobsKept(s.jobs, f.store.jobs)
  {
    FireJobFits(good, s, id, s.jobs[id].nextRun, now, ch);
    SkipFits(good, s, id, now, ch);
  }

  lemma MoveFits(good: Trait, w: World, mv: Move, now: Time)
    requires Inherited(good) && JobsFit(w.store.jobs, good) && Can(w, mv, now)
    ensures JobsFit(Do(w, mv, now).store.jobs, good)
    ensures !mv.Creates? && !mv.Deletes? ==> JobsKept(w.store.jobs, Do(w, mv, now).store.jobs)
  {
    match mv {
      case Creates(job) => PutFits(good, w.store, CreateJob(job), now);
      case Deletes(id) => DeleteEffect(w.store, id, now);
      case Ticks(id, ch) => TickFits(good, w.store, id, now, ch);
      case Reconciles(id, ch) => ReconcileFits(good, w.store, id, now, ch);
      case FiresNow(id, ch) => FireJobFits(good, w.store, id, now, now, ch);
      case Finishes(run, finished, error) => RecordFits(good, w.store, FinishedRun(run, finished, error), now);
    }
  }

  // ----- every run -----

  lemma {:induction false} RunFits(good: Trait, run: seq<World>, moves: seq<Move>, nows: seq<Time>, k: nat)
    requires Inherited(good) && IsRun(run, moves, nows) && k < |run|
    ensures JobsFit(run[k].store.jobs, good)
    decreases k
  {
    if k > 0 {
      RunFits(good, run, moves, nows, k - 1);
      MoveFits(good, run[k - 1], moves[k - 1], nows[k - 1]);
    }
  }

  /** What every next occurrence of an expression has, every cursor has, in every run and whatever became of the submits. */
  lemma CursorsInherit(good: Trait, run: seq<World>, moves: seq<Move>, nows: seq<Time>, k: nat, id: string)
    requires Inherited(good) && IsRun(run, moves, nows) && k < |run| && id in run[k].store.jobs
    ensures good(run[k].store.jobs[id].cronExpr, run[k].store.jobs[id].nextRun)
  {
    RunFits(good, run, moves, nows, k);
  }

  /** A whole minute that the expression matches. */
  predicate OnCron(expr: string, t: Time) {
    && ParseFields(Fields(expr)).Some? && t % MINUTE == 0
    && Matches(ParseFields(Fields(expr)).value, t / MINUTE)
  }

  lemma NextIsOnCron(expr: string, now: Time, t: Time)
    requires NextRun(expr, now) == Some(t)
    ensures OnCron(expr, t)
  {
    NextRunIff(expr, now, t);
  }

  /** So every cursor is at all times a minute that its job's expression matches. */
  lemma CursorsOnCron(run: seq<World>, moves: seq<Move>, nows: seq<Time>, k: nat, id: string)
    requires IsRun(run, moves, nows) && k < |run| && id in run[k].store.jobs
    ensures OnCron(run[k].store.jobs[id].cronExpr, run[k].store.jobs[id].nextRun)
  {
    var good: Trait := (expr, t) => OnCron(expr, t);
    forall expr, now, t | NextRun(expr, now) == Some(t) ensures good(expr, t) {
      NextIsOnCron(expr, now, t);
    }
    CursorsInherit(good, run, moves, nows, k, id);
  }

  /** Until it is created again or deleted, a job stays in the store as it is, but for its cursor and its last run. */
  lemma {:induction false} JobStays(run: seq<World>, moves: seq<Move>, nows: seq<Time>, i: nat, k: nat, id: string)
    requires IsRun(run, moves, nows) && i <= k < |run| && id in run[i].store.jobs
    requires forall x :: i <= x < k ==> !(moves[x].Creates? && moves[x].job.id == id) && moves[x] != Deletes(id)
    ensures id in run[k].store.jobs && SameJob(run[i].store.jobs[id], run[k].store.jobs[id])
    decreases k
  {
    if i < k {
      JobStays(run, moves, nows, i, k - 1, id);
      var any: Trait := (expr, t) => true;
      RunFits(any, run, moves, nows, k - 1);
      OtherJobStays(any, run[k - 1], moves[k - 1], nows[k - 1], id);
    }
  }

  lemma OtherJobStays(good: Trait, w: World, mv: Move, now: Time, id: string)
    requires Inherited(good) && JobsFit(w.store.jobs, good) && Can(w, mv, now) && id in w.store.jobs
    requires !(mv.Creates? && mv.job.id == id) && mv != Deletes(id)
    ensures id in Do(w, mv, now).store.jobs && SameJob(w.store.jobs[id], Do(w, mv, now).store.jobs[id])
  {
    match mv {
      case Creates(job) => PutEffect(w.store, CreateJob(job), now);
      case Deletes(d) => DeleteEffect(w.store, d, now);
      case _ => MoveFits(good, w, mv, now);
    }
  }

  // ----- one fire, whatever becomes of its submits -----

  lemma NextRunParses(expr: string, now: Time)
    requires now >= 0
    ensures NextRun(expr, now).Some? <==> ParseFields(Fields(expr)).Some?
  {
    if ParseFields(Fields(expr)).Some? {
      NextRunOk(expr, now);
    }
  }

  /** No run has the key of this job and minute. */
  predicate KeyFree(runs: seq<JobRun>, id: string, minute: int) {
    forall i :: 0 <= i < |runs| ==> runs[i].idempotencyKey != RunKey(id, minute)
  }

  /** The fire gets as far as its submits. */
  predicate Submits(s: StoreState, j: Job, at: Time) {
    KeyFree(s.runs, j.id, at / MINUTE) && ParseFields(Fields(j.cronExpr)).Some?
  }

  /** The job's cursor is the first minute after now that its expression matches. */
  ghost predicate CursorMoved(s: StoreState, j: Job, now: Time) {
    && ParseFields(Fields(j.cronExpr)).Some? && j.id in s.jobs
    && FirstAfter(ParseFields(Fields(j.cronExpr)).value, now, s.jobs[j.id].nextRun)
  }

  lemma UpdateMoves(s: StoreState, j: Job, now: Time, ch: Chance)
    requires now >= 0 && ParseFields(Fields(j.cronExpr)).Some?
    ensures NextRun(j.cronExpr, now).Some?
    ensures var s' := Apply(s, UpdateJob(Moved(j, NextRun(j.cronExpr, now).value, ch)), now);
            CursorMoved(s', j, now) && s'.runs == s.runs
  {
    NextRunParses(j.cronExpr, now);
    NextRunIff(j.cronExpr, now, NextRun(j.cronExpr, now).value);
    PutEffect(s, UpdateJob(Moved(j, NextRun(j.cronExpr, now).value, ch)), now);
  }

  lemma RecordAdds(s: StoreState, j: Job, r: JobRun, now: Time)
    requires CursorMoved(s, j, now) && r.idempotencyKey != "" && !AlreadyFired(s, r.idempotencyKey)
    ensures CursorMoved(Apply(s, RecordRun(r), now), j, now) && HasRun(Apply(s, RecordRun(r), now).runs, r)
  {
    RecordLeavesCursor(s, r, now, j.id);
    NewRunKept(s, r, now);
  }

  lemma FireStopped(s: StoreState, j: Job, at: Time, now: Time, ch: Chance)
    requires now >= 0 && !Submits(s, j, at)
    ensures FireJob(s, j, at, now, ch) == Fired(s, None)
  {
    NextRunParses(j.cronExpr, now);
    if !KeyFree(s.runs, j.id, at / MINUTE) {
      assert AlreadyFired(s, RunKey(j.id, at / MINUTE));
    }
  }

  lemma FireSteps(s: StoreState, j: Job, at: Time, now: Time, ch: Chance)
    requires now >= 0 && Submits(s, j, at)
    ensures NextRun(j.cronExpr, now).Some?
    ensures var f, r := FireJob(s, j, at, now, ch), NewRun(j, RunKey(j.id, at / MINUTE), ch);
            var s1 := Apply(s, UpdateJob(Moved(j, NextRun(j.cronExpr, now).value, ch)), now);
            f == if ch.update == Lost then Fired(s, None)
                 else if ch.update == CommittedUnseen then Fired(s1, None)
                 else Launch(s1, r, now, ch)
  {
    NextRunParses(j.cronExpr, now);
    assert !AlreadyFired(s, RunKey(j.id, at / MINUTE));
  }

  /** What a fire leaves, whatever became of its submits. */
  ghost predicate FireLeaves(s: StoreState, f: Fired, j: Job, at: Time, now: Time, ch: Chance) {
    && (f.run.Some? <==> Submits(s, j, at) && ch.update == Committed && ch.record == Committed)
    && (f.run.Some? ==> StartedRun(f.run.value, j, at / MINUTE, ch))
    && (if !Submits(s, j, at) || ch.update == Lost then f.store == s else CursorMoved(f.store, j, now))
    && (if Submits(s, j, at) && ch.update == Committed && ch.record != Lost
        then exists r :: StartedRun(r, j, at / MINUTE, ch) && HasRun(f.store.runs, r)
        else f.store.runs == s.runs)
  }

  lemma LaunchLeaves(s: StoreState, s1: StoreState, j: Job, at: Time, now: Time, ch: Chance)
    requires Submits(s, j, at) && s1.runs == s.runs && CursorMoved(s1, j, now) && ch.update == Committed
    ensures FireLeaves(s, Launch(s1, NewRun(j, RunKey(j.id, at / MINUTE), ch), now, ch), j, at, now, ch)
  {
    var r := NewRun(j, RunKey(j.id, at / MINUTE), ch);
    assert !AlreadyFired(s1, r.idempotencyKey);
    RecordAdds(s1, j, r, now);
    assert StartedRun(r, j, at / MINUTE, ch);
  }

  /**
    * A fire dispatches exactly when its key is free, its expression parses, and both submits are
    * committed and reported. Its cursor moves when the update is committed, reported or not; its run
    * is recorded only after a reported update, and when the record is committed, reported or not.
    */
  lemma FireDecides(s: StoreState, j: Job, at: Time, now: Time, ch: Chance)
    requires now >= 0
    ensures FireLeaves(s, FireJob(s, j, at, now, ch), j, at, now, ch)
  {
    if Submits(s, j, at) {
      UpdateMoves(s, j, now, ch);
      FireSteps(s, j, at, now, ch);
      if ch.update == Committed {
        LaunchLeaves(s, Apply(s, UpdateJob(Moved(j, NextRun(j.cronExpr, now).value, ch)), now), j, at, now, ch);
      }
    } else {
      FireStopped(s, j, at, now, ch);
    }
  }

  // ----- the end of a run -----

  /** The run with its end: whole milliseconds, rounded toward zero, and how it went. */
  predicate Ended(r: JobRun, run: JobRun, finished: Time, error: Option<string>) {
    var d := finished - run.startedAt;
    && r.id == run.id && r.jobId == run.jobId && r.jobName == run.jobName && r.startedAt == run.startedAt
    && r.idempotencyKey == run.idempotencyKey && r.exitCode == run.exitCode && r.output == run.output
    && r.finishedAt == Some(finished)
    && (d >= 0 ==> 0 <= d - r.durationMs * 1_000_000 < 1_000_000)
    && (d < 0 ==> -1_000_000 < d - r.durationMs * 1_000_000 <= 0)
    && match error
       case Some(text) => r.status == "failed" && r.errorMessage == text
       case None => r.status == "success" && r.errorMessage == run.errorMessage
  }

  /** When a run ends, its end is recorded under its key, and its job's last status is the outcome. */
  lemma FinishRecorded(w: World, run: JobRun, finished: Time, error: Option<string>, now: Time) returns (r: JobRun, p: nat)
    requires Can(w, Finishes(run, finished, error), now)
    ensures var w' := Do(w, Finishes(run, finished, error), now);
            && Ended(r, run, finished, error) && RecordedAt(w.store.runs, r, w'.store.runs, p)
            && w'.running == w.running - {run} && w'.fired == w.fired
            && (run.jobId in w.store.jobs ==>
                  run.jobId in w'.store.jobs && w'.store.jobs[run.jobId].lastStatus == (if error.Some? then "failed" else "success"))
  {
    r := FinishedRun(run, finished, error);
    p := RecordEffect(w.store, r, now);
  }
}
