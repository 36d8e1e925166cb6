/** The scheduler as the code runs it: loops over the job list, submitting to the store between steps. */
module SchedulerServer {
  import opened StoreTypes
  import opened StoreServer
  import opened Cron
  import opened CronText
  import opened RunKeys
  import opened P = Scheduler
  import S = Store

  class SchedulerLoop {
    const st: Store

    constructor (st: Store)
      ensures this.st == st
    {
      this.st := st;
    }

    /** One submit; what becomes of it is decided elsewhere. */
    method Submit(cmd: Command, fate: Submitted, now: Time) returns (ok: bool)
      modifies st`jobs, st`runs
      ensures st.View().state == SubmitTo(old(st.View().state), cmd, fate, now)
      ensures ok == (fate == Committed)
    {
      if fate != Lost {
        st.ApplyCommand(cmd, now);
      }
      return fate == Committed;
    }

    static method NextRun(expr: string, now: Time) returns (next: Option<Time>)
      ensures next == P.NextRun(expr, now)
    {
      var e := Parse(expr);
      if e.None? {
        return None;
      }
      var t := Next(e.value, now);
      if t == ZERO_TIME {
        return None;
      }
      return Some(t);
    }

    /** Up to the call of the executor; the run it is called with, if it is. */
    method FireJob(job: Job, scheduledTime: Time, now: Time, ch: Chance) returns (run: Option<JobRun>)
      modifies st`jobs, st`runs
      ensures Fired(st.View().state, run) == P.FireJob(old(st.View().state), job, scheduledTime, now, ch)
    {
      var key := RunKey(job.id, MinuteAt(scheduledTime));
      var already := st.AlreadyFired(key);
      if already {
        return None;
      }
      var next := NextRun(job.cronExpr, now);
      if next.None? {
        return None;
      }
      var j := job;
      j := j.(nextRun := next.value);
      j := j.(updatedAt := ch.started);
      var ok := Submit(UpdateJob(j), ch.update, now);
      if !ok {
        return None;
      }
      var r := JobRun(ch.runId, j.id, j.name, ch.started, None, "running", "", 0, key, 0, "");
      ok := Submit(RecordRun(r), ch.record, now);
      if !ok {
        return None;
      }
      return Some(r);
    }

    /** After the executor's return. */
    method Finish(r: JobRun, finished: Time, error: Option<string>, fate: Submitted, now: Time)
      modifies st`jobs, st`runs
      ensures st.View().state == SubmitTo(old(st.View().state), RecordRun(FinishedRun(r, finished, error)), fate, now)
    {
      var run := r;
      run := run.(finishedAt := Some(finished));
      run := run.(durationMs := Milliseconds(finished - run.startedAt));
      if error.Some? {
        run := run.(status := "failed", errorMessage := error.value);
      } else {
        run := run.(status := "success");
      }
      var ok := Submit(RecordRun(run), fate, now);
    }

    /** The body of tick's loop. */
    method TickJob(j: Job, now: Time, ch: Chance) returns (run: Option<JobRun>)
      modifies st`jobs, st`runs
      ensures Fired(st.View().state, run) == P.TickJob(old(st.View().state), j, now, ch)
    {
      if !j.enabled || j.nextRun == ZERO_TIME || j.nextRun > now {
        return None;
      }
      run := FireJob(j, j.nextRun, now, ch);
    }

    method Tick(now: Time, luck: string -> Chance) returns (ghost js: seq<Job>, runs: seq<JobRun>)
      modifies st`jobs, st`runs
      ensures (forall id :: id in old(st.jobs) ==> old(st.jobs)[id].id == id) ==> S.Listing(old(st.jobs), js)
      ensures (st.View().state, runs) == PassAll(Pass.Tick, old(st.View().state), js, now, luck)
    {
      var jobs := st.ListJobs();
      js := jobs;
      runs := [];
      for i := 0 to |jobs|
        invariant (st.View().state, runs) == PassAll(Pass.Tick, old(st.View().state), jobs[..i], now, luck)
      {
        PassAllMore(Pass.Tick, old(st.View().state), jobs, i, now, luck);
        var run := TickJob(jobs[i], now, luck(jobs[i].id));
        if run.Some? {
          runs := runs + [run.value];
        }
      }
      assert jobs[..|jobs|] == jobs;
    }

    /** The body of ReconcileMissedJobs' loop. */
    method ReconcileJob(j: Job, now: Time, ch: Chance) returns (run: Option<JobRun>)
      modifies st`jobs, st`runs
      ensures Fired(st.View().state, run) == P.ReconcileJob(old(st.View().state), j, now, ch)
    {
      run := None;
      if j.nextRun == ZERO_TIME || j.nextRun >= now {
        return;
      }
      if j.catchupPolicy == "skip" {
        AdvanceNextRun(j, now, ch);
      } else if j.catchupPolicy == "run_once" {
        run := FireJob(j, j.nextRun, now, ch);
      }
    }

    method ReconcileMissedJobs(now: Time, luck: string -> Chance) returns (ghost js: seq<Job>, runs: seq<JobRun>)
      modifies st`jobs, st`runs
      ensures (forall id :: id in old(st.jobs) ==> old(st.jobs)[id].id == id) ==> S.Listing(old(st.jobs), js)
      ensures (st.View().state, runs) == PassAll(Pass.Reconcile, old(st.View().state), js, now, luck)
    {
      var jobs := st.ListJobs();
      js := jobs;
      runs := [];
      for i := 0 to |jobs|
        invariant (st.View().state, runs) == PassAll(Pass.Reconcile, old(st.View().state), jobs[..i], now, luck)
      {
        PassAllMore(Pass.Reconcile, old(st.View().state), jobs, i, now, luck);
        var run := ReconcileJob(jobs[i], now, luck(jobs[i].id));
        if run.Some? {
          runs := runs + [run.value];
        }
      }
      assert jobs[..|jobs|] == jobs;
    }

    method AdvanceNextRun(job: Job, now: Time, ch: Chance)
      modifies st`jobs, st`runs
      ensures st.View().state == P.AdvanceNextRun(old(st.View().state), job, now, ch)
    {
      var next := NextRun(job.cronExpr, now);
      if next.None? {
        return;
      }
      var j := job.(nextRun := next.value);
      j := j.(updatedAt := ch.started);
      var ok := Submit(UpdateJob(j), ch.update, now);
    }

    /** A manual trigger; None for an unknown job. */
    method FireNow(jobId: string, now: Time, ch: Chance) returns (found: bool, run: Option<JobRun>)
      modifies st`jobs, st`runs
      ensures found == (jobId in old(st.jobs))
      ensures Fired(st.View().state, run)
           == if found then P.FireJob(old(st.View().state), old(st.jobs)[jobId], now, now, ch)
              else Fired(old(st.View().state), None)
    {
      if jobId !in st.jobs {
        return false, None;
      }
      run := FireJob(st.jobs[jobId], now, now, ch);
      found := true;
    }
  }
}
