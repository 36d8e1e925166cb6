/**
  * The firing protocol over the replicated store. Each fire is one step; what happens to its two
  * submits is a parameter, and so are the clock and the order of map iteration.
  */
module Scheduler {
  import opened StoreTypes
  import opened S = Store
  import opened Cron
  import opened CronText
  import opened RunKeys

  // ----- what the code computes -----

  /** What became of a submit: committed; lost; or committed although the caller got an error. */
  datatype Submitted = Committed | Lost | CommittedUnseen

  /** What a fire meets: its submits' fates, its clock reading, and the random id it draws. */
  datatype Chance = Chance(update: Submitted, record: Submitted, started: Time, runId: string)

  function SubmitTo(s: StoreState, cmd: Command, fate: Submitted, now: Time): StoreState {
    if fate == Lost then s else Apply(s, cmd, now)
  }

  /** The next occurrence after now; None for an expression that does not parse, or without one. */
  function NextRun(expr: string, now: Time): Option<Time> {
    match ParseFields(Fields(expr))
    case None => None
    case Some(e) =>
      match NextAfter(e, now)
      case Some(m) => if m * MINUTE == ZERO_TIME then None else Some(m * MINUTE)
      case None => None
  }

  function MinuteAt(t: Time): int { t / MINUTE }

  function NewRun(j: Job, key: string, ch: Chance): JobRun {
    JobRun(ch.runId, j.id, j.name, ch.started, None, "running", "", 0, key, 0, "")
  }

  /** The job with its cursor moved on. */
  function Moved(j: Job, next: Time, ch: Chance): Job {
    j.(nextRun := next, updatedAt := ch.started)
  }

  /** What a fire leaves: the store, and the run it dispatched, if it did. */
  datatype Fired = Fired(store: StoreState, run: Option<JobRun>)

  /** The cursor has moved: record the run, and dispatch it if that is known to have worked. */
  function Launch(s: StoreState, run: JobRun, now: Time, ch: Chance): Fired {
    Fired(SubmitTo(s, RecordRun(run), ch.record, now), if ch.record == Committed then Some(run) else None)
  }

  /** A fire that looked for its key in `checked` and submits to s. */
  function FireAfterCheck(checked: StoreState, s: StoreState, j: Job, key: string, next: Option<Time>,
                          now: Time, ch: Chance): Fired {
    if AlreadyFired(checked, key) || next.None? then Fired(s, None)
    else
      var s1 := SubmitTo(s, UpdateJob(Moved(j, next.value, ch)), ch.update, now);
      if ch.update != Committed then Fired(s1, None) else Launch(s1, NewRun(j, key, ch), now, ch)
  }

  /** A fire in one step, its key and next occurrence known. */
  function FireWith(s: StoreState, j: Job, key: string, next: Option<Time>, now: Time, ch: Chance): Fired {
    FireAfterCheck(s, s, j, key, next, now, ch)
  }

  /** fireJob up to the executor's start. */
  function FireJob(s: StoreState, j: Job, scheduledTime: Time, now: Time, ch: Chance): Fired {
    FireWith(s, j, RunKey(j.id, MinuteAt(scheduledTime)), NextRun(j.cronExpr, now), now, ch)
  }

  /** time.Duration.Milliseconds: rounds toward zero. */
  function Milliseconds(d: int): int {
    if d >= 0 then d / 1_000_000 else -(-d / 1_000_000)
  }

  /** fireJob after the executor's end. */
  function FinishedRun(run: JobRun, finished: Time, error: Option<string>): JobRun {
    run.(finishedAt := Some(finished), durationMs := Milliseconds(finished - run.startedAt),
         status := if error.Some? then "failed" else "success",
         errorMessage := match error case Some(e) => e case None => run.errorMessage)
  }

  predicate Due(j: Job, now: Time) {
    j.enabled && j.nextRun != ZERO_TIME && j.nextRun <= now
  }

  /** tick, for one job of its list. */
  function TickJob(s: StoreState, j: Job, now: Time, ch: Chance): Fired {
    if Due(j, now) then FireJob(s, j, j.nextRun, now, ch) else Fired(s, None)
  }

  predicate Missed(j: Job, now: Time) {
    j.nextRun != ZERO_TIME && j.nextRun < now
  }

  function AdvanceNextRun(s: StoreState, j: Job, now: Time, ch: Chance): StoreState {
    match NextRun(j.cronExpr, now)
    case None => s
    case Some(next) => SubmitTo(s, UpdateJob(Moved(j, next, ch)), ch.update, now)
  }

  /** ReconcileMissedJobs, for one job of its list. */
  function ReconcileJob(s: StoreState, j: Job, now: Time, ch: Chance): Fired {
    if !Missed(j, now) then Fired(s, None)
    else if j.catchupPolicy == "skip" then Fired(AdvanceNextRun(s, j, now, ch), None)
    else if j.catchupPolicy == "run_once" then FireJob(s, j, j.nextRun, now, ch)
    else Fired(s, None)
  }

  // ----- the world the schedulers of all leaders act on -----

  /** One dispatch to the executor; `scheduled` is false for a manual trigger. */
  datatype Firing = Firing(jobId: string, minute: int, scheduled: bool)

  /** The store, the latest clock reading, every dispatch so far, and the runs not yet finished. */
  datatype World = World(store: StoreState, clock: Time, fired: seq<Firing>, running: set<JobRun>)

  datatype Move =
    | Creates(job: Job)
    | Deletes(id: string)
    | Ticks(id: string, ch: Chance)
    | Reconciles(id: string, ch: Chance)
    | FiresNow(id: string, ch: Chance)
    | Finishes(run: JobRun, finished: Time, error: Option<string>)

  const START := World(EMPTY, 0, [], {})

  /** Later clock readings are no earlier, and stay where the next minute can still be encoded. */
  predicate Timely(w: World, now: Time) {
    w.clock <= now && MinuteAt(now) + 375 * DAY <= LAST_MINUTE
  }

  predicate Can(w: World, mv: Move, now: Time) {
    Timely(w, now) &&
    match mv
    case Creates(job) => NextRun(job.cronExpr, now) == Some(job.nextRun)
    case Finishes(run, _, _) => run in w.running
    case Deletes(_) => true
    case Ticks(id, _) => id in w.store.jobs
    case Reconciles(id, _) => id in w.store.jobs
    case FiresNow(id, _) => id in w.store.jobs
  }

  /** The world after a fire of job id for this minute. */
  function AfterFire(w: World, f: Fired, id: string, minute: int, scheduled: bool, now: Time): World {
    match f.run
    case None => World(f.store, now, w.fired, w.running)
    case Some(run) => World(f.store, now, w.fired + [Firing(id, minute, scheduled)], w.running + {run})
  }

  function Do(w: World, mv: Move, now: Time): World
    requires Can(w, mv, now)
  {
    match mv
    case Creates(job) => w.(store := Apply(w.store, CreateJob(job), now), clock := now)
    case Deletes(id) => w.(store := Apply(w.store, DeleteJob(id), now), clock := now)
    case Ticks(id, ch) =>
      var j := w.store.jobs[id];
      AfterFire(w, TickJob(w.store, j, now, ch), id, MinuteAt(j.nextRun), true, now)
    case Reconciles(id, ch) =>
      var j := w.store.jobs[id];
      AfterFire(w, ReconcileJob(w.store, j, now, ch), id, MinuteAt(j.nextRun), true, now)
    case FiresNow(id, ch) =>
      AfterFire(w, FireJob(w.store, w.store.jobs[id], now, now, ch), id, MinuteAt(now), false, now)
    case Finishes(run, finished, error) =>
      World(Apply(w.store, RecordRun(FinishedRun(run, finished, error)), now), now, w.fired, w.running - {run})
  }

  // ----- the cursor invariant -----

  /** Minute m has come, and the schedule cursor of this job is past it. */
  predicate Behind(jobs: map<string, Job>, jobId: string, m: int, clock: Time) {
    0 <= m <= MinuteAt(clock) && (jobId in jobs ==> m * MINUTE < jobs[jobId].nextRun)
  }

  /** A run record, kept or still to be written, is stamped with a minute behind the cursor of its job. */
  ghost predicate RunBehind(jobs: map<string, Job>, r: JobRun, clock: Time) {
    exists m :: r.idempotencyKey == RunKey(r.jobId, m) && Behind(jobs, r.jobId, m, clock)
  }

  /** The job's expression parses, and its cursor is a whole minute that can be encoded. */
  predicate JobOk(j: Job, id: string, clock: Time) {
    && j.id == id && ParseFields(Fields(j.cronExpr)).Some?
    && 0 < j.nextRun && j.nextRun % MINUTE == 0 && MinuteAt(j.nextRun) <= MinuteAt(clock) + 375 * DAY
  }

  ghost predicate JobsOk(jobs: map<string, Job>, clock: Time) {
    forall id {:trigger id in jobs} :: id in jobs ==> JobOk(jobs[id], id, clock)
  }

  ghost predicate RunsBehind(jobs: map<string, Job>, runs: seq<JobRun>, clock: Time) {
    forall i {:trigger runs[i]} :: 0 <= i < |runs| ==> RunBehind(jobs, runs[i], clock)
  }

  ghost predicate StoreOk(s: StoreState, clock: Time) {
    0 <= clock && MinuteAt(clock) + 375 * DAY <= LAST_MINUTE && JobsOk(s.jobs, clock) && RunsBehind(s.jobs, s.runs, clock)
  }

  ghost predicate FiringsBehind(w: World) {
    forall i {:trigger w.fired[i]} :: 0 <= i < |w.fired| ==>
      Behind(w.store.jobs, w.fired[i].jobId, w.fired[i].minute, w.clock)
  }

  /** A scheduled dispatch never repeats an earlier dispatch of its job and minute. */
  predicate ScheduledOnce(fired: seq<Firing>) {
    forall i, k :: 0 <= i < k < |fired| && fired[k].scheduled ==>
      fired[i].jobId != fired[k].jobId || fired[i].minute != fired[k].minute
  }

  ghost predicate Inv(w: World) {
    && StoreOk(w.store, w.clock) && FiringsBehind(w) && ScheduledOnce(w.fired)
    && forall r {:trigger r in w.running} :: r in w.running ==> RunBehind(w.store.jobs, r, w.clock)
  }

  // ----- cursors only move past the present -----

  /** Every job keeps its cursor, or has one after now. */
  ghost predicate CursorsMove(jobs: map<string, Job>, jobs': map<string, Job>, now: Time) {
    forall id {:trigger id in jobs'} :: id in jobs' ==>
      (id in jobs && jobs'[id].nextRun == jobs[id].nextRun) || jobs'[id].nextRun > now
  }

  lemma BehindKept(jobs: map<string, Job>, jobs': map<string, Job>, id: string, m: int, clock: Time, now: Time)
    requires CursorsMove(jobs, jobs', now) && clock <= now && Behind(jobs, id, m, clock)
    ensures Behind(jobs', id, m, now)
  {
    assert m * MINUTE <= MinuteAt(now) * MINUTE <= now;
    if id in jobs' {
    }
  }

  lemma RunBehindKept(jobs: map<string, Job>, jobs': map<string, Job>, r: JobRun, clock: Time, now: Time)
    requires CursorsMove(jobs, jobs', now) && clock <= now && RunBehind(jobs, r, clock)
    ensures RunBehind(jobs', r, now)
  {
    var m :| r.idempotencyKey == RunKey(r.jobId, m) && Behind(jobs, r.jobId, m, clock);
    BehindKept(jobs, jobs', r.jobId, m, clock, now);
  }

  lemma RunsBehindKept(jobs: map<string, Job>, jobs': map<string, Job>, runs: seq<JobRun>, clock: Time, now: Time)
    requires CursorsMove(jobs, jobs', now) && clock <= now && RunsBehind(jobs, runs, clock)
    ensures RunsBehind(jobs', runs, now)
  {
    forall i | 0 <= i < |runs| ensures RunBehind(jobs', runs[i], now) {
      RunBehindKept(jobs, jobs', runs[i], clock, now);
    }
  }

  /** A next occurrence: a whole minute after now, and not too far. */
  predicate NextOk(next: Time, now: Time) {
    now < next && next % MINUTE == 0 && MinuteAt(next) <= MinuteAt(now) + 375 * DAY
  }

  lemma NextRunOk(expr: string, now: Time)
    requires ParseFields(Fields(expr)).Some? && 0 <= now
    ensures NextRun(expr, now).Some? && NextOk(NextRun(expr, now).value, now)
  {
    ParsedUsable(Fields(expr));
    var e := ParseFields(Fields(expr)).value;
    NextTotal(e, now);
    WholeMinute(NextAfter(e, now).value, now);
  }

  /**
    * The next occurrence is the first minute after now that the parsed expression matches; there
    * is none exactly when the expression does not parse, or that minute is the zero time.
    */
  lemma NextRunIff(expr: string, now: Time, t: Time)
    ensures NextRun(expr, now) == Some(t)
            <==> ParseFields(Fields(expr)).Some? && t != ZERO_TIME && FirstAfter(ParseFields(Fields(expr)).value, now, t)
  {
    if ParseFields(Fields(expr)).Some? {
      ParsedUsable(Fields(expr));
      NextIsFirst(ParseFields(Fields(expr)).value, now, t);
    }
  }

  lemma WholeMinute(v: int, now: Time)
    requires 0 <= now < v * MINUTE <= now + 374 * DAY * MINUTE
    ensures v * MINUTE != ZERO_TIME && NextOk(v * MINUTE, now)
  {
  }

  // ----- each command the scheduler submits keeps the store in order -----

  /** A command the API or a scheduler submits at this time. */
  ghost predicate Proper(s: StoreState, cmd: Command, now: Time) {
    match cmd
    case CreateJob(job) => JobOk(job, job.id, now) && job.nextRun > now
    case UpdateJob(job) => JobOk(job, job.id, now) && job.nextRun > now
    case DeleteJob(_) => true
    case RecordRun(run) => RunBehind(s.jobs, run, now)
    case Unknown => true
    case Malformed => true
  }

  lemma PutKeeps(s: StoreState, job: Job, clock: Time, now: Time)
    requires JobsOk(s.jobs, clock) && clock <= now && JobOk(job, job.id, now) && job.nextRun > now
    ensures JobsOk(PutJob(s, job, now).jobs, now) && CursorsMove(s.jobs, PutJob(s, job, now).jobs, now)
  {
  }

  lemma TouchKeeps(jobs: map<string, Job>, run: JobRun, clock: Time, now: Time)
    requires JobsOk(jobs, clock) && clock <= now
    ensures JobsOk(TouchJob(jobs, run, now), now) && CursorsMove(jobs, TouchJob(jobs, run, now), now)
  {
  }

  lemma SetBehind(jobs: map<string, Job>, runs: seq<JobRun>, p: nat, run: JobRun, now: Time)
    requires RunsBehind(jobs, runs, now) && p < |runs| && RunBehind(jobs, run, now)
    ensures RunsBehind(jobs, runs[p := run], now)
  {
    var runs' := runs[p := run];
    forall i | 0 <= i < |runs'| ensures RunBehind(jobs, runs'[i], now) {
      assert RunBehind(jobs, if i == p then run else runs[i], now);
    }
  }

  lemma AddBehind(jobs: map<string, Job>, runs: seq<JobRun>, run: JobRun, now: Time)
    requires RunsBehind(jobs, runs, now) && RunBehind(jobs, run, now)
    ensures RunsBehind(jobs, runs + [run], now) && RunsBehind(jobs, Trim(runs + [run]), now)
  {
    var all := runs + [run];
    forall i | 0 <= i < |all| ensures RunBehind(jobs, all[i], now) {
      assert RunBehind(jobs, if i < |runs| then runs[i] else run, now);
    }
    var d := |all| - |Trim(all)|;
    forall i | 0 <= i < |Trim(all)| ensures RunBehind(jobs, Trim(all)[i], now) {
      assert RunBehind(jobs, all[i + d], now);
    }
  }

  /** Merging keeps the new record's job and key. */
  lemma MergedBehind(jobs: map<string, Job>, existing: JobRun, run: JobRun, now: Time)
    requires RunBehind(jobs, run, now)
    ensures RunBehind(jobs, MergeRun(existing, run), now)
  {
    var m :| run.idempotencyKey == RunKey(run.jobId, m) && Behind(jobs, run.jobId, m, now);
    assert run.idempotencyKey != "";
  }

  lemma UpsertBehind(jobs: map<string, Job>, s: StoreState, run: JobRun, now: Time)
    requires RunsBehind(jobs, s.runs, now) && RunBehind(jobs, run, now)
    ensures RunsBehind(jobs, UpsertRun(s, run, now).runs, now)
  {
    var p := Find(s.runs, run.idempotencyKey);
    if p < |s.runs| {
      MergedBehind(jobs, s.runs[p], run, now);
      SetBehind(jobs, s.runs, p, MergeRun(s.runs[p], run), now);
    } else {
      AddBehind(jobs, s.runs, run, now);
    }
  }

  lemma WithoutBehind(jobs: map<string, Job>, runs: seq<JobRun>, id: string, now: Time)
    requires RunsBehind(jobs, runs, now)
    ensures RunsBehind(jobs, Without(runs, id), now)
  {
    var pos := WithoutIsFilter(runs, id);
    forall i | 0 <= i < |Without(runs, id)| ensures RunBehind(jobs, Without(runs, id)[i], now) {
      assert Without(runs, id)[i] == runs[pos[i]];
    }
  }

  lemma ProperJobs(s: StoreState, cmd: Command, clock: Time, now: Time)
    requires JobsOk(s.jobs, clock) && clock <= now && Proper(s, cmd, now)
    ensures JobsOk(Apply(s, cmd, now).jobs, now) && CursorsMove(s.jobs, Apply(s, cmd, now).jobs, now)
  {
    match cmd {
      case CreateJob(job) => PutKeeps(s, job, clock, now);
      case UpdateJob(job) => PutKeeps(s, job, clock, now);
      case DeleteJob(id) => assert JobsOk(s.jobs - {id}, now);
      case RecordRun(run) =>
        var p := Find(s.runs, run.idempotencyKey);
        TouchKeeps(s.jobs, if p < |s.runs| then MergeRun(s.runs[p], run) else run, clock, now);
      case _ => assert JobsOk(s.jobs, now);
    }
  }

  lemma ProperRuns(s: StoreState, cmd: Command, jobs': map<string, Job>, clock: Time, now: Time)
    requires RunsBehind(s.jobs, s.runs, clock) && clock <= now && Proper(s, cmd, now) && CursorsMove(s.jobs, jobs', now)
    ensures RunsBehind(jobs', Apply(s, cmd, now).runs, now)
  {
    RunsBehindKept(s.jobs, jobs', s.runs, clock, now);
    match cmd {
      case DeleteJob(id) => WithoutBehind(jobs', s.runs, id, now);
      case RecordRun(run) =>
        RunBehindKept(s.jobs, jobs', run, now, now);
        UpsertBehind(jobs', s, run, now);
      case _ =>
    }
  }

  lemma ProperKeeps(s: StoreState, cmd: Command, clock: Time, now: Time)
    requires StoreOk(s, clock) && clock <= now && MinuteAt(now) + 375 * DAY <= LAST_MINUTE && Proper(s, cmd, now)
    ensures StoreOk(Apply(s, cmd, now), now) && CursorsMove(s.jobs, Apply(s, cmd, now).jobs, now)
  {
    ProperJobs(s, cmd, clock, now);
    ProperRuns(s, cmd, Apply(s, cmd, now).jobs, clock, now);
  }

  lemma CursorsMoveTwice(a: map<string, Job>, b: map<string, Job>, c: map<string, Job>, now: Time)
    requires CursorsMove(a, b, now) && CursorsMove(b, c, now)
    ensures CursorsMove(a, c, now)
  {
    forall id | id in c ensures (id in a && c[id].nextRun == a[id].nextRun) || c[id].nextRun > now {
      assert id in b ==> (id in a && b[id].nextRun == a[id].nextRun) || b[id].nextRun > now;
    }
  }

  lemma NoChange(s: StoreState, clock: Time, now: Time)
    requires StoreOk(s, clock) && clock <= now && MinuteAt(now) + 375 * DAY <= LAST_MINUTE
    ensures StoreOk(s, now) && CursorsMove(s.jobs, s.jobs, now)
  {
    ProperKeeps(s, Unknown, clock, now);
  }

  lemma SubmitKeeps(s: StoreState, cmd: Command, fate: Submitted, clock: Time, now: Time)
    requires StoreOk(s, clock) && clock <= now && MinuteAt(now) + 375 * DAY <= LAST_MINUTE && Proper(s, cmd, now)
    ensures StoreOk(SubmitTo(s, cmd, fate, now), now) && CursorsMove(s.jobs, SubmitTo(s, cmd, fate, now).jobs, now)
  {
    ProperKeeps(s, cmd, clock, now);
    NoChange(s, clock, now);
  }

  /** Moving a job's cursor to its next occurrence. */
  lemma AdvanceKeeps(s: StoreState, j: Job, next: Time, clock: Time, now: Time, ch: Chance)
    requires StoreOk(s, clock) && clock <= now && MinuteAt(now) + 375 * DAY <= LAST_MINUTE
    requires JobOk(j, j.id, clock) && NextOk(next, now)
    ensures var s' := SubmitTo(s, UpdateJob(Moved(j, next, ch)), ch.update, now);
            && StoreOk(s', now) && CursorsMove(s.jobs, s'.jobs, now)
            && (ch.update != Lost ==> j.id in s'.jobs && s'.jobs[j.id].nextRun == next)
  {
    SubmitKeeps(s, UpdateJob(Moved(j, next, ch)), ch.update, clock, now);
  }

  lemma MinuteFloor(t: Time, now: Time)
    requires 0 <= t <= now
    ensures 0 <= MinuteAt(t) <= MinuteAt(now) && MinuteAt(t) * MINUTE <= t
  {
  }

  /** What a fire keeps; the run it dispatches is behind the cursor it has just moved. */
  ghost predicate FireOk(s: StoreState, f: Fired, jobId: string, m: int, now: Time) {
    && StoreOk(f.store, now) && CursorsMove(s.jobs, f.store.jobs, now)
    && (f.run.Some? ==> RunBehind(f.store.jobs, f.run.value, now) && Behind(f.store.jobs, jobId, m, now))
  }

  /** Recording a run of a job whose cursor is past the present. */
  lemma LaunchKeeps(s: StoreState, run: JobRun, m: int, now: Time, ch: Chance)
    requires StoreOk(s, now) && run.idempotencyKey == RunKey(run.jobId, m) && Behind(s.jobs, run.jobId, m, now)
    ensures FireOk(s, Launch(s, run, now, ch), run.jobId, m, now)
  {
    assert RunBehind(s.jobs, run, now);
    SubmitKeeps(s, RecordRun(run), ch.record, now, now);
    var s' := SubmitTo(s, RecordRun(run), ch.record, now);
    BehindKept(s.jobs, s'.jobs, run.jobId, m, now, now);
    RunBehindKept(s.jobs, s'.jobs, run, now, now);
  }

  lemma MovedLaunchKeeps(s: StoreState, s1: StoreState, run: JobRun, m: int, now: Time, ch: Chance)
    requires StoreOk(s1, now) && CursorsMove(s.jobs, s1.jobs, now)
    requires run.idempotencyKey == RunKey(run.jobId, m) && Behind(s1.jobs, run.jobId, m, now)
    ensures FireOk(s, Launch(s1, run, now, ch), run.jobId, m, now)
  {
    LaunchKeeps(s1, run, m, now, ch);
    CursorsMoveTwice(s.jobs, s1.jobs, Launch(s1, run, now, ch).store.jobs, now);
  }

  lemma FireWithKeeps(s: StoreState, j: Job, m: int, next: Time, clock: Time, now: Time, ch: Chance)
    requires StoreOk(s, clock) && clock <= now && MinuteAt(now) + 375 * DAY <= LAST_MINUTE
    requires JobOk(j, j.id, clock) && NextOk(next, now) && 0 <= m <= MinuteAt(now)
    ensures FireOk(s, FireWith(s, j, RunKey(j.id, m), Some(next), now, ch), j.id, m, now)
  {
    AdvanceKeeps(s, j, next, clock, now, ch);
    NoChange(s, clock, now);
    if ch.update == Committed {
      MinuteFloor(now, now);
      MovedLaunchKeeps(s, SubmitTo(s, UpdateJob(Moved(j, next, ch)), ch.update, now), NewRun(j, RunKey(j.id, m), ch), m, now, ch);
    }
  }

  lemma FireKeeps(s: StoreState, j: Job, scheduledTime: Time, clock: Time, now: Time, ch: Chance)
    requires StoreOk(s, clock) && clock <= now && MinuteAt(now) + 375 * DAY <= LAST_MINUTE && JobOk(j, j.id, clock)
    requires 0 <= scheduledTime <= now
    ensures FireOk(s, FireJob(s, j, scheduledTime, now, ch), j.id, MinuteAt(scheduledTime), now)
  {
    NextRunOk(j.cronExpr, now);
    MinuteFloor(scheduledTime, now);
    FireWithKeeps(s, j, MinuteAt(scheduledTime), NextRun(j.cronExpr, now).value, clock, now, ch);
  }

  lemma TickKeeps(s: StoreState, j: Job, clock: Time, now: Time, ch: Chance)
    requires StoreOk(s, clock) && clock <= now && MinuteAt(now) + 375 * DAY <= LAST_MINUTE && JobOk(j, j.id, clock)
    ensures FireOk(s, TickJob(s, j, now, ch), j.id, MinuteAt(j.nextRun), now)
  {
    NoChange(s, clock, now);
    if Due(j, now) {
      FireKeeps(s, j, j.nextRun, clock, now, ch);
    }
  }

  lemma ReconcileKeeps(s: StoreState, j: Job, clock: Time, now: Time, ch: Chance)
    requires StoreOk(s, clock) && clock <= now && MinuteAt(now) + 375 * DAY <= LAST_MINUTE && JobOk(j, j.id, clock)
    ensures FireOk(s, ReconcileJob(s, j, now, ch), j.id, MinuteAt(j.nextRun), now)
  {
    NoChange(s, clock, now);
    if Missed(j, now) {
      if j.catchupPolicy == "skip" {
        NextRunOk(j.cronExpr, now);
        AdvanceKeeps(s, j, NextRun(j.cronExpr, now).value, clock, now, ch);
      } else if j.catchupPolicy == "run_once" {
        FireKeeps(s, j, j.nextRun, clock, now, ch);
      }
    }
  }

  // ----- the invariant over moves -----

  lemma HistoryKept(w: World, store': StoreState, now: Time)
    requires Inv(w) && w.clock <= now && StoreOk(store', now) && CursorsMove(w.store.jobs, store'.jobs, now)
    ensures Inv(w.(store := store', clock := now))
  {
    var w' := w.(store := store', clock := now);
    forall i | 0 <= i < |w'.fired| ensures Behind(w'.store.jobs, w'.fired[i].jobId, w'.fired[i].minute, now) {
      BehindKept(w.store.jobs, store'.jobs, w.fired[i].jobId, w.fired[i].minute, w.clock, now);
    }
    forall r | r in w'.running ensures RunBehind(store'.jobs, r, now) {
      RunBehindKept(w.store.jobs, store'.jobs, r, w.clock, now);
    }
  }

  /** The minute of a dispatch is new for its job: everything dispatched so far is behind the cursor it had. */
  predicate NewMinute(fired: seq<Firing>, id: string, m: int) {
    forall i :: 0 <= i < |fired| && fired[i].jobId == id ==> fired[i].minute != m
  }

  lemma CursorIsNew(w: World, id: string)
    requires Inv(w) && id in w.store.jobs
    ensures NewMinute(w.fired, id, MinuteAt(w.store.jobs[id].nextRun))
  {
    assert JobOk(w.store.jobs[id], id, w.clock);
    forall i | 0 <= i < |w.fired| && w.fired[i].jobId == id
      ensures w.fired[i].minute != MinuteAt(w.store.jobs[id].nextRun)
    {
      assert Behind(w.store.jobs, w.fired[i].jobId, w.fired[i].minute, w.clock);
    }
  }

  lemma OnceMore(fired: seq<Firing>, f: Firing)
    requires ScheduledOnce(fired) && (f.scheduled ==> NewMinute(fired, f.jobId, f.minute))
    ensures ScheduledOnce(fired + [f])
  {
  }

  /** One more dispatch, stamped with a minute behind its job's cursor, keeps the invariant. */
  lemma DispatchKeeps(w: World, run: JobRun, id: string, m: int, scheduled: bool)
    requires Inv(w) && RunBehind(w.store.jobs, run, w.clock) && Behind(w.store.jobs, id, m, w.clock)
    requires scheduled ==> NewMinute(w.fired, id, m)
    ensures Inv(w.(fired := w.fired + [Firing(id, m, scheduled)], running := w.running + {run}))
  {
    var fired' := w.fired + [Firing(id, m, scheduled)];
    OnceMore(w.fired, Firing(id, m, scheduled));
    forall i | 0 <= i < |fired'| ensures Behind(w.store.jobs, fired'[i].jobId, fired'[i].minute, w.clock) {
      assert i < |w.fired| ==> fired'[i] == w.fired[i];
    }
  }

  lemma FiredKeeps(w: World, f: Fired, id: string, m: int, scheduled: bool, now: Time)
    requires Inv(w) && w.clock <= now && FireOk(w.store, f, id, m, now)
    requires scheduled ==> NewMinute(w.fired, id, m)
    ensures Inv(AfterFire(w, f, id, m, scheduled, now))
  {
    HistoryKept(w, f.store, now);
    if f.run.Some? {
      DispatchKeeps(w.(store := f.store, clock := now), f.run.value, id, m, scheduled);
    }
  }

  lemma FinishedBehind(jobs: map<string, Job>, run: JobRun, finished: Time, error: Option<string>, clock: Time, now: Time)
    requires RunBehind(jobs, run, clock) && clock <= now
    ensures RunBehind(jobs, FinishedRun(run, finished, error), now)
  {
    var m :| run.idempotencyKey == RunKey(run.jobId, m) && Behind(jobs, run.jobId, m, clock);
    MinuteFloor(0, now);
    assert Behind(jobs, run.jobId, m, now);
  }

  lemma RunningBehind(w: World, run: JobRun, finished: Time, error: Option<string>, now: Time)
    requires Inv(w) && w.clock <= now && run in w.running
    ensures RunBehind(w.store.jobs, FinishedRun(run, finished, error), now)
  {
    FinishedBehind(w.store.jobs, run, finished, error, w.clock, now);
  }

  lemma RecordedKeeps(w: World, run: JobRun, now: Time)
    requires Inv(w) && Timely(w, now) && RunBehind(w.store.jobs, run, now)
    ensures Inv(w.(store := Apply(w.store, RecordRun(run), now), clock := now))
  {
    ProperKeeps(w.store, RecordRun(run), w.clock, now);
    HistoryKept(w, Apply(w.store, RecordRun(run), now), now);
  }

  lemma FewerRunning(w: World, run: JobRun)
    requires Inv(w)
    ensures Inv(w.(running := w.running - {run}))
  {
  }

  lemma MoveKeeps(w: World, mv: Move, now: Time)
    requires Inv(w) && Can(w, mv, now)
    ensures Inv(Do(w, mv, now))
  {
    match mv {
      case Creates(job) =>
        NextRunOk(job.cronExpr, now);
        ProperKeeps(w.store, CreateJob(job), w.clock, now);
        HistoryKept(w, Apply(w.store, CreateJob(job), now), now);
      case Deletes(id) =>
        ProperKeeps(w.store, DeleteJob(id), w.clock, now);
        HistoryKept(w, Apply(w.store, DeleteJob(id), now), now);
      case Ticks(id, ch) =>
        var j := w.store.jobs[id];
        TickKeeps(w.store, j, w.clock, now, ch);
        CursorIsNew(w, id);
        FiredKeeps(w, TickJob(w.store, j, now, ch), id, MinuteAt(j.nextRun), true, now);
      case Reconciles(id, ch) =>
        var j := w.store.jobs[id];
        ReconcileKeeps(w.store, j, w.clock, now, ch);
        CursorIsNew(w, id);
        FiredKeeps(w, ReconcileJob(w.store, j, now, ch), id, MinuteAt(j.nextRun), true, now);
      case FiresNow(id, ch) =>
        FireKeeps(w.store, w.store.jobs[id], now, w.clock, now, ch);
        FiredKeeps(w, FireJob(w.store, w.store.jobs[id], now, now, ch), id, MinuteAt(now), false, now);
      case Finishes(run, finished, error) =>
        RunningBehind(w, run, finished, error, now);
        RecordedKeeps(w, FinishedRun(run, finished, error), now);
        FewerRunning(w.(store := Apply(w.store, RecordRun(FinishedRun(run, finished, error)), now), clock := now), run);
    }
  }

  ghost predicate IsRun(run: seq<World>, moves: seq<Move>, nows: seq<Time>) {
    && |run| == |moves| + 1 == |nows| + 1 && run[0] == START
    && forall k :: 0 <= k < |moves| ==> Can(run[k], moves[k], nows[k]) && run[k + 1] == Do(run[k], moves[k], nows[k])
  }

  lemma {:induction false} RunInv(run: seq<World>, moves: seq<Move>, nows: seq<Time>, k: nat)
    requires IsRun(run, moves, nows) && k < |run|
    ensures Inv(run[k])
    decreases k
  {
    if k > 0 {
      RunInv(run, moves, nows, k - 1);
      MoveKeeps(run[k - 1], moves[k - 1], nows[k - 1]);
    }
  }

  // ----- what every run guarantees -----

  /** A scheduled dispatch is the first of its job and minute, even when the run table has forgotten. */
  lemma ScheduledAtMostOnce(run: seq<World>, moves: seq<Move>, nows: seq<Time>, k: nat, i: nat, l: nat)
    requires IsRun(run, moves, nows) && k < |run| && i < l < |run[k].fired| && run[k].fired[l].scheduled
    ensures run[k].fired[i].jobId != run[k].fired[l].jobId || run[k].fired[i].minute != run[k].fired[l].minute
  {
    RunInv(run, moves, nows, k);
  }

  lemma KeyStillFree(s: StoreState, id: string, clock: Time, i: nat)
    requires StoreOk(s, clock) && id in s.jobs && i < |s.runs|
    ensures s.runs[i].idempotencyKey != RunKey(id, MinuteAt(s.jobs[id].nextRun))
  {
    var m0 := MinuteAt(s.jobs[id].nextRun);
    assert JobOk(s.jobs[id], id, clock) && RunBehind(s.jobs, s.runs[i], clock);
    var m :| s.runs[i].idempotencyKey == RunKey(s.runs[i].jobId, m) && Behind(s.jobs, s.runs[i].jobId, m, clock);
    if RunKey(s.runs[i].jobId, m) == RunKey(id, m0) {
      KeyInjective(s.runs[i].jobId, m, id, m0);
    }
  }

  /** The run table never holds the key a job's cursor points at. */
  lemma CursorKeyFree(s: StoreState, id: string, clock: Time)
    requires StoreOk(s, clock) && id in s.jobs
    ensures !AlreadyFired(s, RunKey(id, MinuteAt(s.jobs[id].nextRun)))
  {
    forall i | 0 <= i < |s.runs| ensures s.runs[i].idempotencyKey != RunKey(id, MinuteAt(s.jobs[id].nextRun)) {
      KeyStillFree(s, id, clock, i);
    }
  }

  /** Both submits of a fire are committed and reported. */
  predicate Clear(ch: Chance) {
    ch.update == Committed && ch.record == Committed
  }

  /** What the run table holds. */
  predicate HasRun(runs: seq<JobRun>, r: JobRun) {
    exists i :: 0 <= i < |runs| && runs[i] == r
  }

  /** The run a dispatch of job j for this minute starts with. */
  predicate StartedRun(r: JobRun, j: Job, minute: int, ch: Chance) {
    && r.id == ch.runId && r.jobId == j.id && r.jobName == j.name && r.idempotencyKey == RunKey(j.id, minute)
    && r.startedAt == ch.started && r.finishedAt == None && r.status == "running" && r.errorMessage == ""
    && r.durationMs == 0 && r.exitCode == 0 && r.output == ""
  }

  /** Job id was dispatched for this minute, and its cursor is now the first minute after now that it matches. */
  ghost predicate Dispatched(w: World, w': World, id: string, minute: int, scheduled: bool, now: Time, ch: Chance)
    requires id in w.store.jobs
  {
    && w'.fired == w.fired + [Firing(id, minute, scheduled)]
    && (exists r :: StartedRun(r, w.store.jobs[id], minute, ch) && w'.running == w.running + {r} && HasRun(w'.store.runs, r))
    && CursorSet(w, w', id, now)
  }

  ghost predicate CursorSet(w: World, w': World, id: string, now: Time)
    requires id in w.store.jobs
  {
    && ParseFields(Fields(w.store.jobs[id].cronExpr)).Some? && id in w'.store.jobs
    && FirstAfter(ParseFields(Fields(w.store.jobs[id].cronExpr)).value, now, w'.store.jobs[id].nextRun)
  }

  /**
    * No due job is held back by its own history: a tick whose submits commit dispatches exactly the
    * enabled jobs whose cursor has come, for the cursor's minute.
    */
  lemma DueIsDispatched(run: seq<World>, moves: seq<Move>, nows: seq<Time>, k: nat, id: string, now: Time, ch: Chance)
    requires IsRun(run, moves, nows) && k < |run| && Can(run[k], Ticks(id, ch), now) && Clear(ch)
    ensures var w, w', j := run[k], Do(run[k], Ticks(id, ch), now), run[k].store.jobs[id];
            if j.enabled && j.nextRun <= now then Dispatched(w, w', id, j.nextRun / MINUTE, true, now, ch)
            else w' == w.(clock := now)
  {
    RunInv(run, moves, nows, k);
    assert JobOk(run[k].store.jobs[id], id, run[k].clock);
    FiresWhenClear(run[k].store, id, run[k].clock, now, ch);
  }

  /** Recording a run moves no cursor. */
  lemma RecordLeavesCursor(s: StoreState, run: JobRun, now: Time, id: string)
    requires id in s.jobs
    ensures id in Apply(s, RecordRun(run), now).jobs
    ensures Apply(s, RecordRun(run), now).jobs[id].nextRun == s.jobs[id].nextRun
  {
  }

  /** A run with a free key goes to the new end of the table as it is. */
  lemma NewRunKept(s: StoreState, r: JobRun, now: Time)
    requires r.idempotencyKey != "" && !AlreadyFired(s, r.idempotencyKey)
    ensures HasRun(Apply(s, RecordRun(r), now).runs, r)
  {
    var runs := Apply(s, RecordRun(r), now).runs;
    assert Find(s.runs, r.idempotencyKey) == |s.runs|;
    assert runs[|runs| - 1] == r;
  }

  /** A fire with a free key whose submits commit. */
  lemma ClearFires(s: StoreState, j: Job, m: int, next: Time, clock: Time, now: Time, ch: Chance)
    requires StoreOk(s, clock) && clock <= now && MinuteAt(now) + 375 * DAY <= LAST_MINUTE && Clear(ch)
    requires JobOk(j, j.id, clock) && NextOk(next, now) && !AlreadyFired(s, RunKey(j.id, m))
    ensures var f := FireWith(s, j, RunKey(j.id, m), Some(next), now, ch);
            && f.run.Some? && StartedRun(f.run.value, j, m, ch) && HasRun(f.store.runs, f.run.value)
            && j.id in f.store.jobs && f.store.jobs[j.id].nextRun == next
  {
    var key := RunKey(j.id, m);
    AdvanceKeeps(s, j, next, clock, now, ch);
    var s1 := SubmitTo(s, UpdateJob(Moved(j, next, ch)), ch.update, now);
    assert s1.runs == s.runs && !AlreadyFired(s1, key);
    RecordLeavesCursor(s1, NewRun(j, key, ch), now, j.id);
    NewRunKept(s1, NewRun(j, key, ch), now);
    assert FireWith(s, j, key, Some(next), now, ch) == Launch(s1, NewRun(j, key, ch), now, ch);
  }

  /** The whole fire of a job in the store, its key free. */
  lemma FiresClear(s: StoreState, id: string, at: Time, clock: Time, now: Time, ch: Chance)
    requires StoreOk(s, clock) && id in s.jobs && clock <= now && MinuteAt(now) + 375 * DAY <= LAST_MINUTE && Clear(ch)
    requires !AlreadyFired(s, RunKey(id, MinuteAt(at)))
    ensures var f := FireJob(s, s.jobs[id], at, now, ch);
            && f.run.Some? && StartedRun(f.run.value, s.jobs[id], at / MINUTE, ch) && HasRun(f.store.runs, f.run.value)
            && ParseFields(Fields(s.jobs[id].cronExpr)).Some? && id in f.store.jobs
            && FirstAfter(ParseFields(Fields(s.jobs[id].cronExpr)).value, now, f.store.jobs[id].nextRun)
  {
    var j := s.jobs[id];
    assert JobOk(j, id, clock);
    NextRunOk(j.cronExpr, now);
    var next := NextRun(j.cronExpr, now).value;
    NextRunIff(j.cronExpr, now, next);
    ClearFires(s, j, MinuteAt(at), next, clock, now, ch);
  }

  lemma FiresWhenClear(s: StoreState, id: string, clock: Time, now: Time, ch: Chance)
    requires StoreOk(s, clock) && id in s.jobs && clock <= now && MinuteAt(now) + 375 * DAY <= LAST_MINUTE && Clear(ch)
    ensures var j, f := s.jobs[id], FireJob(s, s.jobs[id], s.jobs[id].nextRun, now, ch);
            && f.run.Some? && StartedRun(f.run.value, j, j.nextRun / MINUTE, ch) && HasRun(f.store.runs, f.run.value)
            && ParseFields(Fields(j.cronExpr)).Some? && id in f.store.jobs
            && FirstAfter(ParseFields(Fields(j.cronExpr)).value, now, f.store.jobs[id].nextRun)
  {
    CursorKeyFree(s, id, clock);
    FiresClear(s, id, s.jobs[id].nextRun, clock, now, ch);
  }

  lemma SkipsWhenClear(s: StoreState, id: string, clock: Time, now: Time, ch: Chance)
    requires StoreOk(s, clock) && id in s.jobs && clock <= now && MinuteAt(now) + 375 * DAY <= LAST_MINUTE && Clear(ch)
    ensures var j, s' := s.jobs[id], AdvanceNextRun(s, s.jobs[id], now, ch);
            && ParseFields(Fields(j.cronExpr)).Some? && id in s'.jobs
            && FirstAfter(ParseFields(Fields(j.cronExpr)).value, now, s'.jobs[id].nextRun)
  {
    var j := s.jobs[id];
    assert JobOk(j, id, clock);
    NextRunOk(j.cronExpr, now);
    NextRunIff(j.cronExpr, now, NextRun(j.cronExpr, now).value);
    AdvanceKeeps(s, j, NextRun(j.cronExpr, now).value, clock, now, ch);
  }

  /**
    * Catching up after an outage: a missed job fires exactly when its policy is run_once (whether
    * or not it is enabled), and then once; with skip only its cursor moves; any other policy
    * leaves it as it is.
    */
  lemma CatchUp(run: seq<World>, moves: seq<Move>, nows: seq<Time>, k: nat, id: string, now: Time, ch: Chance)
    requires IsRun(run, moves, nows) && k < |run| && Can(run[k], Reconciles(id, ch), now) && Clear(ch)
    ensures var w, w', j := run[k], Do(run[k], Reconciles(id, ch), now), run[k].store.jobs[id];
            if j.nextRun < now && j.catchupPolicy == "run_once" then Dispatched(w, w', id, j.nextRun / MINUTE, true, now, ch)
            else if j.nextRun < now && j.catchupPolicy == "skip" then
              w'.fired == w.fired && w'.running == w.running && CursorSet(w, w', id, now)
            else w' == w.(clock := now)
  {
    RunInv(run, moves, nows, k);
    assert JobOk(run[k].store.jobs[id], id, run[k].clock);
    FiresWhenClear(run[k].store, id, run[k].clock, now, ch);
    SkipsWhenClear(run[k].store, id, run[k].clock, now, ch);
  }

  /** A manual trigger dispatches unless the run table still remembers a run of the job in this minute. */
  lemma ManualDispatchIff(run: seq<World>, moves: seq<Move>, nows: seq<Time>, k: nat, id: string, now: Time, ch: Chance)
    requires IsRun(run, moves, nows) && k < |run| && Can(run[k], FiresNow(id, ch), now) && Clear(ch)
    ensures var w, w' := run[k], Do(run[k], FiresNow(id, ch), now);
            if exists i :: 0 <= i < |w.store.runs| && w.store.runs[i].idempotencyKey == RunKey(id, now / MINUTE)
            then w' == w.(clock := now)
            else Dispatched(w, w', id, now / MINUTE, false, now, ch)
  {
    RunInv(run, moves, nows, k);
    if !AlreadyFired(run[k].store, RunKey(id, MinuteAt(now))) {
      FiresClear(run[k].store, id, now, run[k].clock, now, ch);
    }
  }

  lemma RecordedIsFired(s: StoreState, run: JobRun, now: Time)
    requires run.idempotencyKey != ""
    ensures AlreadyFired(Apply(s, RecordRun(run), now), run.idempotencyKey)
  {
    var runs := Apply(s, RecordRun(run), now).runs;
    var p := Find(s.runs, run.idempotencyKey);
    if p < |s.runs| {
      assert runs[p].idempotencyKey == run.idempotencyKey;
    } else {
      assert runs[|runs| - 1] == run;
    }
  }

  /**
    * A fire with committed submits dispatches exactly when the table it checked, however old, did
    * not hold its key. So after a first fire of the minute a check of the state before repeats it,
    * and a check of the state after does not.
    */
  lemma CheckDecides(checked: StoreState, s: StoreState, j: Job, key: string, next: Time, now: Time, ch: Chance)
    requires key != "" && Clear(ch)
    ensures var f := FireAfterCheck(checked, s, j, key, Some(next), now, ch);
            && (f.run.Some? <==> !AlreadyFired(checked, key))
            && (f.run.Some? ==> f.run.value.idempotencyKey == key && AlreadyFired(f.store, key))
            && (f.run.None? ==> f.store == s)
  {
    var s1 := SubmitTo(s, UpdateJob(Moved(j, next, ch)), ch.update, now);
    RecordedIsFired(s1, NewRun(j, key, ch), now);
  }

  // ----- a whole pass over the jobs -----

  /** The two loops over ListJobs. */
  datatype Pass = Tick | Reconcile

  function PassJob(p: Pass, s: StoreState, j: Job, now: Time, ch: Chance): Fired {
    match p case Tick => TickJob(s, j, now, ch) case Reconcile => ReconcileJob(s, j, now, ch)
  }

  /** What a pass leaves, and the runs it dispatched. The jobs are copies taken before it began. */
  function PassAll(p: Pass, s: StoreState, js: seq<Job>, now: Time, luck: string -> Chance): (StoreState, seq<JobRun>) {
    if js == [] then (s, [])
    else
      var (s1, runs) := PassAll(p, s, js[..|js| - 1], now, luck);
      var j := js[|js| - 1];
      var f := PassJob(p, s1, j, now, luck(j.id));
      (f.store, if f.run.Some? then runs + [f.run.value] else runs)
  }

  function PassMove(p: Pass, id: string, ch: Chance): Move {
    match p case Tick => Ticks(id, ch) case Reconcile => Reconciles(id, ch)
  }

  lemma FireTouchesOne(s: StoreState, j: Job, key: string, next: Option<Time>, now: Time, ch: Chance, id: string)
    requires id != j.id && id in s.jobs
    ensures var s' := FireWith(s, j, key, next, now, ch).store; id in s'.jobs && s'.jobs[id] == s.jobs[id]
  {
    if next.Some? {
      var s1 := SubmitTo(s, UpdateJob(Moved(j, next.value, ch)), ch.update, now);
      assert id in s1.jobs && s1.jobs[id] == s.jobs[id];
      assert Launch(s1, NewRun(j, key, ch), now, ch).store.jobs[id] == s1.jobs[id];
    }
  }

  lemma FireJobTouchesOne(s: StoreState, j: Job, scheduledTime: Time, now: Time, ch: Chance, id: string)
    requires id != j.id && id in s.jobs
    ensures var s' := FireJob(s, j, scheduledTime, now, ch).store; id in s'.jobs && s'.jobs[id] == s.jobs[id]
  {
    FireTouchesOne(s, j, RunKey(j.id, MinuteAt(scheduledTime)), NextRun(j.cronExpr, now), now, ch, id);
  }

  lemma AdvanceTouchesOne(s: StoreState, j: Job, now: Time, ch: Chance, id: string)
    requires id != j.id && id in s.jobs
    ensures var s' := AdvanceNextRun(s, j, now, ch); id in s'.jobs && s'.jobs[id] == s.jobs[id]
  {
  }

  lemma TickTouchesOne(s: StoreState, j: Job, now: Time, ch: Chance, id: string)
    requires id != j.id && id in s.jobs
    ensures var s' := TickJob(s, j, now, ch).store; id in s'.jobs && s'.jobs[id] == s.jobs[id]
  {
    FireJobTouchesOne(s, j, j.nextRun, now, ch, id);
  }

  lemma ReconcileTouchesOne(s: StoreState, j: Job, now: Time, ch: Chance, id: string)
    requires id != j.id && id in s.jobs
    ensures var s' := ReconcileJob(s, j, now, ch).store; id in s'.jobs && s'.jobs[id] == s.jobs[id]
  {
    if j.catchupPolicy == "skip" {
      AdvanceTouchesOne(s, j, now, ch, id);
    } else {
      FireJobTouchesOne(s, j, j.nextRun, now, ch, id);
    }
  }

  /** A pass, for one job, leaves every other job as it is. */
  lemma OthersUntouched(p: Pass, s: StoreState, j: Job, now: Time, ch: Chance, id: string)
    requires id != j.id && id in s.jobs
    ensures var s' := PassJob(p, s, j, now, ch).store; id in s'.jobs && s'.jobs[id] == s.jobs[id]
  {
    match p {
      case Tick => TickTouchesOne(s, j, now, ch, id);
      case Reconcile => ReconcileTouchesOne(s, j, now, ch, id);
    }
  }

  predicate MoveFor(p: Pass, w: World, w': World, j: Job, now: Time, luck: string -> Chance) {
    Can(w, PassMove(p, j.id, luck(j.id)), now) && w' == Do(w, PassMove(p, j.id, luck(j.id)), now)
  }

  /** The worlds of a pass, one move for each job of the list. */
  predicate Moves(p: Pass, ws: seq<World>, js: seq<Job>, now: Time, luck: string -> Chance) {
    |ws| == |js| + 1 && forall i :: 0 <= i < |js| ==> MoveFor(p, ws[i], ws[i + 1], js[i], now, luck)
  }

  lemma PassAllMore(p: Pass, s: StoreState, js: seq<Job>, n: nat, now: Time, luck: string -> Chance)
    requires n < |js|
    ensures var (s1, runs) := PassAll(p, s, js[..n], now, luck);
            var f := PassJob(p, s1, js[n], now, luck(js[n].id));
            PassAll(p, s, js[..n + 1], now, luck) == (f.store, if f.run.Some? then runs + [f.run.value] else runs)
  {
    assert js[..n + 1][..n] == js[..n];
  }

  lemma MovesMore(p: Pass, ws: seq<World>, w: World, js: seq<Job>, j: Job, now: Time, luck: string -> Chance)
    requires Moves(p, ws, js, now, luck) && MoveFor(p, ws[|js|], w, j, now, luck)
    ensures Moves(p, ws + [w], js + [j], now, luck)
  {
    var ws', js' := ws + [w], js + [j];
    forall i | 0 <= i < |js'| ensures MoveFor(p, ws'[i], ws'[i + 1], js'[i], now, luck) {
      assert i < |js| ==> MoveFor(p, ws[i], ws[i + 1], js[i], now, luck);
    }
  }

  lemma NextWorld(p: Pass, w: World, j: Job, now: Time, luck: string -> Chance) returns (w': World)
    requires Timely(w, now) && j.id in w.store.jobs && w.store.jobs[j.id] == j
    ensures MoveFor(p, w, w', j, now, luck) && Timely(w', now)
    ensures w'.store == PassJob(p, w.store, j, now, luck(j.id)).store
  {
    w' := Do(w, PassMove(p, j.id, luck(j.id)), now);
  }

  /** The jobs from n on are in s as they are in the list. */
  predicate Current(s: StoreState, all: seq<Job>, n: nat) {
    forall i :: n <= i < |all| ==> all[i].id in s.jobs && s.jobs[all[i].id] == all[i]
  }

  lemma StillCurrent(p: Pass, s: StoreState, all: seq<Job>, n: nat, now: Time, ch: Chance)
    requires n < |all| && Current(s, all, n) && forall i, k :: 0 <= i < k < |all| ==> all[i].id != all[k].id
    ensures Current(PassJob(p, s, all[n], now, ch).store, all, n + 1)
  {
    var s' := PassJob(p, s, all[n], now, ch).store;
    forall i | n + 1 <= i < |all| ensures all[i].id in s'.jobs && s'.jobs[all[i].id] == all[i] {
      OthersUntouched(p, s, all[n], now, ch, all[i].id);
    }
  }

  /** ws are the worlds of the pass over the first n jobs, and the rest of the list is still current. */
  predicate PassedTo(p: Pass, w: World, all: seq<Job>, n: nat, now: Time, luck: string -> Chance, ws: seq<World>)
    requires n <= |all|
  {
    && Moves(p, ws, all[..n], now, luck) && ws[0] == w && Timely(ws[n], now)
    && ws[n].store == PassAll(p, w.store, all[..n], now, luck).0 && Current(ws[n].store, all, n)
  }

  /** The copies a pass works on are never out of date: the pass is one move for each job, in turn. */
  lemma {:induction false} PassIsMoves(p: Pass, w: World, all: seq<Job>, n: nat, now: Time, luck: string -> Chance)
    returns (ws: seq<World>)
    requires Timely(w, now) && Listing(w.store.jobs, all) && n <= |all|
    ensures PassedTo(p, w, all, n, now, luck, ws)
    decreases n
  {
    if n == 0 {
      ws := [w];
      PassStarts(p, w, all, now, luck);
    } else {
      var init := PassIsMoves(p, w, all, n - 1, now, luck);
      ws := PassGoesOn(p, w, all, n - 1, now, luck, init);
    }
  }

  lemma PassStarts(p: Pass, w: World, all: seq<Job>, now: Time, luck: string -> Chance)
    requires Timely(w, now) && Listing(w.store.jobs, all)
    ensures PassedTo(p, w, all, 0, now, luck, [w])
  {
    assert all[..0] == [];
  }

  lemma PassGoesOn(p: Pass, w: World, all: seq<Job>, n: nat, now: Time, luck: string -> Chance, init: seq<World>)
    returns (ws: seq<World>)
    requires n < |all| && PassedTo(p, w, all, n, now, luck, init)
    requires forall i, k :: 0 <= i < k < |all| ==> all[i].id != all[k].id
    ensures PassedTo(p, w, all, n + 1, now, luck, ws)
  {
    var v := NextWorld(p, init[n], all[n], now, luck);
    PassMovesOn(p, w, all, n, now, luck, init, v);
    ws := init + [v];
  }

  lemma PassStoreOn(p: Pass, s0: StoreState, s: StoreState, all: seq<Job>, n: nat, now: Time, luck: string -> Chance)
    requires n < |all| && s == PassAll(p, s0, all[..n], now, luck).0
    ensures PassJob(p, s, all[n], now, luck(all[n].id)).store == PassAll(p, s0, all[..n + 1], now, luck).0
  {
    PassAllMore(p, s0, all, n, now, luck);
  }

  lemma MovesOn(p: Pass, ws: seq<World>, v: World, all: seq<Job>, n: nat, now: Time, luck: string -> Chance)
    requires n < |all| && Moves(p, ws, all[..n], now, luck) && MoveFor(p, ws[n], v, all[n], now, luck)
    ensures Moves(p, ws + [v], all[..n + 1], now, luck) && (ws + [v])[0] == ws[0] && (ws + [v])[n + 1] == v
  {
    MovesMore(p, ws, v, all[..n], all[n], now, luck);
    assert all[..n] + [all[n]] == all[..n + 1];
  }

  lemma PassMovesOn(p: Pass, w: World, all: seq<Job>, n: nat, now: Time, luck: string -> Chance, init: seq<World>, v: World)
    requires n < |all| && PassedTo(p, w, all, n, now, luck, init)
    requires forall i, k :: 0 <= i < k < |all| ==> all[i].id != all[k].id
    requires MoveFor(p, init[n], v, all[n], now, luck) && Timely(v, now)
    requires v.store == PassJob(p, init[n].store, all[n], now, luck(all[n].id)).store
    ensures PassedTo(p, w, all, n + 1, now, luck, init + [v])
  {
    MovesOn(p, init, v, all, n, now, luck);
    PassStoreOn(p, w.store, init[n].store, all, n, now, luck);
    StillCurrent(p, init[n].store, all, n, now, luck(all[n].id));
  }
}
