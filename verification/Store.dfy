/**
  * The replicated state machine: what applying one command does to the jobs and the run table.
  * The clock is read while a command is applied, so two replicas may differ in updatedAt;
  * states are compared apart from that field.
  */
module Store {
  import opened StoreTypes

  const MAX_RUNS: nat := 1000
  const DEFAULT_USER := "default"
  const EMPTY := StoreState(map[], [])

  // ----- one command -----

  function NormalizeJob(job: Job): Job {
    job.(enabled := job.enabled || job.createdAt == ZERO_TIME,
         partitionKey := if job.partitionKey == "" then DEFAULT_USER else job.partitionKey,
         catchupPolicy := if job.catchupPolicy == "" then "skip" else job.catchupPolicy,
         metadata := if job.metadata == None then Some(map[]) else job.metadata)
  }

  function PutJob(s: StoreState, job: Job, now: Time): StoreState {
    var j := NormalizeJob(job);
    var created := if j.id in s.jobs && j.createdAt == ZERO_TIME then s.jobs[j.id].createdAt else j.createdAt;
    var updated := if j.updatedAt == ZERO_TIME then now else j.updatedAt;
    s.(jobs := s.jobs[j.id := j.(createdAt := created, updatedAt := updated)])
  }

  /** The runs of other jobs, in order. */
  function Without(runs: seq<JobRun>, jobId: string): (r: seq<JobRun>)
    ensures |r| <= |runs|
  {
    if runs == [] then []
    else
      var last := runs[|runs| - 1];
      Without(runs[..|runs| - 1], jobId) + if last.jobId != jobId then [last] else []
  }

  /** A later record of the same firing; fields it leaves empty keep their old values. */
  function MergeRun(existing: JobRun, next: JobRun): JobRun {
    next.(id := if next.id == "" then existing.id else next.id,
          jobName := if next.jobName == "" then existing.jobName else next.jobName,
          startedAt := if next.startedAt == ZERO_TIME then existing.startedAt else next.startedAt,
          finishedAt := if next.finishedAt == None then existing.finishedAt else next.finishedAt,
          status := if next.status == "" then existing.status else next.status,
          idempotencyKey := if next.idempotencyKey == "" then existing.idempotencyKey else next.idempotencyKey)
  }

  /** The first run, from i on, with this non-empty key, or |runs|. */
  function FindFrom(runs: seq<JobRun>, key: string, i: nat): (p: nat)
    requires i <= |runs|
    ensures i <= p <= |runs| && (p < |runs| ==> key != "" && runs[p].idempotencyKey == key)
    ensures forall k :: i <= k < p ==> key == "" || runs[k].idempotencyKey != key
    decreases |runs| - i
  {
    if i == |runs| || (runs[i].idempotencyKey != "" && runs[i].idempotencyKey == key) then i
    else FindFrom(runs, key, i + 1)
  }

  function Find(runs: seq<JobRun>, key: string): (p: nat)
    ensures p <= |runs| && (p < |runs| ==> key != "" && runs[p].idempotencyKey == key)
    ensures forall k :: 0 <= k < p ==> key == "" || runs[k].idempotencyKey != key
  {
    FindFrom(runs, key, 0)
  }

  /** The newest MAX_RUNS runs. */
  function Trim(runs: seq<JobRun>): seq<JobRun> {
    if |runs| > MAX_RUNS then runs[|runs| - MAX_RUNS..] else runs
  }

  function TouchJob(jobs: map<string, Job>, run: JobRun, now: Time): map<string, Job> {
    if run.jobId in jobs
    then jobs[run.jobId := jobs[run.jobId].(lastRun := run.startedAt, lastStatus := run.status, updatedAt := now)]
    else jobs
  }

  function UpsertRun(s: StoreState, run: JobRun, now: Time): StoreState {
    var p := Find(s.runs, run.idempotencyKey);
    if p < |s.runs| then
      var merged := MergeRun(s.runs[p], run);
      StoreState(TouchJob(s.jobs, merged, now), s.runs[p := merged])
    else
      StoreState(TouchJob(s.jobs, run, now), Trim(s.runs + [run]))
  }

  function Apply(s: StoreState, cmd: Command, now: Time): StoreState {
    match cmd
    case CreateJob(job) => PutJob(s, job, now)
    case UpdateJob(job) => PutJob(s, job, now)
    case DeleteJob(id) => StoreState(s.jobs - {id}, Without(s.runs, id))
    case RecordRun(run) => UpsertRun(s, run, now)
    case Unknown => s
    case Malformed => s
  }

  predicate AlreadyFired(s: StoreState, key: string) {
    exists i :: 0 <= i < |s.runs| && s.runs[i].idempotencyKey == key
  }

  // ----- listing the jobs -----

  /** These jobs of the map, each once, in some order. */
  predicate ListingOf(jobs: map<string, Job>, ids: set<string>, js: seq<Job>) {
    && (forall i :: 0 <= i < |js| ==> js[i].id in ids && js[i].id in jobs && jobs[js[i].id] == js[i])
    && (forall i, k :: 0 <= i < k < |js| ==> js[i].id != js[k].id)
    && (forall id :: id in ids ==> exists i :: 0 <= i < |js| && js[i].id == id)
  }

  predicate Listing(jobs: map<string, Job>, js: seq<Job>) {
    ListingOf(jobs, jobs.Keys, js)
  }

  lemma ListingMore(jobs: map<string, Job>, ids: set<string>, js: seq<Job>, id: string)
    requires ids <= jobs.Keys && id in jobs && id !in ids
    ensures ListingOf(jobs, ids, js) && jobs[id].id == id ==> ListingOf(jobs, ids + {id}, js + [jobs[id]])
  {
    var js' := js + [jobs[id]];
    if ListingOf(jobs, ids, js) && jobs[id].id == id {
      forall x | x in ids + {id} ensures exists i :: 0 <= i < |js'| && js'[i].id == x {
        if x == id {
          assert js'[|js|].id == id;
        } else {
          var i :| 0 <= i < |js| && js[i].id == x;
          assert js'[i].id == x;
        }
      }
    }
  }

  // ----- many commands -----

  /** What the commands lead to from s, the clock left at zero. */
  function FoldFrom(s: StoreState, cmds: seq<Command>): StoreState {
    if cmds == [] then s else Apply(FoldFrom(s, cmds[..|cmds| - 1]), cmds[|cmds| - 1], ZERO_TIME)
  }

  function Fold(cmds: seq<Command>): StoreState {
    FoldFrom(EMPTY, cmds)
  }

  lemma {:induction false} FoldSplit(s: StoreState, a: seq<Command>, b: seq<Command>)
    ensures FoldFrom(s, a + b) == FoldFrom(FoldFrom(s, a), b)
    decreases |b|
  {
    if b == [] {
      assert a + b == a;
    } else {
      assert (a + b)[..|a + b| - 1] == a + b[..|b| - 1];
      FoldSplit(s, a, b[..|b| - 1]);
    }
  }

  /** Equal but for updatedAt. */
  predicate SameJobs(a: map<string, Job>, b: map<string, Job>) {
    a.Keys == b.Keys && forall k :: k in a ==> a[k].(updatedAt := ZERO_TIME) == b[k].(updatedAt := ZERO_TIME)
  }

  predicate Same(s: StoreState, t: StoreState) {
    SameJobs(s.jobs, t.jobs) && s.runs == t.runs
  }

  lemma PutSame(s: StoreState, t: StoreState, job: Job, now: Time, now': Time)
    requires Same(s, t)
    ensures Same(PutJob(s, job, now), PutJob(t, job, now'))
  {
  }

  lemma TouchSame(a: map<string, Job>, b: map<string, Job>, run: JobRun, now: Time, now': Time)
    requires SameJobs(a, b)
    ensures SameJobs(TouchJob(a, run, now), TouchJob(b, run, now'))
  {
  }

  lemma UpsertSame(s: StoreState, t: StoreState, run: JobRun, now: Time, now': Time)
    requires Same(s, t)
    ensures Same(UpsertRun(s, run, now), UpsertRun(t, run, now'))
  {
    var p := Find(s.runs, run.idempotencyKey);
    TouchSame(s.jobs, t.jobs, if p < |s.runs| then MergeRun(s.runs[p], run) else run, now, now');
  }

  /** A command is deterministic but for updatedAt, whatever the two clocks say. */
  lemma ApplySame(s: StoreState, t: StoreState, cmd: Command, now: Time, now': Time)
    requires Same(s, t)
    ensures Same(Apply(s, cmd, now), Apply(t, cmd, now'))
  {
    match cmd
    case CreateJob(job) => PutSame(s, t, job, now, now');
    case UpdateJob(job) => PutSame(s, t, job, now, now');
    case RecordRun(run) => UpsertSame(s, t, run, now, now');
    case _ =>
  }

  lemma {:induction false} FoldSame(s: StoreState, t: StoreState, cmds: seq<Command>)
    requires Same(s, t)
    ensures Same(FoldFrom(s, cmds), FoldFrom(t, cmds))
    decreases |cmds|
  {
    if cmds != [] {
      FoldSame(s, t, cmds[..|cmds| - 1]);
      ApplySame(FoldFrom(s, cmds[..|cmds| - 1]), FoldFrom(t, cmds[..|cmds| - 1]), cmds[|cmds| - 1], ZERO_TIME, ZERO_TIME);
    }
  }

  // ----- the run table -----

  /** Bounded, and at most one run for each non-empty key. */
  predicate RunsOk(runs: seq<JobRun>) {
    && |runs| <= MAX_RUNS
    && forall i, j :: 0 <= i < j < |runs| && runs[i].idempotencyKey == runs[j].idempotencyKey ==>
         runs[i].idempotencyKey == ""
  }

  /** out is runs without the job's, each of the others once and in order; pos says where each was. */
  predicate Filters(runs: seq<JobRun>, jobId: string, out: seq<JobRun>, pos: seq<nat>) {
    && |pos| == |out|
    && (forall i, j :: 0 <= i < j < |pos| ==> pos[i] < pos[j])
    && (forall i :: 0 <= i < |pos| ==> pos[i] < |runs| && out[i] == runs[pos[i]])
    && forall k :: 0 <= k < |runs| ==> (k in pos <==> runs[k].jobId != jobId)
  }

  lemma FiltersMore(runs: seq<JobRun>, jobId: string, out: seq<JobRun>, pos: seq<nat>, run: JobRun)
    requires Filters(runs, jobId, out, pos)
    ensures run.jobId == jobId ==> Filters(runs + [run], jobId, out, pos)
    ensures run.jobId != jobId ==> Filters(runs + [run], jobId, out + [run], pos + [|runs|])
  {
    var all := runs + [run];
    assert forall k :: 0 <= k < |runs| ==> all[k] == runs[k];
    assert |runs| !in pos;
    var more := pos + [|runs|];
    assert forall k :: k in more <==> k in pos || k == |runs|;
  }

  /** Deleting keeps exactly the other jobs' runs, in order. */
  lemma {:induction false} WithoutIsFilter(runs: seq<JobRun>, jobId: string) returns (pos: seq<nat>)
    ensures Filters(runs, jobId, Without(runs, jobId), pos)
    decreases |runs|
  {
    if runs == [] {
      pos := [];
    } else {
      var n := |runs| - 1;
      pos := WithoutIsFilter(runs[..n], jobId);
      FiltersMore(runs[..n], jobId, Without(runs[..n], jobId), pos, runs[n]);
      assert runs[..n] + [runs[n]] == runs;
      if runs[n].jobId != jobId {
        pos := pos + [n];
      }
    }
  }

  lemma UpsertRunsOk(s: StoreState, run: JobRun, now: Time)
    requires RunsOk(s.runs)
    ensures RunsOk(UpsertRun(s, run, now).runs)
  {
    var p := Find(s.runs, run.idempotencyKey);
    if p < |s.runs| {
      assert forall i :: 0 <= i < |s.runs| ==>
        s.runs[p := MergeRun(s.runs[p], run)][i].idempotencyKey == s.runs[i].idempotencyKey;
    }
  }

  lemma WithoutRunsOk(runs: seq<JobRun>, jobId: string)
    requires RunsOk(runs)
    ensures RunsOk(Without(runs, jobId))
  {
    var pos := WithoutIsFilter(runs, jobId);
  }

  /** Every command keeps the run table bounded and free of duplicate keys. */
  lemma ApplyRunsOk(s: StoreState, cmd: Command, now: Time)
    requires RunsOk(s.runs)
    ensures RunsOk(Apply(s, cmd, now).runs)
  {
    match cmd {
      case DeleteJob(id) => WithoutRunsOk(s.runs, id);
      case RecordRun(run) => UpsertRunsOk(s, run, now);
      case _ =>
    }
  }

  lemma {:induction false} FoldRunsOk(cmds: seq<Command>)
    ensures RunsOk(Fold(cmds).runs)
    decreases |cmds|
  {
    if cmds != [] {
      FoldRunsOk(cmds[..|cmds| - 1]);
      ApplyRunsOk(Fold(cmds[..|cmds| - 1]), cmds[|cmds| - 1], ZERO_TIME);
    }
  }

  /** After a keyed run is recorded, it is the one its key finds, and recording it again leaves it as it is. */
  lemma RecordedFound(s: StoreState, run: JobRun, now: Time)
    requires run.idempotencyKey != ""
    ensures var t := UpsertRun(s, run, now);
            var q := Find(t.runs, run.idempotencyKey);
            q < |t.runs| && MergeRun(t.runs[q], run) == t.runs[q] && t.jobs == TouchJob(s.jobs, t.runs[q], now)
  {
    var t := UpsertRun(s, run, now);
    var p := Find(s.runs, run.idempotencyKey);
    if p < |s.runs| {
      assert t.runs[p].idempotencyKey == run.idempotencyKey;
    } else {
      assert t.runs[|t.runs| - 1] == run;
    }
  }

  lemma TouchTwice(jobs: map<string, Job>, run: JobRun, now: Time, now': Time)
    ensures SameJobs(TouchJob(TouchJob(jobs, run, now), run, now'), TouchJob(jobs, run, now))
  {
  }

  /** Recording the same keyed run again changes nothing but updatedAt. */
  lemma RecordTwice(s: StoreState, run: JobRun, now: Time, now': Time)
    requires run.idempotencyKey != ""
    ensures Same(Apply(Apply(s, RecordRun(run), now), RecordRun(run), now'), Apply(s, RecordRun(run), now))
  {
    var t := UpsertRun(s, run, now);
    var q := Find(t.runs, run.idempotencyKey);
    RecordedFound(s, run, now);
    TouchTwice(s.jobs, t.runs[q], now, now');
  }

  /** A run of this job with this key, at most d places from the newest. */
  predicate Recent(runs: seq<JobRun>, key: string, jobId: string, d: int) {
    exists p :: 0 <= p < |runs| && |runs| - 1 - p <= d && runs[p].idempotencyKey == key && runs[p].jobId == jobId
  }

  /** The command leaves the job in place, and records this key only for it. */
  predicate Spares(cmd: Command, key: string, jobId: string) {
    match cmd
    case DeleteJob(id) => id != jobId
    case RecordRun(run) => run.idempotencyKey == key ==> run.jobId == jobId
    case _ => true
  }

  lemma RecentFiltered(runs: seq<JobRun>, key: string, jobId: string, d: int, id: string)
    requires Recent(runs, key, jobId, d) && id != jobId
    ensures Recent(Without(runs, id), key, jobId, d)
  {
    var p :| 0 <= p < |runs| && |runs| - 1 - p <= d && runs[p].idempotencyKey == key && runs[p].jobId == jobId;
    var pos := WithoutIsFilter(runs, id);
    var i :| 0 <= i < |pos| && pos[i] == p;
    PositionsBunch(pos, |runs|, i);
    assert Without(runs, id)[i] == runs[p];
  }

  lemma {:induction false} PositionsBunch(pos: seq<nat>, n: nat, i: nat)
    requires i < |pos| && (forall a, b :: 0 <= a < b < |pos| ==> pos[a] < pos[b])
    requires forall a :: 0 <= a < |pos| ==> pos[a] < n
    ensures |pos| - 1 - i <= n - 1 - pos[i]
    decreases |pos| - i
  {
    if i + 1 < |pos| {
      PositionsBunch(pos, n, i + 1);
    }
  }

  lemma RecentRecorded(s: StoreState, key: string, jobId: string, d: int, run: JobRun)
    requires RunsOk(s.runs) && key != "" && d + 1 < MAX_RUNS && Recent(s.runs, key, jobId, d)
    requires run.idempotencyKey == key ==> run.jobId == jobId
    ensures Recent(UpsertRun(s, run, ZERO_TIME).runs, key, jobId, d + 1)
  {
    var p :| 0 <= p < |s.runs| && |s.runs| - 1 - p <= d && s.runs[p].idempotencyKey == key && s.runs[p].jobId == jobId;
    var runs' := UpsertRun(s, run, ZERO_TIME).runs;
    var q := Find(s.runs, run.idempotencyKey);
    if q < |s.runs| {
      assert q == p || runs'[p] == s.runs[p];
      assert runs'[p].idempotencyKey == key && runs'[p].jobId == jobId;
    } else {
      var p' := p - (|s.runs| + 1 - |runs'|);
      assert runs'[p'] == (s.runs + [run])[p];
    }
  }

  lemma RecentApplied(s: StoreState, key: string, jobId: string, d: int, cmd: Command)
    requires RunsOk(s.runs) && key != "" && d + 1 < MAX_RUNS && Recent(s.runs, key, jobId, d)
    requires Spares(cmd, key, jobId)
    ensures Recent(Apply(s, cmd, ZERO_TIME).runs, key, jobId, d + 1)
  {
    match cmd {
      case DeleteJob(id) => RecentFiltered(s.runs, key, jobId, d, id);
      case RecordRun(run) => RecentRecorded(s, key, jobId, d, run);
      case _ =>
    }
  }

  /** A key that was just recorded is still found after any 999 further commands that spare its job. */
  lemma {:induction false} KeyKept(s: StoreState, key: string, jobId: string, d: nat, cmds: seq<Command>)
    requires RunsOk(s.runs) && key != "" && Recent(s.runs, key, jobId, d) && d + |cmds| < MAX_RUNS
    requires forall i :: 0 <= i < |cmds| ==> Spares(cmds[i], key, jobId)
    ensures RunsOk(FoldFrom(s, cmds).runs) && Recent(FoldFrom(s, cmds).runs, key, jobId, d + |cmds|)
    ensures AlreadyFired(FoldFrom(s, cmds), key)
    decreases |cmds|
  {
    if cmds != [] {
      var init := cmds[..|cmds| - 1];
      KeyKept(s, key, jobId, d, init);
      RecentApplied(FoldFrom(s, init), key, jobId, d + |init|, cmds[|cmds| - 1]);
      ApplyRunsOk(FoldFrom(s, init), cmds[|cmds| - 1], ZERO_TIME);
    }
  }
}
