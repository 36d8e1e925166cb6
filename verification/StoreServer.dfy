/** The store as an object: its fields, updated in place by the apply loop, and its waiters. */
module StoreServer {
  import opened StoreTypes
  import opened RaftTypes
  import RaftNode
  import RaftServer
  import S = Store

  const SNAP_THRESHOLD: nat := 1

  /** What a store holds in memory; waiters are the indices that a Submit waits for. */
  datatype Replica = Replica(state: StoreState, waiters: set<int>, applyCount: nat)

  /** NewStore: the persisted snapshot, if there is one. */
  function NewReplica(snapshot: Option<StoreState>): Replica {
    Replica(match snapshot case Some(s) => s case None => S.EMPTY, {}, 0)
  }

  /** decodeCommand; an entry without a command decodes to nothing. */
  function Decode(raw: Option<Command>): Command {
    match raw case Some(c) => c case None => Malformed
  }

  /** The first locked region of an apply loop round: apply, and count towards the next snapshot. */
  function Ingest(r: Replica, raw: Option<Command>, now: Time): Replica {
    if Decode(raw) == Malformed then r
    else r.(state := S.Apply(r.state, Decode(raw), now),
            applyCount := if r.applyCount + 1 >= SNAP_THRESHOLD then 0 else r.applyCount + 1)
  }

  predicate ShouldSnapshot(r: Replica) {
    r.applyCount + 1 >= SNAP_THRESHOLD
  }

  function Notify(r: Replica, index: int): Replica {
    r.(waiters := r.waiters - {index})
  }

  class Store {
    const rf: RaftServer.Raft
    var jobs: map<string, Job>
    var runs: seq<JobRun>
    var waiters: set<int>
    var applyCount: nat

    ghost function View(): Replica
      reads this
    {
      Replica(StoreState(jobs, runs), waiters, applyCount)
    }

    constructor (rf: RaftServer.Raft)
      ensures this.rf == rf && View() == NewReplica(rf.persister.View().snapshot)
    {
      this.rf := rf;
      jobs, runs, waiters, applyCount := map[], [], {}, 0;
      new;
      var snap := rf.persister.ReadSnapshot();
      ApplySnapshot(snap);
    }

    /** Replace both collections; an empty snapshot changes nothing. */
    method ApplySnapshot(snap: Option<StoreState>)
      modifies this
      ensures View() == old(View()).(state := match snap case Some(s) => s case None => old(View()).state)
    {
      match snap {
        case None =>
        case Some(s) =>
          jobs := s.jobs;
          runs := s.runs;
      }
    }

    /** The part of Submit before it waits: the index it waits for, or None when this node is not leader. */
    method Submit(cmd: Command) returns (index: Option<int>)
      requires rf.Valid()
      modifies this, rf, rf.persister
      ensures var (n, result) := RaftNode.Start(old(rf.View()), cmd);
              rf.View() == n && rf.Valid()
              && View() == (match result
                            case Some((i, _)) => old(View()).(waiters := old(View()).waiters + {i})
                            case None => old(View()))
              && index == match result case Some((i, _)) => Some(i) case None => None
    {
      var result := rf.Start(cmd);
      if result.None? {
        return None;
      }
      RegisterWaiter(result.value.0);
      return Some(result.value.0);
    }

    method RegisterWaiter(index: int)
      modifies this`waiters
      ensures waiters == old(waiters) + {index}
    {
      waiters := waiters + {index};
    }

    method NotifyWaiter(index: int)
      modifies this`waiters
      ensures waiters == old(waiters) - {index}
    {
      if index in waiters {
        waiters := waiters - {index};
      }
    }

    /** One round of the apply loop on a command: apply, snapshot, and only then wake the waiter. */
    method HandleCommand(index: nat, raw: Option<Command>, now: Time)
      requires rf.Valid() && index <= rf.lastApplied
      modifies this, rf, rf.persister
      ensures var r := Ingest(old(View()), raw, now);
              if Decode(raw) == Malformed then View() == old(View()) && rf.View() == old(rf.View())
              else View() == Notify(r, index)
                   && rf.View() == if ShouldSnapshot(old(View()))
                                   then RaftNode.Snapshot(old(rf.View()), index, Some(r.state)) else old(rf.View())
    {
      var cmd := Decode(raw);
      if cmd == Malformed {
        return;
      }
      ApplyCommand(cmd, now);
      applyCount := applyCount + 1;
      var shouldSnapshot := applyCount >= SNAP_THRESHOLD;
      if shouldSnapshot {
        var snap := StoreState(jobs, runs);
        applyCount := 0;
        rf.Snapshot(index, Some(snap));
      }
      NotifyWaiter(index);
    }

    method ApplyCommand(cmd: Command, now: Time)
      modifies this`jobs, this`runs
      ensures View().state == S.Apply(old(View()).state, cmd, now)
    {
      match cmd {
        case CreateJob(job) => PutJob(job, now);
        case UpdateJob(job) => PutJob(job, now);
        case DeleteJob(id) =>
          jobs := jobs - {id};
          DropRuns(id);
        case RecordRun(run) => UpsertRun(run, now);
        case Unknown =>
        case Malformed =>
      }
    }

    method PutJob(job: Job, now: Time)
      modifies this`jobs
      ensures jobs == S.PutJob(old(View()).state, job, now).jobs
    {
      var j := NormalizeJob(job);
      if j.id in jobs && j.createdAt == ZERO_TIME {
        j := j.(createdAt := jobs[j.id].createdAt);
      }
      if j.updatedAt == ZERO_TIME {
        j := j.(updatedAt := now);
      }
      jobs := jobs[j.id := j];
    }

    static method NormalizeJob(job: Job) returns (j: Job)
      ensures j == S.NormalizeJob(job)
    {
      j := job;
      if !j.enabled && j.createdAt == ZERO_TIME {
        j := j.(enabled := true);
      }
      if j.partitionKey == "" {
        j := j.(partitionKey := S.DEFAULT_USER);
      }
      if j.catchupPolicy == "" {
        j := j.(catchupPolicy := "skip");
      }
      if j.metadata == None {
        j := j.(metadata := Some(map[]));
      }
    }

    /** Filter the runs in place: kept runs move towards the front of the same sequence, which is then cut. */
    method DropRuns(id: string)
      modifies this`runs
      ensures runs == S.Without(old(runs), id)
    {
      ghost var was := runs;
      var dst := 0;
      for i := 0 to |runs|
        invariant |runs| == |was| && dst == |S.Without(was[..i], id)| <= i
        invariant runs[..dst] == S.Without(was[..i], id)
        invariant forall k :: i <= k < |was| ==> runs[k] == was[k]
      {
        assert was[..i + 1][..i] == was[..i] && was[..i + 1][i] == was[i];
        var run := runs[i];
        if run.jobId != id {
          assert runs[dst := run][..dst + 1] == runs[..dst] + [run];
          runs := runs[dst := run];
          dst := dst + 1;
        }
      }
      assert was[..|was|] == was;
      runs := runs[..dst];
    }

    method UpsertRun(run: JobRun, now: Time)
      modifies this`jobs, this`runs
      ensures StoreState(jobs, runs) == S.UpsertRun(old(View()).state, run, now)
    {
      for i := 0 to |runs|
        invariant jobs == old(jobs) && runs == old(runs)
        invariant S.FindFrom(runs, run.idempotencyKey, i) == S.Find(runs, run.idempotencyKey)
      {
        if runs[i].idempotencyKey != "" && runs[i].idempotencyKey == run.idempotencyKey {
          var merged := MergeRun(runs[i], run);
          runs := runs[i := merged];
          UpdateJobRunFields(runs[i], now);
          return;
        }
      }
      runs := runs + [run];
      if |runs| > S.MAX_RUNS {
        runs := runs[|runs| - S.MAX_RUNS..];
      }
      UpdateJobRunFields(run, now);
    }

    static method MergeRun(existing: JobRun, next: JobRun) returns (r: JobRun)
      ensures r == S.MergeRun(existing, next)
    {
      r := next;
      if r.id == "" {
        r := r.(id := existing.id);
      }
      if r.jobName == "" {
        r := r.(jobName := existing.jobName);
      }
      if r.startedAt == ZERO_TIME {
        r := r.(startedAt := existing.startedAt);
      }
      if r.finishedAt == None {
        r := r.(finishedAt := existing.finishedAt);
      }
      if r.status == "" {
        r := r.(status := existing.status);
      }
      if r.idempotencyKey == "" {
        r := r.(idempotencyKey := existing.idempotencyKey);
      }
    }

    method UpdateJobRunFields(run: JobRun, now: Time)
      modifies this`jobs
      ensures jobs == S.TouchJob(old(jobs), run, now)
    {
      if run.jobId !in jobs {
        return;
      }
      var job := jobs[run.jobId];
      job := job.(lastRun := run.startedAt);
      job := job.(lastStatus := run.status);
      job := job.(updatedAt := now);
      jobs := jobs[run.jobId := job];
    }

    method AlreadyFired(key: string) returns (b: bool)
      ensures b == S.AlreadyFired(View().state, key)
    {
      for i := 0 to |runs|
        invariant forall k :: 0 <= k < i ==> runs[k].idempotencyKey != key
      {
        if runs[i].idempotencyKey == key {
          return true;
        }
      }
      return false;
    }

    /** Every job once; the order is that of map iteration, which is not fixed. */
    method ListJobs() returns (out: seq<Job>)
      ensures forall i :: 0 <= i < |out| ==> exists id :: id in jobs && out[i] == jobs[id]
      ensures (forall id :: id in jobs ==> jobs[id].id == id) ==> S.Listing(jobs, out)
    {
      out := [];
      var todo := jobs.Keys;
      ghost var done := {};
      while todo != {}
        invariant done + todo == jobs.Keys && done !! todo
        invariant forall i :: 0 <= i < |out| ==> exists id :: id in jobs && out[i] == jobs[id]
        invariant (forall id :: id in jobs ==> jobs[id].id == id) ==> S.ListingOf(jobs, done, out)
      {
        var id :| id in todo;
        S.ListingMore(jobs, done, out, id);
        out := out + [jobs[id]];
        todo := todo - {id};
        done := done + {id};
      }
      assert done == jobs.Keys;
    }
  }
}
