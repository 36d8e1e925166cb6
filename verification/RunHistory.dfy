/** Which command put each run in the table, and what became of the runs that are no longer there. */
module RunHistory {
  import opened StoreTypes
  import opened Store

  /** The run table after the first u commands. */
  function TableAt(cmds: seq<Command>, u: nat): seq<JobRun>
    requires u <= |cmds|
  {
    Fold(cmds[..u]).runs
  }

  predicate KeyIn(runs: seq<JobRun>, key: string) {
    Find(runs, key) < |runs|
  }

  /** Command t records a run whose key the table does not hold: it adds a run. */
  predicate Inserts(cmds: seq<Command>, t: nat) {
    t < |cmds| && cmds[t].RecordRun? && !KeyIn(TableAt(cmds, t), cmds[t].run.idempotencyKey)
  }

  /** The table holds the key at every moment after command t. */
  predicate HeldSince(cmds: seq<Command>, key: string, t: nat) {
    forall u :: t < u <= |cmds| ==> KeyIn(TableAt(cmds, u), key)
  }

  predicate NotDeletedSince(cmds: seq<Command>, jobId: string, t: nat) {
    forall u :: t < u < |cmds| ==> cmds[u] != DeleteJob(jobId)
  }

  /** Command t added this run, which has been in the table ever since; without a key it is unchanged. */
  predicate InsertedBy(cmds: seq<Command>, run: JobRun, t: nat) {
    && Inserts(cmds, t) && cmds[t].run.idempotencyKey == run.idempotencyKey
    && if run.idempotencyKey != "" then HeldSince(cmds, run.idempotencyKey, t)
       else cmds[t].run == run && NotDeletedSince(cmds, run.jobId, t)
  }

  predicate Ascending(ts: seq<nat>) {
    forall i, j :: 0 <= i < j < |ts| ==> ts[i] < ts[j]
  }

  /** The table's runs, in order, were added by commands ts, in order. */
  predicate Inserted(cmds: seq<Command>, runs: seq<JobRun>, ts: seq<nat>) {
    && |ts| == |runs| && Ascending(ts)
    && forall i :: 0 <= i < |ts| ==> InsertedBy(cmds, runs[i], ts[i])
  }

  /** Command v, a delete, takes out the run that command u added. */
  predicate DropsAt(cmds: seq<Command>, u: nat, v: nat)
    requires Inserts(cmds, u)
  {
    u < v < |cmds| && cmds[v].DeleteJob? &&
    var key := cmds[u].run.idempotencyKey;
    if key != "" then KeyIn(TableAt(cmds, v), key) && !KeyIn(TableAt(cmds, v + 1), key)
    else cmds[v].id == cmds[u].run.jobId
  }

  /** Command v adds a run to a full table after command u. */
  predicate FullAt(cmds: seq<Command>, u: nat, v: nat) {
    u < v && Inserts(cmds, v) && |TableAt(cmds, v)| == MAX_RUNS
  }

  /** What command u added is older than everything kept, and the table has been full since. */
  ghost predicate Evicted(cmds: seq<Command>, u: nat, ts: seq<nat>) {
    (forall i :: 0 <= i < |ts| ==> u < ts[i]) && exists v: nat :: FullAt(cmds, u, v)
  }

  ghost predicate AccountedFor(cmds: seq<Command>, u: nat, ts: seq<nat>)
    requires Inserts(cmds, u)
  {
    u in ts || (exists v: nat :: DropsAt(cmds, u, v)) || Evicted(cmds, u, ts)
  }

  /** Every run ever added is still there, or was deleted with its job, or was among the oldest when the table was full. */
  ghost predicate Accounted(cmds: seq<Command>, ts: seq<nat>) {
    forall u :: 0 <= u < |cmds| && Inserts(cmds, u) ==> AccountedFor(cmds, u, ts)
  }

  // ----- one more command -----

  lemma TableBefore(cmds: seq<Command>, c: Command, u: nat)
    requires u <= |cmds|
    ensures TableAt(cmds + [c], u) == TableAt(cmds, u)
    ensures u < |cmds| ==> Inserts(cmds + [c], u) == Inserts(cmds, u)
  {
    assert (cmds + [c])[..u] == cmds[..u];
  }

  lemma TableAfter(cmds: seq<Command>, c: Command)
    ensures TableAt(cmds + [c], |cmds| + 1) == Apply(Fold(cmds), c, ZERO_TIME).runs
    ensures Fold(cmds + [c]) == Apply(Fold(cmds), c, ZERO_TIME)
    ensures TableAt(cmds, |cmds|) == Fold(cmds).runs
  {
    assert (cmds + [c])[..|cmds| + 1] == cmds + [c];
    assert (cmds + [c])[..|cmds|] == cmds && cmds[..|cmds|] == cmds;
  }

  lemma KeyFound(runs: seq<JobRun>, i: nat)
    requires i < |runs| && runs[i].idempotencyKey != ""
    ensures KeyIn(runs, runs[i].idempotencyKey)
  {
  }

  /** A run that is still in the table after one more command was put there by the same command. */
  lemma Carried(cmds: seq<Command>, c: Command, run: JobRun, t: nat, i: nat)
    requires InsertedBy(cmds, run, t) && i < |Fold(cmds + [c]).runs|
    requires Fold(cmds + [c]).runs[i].idempotencyKey == run.idempotencyKey
    requires run.idempotencyKey == "" ==> Fold(cmds + [c]).runs[i] == run && c != DeleteJob(run.jobId)
    ensures InsertedBy(cmds + [c], Fold(cmds + [c]).runs[i], t)
  {
    var key := run.idempotencyKey;
    TableBefore(cmds, c, t);
    TableAfter(cmds, c);
    if key != "" {
      KeyFound(Fold(cmds + [c]).runs, i);
      forall u | t < u <= |cmds| + 1 ensures KeyIn(TableAt(cmds + [c], u), key) {
        if u <= |cmds| {
          TableBefore(cmds, c, u);
          assert KeyIn(TableAt(cmds, u), key);
        }
      }
    }
  }

  function Pick(ts: seq<nat>, pos: seq<nat>): (r: seq<nat>)
    requires forall i :: 0 <= i < |pos| ==> pos[i] < |ts|
    ensures |r| == |pos| && forall i :: 0 <= i < |pos| ==> r[i] == ts[pos[i]]
  {
    seq(|pos|, i requires 0 <= i < |pos| => ts[pos[i]])
  }

  /** The new table starts with old runs, found at pos. */
  predicate MadeOf(runs': seq<JobRun>, runs: seq<JobRun>, pos: seq<nat>, c: Command) {
    && |pos| <= |runs'| && Ascending(pos)
    && forall i :: 0 <= i < |pos| ==> pos[i] < |runs| && Comes(runs[pos[i]], runs'[i], c)
  }

  /** They keep their commands. */
  lemma CarriedAll(cmds: seq<Command>, c: Command, ts: seq<nat>, pos: seq<nat>, i: nat)
    requires Inserted(cmds, Fold(cmds).runs, ts) && MadeOf(Fold(cmds + [c]).runs, Fold(cmds).runs, pos, c) && i < |pos|
    ensures InsertedBy(cmds + [c], Fold(cmds + [c]).runs[i], ts[pos[i]])
  {
    assert InsertedBy(cmds, Fold(cmds).runs[pos[i]], ts[pos[i]]);
    Carried(cmds, c, Fold(cmds).runs[pos[i]], ts[pos[i]], i);
  }

  /** The second run is the first one after command c. */
  predicate Comes(run: JobRun, run': JobRun, c: Command) {
    run'.idempotencyKey == run.idempotencyKey && (run.idempotencyKey == "" ==> run' == run && c != DeleteJob(run.jobId))
  }

  lemma StillDropped(cmds: seq<Command>, c: Command, u: nat, v: nat)
    requires Inserts(cmds, u) && DropsAt(cmds, u, v)
    ensures Inserts(cmds + [c], u) && DropsAt(cmds + [c], u, v)
  {
    TableBefore(cmds, c, u);
    TableBefore(cmds, c, v);
    TableBefore(cmds, c, v + 1);
  }

  lemma StillEvicted(cmds: seq<Command>, c: Command, u: nat, ts: seq<nat>, ts': seq<nat>)
    requires u < |cmds| && Evicted(cmds, u, ts) && forall t :: t in ts' ==> t in ts || t == |cmds|
    ensures Evicted(cmds + [c], u, ts')
  {
    var v: nat :| FullAt(cmds, u, v);
    TableBefore(cmds, c, v);
    assert FullAt(cmds + [c], u, v);
    forall i | 0 <= i < |ts'| ensures u < ts'[i] {
      assert ts'[i] in ts';
    }
  }

  /** What was deleted stays accounted for, and so does what was evicted, whatever later runs are kept. */
  lemma StillAccounted(cmds: seq<Command>, c: Command, u: nat, ts: seq<nat>, ts': seq<nat>)
    requires Inserts(cmds, u) && AccountedFor(cmds, u, ts) && u !in ts
    requires forall t :: t in ts' ==> t in ts || t == |cmds|
    ensures Inserts(cmds + [c], u) && AccountedFor(cmds + [c], u, ts')
  {
    TableBefore(cmds, c, u);
    if v: nat :| DropsAt(cmds, u, v) {
      StillDropped(cmds, c, u, v);
    } else {
      StillEvicted(cmds, c, u, ts, ts');
    }
  }

  lemma AccountedOn(cmds: seq<Command>, c: Command, ts: seq<nat>, ts': seq<nat>)
    requires Accounted(cmds, ts) && (forall t :: t in ts' ==> t in ts || t == |cmds|)
    requires forall u :: u in ts && u < |cmds| && Inserts(cmds + [c], u) ==> AccountedFor(cmds + [c], u, ts')
    requires Inserts(cmds + [c], |cmds|) ==> |cmds| in ts'
    ensures Accounted(cmds + [c], ts')
  {
    forall u | 0 <= u < |cmds| + 1 && Inserts(cmds + [c], u) ensures AccountedFor(cmds + [c], u, ts') {
      if u < |cmds| {
        TableBefore(cmds, c, u);
        if u !in ts {
          StillAccounted(cmds, c, u, ts, ts');
        }
      }
    }
  }

  // ----- the three kinds of command -----

  function Places(from: nat, n: nat): (pos: seq<nat>)
    ensures |pos| == n && forall i :: 0 <= i < n ==> pos[i] == from + i
  {
    seq(n, i => from + i)
  }

  /** A command that leaves the table's keys, or all of it, as they are. */
  lemma SameTable(cmds: seq<Command>, c: Command, ts: seq<nat>)
    requires Inserted(cmds, Fold(cmds).runs, ts) && Accounted(cmds, ts)
    requires !c.DeleteJob? && (c.RecordRun? ==> KeyIn(Fold(cmds).runs, c.run.idempotencyKey))
    ensures Inserted(cmds + [c], Fold(cmds + [c]).runs, ts) && Accounted(cmds + [c], ts)
  {
    var runs, runs' := Fold(cmds).runs, Fold(cmds + [c]).runs;
    TableAfter(cmds, c);
    TableBefore(cmds, c, |cmds|);
    assert MadeOf(runs', runs, Places(0, |runs|), c);
    forall i | 0 <= i < |ts| ensures InsertedBy(cmds + [c], runs'[i], ts[i]) {
      CarriedAll(cmds, c, ts, Places(0, |runs|), i);
    }
    forall u | u in ts && u < |cmds| && Inserts(cmds + [c], u) ensures AccountedFor(cmds + [c], u, ts) {
    }
    AccountedOn(cmds, c, ts, ts);
  }

  /** A new run at the end; the oldest goes if the table was full. */
  lemma NewRunTable(cmds: seq<Command>, run: JobRun)
    requires !KeyIn(Fold(cmds).runs, run.idempotencyKey) && |Fold(cmds).runs| <= MAX_RUNS
    ensures var runs, runs' := Fold(cmds).runs, Fold(cmds + [RecordRun(run)]).runs;
            && runs' == runs[if |runs| == MAX_RUNS then 1 else 0..] + [run]
            && Inserts(cmds + [RecordRun(run)], |cmds|)
  {
    TableAfter(cmds, RecordRun(run));
    TableBefore(cmds, RecordRun(run), |cmds|);
    assert cmds[..|cmds|] == cmds;
  }

  /** The commands of the runs kept beside the new one. */
  function KeptBy(ts: seq<nat>): seq<nat> {
    if |ts| == MAX_RUNS then ts[1..] else ts
  }

  lemma KeptMembers(ts: seq<nat>, n: nat)
    ensures n in KeptBy(ts) + [n] && forall t :: t in KeptBy(ts) + [n] ==> t in ts || t == n
    ensures forall i :: 0 <= i < |ts| && (i > 0 || |ts| != MAX_RUNS) ==> ts[i] in KeptBy(ts) + [n]
  {
    var ts' := KeptBy(ts) + [n];
    assert ts'[|ts'| - 1] == n;
    forall i | 0 <= i < |ts| && (i > 0 || |ts| != MAX_RUNS) ensures ts[i] in ts' {
      assert ts'[if |ts| == MAX_RUNS then i - 1 else i] == ts[i];
    }
  }

  lemma MadeOfKept(runs: seq<JobRun>, runs': seq<JobRun>, run: JobRun, d: nat, c: Command)
    requires d <= |runs| && runs' == runs[d..] + [run] && !c.DeleteJob?
    ensures MadeOf(runs', runs, Places(d, |runs| - d), c)
  {
  }

  lemma OldRunsCarried(cmds: seq<Command>, run: JobRun, ts: seq<nat>, i: nat)
    requires Inserted(cmds, Fold(cmds).runs, ts) && i < |KeptBy(ts)|
    requires !KeyIn(Fold(cmds).runs, run.idempotencyKey) && |Fold(cmds).runs| <= MAX_RUNS
    ensures |KeptBy(ts)| < |Fold(cmds + [RecordRun(run)]).runs|
    ensures InsertedBy(cmds + [RecordRun(run)], Fold(cmds + [RecordRun(run)]).runs[i], KeptBy(ts)[i])
  {
    var d := if |ts| == MAX_RUNS then 1 else 0;
    NewRunTable(cmds, run);
    MadeOfKept(Fold(cmds).runs, Fold(cmds + [RecordRun(run)]).runs, run, d, RecordRun(run));
    CarriedAll(cmds, RecordRun(run), ts, Places(d, |ts| - d), i);
  }

  lemma NewRunsInserted(cmds: seq<Command>, run: JobRun, ts: seq<nat>, i: nat)
    requires Inserted(cmds, Fold(cmds).runs, ts) && i <= |KeptBy(ts)|
    requires !KeyIn(Fold(cmds).runs, run.idempotencyKey) && |Fold(cmds).runs| <= MAX_RUNS
    ensures |Fold(cmds + [RecordRun(run)]).runs| == |KeptBy(ts)| + 1
    ensures InsertedBy(cmds + [RecordRun(run)], Fold(cmds + [RecordRun(run)]).runs[i], (KeptBy(ts) + [|cmds|])[i])
  {
    NewRunTable(cmds, run);
    if i < |KeptBy(ts)| {
      OldRunsCarried(cmds, run, ts, i);
    } else {
      NewestInserted(cmds, run);
    }
  }

  lemma KeptAscending(ts: seq<nat>, n: nat)
    requires Ascending(ts) && forall i :: 0 <= i < |ts| ==> ts[i] < n
    ensures Ascending(KeptBy(ts) + [n])
  {
  }

  lemma InsertedEarlier(cmds: seq<Command>, runs: seq<JobRun>, ts: seq<nat>)
    requires Inserted(cmds, runs, ts)
    ensures forall i :: 0 <= i < |ts| ==> ts[i] < |cmds|
  {
    forall i | 0 <= i < |ts| ensures ts[i] < |cmds| {
      assert InsertedBy(cmds, runs[i], ts[i]);
    }
  }

  lemma NewRunCarried(cmds: seq<Command>, run: JobRun, ts: seq<nat>)
    requires Inserted(cmds, Fold(cmds).runs, ts)
    requires !KeyIn(Fold(cmds).runs, run.idempotencyKey) && |Fold(cmds).runs| <= MAX_RUNS
    ensures Inserted(cmds + [RecordRun(run)], Fold(cmds + [RecordRun(run)]).runs, KeptBy(ts) + [|cmds|])
  {
    NewRunsInserted(cmds, run, ts, 0);
    forall i | 0 <= i < |KeptBy(ts) + [|cmds|]|
      ensures InsertedBy(cmds + [RecordRun(run)], Fold(cmds + [RecordRun(run)]).runs[i], (KeptBy(ts) + [|cmds|])[i])
    {
      NewRunsInserted(cmds, run, ts, i);
    }
    InsertedEarlier(cmds, Fold(cmds).runs, ts);
    KeptAscending(ts, |cmds|);
  }

  lemma NewestInserted(cmds: seq<Command>, run: JobRun)
    requires !KeyIn(Fold(cmds).runs, run.idempotencyKey) && |Fold(cmds).runs| <= MAX_RUNS
    ensures InsertedBy(cmds + [RecordRun(run)], run, |cmds|)
  {
    var c := RecordRun(run);
    NewRunTable(cmds, run);
    TableAfter(cmds, c);
    if run.idempotencyKey != "" {
      KeyFound(Fold(cmds + [c]).runs, |Fold(cmds + [c]).runs| - 1);
    }
  }

  /** The oldest run makes room for the new one. */
  lemma OldestEvicted(cmds: seq<Command>, run: JobRun, ts: seq<nat>)
    requires Inserted(cmds, Fold(cmds).runs, ts) && |ts| == MAX_RUNS && ts[0] < |cmds|
    requires !KeyIn(Fold(cmds).runs, run.idempotencyKey)
    ensures Evicted(cmds + [RecordRun(run)], ts[0], KeptBy(ts) + [|cmds|])
  {
    var c, ts' := RecordRun(run), KeptBy(ts) + [|cmds|];
    NewRunTable(cmds, run);
    TableBefore(cmds, c, |cmds|);
    TableAfter(cmds, c);
    assert FullAt(cmds + [c], ts[0], |cmds|);
    forall i | 0 <= i < |ts'| ensures ts[0] < ts'[i] {
      assert i < |KeptBy(ts)| ==> ts'[i] == ts[i + 1];
    }
  }

  lemma NewRunAccounted(cmds: seq<Command>, run: JobRun, ts: seq<nat>)
    requires Inserted(cmds, Fold(cmds).runs, ts) && Accounted(cmds, ts)
    requires !KeyIn(Fold(cmds).runs, run.idempotencyKey)
    ensures Accounted(cmds + [RecordRun(run)], KeptBy(ts) + [|cmds|])
  {
    var c, ts' := RecordRun(run), KeptBy(ts) + [|cmds|];
    KeptMembers(ts, |cmds|);
    forall u: nat | u in ts && u < |cmds| && Inserts(cmds + [c], u) ensures AccountedFor(cmds + [c], u, ts') {
      if u !in ts' {
        assert u == ts[0] && |ts| == MAX_RUNS;
        OldestEvicted(cmds, run, ts);
      }
    }
    AccountedOn(cmds, c, ts, ts');
  }

  /** What a delete takes out was dropped by it. */
  lemma DeletedDrops(cmds: seq<Command>, id: string, i: nat, u: nat)
    requires RunsOk(Fold(cmds).runs) && i < |Fold(cmds).runs| && Fold(cmds).runs[i].jobId == id
    requires InsertedBy(cmds, Fold(cmds).runs[i], u)
    ensures Inserts(cmds + [DeleteJob(id)], u) && DropsAt(cmds + [DeleteJob(id)], u, |cmds|)
  {
    var c, runs := DeleteJob(id), Fold(cmds).runs;
    TableBefore(cmds, c, u);
    TableBefore(cmds, c, |cmds|);
    TableAfter(cmds, c);
    var pos := WithoutIsFilter(runs, id);
    if runs[i].idempotencyKey != "" {
      KeyFound(runs, i);
      var key, left := runs[i].idempotencyKey, Without(runs, id);
      forall k | 0 <= k < |left| ensures left[k].idempotencyKey != key {
        assert left[k] == runs[pos[k]] && pos[k] in pos;
      }
    }
  }

  lemma DeletedMadeOf(runs: seq<JobRun>, id: string, pos: seq<nat>)
    requires Filters(runs, id, Without(runs, id), pos)
    ensures MadeOf(Without(runs, id), runs, pos, DeleteJob(id))
  {
    forall i | 0 <= i < |pos| ensures Comes(runs[pos[i]], Without(runs, id)[i], DeleteJob(id)) {
      assert pos[i] in pos;
    }
  }

  lemma DeletedCarried(cmds: seq<Command>, id: string, ts: seq<nat>, pos: seq<nat>)
    requires Inserted(cmds, Fold(cmds).runs, ts) && Filters(Fold(cmds).runs, id, Without(Fold(cmds).runs, id), pos)
    ensures Inserted(cmds + [DeleteJob(id)], Fold(cmds + [DeleteJob(id)]).runs, Pick(ts, pos))
  {
    TableAfter(cmds, DeleteJob(id));
    DeletedMadeOf(Fold(cmds).runs, id, pos);
    forall i | 0 <= i < |pos|
      ensures InsertedBy(cmds + [DeleteJob(id)], Fold(cmds + [DeleteJob(id)]).runs[i], Pick(ts, pos)[i])
    {
      CarriedAll(cmds, DeleteJob(id), ts, pos, i);
    }
  }

  lemma Picked(ts: seq<nat>, pos: seq<nat>, k: nat)
    requires k < |pos| && forall i :: 0 <= i < |pos| ==> pos[i] < |ts|
    ensures ts[pos[k]] in Pick(ts, pos) && forall t :: t in Pick(ts, pos) ==> t in ts
  {
    assert Pick(ts, pos)[k] == ts[pos[k]];
  }

  lemma DeletedFor(cmds: seq<Command>, id: string, ts: seq<nat>, pos: seq<nat>, i: nat)
    requires Inserted(cmds, Fold(cmds).runs, ts) && RunsOk(Fold(cmds).runs) && i < |ts|
    requires Filters(Fold(cmds).runs, id, Without(Fold(cmds).runs, id), pos)
    ensures Inserts(cmds + [DeleteJob(id)], ts[i]) && AccountedFor(cmds + [DeleteJob(id)], ts[i], Pick(ts, pos))
  {
    assert InsertedBy(cmds, Fold(cmds).runs[i], ts[i]);
    TableBefore(cmds, DeleteJob(id), ts[i]);
    if Fold(cmds).runs[i].jobId == id {
      DeletedDrops(cmds, id, i, ts[i]);
    } else {
      var k :| 0 <= k < |pos| && pos[k] == i;
      Picked(ts, pos, k);
    }
  }

  lemma DeletedAccounted(cmds: seq<Command>, id: string, ts: seq<nat>, pos: seq<nat>)
    requires Inserted(cmds, Fold(cmds).runs, ts) && Accounted(cmds, ts) && RunsOk(Fold(cmds).runs)
    requires Filters(Fold(cmds).runs, id, Without(Fold(cmds).runs, id), pos)
    ensures Accounted(cmds + [DeleteJob(id)], Pick(ts, pos))
  {
    forall u: nat | u in ts && u < |cmds| && Inserts(cmds + [DeleteJob(id)], u)
      ensures AccountedFor(cmds + [DeleteJob(id)], u, Pick(ts, pos))
    {
      var i :| 0 <= i < |ts| && ts[i] == u;
      DeletedFor(cmds, id, ts, pos, i);
    }
    forall t | t in Pick(ts, pos) ensures t in ts {
      var i :| 0 <= i < |pos| && Pick(ts, pos)[i] == t;
      Picked(ts, pos, i);
    }
    AccountedOn(cmds, DeleteJob(id), ts, Pick(ts, pos));
  }

  /**
    * The run table holds its runs in the order in which the commands ts first added them, each kept
    * ever since; a run that is not there was deleted with its job, or was among the oldest when the
    * table was full.
    */
  lemma {:induction false} InsertionOrder(cmds: seq<Command>) returns (ts: seq<nat>)
    ensures Inserted(cmds, Fold(cmds).runs, ts) && Accounted(cmds, ts)
    decreases |cmds|
  {
    if cmds == [] {
      ts := [];
    } else {
      var init, c := cmds[..|cmds| - 1], cmds[|cmds| - 1];
      assert cmds == init + [c];
      var ts0 := InsertionOrder(init);
      FoldRunsOk(init);
      if c.DeleteJob? {
        var pos := WithoutIsFilter(Fold(init).runs, c.id);
        DeletedCarried(init, c.id, ts0, pos);
        DeletedAccounted(init, c.id, ts0, pos);
        ts := Pick(ts0, pos);
      } else if c.RecordRun? && !KeyIn(Fold(init).runs, c.run.idempotencyKey) {
        NewRunCarried(init, c.run, ts0);
        NewRunAccounted(init, c.run, ts0);
        ts := KeptBy(ts0) + [|init|];
      } else {
        SameTable(init, c, ts0);
        ts := ts0;
      }
    }
  }
}
