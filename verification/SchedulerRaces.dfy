/**
  * Fires as the code runs them: goroutines that check, update and record in separate steps, with
  * anything else in between. When is the same minute dispatched twice?
  */
module SchedulerRaces {
  import opened StoreTypes
  import opened Store
  import opened P = Scheduler

  /** What a fire's goroutine holds: its copy of the job, the key, the next occurrence, and its luck. */
  datatype Fire = Fire(job: Job, key: string, next: Option<Time>, ch: Chance)

  datatype Stage = Checked | CursorMoved | Stopped | Launched

  /** The store, and how far each fire has come. */
  datatype Race = Race(store: StoreState, stages: map<nat, Stage>)

  datatype Act =
    | Check(f: nat)
    | Update(f: nat)
    | Record(f: nat)
    | Other(cmd: Command)    // any other command, whoever submits it

  predicate CanAct(fires: seq<Fire>, r: Race, act: Act) {
    match act
    case Check(f) => f < |fires| && f !in r.stages
    case Update(f) => f < |fires| && f in r.stages && r.stages[f] == Checked && fires[f].next.Some?
    case Record(f) => f < |fires| && f in r.stages && r.stages[f] == CursorMoved
    case Other(_) => true
  }

  function DoAct(fires: seq<Fire>, r: Race, act: Act, now: Time): Race
    requires CanAct(fires, r, act)
  {
    match act
    case Check(f) =>
      r.(stages := r.stages[f := if AlreadyFired(r.store, fires[f].key) || fires[f].next.None? then Stopped else Checked])
    case Update(f) =>
      var job := Moved(fires[f].job, fires[f].next.value, fires[f].ch);
      Race(SubmitTo(r.store, UpdateJob(job), fires[f].ch.update, now),
           r.stages[f := if fires[f].ch.update == Committed then CursorMoved else Stopped])
    case Record(f) =>
      var run := NewRun(fires[f].job, fires[f].key, fires[f].ch);
      Race(SubmitTo(r.store, RecordRun(run), fires[f].ch.record, now),
           r.stages[f := if fires[f].ch.record == Committed then Launched else Stopped])
    case Other(cmd) => r.(store := Apply(r.store, cmd, now))
  }

  ghost predicate IsRace(fires: seq<Fire>, run: seq<Race>, acts: seq<Act>, nows: seq<Time>) {
    && |run| == |acts| + 1 == |nows| + 1 && run[0].stages == map[]
    && forall k :: 0 <= k < |acts| ==> OneAct(fires, run[k], acts[k], nows[k], run[k + 1])
  }

  predicate OneAct(fires: seq<Fire>, r: Race, act: Act, now: Time, r': Race) {
    CanAct(fires, r, act) && r' == DoAct(fires, r, act, now)
  }

  // ----- undisturbed, the three steps are the single one -----

  function Alone(fires: seq<Fire>, r: Race, f: nat, now: Time): Race
    requires f < |fires| && f !in r.stages
  {
    var r1 := DoAct(fires, r, Check(f), now);
    if r1.stages[f] == Stopped then r1
    else
      var r2 := DoAct(fires, r1, Update(f), now);
      if r2.stages[f] == Stopped then r2 else DoAct(fires, r2, Record(f), now)
  }

  /** With nothing in between, a fire's steps do what the protocol's one step does. */
  lemma AloneIsFire(fires: seq<Fire>, r: Race, f: nat, now: Time)
    requires f < |fires| && f !in r.stages
    ensures var one := FireWith(r.store, fires[f].job, fires[f].key, fires[f].next, now, fires[f].ch);
            && Alone(fires, r, f, now).store == one.store
            && (Alone(fires, r, f, now).stages[f] == Launched <==> one.run.Some?)
  {
  }

  // ----- a fire's own check decides -----

  /** Its expression has a next occurrence and its submits are committed. */
  predicate Unhindered(fire: Fire) {
    fire.next.Some? && Clear(fire.ch)
  }

  /** What the check found is what becomes of the fire. */
  predicate StageFits(fired: bool, stage: Stage) {
    if fired then stage == Stopped else stage != Stopped
  }

  lemma OthersKeepStage(fires: seq<Fire>, r: Race, act: Act, now: Time, f: nat, fired: bool)
    requires CanAct(fires, r, act) && f < |fires| && Unhindered(fires[f])
    requires f in r.stages && StageFits(fired, r.stages[f])
    ensures f in DoAct(fires, r, act, now).stages && StageFits(fired, DoAct(fires, r, act, now).stages[f])
    ensures r.stages[f] == Launched || act == Record(f) ==> DoAct(fires, r, act, now).stages[f] == Launched
  {
  }

  lemma {:induction false} CheckDecides(fires: seq<Fire>, run: seq<Race>, acts: seq<Act>, nows: seq<Time>,
                                       f: nat, c: nat, k: nat)
    requires IsRace(fires, run, acts, nows) && f < |fires| && Unhindered(fires[f])
    requires c < k < |run| && acts[c] == Check(f)
    ensures f in run[k].stages && StageFits(AlreadyFired(run[c].store, fires[f].key), run[k].stages[f])
    decreases k
  {
    assert OneAct(fires, run[k - 1], acts[k - 1], nows[k - 1], run[k]);
    if c < k - 1 {
      CheckDecides(fires, run, acts, nows, f, c, k - 1);
      OthersKeepStage(fires, run[k - 1], acts[k - 1], nows[k - 1], f, AlreadyFired(run[c].store, fires[f].key));
    }
  }

  /** A fire that has ended dispatched exactly if the table it checked did not hold its key. */
  lemma DispatchesIff(fires: seq<Fire>, run: seq<Race>, acts: seq<Act>, nows: seq<Time>, f: nat, c: nat)
    requires IsRace(fires, run, acts, nows) && f < |fires| && Unhindered(fires[f])
    requires c < |acts| && acts[c] == Check(f)
    requires f in run[|acts|].stages && run[|acts|].stages[f] in {Stopped, Launched}
    ensures run[|acts|].stages[f] == Launched <==> !AlreadyFired(run[c].store, fires[f].key)
  {
    CheckDecides(fires, run, acts, nows, f, c, |acts|);
  }

  /** A recorded fire stays dispatched. */
  lemma {:induction false} RecordedStays(fires: seq<Fire>, run: seq<Race>, acts: seq<Act>, nows: seq<Time>,
                                        f: nat, a: nat, k: nat)
    requires IsRace(fires, run, acts, nows) && f < |fires| && Unhindered(fires[f])
    requires a < k < |run| && acts[a] == Record(f)
    ensures f in run[k].stages && run[k].stages[f] == Launched
    decreases k
  {
    assert OneAct(fires, run[k - 1], acts[k - 1], nows[k - 1], run[k]);
    if a < k - 1 {
      RecordedStays(fires, run, acts, nows, f, a, k - 1);
      OthersKeepStage(fires, run[k - 1], acts[k - 1], nows[k - 1], f, false);
    }
  }

  // ----- when the table holds the key -----

  /** The command an act applies to the store; Unknown if it applies none. */
  function CommandOf(fires: seq<Fire>, act: Act): Command
    requires match act case Other(_) => true case _ => act.f < |fires|
  {
    match act
    case Check(_) => Unknown
    case Update(f) =>
      if fires[f].ch.update == Lost || fires[f].next.None? then Unknown
      else UpdateJob(Moved(fires[f].job, fires[f].next.value, fires[f].ch))
    case Record(f) =>
      if fires[f].ch.record == Lost then Unknown else RecordRun(NewRun(fires[f].job, fires[f].key, fires[f].ch))
    case Other(cmd) => cmd
  }

  lemma ActApplies(fires: seq<Fire>, r: Race, act: Act, now: Time)
    requires CanAct(fires, r, act)
    ensures DoAct(fires, r, act, now).store == Apply(r.store, CommandOf(fires, act), now)
  {
  }

  predicate Records(cmd: Command, key: string) {
    cmd.RecordRun? && cmd.run.idempotencyKey == key
  }

  predicate KeyAbsent(runs: seq<JobRun>, key: string) {
    forall i :: 0 <= i < |runs| ==> runs[i].idempotencyKey != key
  }

  lemma DeleteKeepsAbsent(runs: seq<JobRun>, id: string, key: string)
    requires KeyAbsent(runs, key)
    ensures KeyAbsent(Without(runs, id), key)
  {
    var pos := WithoutIsFilter(runs, id);
  }

  lemma UpsertKeepsAbsent(s: StoreState, run: JobRun, now: Time, key: string)
    requires KeyAbsent(s.runs, key) && run.idempotencyKey != key
    ensures KeyAbsent(UpsertRun(s, run, now).runs, key)
  {
    var runs', p, all := UpsertRun(s, run, now).runs, Find(s.runs, run.idempotencyKey), s.runs + [run];
    forall i | 0 <= i < |runs'| ensures runs'[i].idempotencyKey != key {
      if p == |s.runs| {
        assert runs'[i] == all[i + (|all| - |runs'|)];
      }
    }
  }

  /** Only a record of the key brings the key into the table. */
  lemma StaysAbsent(s: StoreState, cmd: Command, now: Time, key: string)
    requires key != "" && !AlreadyFired(s, key) && !Records(cmd, key)
    ensures !AlreadyFired(Apply(s, cmd, now), key)
  {
    assert KeyAbsent(s.runs, key);
    match cmd {
      case DeleteJob(id) => DeleteKeepsAbsent(s.runs, id, key);
      case RecordRun(run) => UpsertKeepsAbsent(s, run, now, key);
      case _ =>
    }
  }

  lemma {:induction false} AbsentUntil(fires: seq<Fire>, run: seq<Race>, acts: seq<Act>, nows: seq<Time>, key: string, k: nat)
    requires IsRace(fires, run, acts, nows) && key != "" && k < |run| && !AlreadyFired(run[0].store, key)
    requires forall i :: 0 <= i < k ==> acts[i].Other? || acts[i].f < |fires|
    requires forall i :: 0 <= i < k ==> !Records(CommandOf(fires, acts[i]), key)
    ensures !AlreadyFired(run[k].store, key)
    decreases k
  {
    if k > 0 {
      AbsentUntil(fires, run, acts, nows, key, k - 1);
      assert OneAct(fires, run[k - 1], acts[k - 1], nows[k - 1], run[k]);
      ActApplies(fires, run[k - 1], acts[k - 1], nows[k - 1]);
      StaysAbsent(run[k - 1].store, CommandOf(fires, acts[k - 1]), nows[k - 1], key);
    }
  }

  lemma {:induction false} TableOk(fires: seq<Fire>, run: seq<Race>, acts: seq<Act>, nows: seq<Time>, k: nat)
    requires IsRace(fires, run, acts, nows) && k < |run| && RunsOk(run[0].store.runs)
    ensures RunsOk(run[k].store.runs)
    decreases k
  {
    if k > 0 {
      TableOk(fires, run, acts, nows, k - 1);
      assert OneAct(fires, run[k - 1], acts[k - 1], nows[k - 1], run[k]);
      ActApplies(fires, run[k - 1], acts[k - 1], nows[k - 1]);
      ApplyRunsOk(run[k - 1].store, CommandOf(fires, acts[k - 1]), nows[k - 1]);
    }
  }

  /** The first record of a key puts it at the new end of the table. */
  lemma FirstIsNewest(s: StoreState, run: JobRun, now: Time)
    requires run.idempotencyKey != "" && !AlreadyFired(s, run.idempotencyKey)
    ensures Recent(Apply(s, RecordRun(run), now).runs, run.idempotencyKey, run.jobId, 0)
  {
    var runs' := Apply(s, RecordRun(run), now).runs;
    assert Find(s.runs, run.idempotencyKey) == |s.runs|;
    assert runs'[|runs'| - 1] == run;
  }

  lemma RecentNow(s: StoreState, key: string, jobId: string, d: int, cmd: Command, now: Time)
    requires RunsOk(s.runs) && key != "" && d + 1 < MAX_RUNS && Recent(s.runs, key, jobId, d) && Spares(cmd, key, jobId)
    ensures Recent(Apply(s, cmd, now).runs, key, jobId, d + 1)
  {
    RecentApplied(s, key, jobId, d, cmd);
    ApplySame(s, s, cmd, now, ZERO_TIME);
  }

  /** From the first record on, the key stays for as long as MAX_RUNS acts that spare its job. */
  lemma {:induction false} KeyStays(fires: seq<Fire>, run: seq<Race>, acts: seq<Act>, nows: seq<Time>,
                                   f: nat, a: nat, k: nat)
    requires IsRace(fires, run, acts, nows) && f < |fires| && Unhindered(fires[f]) && fires[f].key != ""
    requires a < k < |run| && k <= a + MAX_RUNS && acts[a] == Record(f) && RunsOk(run[0].store.runs)
    requires !AlreadyFired(run[a].store, fires[f].key)
    requires forall i :: a < i < k ==> acts[i].Other? || acts[i].f < |fires|
    requires forall i :: a < i < k ==> Spares(CommandOf(fires, acts[i]), fires[f].key, fires[f].job.id)
    ensures Recent(run[k].store.runs, fires[f].key, fires[f].job.id, k - a - 1)
    decreases k
  {
    assert OneAct(fires, run[k - 1], acts[k - 1], nows[k - 1], run[k]);
    ActApplies(fires, run[k - 1], acts[k - 1], nows[k - 1]);
    if a == k - 1 {
      FirstIsNewest(run[a].store, NewRun(fires[f].job, fires[f].key, fires[f].ch), nows[a]);
    } else {
      KeyStays(fires, run, acts, nows, f, a, k - 1);
      TableOk(fires, run, acts, nows, k - 1);
      RecentNow(run[k - 1].store, fires[f].key, fires[f].job.id, k - a - 2, CommandOf(fires, acts[k - 1]), nows[k - 1]);
    }
  }

  lemma RecentIsFired(s: StoreState, key: string, jobId: string, d: int)
    requires Recent(s.runs, key, jobId, d)
    ensures AlreadyFired(s, key)
  {
  }

  // ----- when a minute is dispatched twice -----

  /** The acts name fires there are. */
  predicate Named(fires: seq<Fire>, acts: seq<Act>) {
    forall i :: 0 <= i < |acts| ==> acts[i].Other? || acts[i].f < |fires|
  }

  lemma ActsNamed(fires: seq<Fire>, run: seq<Race>, acts: seq<Act>, nows: seq<Time>)
    requires IsRace(fires, run, acts, nows)
    ensures Named(fires, acts)
  {
    forall i | 0 <= i < |acts| ensures acts[i].Other? || acts[i].f < |fires| {
      assert OneAct(fires, run[i], acts[i], nows[i], run[i + 1]);
    }
  }

  /**
    * Act a is the first record of a minute, made by fire f. Any other fire g of that minute
    * dispatches it again exactly if g made its check before act a, even between f's own check and
    * act a; for g to be stopped, its check may be up to MAX_RUNS acts later that spare the job.
    */
  lemma RepeatsIff(fires: seq<Fire>, run: seq<Race>, acts: seq<Act>, nows: seq<Time>, f: nat, g: nat, a: nat, b: nat)
    requires IsRace(fires, run, acts, nows) && Named(fires, acts) && f < |fires| && g < |fires|
    requires Unhindered(fires[f]) && Unhindered(fires[g])
    requires fires[g].key == fires[f].key != "" && RunsOk(run[0].store.runs) && !AlreadyFired(run[0].store, fires[f].key)
    requires a < |acts| && acts[a] == Record(f)
    requires forall i :: 0 <= i < a ==> !Records(CommandOf(fires, acts[i]), fires[f].key)
    requires b < |acts| && b <= a + MAX_RUNS && acts[b] == Check(g)
    requires forall i :: a < i < b ==> Spares(CommandOf(fires, acts[i]), fires[f].key, fires[f].job.id)
    requires g in run[|acts|].stages && run[|acts|].stages[g] in {Stopped, Launched}
    ensures f in run[|acts|].stages && run[|acts|].stages[f] == Launched
    ensures run[|acts|].stages[g] == Launched <==> b < a
  {
    RecordedStays(fires, run, acts, nows, f, a, |acts|);
    DispatchesIff(fires, run, acts, nows, g, b);
    if b < a {
      AbsentUntil(fires, run, acts, nows, fires[f].key, b);
    } else {
      AbsentUntil(fires, run, acts, nows, fires[f].key, a);
      KeyStays(fires, run, acts, nows, f, a, b);
      RecentIsFired(run[b].store, fires[f].key, fires[f].job.id, b - a - 1);
    }
  }

  // ----- and it can be -----

  lemma RaceLonger(fires: seq<Fire>, run: seq<Race>, acts: seq<Act>, nows: seq<Time>, act: Act, now: Time)
    returns (run': seq<Race>)
    requires IsRace(fires, run, acts, nows) && CanAct(fires, run[|acts|], act)
    ensures IsRace(fires, run', acts + [act], nows + [now]) && run'[0] == run[0]
    ensures run'[|acts| + 1] == DoAct(fires, run[|acts|], act, now)
  {
    run' := run + [DoAct(fires, run[|acts|], act, now)];
    forall k | 0 <= k < |acts| + 1
      ensures OneAct(fires, run'[k], (acts + [act])[k], (nows + [now])[k], run'[k + 1])
    {
      if k < |acts| {
        assert OneAct(fires, run[k], acts[k], nows[k], run[k + 1]);
      }
    }
  }

  lemma ChecksFree(fires: seq<Fire>, r: Race, f: nat, now: Time)
    requires f < |fires| && f !in r.stages && Unhindered(fires[f]) && !AlreadyFired(r.store, fires[f].key)
    ensures DoAct(fires, r, Check(f), now) == r.(stages := r.stages[f := Checked])
  {
  }

  /** The rest of a fire that has checked, up to its dispatch. */
  lemma Dispatches(fires: seq<Fire>, run: seq<Race>, acts: seq<Act>, nows: seq<Time>, f: nat, now: Time)
    returns (run': seq<Race>)
    requires IsRace(fires, run, acts, nows) && f < |fires| && Unhindered(fires[f])
    requires f in run[|acts|].stages && run[|acts|].stages[f] == Checked
    ensures IsRace(fires, run', acts + [Update(f)] + [Record(f)], nows + [now] + [now]) && run'[0] == run[0]
    ensures run'[|acts| + 2].stages == run[|acts|].stages[f := Launched]
  {
    run' := RaceLonger(fires, run, acts, nows, Update(f), now);
    run' := RaceLonger(fires, run', acts + [Update(f)], nows + [now], Record(f), now);
  }

  /** Any minute not yet recorded can be dispatched twice: both fires check, then each updates and records. */
  lemma BothDispatch(fire: Fire, s: StoreState, now: Time) returns (run: seq<Race>, acts: seq<Act>, nows: seq<Time>)
    requires Unhindered(fire) && !AlreadyFired(s, fire.key)
    ensures IsRace([fire, fire], run, acts, nows) && run[0].store == s
    ensures run[|acts|].stages == map[0 := Launched, 1 := Launched]
  {
    var fires, none: seq<Act> := [fire, fire], [];
    ChecksFree(fires, Race(s, map[]), 0, now);
    run := RaceLonger(fires, [Race(s, map[])], none, [], Check(0), now);
    ChecksFree(fires, run[1], 1, now);
    acts, nows := none + [Check(0)], [] + [now];
    run := RaceLonger(fires, run, acts, nows, Check(1), now);
    acts, nows := acts + [Check(1)], nows + [now];
    run := Dispatches(fires, run, acts, nows, 0, now);
    acts, nows := acts + [Update(0)] + [Record(0)], nows + [now] + [now];
    run := Dispatches(fires, run, acts, nows, 1, now);
    acts, nows := acts + [Update(1)] + [Record(1)], nows + [now] + [now];
  }
}
