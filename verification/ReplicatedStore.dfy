/**
  * The whole system: a cluster of Raft nodes, each feeding the store on its machine. A node's
  * apply loop puts committed commands into a channel; the store's apply loop takes them out,
  * applies each, has Raft save a snapshot, and only then wakes whoever waits for that index.
  */
module ReplicatedStore {
  import opened StoreTypes
  import opened RaftTypes
  import opened RaftNode
  import opened RaftCluster
  import opened StoreServer
  import opened S = Store
  import RaftSafety
  import H = RunHistory

  /** Where a store's apply loop stands between two of its locked regions. */
  datatype Phase =
    | Ready
    | Taken(index: nat, snapshot: Option<StoreState>)   // applied, Raft not yet told
    | Saved(index: nat)                                 // Raft told, waiter not yet woken

  /** One machine's store. `done` records the entries it has consumed since index 1, for the proofs. */
  datatype Server = Server(replica: Replica, channel: seq<ApplyMsg>, phase: Phase, done: seq<Option<Command>>)

  /** `notified` records which waiters, by machine and index, have been woken. */
  datatype System = System(cluster: Cluster, servers: seq<Server>, notified: set<(nat, nat)>)

  datatype Step =
    | RaftStep(e: Event)                // elections, replication, submitting
    | Delivers(i: nat)                  // Raft hands the next committed entry to the channel
    | Takes(i: nat, now: Time)          // the store applies it
    | Saves(i: nat)                     // Raft compacts its log and saves the snapshot
    | Notifies(i: nat)
    | Waits(i: nat, index: nat)
    | GivesUp(i: nat, index: nat)       // Submit's timeout
    | Restarts(i: nat)
    | CrashesMidway(m: Message)         // between the two saves of a handler, then restarts

  predicate Begins(s: System) {
    && Init(s.cluster) && |s.servers| == |s.cluster.nodes| && s.notified == {}
    && forall i :: 0 <= i < |s.servers| ==> s.servers[i] == Server(NewReplica(None), [], Ready, [])
  }

  /** Events that neither feed a store nor save or end it. */
  predicate KeepsStores(e: Event) {
    !e.Applied? && !e.Compacted? && !e.Restarted? && !e.CutShort?
  }

  predicate Possible(s: System, st: Step) {
    match st
    case RaftStep(e) => KeepsStores(e) && Enabled(s.cluster, e)
    case Delivers(i) => i < |s.servers| && Enabled(s.cluster, Applied(i))
    case Takes(i, _) => i < |s.servers| && s.servers[i].phase.Ready? && s.servers[i].channel != []
    case Saves(i) => i < |s.servers| && s.servers[i].phase.Taken?
    case Notifies(i) => i < |s.servers| && s.servers[i].phase.Saved?
    case Waits(i, _) => i < |s.servers|
    case GivesUp(i, _) => i < |s.servers|
    case Restarts(i) => i < |s.servers| && Enabled(s.cluster, Restarted(i))
    case CrashesMidway(m) => Enabled(s.cluster, CutShort(m)) && m.to < |s.servers|
  }

  /** Raft can take its part in the step: no index out of range, no snapshot beyond what was applied. */
  predicate Safe(s: System, st: Step)
    requires Possible(s, st)
  {
    match st
    case RaftStep(e) => NoPanic(s.cluster, e)
    case Delivers(i) => NoPanic(s.cluster, Applied(i))
    case Saves(i) =>
      var p := s.servers[i].phase;
      p.snapshot.Some? ==> CanCompact(s.cluster, i, p.index, p.snapshot)
    case Restarts(i) => NoPanic(s.cluster, Restarted(i))
    case CrashesMidway(m) => NoPanic(s.cluster, CutShort(m))
    case _ => true
  }

  predicate CanCompact(c: Cluster, i: nat, index: nat, snap: Option<StoreState>) {
    Enabled(c, Compacted(i, index, snap)) && NoPanic(c, Compacted(i, index, snap))
  }

  function WithServer(s: System, i: nat, sv: Server): System
    requires i < |s.servers|
  {
    s.(servers := s.servers[i := sv])
  }

  function TakeNext(sv: Server, now: Time): Server
    requires sv.channel != []
  {
    var msg := sv.channel[0];
    var r := Ingest(sv.replica, msg.command, now);
    var phase :=
      if Decode(msg.command) == Malformed then Ready
      else Taken(msg.commandIndex, if ShouldSnapshot(sv.replica) then Some(r.state) else None);
    Server(r, sv.channel[1..], phase, sv.done + [msg.command])
  }

  function Push(sv: Server, msg: Option<ApplyMsg>): Server {
    sv.(channel := sv.channel + match msg case Some(m) => [m] case None => [])
  }

  /** A new process on the disk the old one left. */
  function Reborn(sv: Server, n: Node): Server {
    Server(NewReplica(n.disk.snapshot), [], Ready,
           if n.lastIncludedIndex <= |sv.done| then sv.done[..n.lastIncludedIndex] else sv.done)
  }

  function After(s: System, st: Step): System
    requires Possible(s, st) && Safe(s, st)
  {
    match st
    case RaftStep(e) => s.(cluster := Next(s.cluster, e))
    case Delivers(i) =>
      WithServer(s, i, Push(s.servers[i], ApplyNext(s.cluster.nodes[i]).1)).(cluster := Next(s.cluster, Applied(i)))
    case Takes(i, now) => WithServer(s, i, TakeNext(s.servers[i], now))
    case Saves(i) =>
      var p := s.servers[i].phase;
      var s' := WithServer(s, i, s.servers[i].(phase := Saved(p.index)));
      if p.snapshot.Some? then s'.(cluster := Next(s.cluster, Compacted(i, p.index, p.snapshot))) else s'
    case Notifies(i) =>
      var sv, index := s.servers[i], s.servers[i].phase.index;
      WithServer(s, i, sv.(replica := Notify(sv.replica, index), phase := Ready))
        .(notified := s.notified + if index in sv.replica.waiters then {(i, index)} else {})
    case Waits(i, index) =>
      WithServer(s, i, s.servers[i].(replica := s.servers[i].replica.(waiters := s.servers[i].replica.waiters + {index})))
    case GivesUp(i, index) =>
      WithServer(s, i, s.servers[i].(replica := Notify(s.servers[i].replica, index)))
    case Restarts(i) =>
      WithServer(s, i, Reborn(s.servers[i], s.cluster.nodes[i])).(cluster := Next(s.cluster, Restarted(i)))
    case CrashesMidway(m) =>
      WithServer(s, m.to, Reborn(s.servers[m.to], s.cluster.nodes[m.to])).(cluster := Next(s.cluster, CutShort(m)))
  }

  ghost predicate IsSystemRun(run: seq<System>, steps: seq<Step>) {
    && |run| == |steps| + 1 && Begins(run[0])
    && forall k :: 0 <= k < |steps| ==>
         Possible(run[k], steps[k]) && Safe(run[k], steps[k]) && run[k + 1] == After(run[k], steps[k])
  }

  // ----- the cluster inside is one of RaftCluster's -----

  ghost predicate Reachable(c: Cluster) {
    exists run, events :: IsRun(run, events) && run[|run| - 1] == c
  }

  lemma ReachInit(c: Cluster)
    requires Init(c)
    ensures Reachable(c)
  {
    assert IsRun([c], []) && [c][|[c]| - 1] == c;
  }

  lemma ReachNext(c: Cluster, e: Event)
    requires Reachable(c) && Enabled(c, e) && NoPanic(c, e)
    ensures Reachable(Next(c, e))
  {
    var run, events :| IsRun(run, events) && run[|run| - 1] == c;
    var c' := Next(c, e);
    RunLonger(run, events, e, c');
    assert (run + [c'])[|run + [c']| - 1] == c';
  }

  lemma RunLonger(run: seq<Cluster>, events: seq<Event>, e: Event, c': Cluster)
    requires IsRun(run, events) && Enabled(run[|run| - 1], e) && NoPanic(run[|run| - 1], e)
    requires c' == Next(run[|run| - 1], e)
    ensures IsRun(run + [c'], events + [e])
  {
    var r, es := run + [c'], events + [e];
    forall k | 0 <= k < |es| ensures Enabled(r[k], es[k]) && NoPanic(r[k], es[k]) && r[k + 1] == Next(r[k], es[k]) {
      if k < |events| {
        assert r[k] == run[k] && es[k] == events[k] && r[k + 1] == run[k + 1];
      }
    }
  }

  lemma ReachOrdered(c: Cluster, i: nat)
    requires Reachable(c) && i < |c.nodes|
    ensures var n := c.nodes[i];
            n.lastIncludedIndex <= n.lastApplied <= n.commitIndex <= LastLogIndex(n) && Persistent(n) == Load(n.disk)
  {
    var run, events :| IsRun(run, events) && run[|run| - 1] == c;
    RaftSafety.IndicesOrdered(run, events, |run| - 1, i);
  }

  lemma ReachNoPanic(c: Cluster, e: Event)
    requires Reachable(c) && Enabled(c, e)
    ensures NoPanic(c, e)
  {
    var run, events :| IsRun(run, events) && run[|run| - 1] == c;
    RaftSafety.NeverPanics(run, events, e);
  }

  lemma ReachDelivered(c: Cluster, p: Delivery, q: Delivery)
    requires Reachable(c) && p in c.delivered && q in c.delivered && p.msg.commandIndex == q.msg.commandIndex
    ensures p.msg.command == q.msg.command
  {
    var run, events :| IsRun(run, events) && run[|run| - 1] == c;
    RaftSafety.StateMachineSafety(run, events, |run| - 1, p, q);
  }

  // ----- the invariant of one server -----

  function Commands(done: seq<Option<Command>>): seq<Command> {
    seq(|done|, k requires 0 <= k < |done| => Decode(done[k]))
  }

  /** The state that the first entries lead to. */
  function FoldOf(done: seq<Option<Command>>): StoreState {
    Fold(Commands(done))
  }

  lemma FoldOfMore(done: seq<Option<Command>>, raw: Option<Command>)
    ensures FoldOf(done + [raw]) == Apply(FoldOf(done), Decode(raw), ZERO_TIME)
  {
    assert Commands(done + [raw])[..|done|] == Commands(done);
  }

  /** Everything the server consumed, and everything in its channel, was delivered to it in index order. */
  predicate Consecutive(delivered: set<Delivery>, sv: Server, i: nat) {
    && (forall k :: 0 <= k < |sv.done| ==> Delivery(i, ApplyMsg(k + 1, sv.done[k])) in delivered)
    && (forall k :: 0 <= k < |sv.channel| ==>
          sv.channel[k].commandIndex == |sv.done| + 1 + k && Delivery(i, sv.channel[k]) in delivered)
  }

  /** The disk's snapshot is what the entries through lastIncludedIndex lead to. */
  predicate SnapshotRight(n: Node, done: seq<Option<Command>>) {
    && n.lastIncludedIndex <= |done|
    && match n.disk.snapshot
       case None => n.lastIncludedIndex == 0
       case Some(st) => Same(st, FoldOf(done[..n.lastIncludedIndex]))
  }

  predicate PhaseRight(n: Node, sv: Server) {
    match sv.phase
    case Ready => true
    case Taken(index, snap) => index == |sv.done| && snap.Some? && Same(snap.value, FoldOf(sv.done))
    case Saved(index) => index <= n.lastIncludedIndex
  }

  predicate ServerRight(n: Node, delivered: set<Delivery>, sv: Server, i: nat) {
    && Same(sv.replica.state, FoldOf(sv.done)) && sv.replica.applyCount == 0
    && Consecutive(delivered, sv, i) && |sv.done| + |sv.channel| == n.lastApplied
    && SnapshotRight(n, sv.done) && PhaseRight(n, sv)
  }

  ghost predicate SystemInv(s: System) {
    && Reachable(s.cluster) && |s.servers| == |s.cluster.nodes|
    && (forall i {:trigger s.servers[i]} :: 0 <= i < |s.servers| ==>
          ServerRight(s.cluster.nodes[i], s.cluster.delivered, s.servers[i], i))
    && forall w {:trigger w in s.notified} :: w in s.notified ==>
         w.0 < |s.cluster.nodes| && w.1 <= s.cluster.nodes[w.0].lastIncludedIndex
  }

  // ----- what each step does to a server -----

  lemma TakeRight(n: Node, delivered: set<Delivery>, sv: Server, i: nat, now: Time)
    requires ServerRight(n, delivered, sv, i) && sv.channel != [] && sv.phase.Ready?
    ensures ServerRight(n, delivered, TakeNext(sv, now), i)
  {
    var sv', msg := TakeNext(sv, now), sv.channel[0];
    FoldOfMore(sv.done, msg.command);
    ApplySame(sv.replica.state, FoldOf(sv.done), Decode(msg.command), now, ZERO_TIME);
    assert sv'.done[..n.lastIncludedIndex] == sv.done[..n.lastIncludedIndex];
    forall k | 0 <= k < |sv'.channel|
      ensures sv'.channel[k].commandIndex == |sv'.done| + 1 + k && Delivery(i, sv'.channel[k]) in delivered
    {
      assert sv'.channel[k] == sv.channel[k + 1];
    }
    assert Consecutive(delivered, sv', i);
  }

  lemma DeliverRight(n: Node, delivered: set<Delivery>, sv: Server, i: nat)
    requires ServerRight(n, delivered, sv, i) && |n.log| > 0
    requires n.lastIncludedIndex <= n.lastApplied < n.commitIndex <= LastLogIndex(n)
    ensures ApplyNext(n).1.Some?
    ensures ServerRight(ApplyNext(n).0, delivered + {Delivery(i, ApplyNext(n).1.value)}, Push(sv, ApplyNext(n).1), i)
  {
    var msg := ApplyNext(n).1.value;
    assert msg.commandIndex == n.lastApplied + 1;
  }

  lemma SaveRight(n: Node, delivered: set<Delivery>, sv: Server, i: nat, index: nat, snap: Option<StoreState>)
    requires ServerRight(n, delivered, sv, i) && sv.phase == Taken(index, snap) && HasIndex(n, index)
    ensures ServerRight(Snapshot(n, index, snap), delivered, sv.(phase := Saved(index)), i)
    ensures Snapshot(n, index, snap).lastIncludedIndex >= n.lastIncludedIndex
  {
    assert sv.done[..|sv.done|] == sv.done;
  }

  lemma RebornRight(n: Node, delivered: set<Delivery>, sv: Server, i: nat, peers: nat)
    requires ServerRight(n, delivered, sv, i) && Persistent(n) == Load(n.disk)
    ensures ServerRight(NewNode(i, peers, n.disk), delivered, Reborn(sv, n), i)
    ensures NewNode(i, peers, n.disk).lastIncludedIndex == n.lastIncludedIndex
  {
    var done' := sv.done[..n.lastIncludedIndex];
    assert done'[..n.lastIncludedIndex] == done';
    if n.disk.snapshot == None {
      assert Commands(done') == [];
    }
  }

  /** A node that looks the same to its store. */
  predicate SameToStore(m: Node, n: Node) {
    m.lastApplied == n.lastApplied && m.lastIncludedIndex == n.lastIncludedIndex && m.disk.snapshot == n.disk.snapshot
  }

  lemma Unaffected(m: Node, n: Node, delivered: set<Delivery>, delivered': set<Delivery>, sv: Server, i: nat)
    requires ServerRight(m, delivered, sv, i) && SameToStore(m, n) && delivered <= delivered'
    ensures ServerRight(n, delivered', sv, i)
  {
  }

  lemma RaftStepUnaffected(c: Cluster, e: Event, i: nat)
    requires Enabled(c, e) && NoPanic(c, e) && i < |c.nodes|
    requires KeepsStores(e)
    ensures |Next(c, e).nodes| == |c.nodes| && Next(c, e).delivered == c.delivered
    ensures SameToStore(c.nodes[i], Next(c, e).nodes[i])
  {
  }

  // ----- the invariant holds in every run -----

  lemma Start(s: System)
    requires Begins(s)
    ensures SystemInv(s)
  {
    ReachInit(s.cluster);
    assert Commands([]) == [];
  }

  /** Raft is always able to take its part in a step. */
  lemma StepSafe(s: System, st: Step)
    requires SystemInv(s) && Possible(s, st)
    ensures Safe(s, st)
  {
    match st {
      case RaftStep(e) => ReachNoPanic(s.cluster, e);
      case Delivers(i) => ReachNoPanic(s.cluster, Applied(i));
      case Restarts(i) => ReachNoPanic(s.cluster, Restarted(i));
      case CrashesMidway(m) => ReachNoPanic(s.cluster, CutShort(m));
      case Saves(i) =>
        var p := s.servers[i].phase;
        assert ServerRight(s.cluster.nodes[i], s.cluster.delivered, s.servers[i], i);
        ReachNoPanic(s.cluster, Compacted(i, p.index, p.snapshot));
      case _ =>
    }
  }

  lemma NotifiedKept(s: System, c': Cluster)
    requires SystemInv(s) && |c'.nodes| == |s.cluster.nodes|
    requires forall i :: 0 <= i < |c'.nodes| ==> c'.nodes[i].lastIncludedIndex >= s.cluster.nodes[i].lastIncludedIndex
    ensures forall w {:trigger w in s.notified} :: w in s.notified ==>
              w.0 < |c'.nodes| && w.1 <= c'.nodes[w.0].lastIncludedIndex
  {
  }

  /** A step that changes server i alone, and the cluster to c', keeps the invariant. */
  lemma OneServer(s: System, c': Cluster, i: nat, sv: Server)
    requires SystemInv(s) && Reachable(c') && i < |s.servers|
    requires |c'.nodes| == |s.cluster.nodes| && s.cluster.delivered <= c'.delivered
    requires forall j :: 0 <= j < |c'.nodes| && j != i ==> c'.nodes[j] == s.cluster.nodes[j]
    requires c'.nodes[i].lastIncludedIndex >= s.cluster.nodes[i].lastIncludedIndex
    requires ServerRight(c'.nodes[i], c'.delivered, sv, i)
    ensures SystemInv(WithServer(s, i, sv).(cluster := c'))
  {
    var s' := WithServer(s, i, sv).(cluster := c');
    forall j | 0 <= j < |s'.servers|
      ensures ServerRight(s'.cluster.nodes[j], s'.cluster.delivered, s'.servers[j], j)
    {
      if j != i {
        assert s'.servers[j] == s.servers[j];
        Unaffected(s.cluster.nodes[j], c'.nodes[j], s.cluster.delivered, c'.delivered, s.servers[j], j);
      }
    }
    NotifiedKept(s, c');
  }

  lemma RaftStepKeeps(s: System, e: Event)
    requires SystemInv(s) && Possible(s, RaftStep(e)) && Safe(s, RaftStep(e))
    ensures SystemInv(After(s, RaftStep(e)))
  {
    var c' := Next(s.cluster, e);
    ReachNext(s.cluster, e);
    forall i | 0 <= i < |s.cluster.nodes|
      ensures |c'.nodes| == |s.cluster.nodes| && c'.delivered == s.cluster.delivered
      ensures SameToStore(s.cluster.nodes[i], c'.nodes[i])
    {
      RaftStepUnaffected(s.cluster, e, i);
    }
    assert |c'.nodes| == |s.cluster.nodes|;
    forall i | 0 <= i < |s.servers| ensures ServerRight(c'.nodes[i], c'.delivered, s.servers[i], i) {
      Unaffected(s.cluster.nodes[i], c'.nodes[i], s.cluster.delivered, c'.delivered, s.servers[i], i);
    }
    NotifiedKept(s, c');
  }

  lemma DeliversKeeps(s: System, i: nat)
    requires SystemInv(s) && Possible(s, Delivers(i)) && Safe(s, Delivers(i))
    ensures SystemInv(After(s, Delivers(i)))
  {
    var n := s.cluster.nodes[i];
    ReachNext(s.cluster, Applied(i));
    ReachOrdered(s.cluster, i);
    DeliverRight(n, s.cluster.delivered, s.servers[i], i);
    OneServer(s, Next(s.cluster, Applied(i)), i, Push(s.servers[i], ApplyNext(n).1));
  }

  lemma SavesAfter(s: System, i: nat)
    requires Possible(s, Saves(i)) && Safe(s, Saves(i)) && s.servers[i].phase.snapshot.Some?
    ensures var p := s.servers[i].phase;
            After(s, Saves(i)) == WithServer(s, i, s.servers[i].(phase := Saved(p.index)))
                                    .(cluster := Next(s.cluster, Compacted(i, p.index, p.snapshot)))
  {
  }

  lemma SavesKeeps(s: System, i: nat)
    requires SystemInv(s) && Possible(s, Saves(i)) && Safe(s, Saves(i))
    ensures SystemInv(After(s, Saves(i)))
  {
    var p := s.servers[i].phase;
    assert ServerRight(s.cluster.nodes[i], s.cluster.delivered, s.servers[i], i);
    var e := Compacted(i, p.index, p.snapshot);
    ReachOrdered(s.cluster, i);
    ReachNext(s.cluster, e);
    SaveRight(s.cluster.nodes[i], s.cluster.delivered, s.servers[i], i, p.index, p.snapshot);
    OneServer(s, Next(s.cluster, e), i, s.servers[i].(phase := Saved(p.index)));
    SavesAfter(s, i);
  }

  lemma RestartsKeeps(s: System, i: nat)
    requires SystemInv(s) && Possible(s, Restarts(i)) && Safe(s, Restarts(i))
    ensures SystemInv(After(s, Restarts(i)))
  {
    var n := s.cluster.nodes[i];
    assert ServerRight(n, s.cluster.delivered, s.servers[i], i);
    ReachOrdered(s.cluster, i);
    ReachNext(s.cluster, Restarted(i));
    RebornRight(n, s.cluster.delivered, s.servers[i], i, |s.cluster.nodes|);
    OneServer(s, Next(s.cluster, Restarted(i)), i, Reborn(s.servers[i], n));
  }

  lemma MidwayRight(n: Node, delivered: set<Delivery>, sv: Server, i: nat, peers: nat, m: Message)
    requires ServerRight(n, delivered, sv, i) && Persistent(n) == Load(n.disk) && (m.VoteRequest? || m.AppendRequest?)
    ensures ServerRight(NewNode(i, peers, TermSaved(n, m).disk), delivered, Reborn(sv, n), i)
    ensures NewNode(i, peers, TermSaved(n, m).disk).lastIncludedIndex == n.lastIncludedIndex
  {
    RebornRight(n, delivered, sv, i, peers);
    Unaffected(NewNode(i, peers, n.disk), NewNode(i, peers, TermSaved(n, m).disk), delivered, delivered, Reborn(sv, n), i);
  }

  lemma CrashesMidwayKeeps(s: System, m: Message)
    requires SystemInv(s) && Possible(s, CrashesMidway(m)) && Safe(s, CrashesMidway(m))
    ensures SystemInv(After(s, CrashesMidway(m)))
  {
    var n := s.cluster.nodes[m.to];
    assert ServerRight(n, s.cluster.delivered, s.servers[m.to], m.to);
    ReachOrdered(s.cluster, m.to);
    ReachNext(s.cluster, CutShort(m));
    MidwayRight(n, s.cluster.delivered, s.servers[m.to], m.to, |s.cluster.nodes|, m);
    OneServer(s, Next(s.cluster, CutShort(m)), m.to, Reborn(s.servers[m.to], n));
  }

  lemma NotifiesKeeps(s: System, i: nat)
    requires SystemInv(s) && Possible(s, Notifies(i)) && Safe(s, Notifies(i))
    ensures SystemInv(After(s, Notifies(i)))
  {
    var sv, index := s.servers[i], s.servers[i].phase.index;
    assert ServerRight(s.cluster.nodes[i], s.cluster.delivered, sv, i);
    OneServer(s, s.cluster, i, sv.(replica := Notify(sv.replica, index), phase := Ready));
  }

  lemma LocalKeeps(s: System, i: nat, sv: Server)
    requires SystemInv(s) && i < |s.servers| && ServerRight(s.cluster.nodes[i], s.cluster.delivered, sv, i)
    ensures SystemInv(WithServer(s, i, sv))
  {
    OneServer(s, s.cluster, i, sv);
  }

  lemma TakesKeeps(s: System, i: nat, now: Time)
    requires SystemInv(s) && Possible(s, Takes(i, now))
    ensures SystemInv(After(s, Takes(i, now)))
  {
    TakeRight(s.cluster.nodes[i], s.cluster.delivered, s.servers[i], i, now);
    LocalKeeps(s, i, TakeNext(s.servers[i], now));
  }

  /** A step that only registers or removes a waiter. */
  lemma WaitingKeeps(s: System, st: Step)
    requires SystemInv(s) && Possible(s, st) && (st.Waits? || st.GivesUp?)
    ensures SystemInv(After(s, st))
  {
    assert ServerRight(s.cluster.nodes[st.i], s.cluster.delivered, s.servers[st.i], st.i);
    LocalKeeps(s, st.i, After(s, st).servers[st.i]);
  }

  lemma StepKeeps(s: System, st: Step)
    requires SystemInv(s) && Possible(s, st) && Safe(s, st)
    ensures SystemInv(After(s, st))
  {
    match st {
      case RaftStep(e) => RaftStepKeeps(s, e);
      case Delivers(i) => DeliversKeeps(s, i);
      case Takes(i, now) => TakesKeeps(s, i, now);
      case Saves(i) => SavesKeeps(s, i);
      case Notifies(i) => NotifiesKeeps(s, i);
      case Waits(_, _) => WaitingKeeps(s, st);
      case GivesUp(_, _) => WaitingKeeps(s, st);
      case Restarts(i) => RestartsKeeps(s, i);
      case CrashesMidway(m) => CrashesMidwayKeeps(s, m);
    }
  }

  lemma {:induction false} RunInv(run: seq<System>, steps: seq<Step>, k: nat)
    requires IsSystemRun(run, steps) && k < |run|
    ensures SystemInv(run[k])
    decreases k
  {
    if k == 0 {
      Start(run[0]);
    } else {
      RunInv(run, steps, k - 1);
      StepKeeps(run[k - 1], steps[k - 1]);
    }
  }

  /** In every run every step that is possible is safe: Raft is never asked for what it cannot do. */
  lemma NeverStuck(run: seq<System>, steps: seq<Step>, st: Step)
    requires IsSystemRun(run, steps) && Possible(run[|run| - 1], st)
    ensures Safe(run[|run| - 1], st)
  {
    RunInv(run, steps, |run| - 1);
    StepSafe(run[|run| - 1], st);
  }

  // ----- what the runs guarantee -----

  /** Nothing that was delivered or woken is forgotten. */
  predicate Remembers(s: System, s': System) {
    s.cluster.delivered <= s'.cluster.delivered && s.notified <= s'.notified
  }

  lemma StepRemembers(s: System, st: Step)
    requires Possible(s, st) && Safe(s, st)
    ensures Remembers(s, After(s, st))
  {
  }

  lemma RemembersTrans(a: System, b: System, c: System)
    requires Remembers(a, b) && Remembers(b, c)
    ensures Remembers(a, c)
  {
  }

  lemma OneStep(run: seq<System>, steps: seq<Step>, k: nat)
    requires IsSystemRun(run, steps) && k < |steps|
    ensures Possible(run[k], steps[k]) && Safe(run[k], steps[k]) && run[k + 1] == After(run[k], steps[k])
  {
  }

  lemma RunRemembers(run: seq<System>, steps: seq<Step>, k: nat)
    requires IsSystemRun(run, steps) && k < |steps|
    ensures Remembers(run[k], run[k + 1])
  {
    OneStep(run, steps, k);
    StepRemembers(run[k], steps[k]);
  }

  lemma {:induction false} RemembersAll(run: seq<System>, j: nat, k: nat)
    requires j <= k < |run| && forall i :: j <= i < k ==> Remembers(run[i], run[i + 1])
    ensures Remembers(run[j], run[k])
    decreases k
  {
    if j < k {
      RemembersAll(run, j, k - 1);
      RemembersTrans(run[j], run[k - 1], run[k]);
    }
  }

  lemma DeliveredKept(run: seq<System>, steps: seq<Step>, j: nat, k: nat)
    requires IsSystemRun(run, steps) && j <= k < |run|
    ensures Remembers(run[j], run[k])
  {
    forall i | j <= i < k ensures Remembers(run[i], run[i + 1]) {
      RunRemembers(run, steps, i);
    }
    RemembersAll(run, j, k);
  }

  /** Two servers, at any two moments, consumed the same entries as far as both have come. */
  lemma SameEntries(run: seq<System>, steps: seq<Step>, j: nat, k: nat, a: nat, b: nat, x: nat)
    requires IsSystemRun(run, steps) && j <= k < |run| && a < |run[j].servers| && b < |run[k].servers|
    requires x < |run[j].servers[a].done| && x < |run[k].servers[b].done|
    ensures run[j].servers[a].done[x] == run[k].servers[b].done[x]
  {
    RunInv(run, steps, j);
    RunInv(run, steps, k);
    DeliveredKept(run, steps, j, k);
    var sa, sb := run[j].servers[a], run[k].servers[b];
    assert ServerRight(run[j].cluster.nodes[a], run[j].cluster.delivered, sa, a);
    assert ServerRight(run[k].cluster.nodes[b], run[k].cluster.delivered, sb, b);
    ReachDelivered(run[k].cluster, Delivery(a, ApplyMsg(x + 1, sa.done[x])), Delivery(b, ApplyMsg(x + 1, sb.done[x])));
  }

  lemma SamePrefix(run: seq<System>, steps: seq<Step>, j: nat, k: nat, a: nat, b: nat, x: nat)
    requires IsSystemRun(run, steps) && j <= k < |run| && a < |run[j].servers| && b < |run[k].servers|
    requires x <= |run[j].servers[a].done| && x <= |run[k].servers[b].done|
    ensures run[j].servers[a].done[..x] == run[k].servers[b].done[..x]
  {
    forall y | 0 <= y < x ensures run[j].servers[a].done[y] == run[k].servers[b].done[y] {
      SameEntries(run, steps, j, k, a, b, y);
    }
  }

  lemma SameBoth(s: StoreState, t: StoreState, u: StoreState)
    requires Same(s, u) && Same(t, u)
    ensures Same(s, t)
  {
  }

  /** Two stores that have consumed equally many entries are equal but for updatedAt, across crashes too. */
  lemma ReplicasAgree(run: seq<System>, steps: seq<Step>, j: nat, k: nat, a: nat, b: nat)
    requires IsSystemRun(run, steps) && j <= k < |run| && a < |run[j].servers| && b < |run[k].servers|
    requires |run[j].servers[a].done| == |run[k].servers[b].done|
    ensures Same(run[j].servers[a].replica.state, run[k].servers[b].replica.state)
  {
    RunInv(run, steps, j);
    RunInv(run, steps, k);
    var sa, sb := run[j].servers[a], run[k].servers[b];
    assert ServerRight(run[j].cluster.nodes[a], run[j].cluster.delivered, sa, a);
    assert ServerRight(run[k].cluster.nodes[b], run[k].cluster.delivered, sb, b);
    SamePrefix(run, steps, j, k, a, b, |sa.done|);
    assert sa.done[..|sa.done|] == sa.done && sb.done[..|sb.done|] == sb.done;
    SameBoth(sa.replica.state, sb.replica.state, FoldOf(sa.done));
  }

  lemma CommandsSplit(done: seq<Option<Command>>, x: nat)
    requires x <= |done|
    ensures Commands(done) == Commands(done[..x]) + Commands(done[x..])
  {
  }

  /**
    * Crash and restart: the snapshot on disk is what the entries through lastIncludedIndex lead
    * to, and replaying the rest after a restart gives back the state before the crash.
    */
  lemma RestartLosesNothing(run: seq<System>, steps: seq<Step>, k: nat, a: nat)
    requires IsSystemRun(run, steps) && k < |run| && a < |run[k].servers|
    ensures a < |run[k].cluster.nodes|
    ensures var n, sv := run[k].cluster.nodes[a], run[k].servers[a];
            && n.lastIncludedIndex <= |sv.done|
            && Same(NewReplica(n.disk.snapshot).state, FoldOf(sv.done[..n.lastIncludedIndex]))
            && Same(FoldFrom(NewReplica(n.disk.snapshot).state, Commands(sv.done[n.lastIncludedIndex..])), sv.replica.state)
  {
    RunInv(run, steps, k);
    var n, sv := run[k].cluster.nodes[a], run[k].servers[a];
    assert ServerRight(n, run[k].cluster.delivered, sv, a);
    var x, st := n.lastIncludedIndex, NewReplica(n.disk.snapshot).state;
    assert x == 0 ==> Commands(sv.done[..x]) == [];
    FoldSame(st, FoldOf(sv.done[..x]), Commands(sv.done[x..]));
    CommandsSplit(sv.done, x);
    FoldSplit(EMPTY, Commands(sv.done[..x]), Commands(sv.done[x..]));
    SameBoth(FoldFrom(st, Commands(sv.done[x..])), sv.replica.state, FoldOf(sv.done));
  }

  /**
    * Once the waiter for an index has been woken on a machine, that machine's disk holds, for
    * good, a snapshot of the entries through at least that index.
    */
  lemma NotifiedIsDurable(run: seq<System>, steps: seq<Step>, j: nat, k: nat, a: nat, index: nat)
    requires IsSystemRun(run, steps) && j <= k < |run| && (a, index) in run[j].notified
    ensures a < |run[k].cluster.nodes| && a < |run[k].servers|
    ensures index <= Load(run[k].cluster.nodes[a].disk).lastIncludedIndex <= |run[k].servers[a].done|
    ensures SnapshotRight(run[k].cluster.nodes[a], run[k].servers[a].done)
  {
    DeliveredKept(run, steps, j, k);
    RunInv(run, steps, k);
    assert (a, index) in run[k].notified;
    assert ServerRight(run[k].cluster.nodes[a], run[k].cluster.delivered, run[k].servers[a], a);
    ReachOrdered(run[k].cluster, a);
  }

  /** The round that consumed an entry wakes whoever waits for its index, once, and nobody else. */
  lemma WakesExactly(s: System, i: nat)
    requires Possible(s, Notifies(i))
    ensures var s', index, sv := After(s, Notifies(i)), s.servers[i].phase.index, s.servers[i];
            && s'.servers[i].replica.state == sv.replica.state && s'.servers[i].phase == Ready
            && (forall w :: w in s'.servers[i].replica.waiters <==> w in sv.replica.waiters && w != index)
            && (forall k, w :: (k, w) in s'.notified <==> (k, w) in s.notified || (k == i && w == index && index in sv.replica.waiters))
  {
  }

  /** Every replica's run table is bounded, without duplicate keys, and in order of first insertion. */
  lemma RunTables(run: seq<System>, steps: seq<Step>, k: nat, a: nat) returns (ts: seq<nat>)
    requires IsSystemRun(run, steps) && k < |run| && a < |run[k].servers|
    ensures RunsOk(run[k].servers[a].replica.state.runs)
    ensures H.Inserted(Commands(run[k].servers[a].done), run[k].servers[a].replica.state.runs, ts)
    ensures H.Accounted(Commands(run[k].servers[a].done), ts)
  {
    RunInv(run, steps, k);
    var sv := run[k].servers[a];
    assert ServerRight(run[k].cluster.nodes[a], run[k].cluster.delivered, sv, a);
    FoldRunsOk(Commands(sv.done));
    ts := H.InsertionOrder(Commands(sv.done));
  }
}
