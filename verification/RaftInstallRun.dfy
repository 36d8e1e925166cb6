/**
  * A run of three nodes after which the leader's snapshot breaks Log Matching on a follower. The
  * snapshot is of a committed entry; the follower once led alone and still has its own entries.
  */
module RaftInstallRun {
  import opened StoreTypes
  import opened RaftTypes
  import opened Quorum
  import opened RaftNode
  import opened RaftCluster
  import opened RaftInstall
  import opened ReplicatedStore
  import Store

  /** A heartbeat of the leader to this peer carries its snapshot. */
  predicate WillSendSnapshot(n: Node, peer: nat) {
    n.role == Leader && peer < |n.nextIndex| && peer != n.me && n.nextIndex[peer] <= n.lastIncludedIndex
  }

  function SnapshotRequest(n: Node): InstallArgs {
    InstallArgs(n.currentTerm, n.me, n.lastIncludedIndex, n.lastIncludedTerm, n.disk.snapshot)
  }

  /** Node i of three in term t, its log as given, nothing committed. */
  predicate Plain(n: Node, i: nat, t: nat, log: Log) {
    && n.me == i && n.peers == 3 && n.currentTerm == t && n.log == log && |log| > 0 && log[0] == SENTINEL
    && n.lastIncludedIndex == n.lastIncludedTerm == n.commitIndex == n.lastApplied == 0
  }

  predicate PlainLeader(n: Node, i: nat, t: nat, log: Log) {
    Plain(n, i, t, log) && n.role == Leader && n.nextIndex == [1, 1, 1] && n.matchIndex == [0, 0, 0]
  }

  /** A state of some run, with three nodes. */
  ghost predicate Three(c: Cluster) {
    Reachable(c) && |c.nodes| == 3
  }

  /** All nodes but this one are as they were. */
  predicate Others(c: Cluster, c': Cluster, i: nat) {
    |c'.nodes| == |c.nodes| && forall j :: 0 <= j < |c.nodes| && j != i ==> c'.nodes[j] == c.nodes[j]
  }

  lemma Stands(c: Cluster, i: nat, t: nat) returns (c': Cluster, args: VoteArgs)
    requires Three(c) && i < 3 && Plain(c.nodes[i], i, t, [SENTINEL]) && c.nodes[i].role != Leader
    ensures Three(c') && Others(c, c', i)
    ensures Plain(c'.nodes[i], i, t + 1, [SENTINEL]) && c'.nodes[i].role == Candidate && c'.nodes[i].votes == {i}
    ensures args == VoteArgs(t + 1, i, 0, 0) && forall v: nat :: v < 3 && v != i ==> VoteRequest(v, args) in c'.net
  {
    var e := Timeout(i);
    ReachNext(c, e);
    c', args := Next(c, e), StartElection(c.nodes[i]).1;
    forall v: nat | v < 3 && v != i ensures VoteRequest(v, args) in c'.net {
      assert v in Members(3);
    }
  }

  lemma Grants(c: Cluster, i: nat, v: nat, t: nat, u: nat) returns (c': Cluster, reply: VoteReply)
    requires Three(c) && i < 3 && v < 3 && i != v && Plain(c.nodes[v], v, u, [SENTINEL]) && u < t
    requires VoteRequest(v, VoteArgs(t, i, 0, 0)) in c.net
    ensures Three(c') && Others(c, c', v) && Plain(c'.nodes[v], v, t, [SENTINEL])
    ensures reply == VoteReply(u, true) && VoteResponse(v, VoteArgs(t, i, 0, 0), reply) in c'.net
  {
    var e := VoteAsked(VoteRequest(v, VoteArgs(t, i, 0, 0)));
    ReachNext(c, e);
    c', reply := Next(c, e), RequestVote(c.nodes[v], VoteArgs(t, i, 0, 0)).1;
  }

  lemma Wins(c: Cluster, i: nat, v: nat, t: nat, u: nat) returns (c': Cluster)
    requires Three(c) && i < 3 && v < 3 && i != v && Plain(c.nodes[i], i, t, [SENTINEL]) && u < t
    requires c.nodes[i].role == Candidate && c.nodes[i].votes == {i}
    requires VoteResponse(v, VoteArgs(t, i, 0, 0), VoteReply(u, true)) in c.net
    ensures Three(c') && Others(c, c', i) && PlainLeader(c'.nodes[i], i, t, [SENTINEL])
  {
    var e := VoteAnswered(VoteResponse(v, VoteArgs(t, i, 0, 0), VoteReply(u, true)));
    assert |{i} + {v}| == 2;
    ReachNext(c, e);
    c' := Next(c, e);
  }

  /** Node i is elected with the vote of node v. */
  lemma Elects(c: Cluster, i: nat, v: nat, t: nat, u: nat) returns (c': Cluster)
    requires Three(c) && i < 3 && v < 3 && i != v && u <= t
    requires Plain(c.nodes[i], i, t, [SENTINEL]) && c.nodes[i].role != Leader && Plain(c.nodes[v], v, u, [SENTINEL])
    ensures Three(c') && (forall j :: 0 <= j < 3 && j != i && j != v ==> c'.nodes[j] == c.nodes[j])
    ensures PlainLeader(c'.nodes[i], i, t + 1, [SENTINEL]) && Plain(c'.nodes[v], v, t + 1, [SENTINEL])
  {
    var c1, args := Stands(c, i, t);
    var c2, reply := Grants(c1, i, v, t + 1, u);
    c' := Wins(c2, i, v, t + 1, u);
  }

  lemma Submits(c: Cluster, i: nat, t: nat, log: Log) returns (c': Cluster)
    requires Three(c) && i < 3 && PlainLeader(c.nodes[i], i, t, log)
    ensures Three(c') && Others(c, c', i) && PlainLeader(c'.nodes[i], i, t, log + [LogEntry(t, Some(Unknown))])
  {
    ReachNext(c, Submitted(i, Unknown));
    c' := Next(c, Submitted(i, Unknown));
  }

  /** The leader's heartbeat to node v carries its entry. */
  lemma Sends(c: Cluster, i: nat, v: nat, t: nat, a: AppendArgs) returns (c': Cluster)
    requires Three(c) && i < 3 && v < 3 && i != v && PlainLeader(c.nodes[i], i, t, [SENTINEL, LogEntry(t, Some(Unknown))])
    requires a == AppendArgs(t, i, 0, 0, [LogEntry(t, Some(Unknown))], 0)
    ensures Three(c') && c'.nodes == c.nodes && AppendRequest(v, a) in c'.net
  {
    var n := c.nodes[i];
    ReachNext(c, RoundBegun(i));
    var c1 := Next(c, RoundBegun(i));
    assert MakeAppend(n, BeginRound(n), v) == a;
    ReachNext(c1, AppendSent(BeginRound(n), v));
    c' := Next(c1, AppendSent(BeginRound(n), v));
  }

  lemma Receives(c: Cluster, v: nat, t: nat, a: AppendArgs) returns (c': Cluster)
    requires Three(c) && v < 3 && AppendRequest(v, a) in c.net && Plain(c.nodes[v], v, t, [SENTINEL])
    requires a.term == t && a.prevLogIndex == a.prevLogTerm == 0
    ensures Three(c') && Others(c, c', v) && AppendResponse(v, a, AppendReply(t, true, -1, 0)) in c'.net
  {
    ReachNext(c, AppendReceived(AppendRequest(v, a)));
    c' := Next(c, AppendReceived(AppendRequest(v, a)));
  }

  /** Its acknowledgement commits the entry. */
  lemma Commits(c: Cluster, i: nat, v: nat, t: nat, a: AppendArgs) returns (c': Cluster)
    requires Three(c) && i < 3 && v < 3 && i != v && PlainLeader(c.nodes[i], i, t, [SENTINEL, LogEntry(t, Some(Unknown))])
    requires t > 0 && a == AppendArgs(t, i, 0, 0, [LogEntry(t, Some(Unknown))], 0)
    requires AppendResponse(v, a, AppendReply(t, true, -1, 0)) in c.net
    ensures Three(c') && Others(c, c', i)
    ensures var n := c.nodes[i];
            c'.nodes[i] == n.(commitIndex := 1, matchIndex := n.matchIndex[v := 1], nextIndex := n.nextIndex[v := 2])
  {
    CommitsOne(c.nodes[i], i, v, t, a);
    var e := AppendAnswered(AppendResponse(v, a, AppendReply(t, true, -1, 0)));
    ReachNext(c, e);
    c' := Next(c, e);
  }

  /** The leader applies its committed entry and compacts its log up to it. */
  lemma Compacts(c: Cluster, i: nat, t: nat, snap: Option<StoreState>) returns (c': Cluster)
    requires Three(c) && i < 3 && c.nodes[i].log == [SENTINEL, LogEntry(t, Some(Unknown))]
    requires c.nodes[i].commitIndex == 1 && c.nodes[i].lastApplied == c.nodes[i].lastIncludedIndex == 0
    ensures Three(c') && Others(c, c', i)
    ensures var n, n' := c.nodes[i], c'.nodes[i];
            n'.role == n.role && n'.me == n.me && n'.currentTerm == n.currentTerm && n'.nextIndex == n.nextIndex
            && n'.lastIncludedIndex == 1 && n'.lastIncludedTerm == t && n'.disk.snapshot == snap
  {
    ReachNext(c, Applied(i));
    var c1 := Next(c, Applied(i));
    ReachNext(c1, Compacted(i, 1, snap));
    c' := Next(c1, Compacted(i, 1, snap));
  }

  lemma CommitsOne(n: Node, i: nat, v: nat, t: nat, a: AppendArgs)
    requires i < 3 && v < 3 && i != v && t > 0 && PlainLeader(n, i, t, [SENTINEL, LogEntry(t, Some(Unknown))])
    requires a == AppendArgs(t, i, 0, 0, [LogEntry(t, Some(Unknown))], 0)
    ensures HandleAppendReply(n, a, v, AppendReply(t, true, -1, 0))
         == n.(commitIndex := 1, matchIndex := n.matchIndex[v := 1], nextIndex := n.nextIndex[v := 2])
  {
    var m := RecordMatch(n, v, 1);
    assert Replicas(m, 1) == {i, v};
    assert Committable(m, 1);
  }

  /** Node 0 leads term 1 alone and appends two entries that nobody else gets. */
  lemma Abandons() returns (c: Cluster)
    ensures Three(c) && Plain(c.nodes[1], 1, 0, [SENTINEL]) && c.nodes[1].role != Leader
    ensures Plain(c.nodes[2], 2, 1, [SENTINEL])
    ensures Plain(c.nodes[0], 0, 1, [SENTINEL, LogEntry(1, Some(Unknown)), LogEntry(1, Some(Unknown))])
  {
    c := Cluster(seq(3, i requires 0 <= i < 3 => NewNode(i, 3, Disk(None, None))), {}, {}, {});
    ReachInit(c);
    c := Elects(c, 0, 2, 0, 0);
    c := Submits(c, 0, 1, [SENTINEL]);
    c := Submits(c, 0, 1, [SENTINEL] + [LogEntry(1, Some(Unknown))]);
    assert [SENTINEL] + [LogEntry(1, Some(Unknown))] + [LogEntry(1, Some(Unknown))]
        == [SENTINEL, LogEntry(1, Some(Unknown)), LogEntry(1, Some(Unknown))];
  }

  /** Node 1 is elected in term 2, commits an entry with node 2, and compacts it away. */
  lemma Overtakes(c: Cluster) returns (c': Cluster)
    requires Three(c) && Plain(c.nodes[1], 1, 0, [SENTINEL]) && c.nodes[1].role != Leader
    requires Plain(c.nodes[2], 2, 1, [SENTINEL])
    ensures Three(c') && c'.nodes[0] == c.nodes[0]
    ensures WillSendSnapshot(c'.nodes[1], 0)
    ensures SnapshotRequest(c'.nodes[1]) == InstallArgs(2, 1, 1, 2, Some(Store.EMPTY))
  {
    var args;
    c', args := Stands(c, 1, 0);
    c' := Elects(c', 1, 2, 1, 1);
    c' := Submits(c', 1, 2, [SENTINEL]);
    assert [SENTINEL] + [LogEntry(2, Some(Unknown))] == [SENTINEL, LogEntry(2, Some(Unknown))];
    var a := AppendArgs(2, 1, 0, 0, [LogEntry(2, Some(Unknown))], 0);
    c' := Sends(c', 1, 2, 2, a);
    c' := Receives(c', 2, 2, a);
    c' := Commits(c', 1, 2, 2, a);
    c' := Compacts(c', 1, 2, Some(Store.EMPTY));
  }

  /**
    * Log Matching does not hold in every run with snapshots: in state c of some run the leader's
    * next heartbeat to node 0 is its snapshot; once installed, node 0 and what it was before have
    * the same term at index 2 and different terms at index 1.
    */
  lemma RunBreaksLogMatching() returns (c: Cluster)
    ensures Reachable(c) && |c.nodes| == 3 && WillSendSnapshot(c.nodes[1], 0)
    ensures |c.nodes[0].log| > 0 && Installs(c.nodes[0], SnapshotRequest(c.nodes[1]))
    ensures var n, m := c.nodes[0], Installed(c.nodes[0], SnapshotRequest(c.nodes[1]));
            && HasIndex(n, 1) && HasIndex(n, 2) && HasIndex(m, 1) && HasIndex(m, 2)
            && LogTerm(m, 2) == LogTerm(n, 2) && LogTerm(m, 1) != LogTerm(n, 1)
            && !Matching(m, n)
  {
    c := Abandons();
    c := Overtakes(c);
    var n, a := c.nodes[0], SnapshotRequest(c.nodes[1]);
    InstalledTerms(n, a, 1);
    InstalledTerms(n, a, 2);
    assert !SameAt(Installed(n, a), n, 1);
    assert !SameThrough(Installed(n, a), n, 2);
  }
}
