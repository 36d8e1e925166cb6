/**
  * What each handler of a Raft node computes: the node it leaves behind, including what it has
  * written to disk, and its reply. The class Raft does the same work in place.
  */
module RaftNode {
  import opened StoreTypes
  import opened RaftTypes
  import opened Quorum

  datatype Role = Follower | Candidate | Leader

  /** The fields persist() writes. */
  datatype Durable = Durable(
    currentTerm: nat,
    votedFor: int,
    log: Log,
    lastIncludedIndex: nat,
    lastIncludedTerm: nat)

  /** The persister: Raft state and snapshot, saved together. Nothing is there before the first save. */
  datatype Disk = Disk(raftState: Option<Durable>, snapshot: Option<StoreState>)

  const NOBODY: int := -1

  datatype Node = Node(
    me: nat,
    peers: nat,
    currentTerm: nat,
    votedFor: int,
    log: Log,
    lastIncludedIndex: nat,
    lastIncludedTerm: nat,
    commitIndex: nat,
    lastApplied: nat,
    nextIndex: seq<int>,
    matchIndex: seq<nat>,
    role: Role,
    votes: set<nat>,    // who granted the running election; the code keeps only their number
    disk: Disk)

  /** What NewNode starts from when the disk is empty. */
  const FRESH := Durable(0, NOBODY, [SENTINEL], 0, 0)

  function Persistent(n: Node): Durable {
    Durable(n.currentTerm, n.votedFor, n.log, n.lastIncludedIndex, n.lastIncludedTerm)
  }

  function Load(d: Disk): Durable {
    match d.raftState
    case Some(p) => p
    case None => FRESH
  }

  function Persist(n: Node): Node {
    n.(disk := Disk(Some(Persistent(n)), n.disk.snapshot))
  }

  // ----- index helpers -----

  function LastLogIndex(n: Node): int {
    n.lastIncludedIndex + |n.log| - 1
  }

  predicate HasIndex(n: Node, i: int) {
    n.lastIncludedIndex <= i <= LastLogIndex(n)
  }

  /** The entry at an absolute index; the code's rf.log[rf.logIndex(i)]. */
  function EntryAt(n: Node, i: int): LogEntry
    requires HasIndex(n, i)
  {
    n.log[i - n.lastIncludedIndex]
  }

  function LogTerm(n: Node, i: int): nat
    requires HasIndex(n, i)
  {
    if i == n.lastIncludedIndex then n.lastIncludedTerm else EntryAt(n, i).term
  }

  /** The two nodes hold the same at index x: its term, and its entry where neither has compacted it. */
  predicate SameAt(m: Node, n: Node, x: int)
    requires HasIndex(m, x) && HasIndex(n, x)
  {
    && LogTerm(m, x) == LogTerm(n, x)
    && (x > m.lastIncludedIndex && x > n.lastIncludedIndex ==> EntryAt(m, x) == EntryAt(n, x))
  }

  /** What the two nodes hold of their logs is the same up to index k. */
  ghost predicate SameThrough(m: Node, n: Node, k: int) {
    forall x :: HasIndex(m, x) && HasIndex(n, x) && x <= k ==> SameAt(m, n, x)
  }

  /** What keeps a node's own indexing in range. */
  predicate Valid(n: Node) {
    && n.me < n.peers
    && |n.log| > 0
    && n.lastIncludedIndex <= n.lastApplied <= n.commitIndex <= LastLogIndex(n)
    && n.votes <= Members(n.peers)
    && (n.role == Leader ==> |n.nextIndex| == n.peers && |n.matchIndex| == n.peers)
    && Persistent(n) == Load(n.disk)
  }

  // ----- starting up -----

  /** Make: read back what was persisted; everything else starts over. */
  function NewNode(me: nat, peers: nat, disk: Disk): Node {
    var d := Load(disk);
    Node(me, peers, d.currentTerm, d.votedFor, d.log, d.lastIncludedIndex, d.lastIncludedTerm,
         d.lastIncludedIndex, d.lastIncludedIndex, [], [], Follower, {}, disk)
  }

  // ----- elections -----

  function StartElection(n: Node): (Node, VoteArgs)
    requires |n.log| > 0
  {
    var m := Persist(n.(role := Candidate, currentTerm := n.currentTerm + 1, votedFor := n.me, votes := {n.me}));
    (m, VoteArgs(m.currentTerm, m.me, LastLogIndex(m), LogTerm(m, LastLogIndex(m))))
  }

  /** The log check of RequestVote. */
  predicate LogOk(n: Node, args: VoteArgs)
    requires |n.log| > 0
  {
    var lastTerm := LogTerm(n, LastLogIndex(n));
    args.lastLogTerm > lastTerm || (args.lastLogTerm == lastTerm && args.lastLogIndex >= LastLogIndex(n))
  }

  function StepDown(n: Node, term: nat): Node {
    Persist(n.(currentTerm := term, role := Follower, votedFor := NOBODY))
  }

  /** The reply carries the term the voter had before it looked at the request. */
  function RequestVote(n: Node, args: VoteArgs): (Node, VoteReply)
    requires |n.log| > 0
  {
    var m := if args.term > n.currentTerm then StepDown(n, args.term) else n;
    if args.term < n.currentTerm || (m.votedFor != NOBODY && m.votedFor != args.candidateId) || !LogOk(m, args) then
      (m, VoteReply(n.currentTerm, false))
    else
      (Persist(m.(votedFor := args.candidateId)), VoteReply(n.currentTerm, true))
  }

  function BecomeLeader(n: Node): Node {
    n.(role := Leader,
       nextIndex := seq(n.peers, _ => LastLogIndex(n) + 1),
       matchIndex := seq(n.peers, _ => 0))
  }

  /** A vote reply reaches the goroutine that asked peer `from` in the election of `term`. */
  function HandleVoteReply(n: Node, term: nat, from: nat, reply: VoteReply): Node {
    if n.currentTerm != term || n.role != Candidate then n
    else if reply.term > n.currentTerm then StepDown(n, reply.term)
    else if !reply.voteGranted then n
    else
      var m := n.(votes := n.votes + {from});
      if Majority(|m.votes|, n.peers) then BecomeLeader(m) else m
  }

  // ----- replication: the leader's side -----

  /** Start: the index and term of the new entry, or None where the code answers isLeader = false. */
  function Start(n: Node, command: Command): (Node, Option<(int, nat)>)
  {
    if n.role != Leader then (n, None)
    else
      var m := Persist(n.(log := n.log + [LogEntry(n.currentTerm, Some(command))]));
      (m, Some((LastLogIndex(m), m.currentTerm)))
  }

  /** What sendHeartbeats reads before it releases the lock for the first time. */
  datatype Round = Round(node: nat, term: nat, commitIndex: nat)

  function BeginRound(n: Node): Round {
    Round(n.me, n.currentTerm, n.commitIndex)
  }

  /** Whether a goroutine of the round will call AppendEntries on this peer. */
  predicate WillAppend(n: Node, peer: nat) {
    && n.role == Leader && peer < |n.nextIndex| && peer != n.me
    && n.nextIndex[peer] > n.lastIncludedIndex
  }

  /** The indexing this goroutine does is in range. */
  predicate AppendInRange(n: Node, peer: nat)
    requires WillAppend(n, peer)
  {
    n.nextIndex[peer] <= LastLogIndex(n) + 1
  }

  /** Term and commit index come from the round, possibly long ago; the log is read now. */
  function MakeAppend(n: Node, r: Round, peer: nat): AppendArgs
    requires WillAppend(n, peer) && AppendInRange(n, peer)
  {
    var ni := n.nextIndex[peer];
    AppendArgs(r.term, n.me, ni - 1, LogTerm(n, ni - 1), n.log[ni - n.lastIncludedIndex..], r.commitIndex)
  }

  /** How many nodes, this one included, are known to hold entry k. */
  function Replicas(n: Node, k: nat): set<nat>
    requires |n.matchIndex| == n.peers
  {
    set i <- Members(n.peers) | i == n.me || n.matchIndex[i] >= k
  }

  /** Node me, and those below i that hold entry k. */
  function ReplicasBelow(matchIndex: seq<nat>, me: nat, k: nat, i: nat): (s: set<nat>)
    requires i <= |matchIndex|
    ensures forall j: nat :: j in s <==> j == me || (j < i && matchIndex[j] >= k)
  {
    if i == 0 then {me}
    else if matchIndex[i - 1] >= k then ReplicasBelow(matchIndex, me, k, i - 1) + {i - 1}
    else ReplicasBelow(matchIndex, me, k, i - 1)
  }

  predicate Committable(n: Node, k: nat)
    requires |n.matchIndex| == n.peers
  {
    HasIndex(n, k) && LogTerm(n, k) == n.currentTerm && Majority(|Replicas(n, k)|, n.peers)
  }

  /** The greatest committable index in commitIndex + 1 .. k, or commitIndex. */
  function CommitBelow(n: Node, k: int): (r: nat)
    requires |n.matchIndex| == n.peers
    ensures n.commitIndex <= r
    ensures r == n.commitIndex || (r <= k && Committable(n, r))
    ensures forall j :: r < j <= k ==> !Committable(n, j)
    decreases k - n.commitIndex
  {
    if k <= n.commitIndex then n.commitIndex else if Committable(n, k) then k else CommitBelow(n, k - 1)
  }

  lemma CommitNext(n: Node, k: nat)
    requires |n.matchIndex| == n.peers && k > n.commitIndex && HasIndex(n, k)
    ensures CommitBelow(n, k)
         == if LogTerm(n, k) == n.currentTerm && |Replicas(n, k)| >= n.peers / 2 + 1 then k else CommitBelow(n, k - 1)
  {
  }

  function AdvanceCommit(n: Node): Node
    requires |n.matchIndex| == n.peers
  {
    n.(commitIndex := CommitBelow(n, LastLogIndex(n)))
  }

  /** The last index in lastIncludedIndex + 1 .. k with this term, or -1. */
  function LastOfTerm(n: Node, term: int, k: int): (j: int)
    requires k <= LastLogIndex(n)
    ensures j == -1 || (n.lastIncludedIndex < j <= k && LogTerm(n, j) == term)
    ensures forall i :: (if j == -1 then n.lastIncludedIndex else j) < i <= k ==> LogTerm(n, i) != term
    decreases k - n.lastIncludedIndex
  {
    if k <= n.lastIncludedIndex then -1
    else if LogTerm(n, k) == term then k
    else LastOfTerm(n, term, k - 1)
  }

  /** Where the leader resumes after a rejection (the fast backup of section 5.3 of the Raft paper). */
  function BackUp(n: Node, reply: AppendReply): int {
    var j := if reply.conflictTerm == -1 then -1 else LastOfTerm(n, reply.conflictTerm, LastLogIndex(n));
    var ni := if j == -1 then reply.conflictIndex as int else j + 1;
    if ni < 1 then 1 else ni
  }

  function RecordMatch(n: Node, from: nat, newMatch: int): Node
    requires from < |n.nextIndex| && from < |n.matchIndex|
  {
    var mi := if newMatch > n.matchIndex[from] then newMatch else n.matchIndex[from];
    n.(matchIndex := n.matchIndex[from := mi], nextIndex := n.nextIndex[from := mi + 1])
  }

  function HandleAppendReply(n: Node, args: AppendArgs, from: nat, reply: AppendReply): Node
    requires n.role == Leader ==> |n.matchIndex| == n.peers == |n.nextIndex| && from < n.peers
  {
    if n.role != Leader || n.currentTerm != args.term then n
    else
      var m := if reply.term > n.currentTerm then StepDown(n, reply.term) else n;
      if reply.success then
        AdvanceCommit(RecordMatch(m, from, args.prevLogIndex + |args.entries|))
      else
        m.(nextIndex := m.nextIndex[from := BackUp(m, reply)])
  }

  // ----- replication: the follower's side -----

  /** First index of the run of equal terms that ends at i, not below lastIncludedIndex + 1. */
  function RunStart(n: Node, i: int): (j: int)
    requires HasIndex(n, i)
    ensures HasIndex(n, j) && j <= i && (j == i || j > n.lastIncludedIndex)
    ensures forall k :: j <= k <= i ==> LogTerm(n, k) == LogTerm(n, i)
    ensures j > n.lastIncludedIndex + 1 ==> LogTerm(n, j - 1) != LogTerm(n, i)
    decreases i
  {
    if i > n.lastIncludedIndex + 1 && LogTerm(n, i - 1) == LogTerm(n, i) then RunStart(n, i - 1) else i
  }

  /** commitIndex after a successful AppendEntries, as the code clamps it. */
  function NewCommit(n: Node, args: AppendArgs): int {
    var lastNewIndex := args.prevLogIndex + |args.entries|;
    if args.leaderCommit <= n.commitIndex then n.commitIndex
    else if args.leaderCommit < lastNewIndex then args.leaderCommit
    else lastNewIndex
  }

  function AppendEntries(n: Node, args: AppendArgs): (Node, AppendReply)
    requires |n.log| > 0
  {
    if args.term < n.currentTerm then (n, AppendReply(n.currentTerm, false, -1, 0))
    else MatchEntries(Persist(n.(role := Follower, currentTerm := args.term)), args)
  }

  /** AppendEntries once the message's term is accepted: compare the logs, then copy. */
  function MatchEntries(m: Node, args: AppendArgs): (Node, AppendReply)
    requires |m.log| > 0
  {
    var p := args.prevLogIndex;
    if p < m.lastIncludedIndex then
      (m, AppendReply(m.currentTerm, false, -1, m.lastIncludedIndex + 1))
    else if p > LastLogIndex(m) then
      (m, AppendReply(m.currentTerm, false, -1, LastLogIndex(m) + 1))
    else if LogTerm(m, p) != args.prevLogTerm then
      (m, AppendReply(m.currentTerm, false, LogTerm(m, p), RunStart(m, p)))
    else
      var log' := Splice(m.log, p + 1 - m.lastIncludedIndex, args.entries);
      (Persist(m.(log := log')).(commitIndex := NewCommit(m, args)), AppendReply(m.currentTerm, true, -1, 0))
  }

  // ----- applying and compacting -----

  datatype ApplyMsg = ApplyMsg(commandIndex: nat, command: Option<Command>)

  /** One turn of applyLoop's inner loop: the node, and what it hands to the store. */
  function ApplyNext(n: Node): (Node, Option<ApplyMsg>)
    requires n.lastApplied < n.commitIndex ==> |n.log| > 0 && n.lastApplied < LastLogIndex(n)
  {
    if n.lastApplied >= n.commitIndex then (n, None)
    else
      var i := n.lastApplied + 1;
      if i <= n.lastIncludedIndex then (n.(lastApplied := n.lastIncludedIndex), None)
      else (n.(lastApplied := i), Some(ApplyMsg(i, EntryAt(n, i).command)))
  }

  /** The service has a snapshot of everything through index: drop that part of the log. */
  function Snapshot(n: Node, index: nat, snapshot: Option<StoreState>): Node
    requires index > n.lastIncludedIndex ==> HasIndex(n, index)
  {
    if index <= n.lastIncludedIndex then n
    else
      var m := n.(
        log := [LogEntry(EntryAt(n, index).term, None)] + n.log[index - n.lastIncludedIndex + 1..],
        lastIncludedIndex := index,
        lastIncludedTerm := LogTerm(n, index));
      m.(disk := Disk(Some(Persistent(m)), snapshot))
  }

  // ----- installing a leader's snapshot; no theorem about the cluster includes this handler -----

  datatype InstallArgs = InstallArgs(
    term: nat,
    leaderId: nat,
    lastIncludedIndex: nat,
    lastIncludedTerm: nat,
    data: Option<StoreState>)

  /** The snapshot reaches further than the node's own: trim the log to it and save both. */
  function AdoptSnapshot(n: Node, args: InstallArgs): Node
    requires |n.log| > 0 && args.lastIncludedIndex > n.lastIncludedIndex
  {
    var index := args.lastIncludedIndex;
    var m := n.(
      log := if index <= LastLogIndex(n) then n.log[index - n.lastIncludedIndex..]
             else [LogEntry(args.lastIncludedTerm, None)],
      lastIncludedIndex := index,
      lastIncludedTerm := args.lastIncludedTerm,
      commitIndex := if n.commitIndex < index then index else n.commitIndex,
      lastApplied := if n.lastApplied < index then index else n.lastApplied);
    m.(disk := Disk(Some(Persistent(m)), args.data))
  }

  /** What InstallSnapshot leaves, the term it replies, and whether it archives the snapshot for the apply loop. */
  function InstallSnapshot(n: Node, args: InstallArgs): (Node, nat, bool)
    requires |n.log| > 0
  {
    if args.term < n.currentTerm then (n, n.currentTerm, false)
    else
      var m := n.(role := Follower, currentTerm := args.term,
                  votedFor := if args.term > n.currentTerm then NOBODY else n.votedFor);
      if args.lastIncludedIndex <= n.lastIncludedIndex then (m, n.currentTerm, false)
      else (AdoptSnapshot(m, args), n.currentTerm, true)
  }
}
