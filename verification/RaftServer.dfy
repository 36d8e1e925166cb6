/** The Raft object and its persister, updated in place, each handler one locked region of the code. */
module RaftServer {
  import opened StoreTypes
  import opened RaftTypes
  import opened Quorum
  import opened RaftNode

  /** Raft state and snapshot, always saved together. */
  class Persister {
    var raftState: Option<Durable>
    var snapshot: Option<StoreState>

    function View(): Disk
      reads this
    {
      Disk(raftState, snapshot)
    }

    constructor ()
      ensures View() == Disk(None, None)
    {
      raftState, snapshot := None, None;
    }

    method Save(state: Durable, snap: Option<StoreState>)
      modifies this
      ensures View() == Disk(Some(state), snap)
    {
      raftState, snapshot := Some(state), snap;
    }

    method ReadSnapshot() returns (snap: Option<StoreState>)
      ensures snap == View().snapshot
    {
      snap := snapshot;
    }
  }

  class Raft {
    const me: nat
    const peers: nat
    const persister: Persister
    var currentTerm: nat
    var votedFor: int
    var log: Log
    var lastIncludedIndex: nat
    var lastIncludedTerm: nat
    var commitIndex: nat
    var lastApplied: nat
    var nextIndex: seq<int>
    var matchIndex: seq<nat>
    var role: Role
    var votes: set<nat>

    /** The node this object stands for. */
    ghost function View(): Node
      reads this, persister
    {
      Node(me, peers, currentTerm, votedFor, log, lastIncludedIndex, lastIncludedTerm, commitIndex, lastApplied,
           nextIndex, matchIndex, role, votes, persister.View())
    }

    ghost predicate Valid()
      reads this, persister
    {
      RaftNode.Valid(View())
    }

    /** Make, on a disk that is empty or holds an earlier node's state. */
    constructor (me: nat, peers: nat, persister: Persister)
      requires me < peers
      ensures this.persister == persister && View() == NewNode(me, peers, persister.View())
    {
      this.me, this.peers, this.persister := me, peers, persister;
      currentTerm, votedFor, log := 0, NOBODY, [SENTINEL];
      lastIncludedIndex, lastIncludedTerm := 0, 0;
      commitIndex, lastApplied := 0, 0;
      nextIndex, matchIndex, role, votes := [], [], Follower, {};
      new;
      ReadPersist();
      lastApplied := lastIncludedIndex;
      commitIndex := lastIncludedIndex;
    }

    method ReadPersist()
      modifies this
      ensures View() == old(View()) || persister.View().raftState.Some?
      ensures persister.View().raftState.Some? ==>
                var d := persister.View().raftState.value;
                View() == old(View()).(currentTerm := d.currentTerm, votedFor := d.votedFor, log := d.log,
                            lastIncludedIndex := d.lastIncludedIndex, lastIncludedTerm := d.lastIncludedTerm)
    {
      match persister.raftState {
        case None =>
        case Some(d) =>
          currentTerm, votedFor, log := d.currentTerm, d.votedFor, d.log;
          lastIncludedIndex, lastIncludedTerm := d.lastIncludedIndex, d.lastIncludedTerm;
      }
    }

    method Persist()
      modifies persister
      ensures View() == RaftNode.Persist(old(View()))
    {
      var snap := persister.ReadSnapshot();
      PersistWithSnapshot(snap);
    }

    method PersistWithSnapshot(snap: Option<StoreState>)
      modifies persister
      ensures View() == old(View()).(disk := Disk(Some(Persistent(old(View()))), snap))
    {
      persister.Save(Durable(currentTerm, votedFor, log, lastIncludedIndex, lastIncludedTerm), snap);
    }

    method LastLogIndex() returns (i: int)
      ensures i == RaftNode.LastLogIndex(View())
    {
      i := lastIncludedIndex + |log| - 1;
    }

    method LogTerm(i: int) returns (t: nat)
      requires HasIndex(View(), i)
      ensures t == RaftNode.LogTerm(View(), i)
    {
      t := if i == lastIncludedIndex then lastIncludedTerm else log[i - lastIncludedIndex].term;
    }

    /** Follow in a later term, as every handler does that learns of one. */
    method StepDown(term: nat)
      modifies this`currentTerm, this`role, this`votedFor, persister
      ensures View() == RaftNode.StepDown(old(View()), term)
    {
      currentTerm := term;
      role := Follower;
      votedFor := NOBODY;
      Persist();
    }

    method RequestVote(args: VoteArgs) returns (reply: VoteReply)
      requires Valid()
      modifies this, persister
      ensures (View(), reply) == RaftNode.RequestVote(old(View()), args)
      ensures Valid()
    {
      reply := VoteReply(currentTerm, false);
      if args.term < currentTerm {
        return;
      }
      if args.term > currentTerm {
        StepDown(args.term);
      }
      if votedFor != NOBODY && votedFor != args.candidateId {
        return;
      }
      var lastIndex := LastLogIndex();
      var lastTerm := LogTerm(lastIndex);
      if !(args.lastLogTerm > lastTerm || (args.lastLogTerm == lastTerm && args.lastLogIndex >= lastIndex)) {
        return;
      }
      reply := reply.(voteGranted := true);
      votedFor := args.candidateId;
      Persist();
    }

    /** The requests startElection's goroutines carry are all equal. */
    method StartElection() returns (args: VoteArgs)
      requires Valid()
      modifies this`role, this`currentTerm, this`votedFor, this`votes, persister
      ensures (View(), args) == RaftNode.StartElection(old(View()))
      ensures Valid()
    {
      role := Candidate;
      currentTerm := currentTerm + 1;
      votedFor := me;
      Persist();
      votes := {me};
      var lastIndex := LastLogIndex();
      var lastTerm := LogTerm(lastIndex);
      args := VoteArgs(currentTerm, me, lastIndex, lastTerm);
    }

    method HandleVoteReply(term: nat, from: nat, reply: VoteReply)
      requires Valid() && from < peers
      modifies this, persister
      ensures View() == RaftNode.HandleVoteReply(old(View()), term, from, reply)
      ensures Valid()
    {
      if currentTerm != term || role != Candidate {
        return;
      }
      if reply.term > currentTerm {
        StepDown(reply.term);
        return;
      }
      if reply.voteGranted {
        votes := votes + {from};
        if |votes| >= peers / 2 + 1 {
          BecomeLeader();
        }
      }
    }

    method BecomeLeader()
      modifies this`role, this`nextIndex, this`matchIndex
      ensures View() == RaftNode.BecomeLeader(old(View()))
    {
      role := Leader;
      nextIndex := seq(peers, _ => 0);
      matchIndex := seq(peers, _ => 0);
      var last := LastLogIndex();
      for i := 0 to peers
        invariant |nextIndex| == |matchIndex| == peers
        invariant forall k :: 0 <= k < i ==> nextIndex[k] == last + 1 && matchIndex[k] == 0
        invariant role == Leader
      {
        nextIndex := nextIndex[i := last + 1];
        matchIndex := matchIndex[i := 0];
      }
      assert nextIndex == seq(peers, _ => last + 1);
      assert matchIndex == seq(peers, _ => 0);
    }

    method Start(command: Command) returns (result: Option<(int, nat)>)
      requires Valid()
      modifies this, persister
      ensures (View(), result) == RaftNode.Start(old(View()), command)
      ensures Valid()
    {
      if role != Leader {
        return None;
      }
      log := log + [LogEntry(currentTerm, Some(command))];
      var index := LastLogIndex();
      Persist();
      return Some((index, currentTerm));
    }

    /** The second locked region of sendHeartbeats; None where it returns or sends a snapshot. */
    method MakeAppend(r: Round, peer: nat) returns (args: Option<AppendArgs>)
      requires Valid() && peer < peers && peer != me
      requires WillAppend(View(), peer) ==> AppendInRange(View(), peer)
      ensures args == if WillAppend(View(), peer) then Some(RaftNode.MakeAppend(View(), r, peer)) else None
    {
      if role != Leader {
        return None;
      }
      if nextIndex[peer] <= lastIncludedIndex {
        return None;
      }
      var ni := nextIndex[peer];
      var prevLogTerm := LogTerm(ni - 1);
      return Some(AppendArgs(r.term, me, ni - 1, prevLogTerm, log[ni - lastIncludedIndex..], r.commitIndex));
    }

    method HandleAppendReply(args: AppendArgs, from: nat, reply: AppendReply)
      requires Valid() && from < peers
      modifies this, persister
      ensures View() == RaftNode.HandleAppendReply(old(View()), args, from, reply)
      ensures Valid()
    {
      if role != Leader || currentTerm != args.term {
        return;
      }
      if reply.term > currentTerm {
        StepDown(reply.term);
      }
      ghost var m := View();
      assert |m.nextIndex| == |m.matchIndex| == peers;
      if reply.success {
        RecordMatch(from, args.prevLogIndex + |args.entries|);
        MaybeAdvanceCommitIndex();
      } else {
        BackUp(from, reply);
      }
    }

    method RecordMatch(from: nat, newMatch: int)
      requires from < |nextIndex| && from < |matchIndex|
      modifies this`nextIndex, this`matchIndex
      ensures View() == RaftNode.RecordMatch(old(View()), from, newMatch)
    {
      if newMatch > matchIndex[from] {
        matchIndex := matchIndex[from := newMatch];
      }
      nextIndex := nextIndex[from := matchIndex[from] + 1];
      assert matchIndex == old(matchIndex)[from := matchIndex[from]];
    }

    method BackUp(from: nat, reply: AppendReply)
      requires |log| > 0 && from < |nextIndex|
      modifies this`nextIndex
      ensures View() == old(View()).(nextIndex := old(nextIndex)[from := RaftNode.BackUp(old(View()), reply)])
    {
      ghost var was := View();
      if reply.conflictTerm == -1 {
        nextIndex := nextIndex[from := reply.conflictIndex];
      } else {
        var newIndex := FindTerm(reply.conflictTerm);
        if newIndex == -1 {
          nextIndex := nextIndex[from := reply.conflictIndex];
        } else {
          nextIndex := nextIndex[from := newIndex];
        }
      }
      if nextIndex[from] < 1 {
        nextIndex := nextIndex[from := 1];
      }
      assert nextIndex == was.nextIndex[from := RaftNode.BackUp(was, reply)];
    }

    /** Search the log backwards; the index just past the last entry of this term, or -1. */
    method FindTerm(term: int) returns (newIndex: int)
      requires |log| > 0
      ensures var j := LastOfTerm(View(), term, RaftNode.LastLogIndex(View()));
              newIndex == if j == -1 then -1 else j + 1
    {
      newIndex := -1;
      var j := LastLogIndex();
      while j > lastIncludedIndex
        invariant lastIncludedIndex <= j <= RaftNode.LastLogIndex(View())
        invariant newIndex == -1
        invariant LastOfTerm(View(), term, j) == LastOfTerm(View(), term, RaftNode.LastLogIndex(View()))
      {
        var t := LogTerm(j);
        if t == term {
          return j + 1;
        }
        j := j - 1;
      }
    }

    method MaybeAdvanceCommitIndex()
      requires |matchIndex| == peers && me < peers
      requires lastIncludedIndex <= commitIndex <= RaftNode.LastLogIndex(View())
      modifies this`commitIndex
      ensures View() == AdvanceCommit(old(View()))
    {
      ghost var was := View();
      var n := commitIndex + 1;
      var last := LastLogIndex();
      while n <= last
        invariant was.commitIndex < n <= last + 1
        invariant commitIndex == CommitBelow(was, n - 1)
      {
        CommitNext(was, n);
        var t := LogTerm(n);
        if t == currentTerm {
          var count := CountReplicas(n);
          assert Replicas(View(), n) == Replicas(was, n);
          if count >= peers / 2 + 1 {
            commitIndex := n;
          }
        }
        n := n + 1;
      }
    }

    method CountReplicas(n: nat) returns (count: nat)
      requires |matchIndex| == peers && me < peers
      ensures count == |Replicas(View(), n)|
    {
      count := 1;
      for i := 0 to peers
        invariant count == |ReplicasBelow(matchIndex, me, n, i)|
      {
        if i != me && matchIndex[i] >= n {
          count := count + 1;
        }
      }
      assert Replicas(View(), n) == ReplicasBelow(matchIndex, me, n, peers);
    }

    method AppendEntries(args: AppendArgs) returns (reply: AppendReply)
      requires Valid()
      modifies this, persister
      ensures (View(), reply) == RaftNode.AppendEntries(old(View()), args)
    {
      reply := AppendReply(currentTerm, false, -1, 0);
      if args.term < currentTerm {
        return;
      }
      role := Follower;
      currentTerm := args.term;
      Persist();
      reply := reply.(term := currentTerm);
      ghost var n := View();
      var last := LastLogIndex();
      if args.prevLogIndex < lastIncludedIndex {
        reply := reply.(conflictIndex := lastIncludedIndex + 1);
        return;
      }
      if args.prevLogIndex > last {
        reply := reply.(conflictIndex := last + 1);
        return;
      }
      var prevTerm := LogTerm(args.prevLogIndex);
      if prevTerm != args.prevLogTerm {
        var j := ConflictStart(args.prevLogIndex);
        reply := reply.(conflictTerm := prevTerm, conflictIndex := j);
        return;
      }
      AppendNew(args.prevLogIndex, args.entries);
      Persist();
      if args.leaderCommit > commitIndex {
        var lastNewIndex := args.prevLogIndex + |args.entries|;
        if args.leaderCommit < lastNewIndex {
          commitIndex := args.leaderCommit;
        } else {
          commitIndex := lastNewIndex;
        }
      }
      reply := reply.(success := true);
    }

    /** Walk back to the first index of the conflicting term. */
    method ConflictStart(i: int) returns (j: int)
      requires HasIndex(View(), i)
      ensures j == RunStart(View(), i)
    {
      j := i;
      var t := LogTerm(i);
      while true
        invariant HasIndex(View(), j) && RaftNode.LogTerm(View(), j) == t && RunStart(View(), j) == RunStart(View(), i)
        decreases j
      {
        if j <= lastIncludedIndex + 1 {
          return;
        }
        var u := LogTerm(j - 1);
        if u != t {
          return;
        }
        j := j - 1;
      }
    }

    /** The entry loop: skip what is there, cut at the first conflict, append the rest. */
    method AppendNew(prev: int, entries: Log)
      requires HasIndex(View(), prev)
      modifies this
      ensures View() == old(View()).(log := Splice(old(log), prev + 1 - old(lastIncludedIndex), entries))
    {
      ghost var at := prev + 1 - lastIncludedIndex;
      var i := 0;
      while i < |entries|
        invariant 0 <= i <= |entries| && at + i <= |log|
        invariant View() == old(View())
        invariant Splice(log, at + i, entries[i..]) == Splice(log, at, entries)
      {
        var idx := prev + 1 + i;
        var last := LastLogIndex();
        if idx < last + 1 {
          var t := LogTerm(idx);
          if t != entries[i].term {
            log := log[..idx - lastIncludedIndex];
            log := log + entries[i..];
            return;
          }
        } else {
          assert log[..|log|] == log;
          log := log + entries[i..];
          return;
        }
        assert entries[i..][1..] == entries[i + 1..];
        i := i + 1;
      }
    }

    method ApplyNext() returns (msg: Option<ApplyMsg>)
      requires |log| > 0 && commitIndex <= RaftNode.LastLogIndex(View())
      modifies this
      ensures (View(), msg) == RaftNode.ApplyNext(old(View()))
      ensures old(Valid()) ==> Valid()
    {
      if lastApplied >= commitIndex {
        return None;
      }
      lastApplied := lastApplied + 1;
      if lastApplied <= lastIncludedIndex {
        lastApplied := lastIncludedIndex;
        return None;
      }
      return Some(ApplyMsg(lastApplied, log[lastApplied - lastIncludedIndex].command));
    }

    method Snapshot(index: nat, snap: Option<StoreState>)
      requires Valid() && index <= lastApplied
      modifies this, persister
      ensures View() == RaftNode.Snapshot(old(View()), index, snap)
      ensures Valid()
    {
      if index <= lastIncludedIndex {
        return;
      }
      var newTerm := LogTerm(index);
      log := log[index - lastIncludedIndex..];
      log := log[0 := log[0].(command := None)];
      assert log == RaftNode.Snapshot(old(View()), index, snap).log;
      lastIncludedIndex := index;
      lastIncludedTerm := newTerm;
      PersistWithSnapshot(snap);
    }

    method AdoptSnapshot(args: InstallArgs)
      requires |log| > 0 && args.lastIncludedIndex > lastIncludedIndex
      modifies this, persister
      ensures View() == RaftNode.AdoptSnapshot(old(View()), args)
    {
      var last := LastLogIndex();
      if args.lastIncludedIndex <= last {
        log := log[args.lastIncludedIndex - lastIncludedIndex..];
      } else {
        log := [LogEntry(args.lastIncludedTerm, None)];
      }
      lastIncludedIndex := args.lastIncludedIndex;
      lastIncludedTerm := args.lastIncludedTerm;
      if commitIndex < args.lastIncludedIndex {
        commitIndex := args.lastIncludedIndex;
      }
      if lastApplied < args.lastIncludedIndex {
        lastApplied := args.lastIncludedIndex;
      }
      PersistWithSnapshot(args.data);
    }

    /** The reply's term, and whether the snapshot was archived for the apply loop. */
    method InstallSnapshot(args: InstallArgs) returns (replyTerm: nat, archived: bool)
      requires |log| > 0
      modifies this, persister
      ensures (View(), replyTerm, archived) == RaftNode.InstallSnapshot(old(View()), args)
    {
      replyTerm, archived := currentTerm, false;
      if args.term < currentTerm {
        return;
      }
      if args.term > currentTerm {
        currentTerm := args.term;
        votedFor := NOBODY;
      }
      role := Follower;
      if args.lastIncludedIndex <= lastIncludedIndex {
        return;
      }
      AdoptSnapshot(args);
      archived := true;
    }
  }
}
