/** Dropping an applied prefix of the log changes nothing a later handler can see. */
module RaftCompaction {
  import opened StoreTypes
  import opened RaftTypes
  import opened RaftNode

  /** The first entry of the log array is a placeholder with the term of lastIncludedIndex. */
  predicate Anchored(n: Node) {
    |n.log| > 0 && n.log[0].term == n.lastIncludedTerm
  }

  /** A snapshot keeps the last index and every term and entry after the snapshot. */
  lemma SnapshotKeepsTail(n: Node, index: nat, snap: Option<StoreState>, i: int)
    requires Valid(n) && Anchored(n) && index <= n.lastApplied
    requires index <= i <= LastLogIndex(n) && n.lastIncludedIndex <= i
    ensures var c := Snapshot(n, index, snap);
            Anchored(c) && Valid(c) && LastLogIndex(c) == LastLogIndex(n)
            && HasIndex(c, i) && LogTerm(c, i) == LogTerm(n, i)
            && (i > index && i > n.lastIncludedIndex ==> EntryAt(c, i) == EntryAt(n, i))
  {
  }

  /** Restarting after a snapshot finds the same log, snapshot and vote. */
  lemma SnapshotSurvivesRestart(n: Node, index: nat, snap: Option<StoreState>)
    requires Valid(n) && n.lastIncludedIndex < index <= n.lastApplied
    ensures var c := Snapshot(n, index, snap);
            var r := NewNode(n.me, n.peers, c.disk);
            r.log == c.log && r.currentTerm == n.currentTerm && r.votedFor == n.votedFor && r.disk.snapshot == snap
            && r.lastIncludedIndex == r.lastApplied == r.commitIndex == index
  {
  }

  lemma LogOkSame(n: Node, index: nat, snap: Option<StoreState>, args: VoteArgs)
    requires Valid(n) && Anchored(n) && index <= n.lastApplied
    ensures LogOk(Snapshot(n, index, snap), args) == LogOk(n, args)
  {
    SnapshotKeepsTail(n, index, snap, LastLogIndex(n));
  }

  /** Changing term, vote and role, and persisting them, commutes with compacting. */
  lemma UpdateCommutes(n: Node, index: nat, snap: Option<StoreState>, term: nat, vote: int, role: Role)
    requires n.lastIncludedIndex < index && HasIndex(n, index)
    ensures Snapshot(Persist(n.(currentTerm := term, votedFor := vote, role := role)), index, snap)
         == Persist(Snapshot(n, index, snap).(currentTerm := term, votedFor := vote, role := role))
  {
  }

  /** Voting and compacting commute, reply and disk included. */
  lemma RequestVoteCommutes(n: Node, index: nat, snap: Option<StoreState>, args: VoteArgs)
    requires Valid(n) && Anchored(n) && n.lastIncludedIndex < index <= n.lastApplied
    ensures RequestVote(Snapshot(n, index, snap), args)
         == (Snapshot(RequestVote(n, args).0, index, snap), RequestVote(n, args).1)
  {
    var m := if args.term > n.currentTerm then StepDown(n, args.term) else n;
    LogOkSame(m, index, snap, args);
    UpdateCommutes(n, index, snap, args.term, NOBODY, Follower);
    UpdateCommutes(m, index, snap, m.currentTerm, args.candidateId, m.role);
  }

  lemma {:induction false} SpliceSuffix(l: Log, b: nat, at: nat, es: Log)
    requires b < at <= |l|
    ensures at <= |Splice(l, at, es)| && Splice(l, at, es)[..at] == l[..at]
    ensures Splice(l[b..], at - b, es) == Splice(l, at, es)[b..]
    decreases |es|
  {
    if es == [] {
    } else if at < |l| && l[at].term == es[0].term {
      SpliceSuffix(l, b, at + 1, es[1..]);
      assert Splice(l, at, es)[..at] == Splice(l, at, es)[..at + 1][..at] == l[..at];
    } else {
      assert l[b..][..at - b] + es == (l[..at] + es)[b..];
    }
  }

  /** The same with the first entry turned into a placeholder. */
  lemma SpliceAnchor(l: Log, b: nat, at: nat, es: Log, e: LogEntry)
    requires b < at <= |l| && e.term == l[b].term
    ensures b < |Splice(l, at, es)| && Splice(l, at, es)[b] == l[b]
    ensures Splice([e] + l[b + 1..], at - b, es) == [e] + Splice(l, at, es)[b + 1..]
  {
    SpliceSuffix(l, b, at, es);
    assert Splice(l, at, es)[..at][b] == l[..at][b];
    SpliceHead(l[b..], e, at - b, es);
    assert [e] + l[b..][1..] == [e] + l[b + 1..];
    assert Splice(l, at, es)[b..][1..] == Splice(l, at, es)[b + 1..];
  }

  lemma {:induction false} SpliceHead(l: Log, e: LogEntry, at: nat, es: Log)
    requires 0 < at <= |l|
    ensures |Splice(l, at, es)| > 0 && Splice([e] + l[1..], at, es) == [e] + Splice(l, at, es)[1..]
    decreases |es|
  {
    if es == [] {
    } else if at < |l| && l[at].term == es[0].term {
      SpliceHead(l, e, at + 1, es[1..]);
    } else {
      assert ([e] + l[1..])[..at] + es == [e] + (l[..at] + es)[1..];
    }
  }

  function Max(a: int, b: int): int {
    if a >= b then a else b
  }

  function Min(a: int, b: int): int {
    if a <= b then a else b
  }

  /** Compaction can only cut the walk back to the start of a conflicting term short. */
  lemma {:induction false} RunStartCompacted(n: Node, c: Node, i: int)
    requires n.lastIncludedIndex < c.lastIncludedIndex && HasIndex(c, i) && HasIndex(n, i)
    requires forall k :: c.lastIncludedIndex <= k <= i ==> LogTerm(c, k) == LogTerm(n, k)
    ensures RunStart(c, i) == Max(RunStart(n, i), Min(i, c.lastIncludedIndex + 1))
    decreases i
  {
    if i > c.lastIncludedIndex + 1 && LogTerm(n, i - 1) == LogTerm(n, i) {
      RunStartCompacted(n, c, i - 1);
    }
  }

  /** The reply of a compacted follower: its hint stops at the first index it still has. */
  function ClampHint(r: AppendReply, prev: int, index: nat): AppendReply {
    if r.conflictTerm == -1 then r
    else r.(conflictIndex := Max(r.conflictIndex, Min(prev, index + 1)))
  }

  /** Splicing entries in after the snapshot commutes with compacting. */
  lemma LogCommutes(n: Node, index: nat, snap: Option<StoreState>, prev: int, es: Log, commit: nat)
    requires n.lastIncludedIndex < index <= prev <= LastLogIndex(n)
    ensures var n' := Persist(n.(log := Splice(n.log, prev + 1 - n.lastIncludedIndex, es))).(commitIndex := commit);
            var c := Snapshot(n, index, snap);
            HasIndex(n', index) && Snapshot(n', index, snap)
              == Persist(c.(log := Splice(c.log, prev + 1 - index, es))).(commitIndex := commit)
  {
    var b, at := index - n.lastIncludedIndex, prev + 1 - n.lastIncludedIndex;
    SpliceAnchor(n.log, b, at, es, LogEntry(n.log[b].term, None));
  }

  lemma RunStartCommutes(m: Node, index: nat, snap: Option<StoreState>, p: int)
    requires Valid(m) && Anchored(m) && m.lastIncludedIndex < index <= m.lastApplied && index <= p <= LastLogIndex(m)
    ensures HasIndex(Snapshot(m, index, snap), p)
    ensures RunStart(Snapshot(m, index, snap), p) == Max(RunStart(m, p), Min(p, index + 1))
  {
    SnapshotKeepsTail(m, index, snap, p);
    forall k | index <= k <= p ensures LogTerm(Snapshot(m, index, snap), k) == LogTerm(m, k) {
      SnapshotKeepsTail(m, index, snap, k);
    }
    RunStartCompacted(m, Snapshot(m, index, snap), p);
  }

  /** Node c answers a as m does, up to the hint, and both change alike. */
  predicate AnswersAlike(m: Node, c: Node, index: nat, snap: Option<StoreState>, a: AppendArgs)
    requires |m.log| > 0 && |c.log| > 0
  {
    && HasIndex(MatchEntries(m, a).0, index)
    && MatchEntries(c, a).0 == Snapshot(MatchEntries(m, a).0, index, snap)
    && MatchEntries(c, a).1 == ClampHint(MatchEntries(m, a).1, a.prevLogIndex, index)
  }

  /** A rejection: only the hint can differ. */
  lemma RejectedAlike(m: Node, c: Node, index: nat, snap: Option<StoreState>, a: AppendArgs)
    requires Valid(m) && Anchored(m) && m.lastIncludedIndex < index <= m.lastApplied && a.prevLogIndex >= index
    requires c == Snapshot(m, index, snap)
    requires a.prevLogIndex > LastLogIndex(m) || LogTerm(m, a.prevLogIndex) != a.prevLogTerm
    ensures AnswersAlike(m, c, index, snap, a)
  {
    SnapshotKeepsTail(m, index, snap, LastLogIndex(m));
    if a.prevLogIndex <= LastLogIndex(m) {
      SnapshotKeepsTail(m, index, snap, a.prevLogIndex);
      RunStartCommutes(m, index, snap, a.prevLogIndex);
    }
  }

  lemma AcceptedAlike(m: Node, c: Node, index: nat, snap: Option<StoreState>, a: AppendArgs)
    requires Valid(m) && Anchored(m) && m.lastIncludedIndex < index <= m.lastApplied
    requires index <= a.prevLogIndex <= LastLogIndex(m) && LogTerm(m, a.prevLogIndex) == a.prevLogTerm
    requires c == Snapshot(m, index, snap)
    ensures AnswersAlike(m, c, index, snap, a)
  {
    SnapshotKeepsTail(m, index, snap, a.prevLogIndex);
    LogCommutes(m, index, snap, a.prevLogIndex, a.entries, NewCommit(m, a));
  }

  /** The part of AppendEntries that looks at the log. */
  lemma MatchEntriesCommutes(m: Node, index: nat, snap: Option<StoreState>, a: AppendArgs)
    requires Valid(m) && Anchored(m) && m.lastIncludedIndex < index <= m.lastApplied && a.prevLogIndex >= index
    ensures HasIndex(MatchEntries(m, a).0, index)
    ensures MatchEntries(Snapshot(m, index, snap), a)
         == (Snapshot(MatchEntries(m, a).0, index, snap), ClampHint(MatchEntries(m, a).1, a.prevLogIndex, index))
  {
    if a.prevLogIndex > LastLogIndex(m) || LogTerm(m, a.prevLogIndex) != a.prevLogTerm {
      RejectedAlike(m, Snapshot(m, index, snap), index, snap, a);
    } else {
      AcceptedAlike(m, Snapshot(m, index, snap), index, snap, a);
    }
  }

  /** Appending and compacting commute for every message that starts at or after the snapshot. */
  lemma AppendEntriesCommutes(n: Node, index: nat, snap: Option<StoreState>, a: AppendArgs)
    requires Valid(n) && Anchored(n) && n.lastIncludedIndex < index <= n.lastApplied && a.prevLogIndex >= index
    ensures HasIndex(AppendEntries(n, a).0, index)
    ensures AppendEntries(Snapshot(n, index, snap), a)
         == (Snapshot(AppendEntries(n, a).0, index, snap), ClampHint(AppendEntries(n, a).1, a.prevLogIndex, index))
  {
    if a.term >= n.currentTerm {
      UpdateCommutes(n, index, snap, a.term, n.votedFor, Follower);
      MatchEntriesCommutes(Persist(n.(role := Follower, currentTerm := a.term)), index, snap, a);
    }
  }
}
