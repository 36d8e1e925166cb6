/**
  * What installing a leader's snapshot does to one node, and exactly when it does what Figure 13
  * of the Raft paper asks for. These lemmas are about single calls; the cluster has no such event.
  */
module RaftInstall {
  import opened StoreTypes
  import opened RaftTypes
  import opened RaftNode

  /** The message is not out of date, and its snapshot reaches further than the node's own. */
  predicate Installs(n: Node, args: InstallArgs) {
    args.term >= n.currentTerm && args.lastIncludedIndex > n.lastIncludedIndex
  }

  function Installed(n: Node, args: InstallArgs): Node
    requires |n.log| > 0
  {
    InstallSnapshot(n, args).0
  }

  /** The entries a node holds after an index. */
  function EntriesAfter(n: Node, index: nat): Log
    requires |n.log| > 0 && n.lastIncludedIndex <= index
  {
    if index >= LastLogIndex(n) then [] else n.log[index - n.lastIncludedIndex + 1..]
  }

  /** Figure 13: keep what follows an entry with the snapshot's index and term, otherwise keep nothing. */
  function EntriesOfFigure13(n: Node, args: InstallArgs): Log
    requires |n.log| > 0 && Installs(n, args)
  {
    var index := args.lastIncludedIndex;
    if HasIndex(n, index) && LogTerm(n, index) == args.lastIncludedTerm then EntriesAfter(n, index) else []
  }

  /** All a call does besides the log: who follows whom, how far the node now counts as applied, what is saved. */
  lemma InstallEffect(n: Node, args: InstallArgs)
    requires |n.log| > 0
    ensures var (m, replyTerm, archives) := InstallSnapshot(n, args);
            && replyTerm == n.currentTerm && (archives <==> Installs(n, args))
            && (args.term < n.currentTerm ==> m == n)
            && (args.term >= n.currentTerm ==>
                  m.role == Follower && m.currentTerm == args.term
                  && m.votedFor == if args.term > n.currentTerm then NOBODY else n.votedFor)
            && (archives ==>
                  && m.lastIncludedIndex == args.lastIncludedIndex && m.lastIncludedTerm == args.lastIncludedTerm
                  && m.commitIndex == (if n.commitIndex >= args.lastIncludedIndex then n.commitIndex else args.lastIncludedIndex)
                  && m.lastApplied == (if n.lastApplied >= args.lastIncludedIndex then n.lastApplied else args.lastIncludedIndex)
                  && Load(m.disk) == Persistent(m) && m.disk.snapshot == args.data)
            && (!archives ==>
                  m.log == n.log && m.commitIndex == n.commitIndex && m.lastApplied == n.lastApplied && m.disk == n.disk)
  {
  }

  /** The indices stay in order. */
  lemma InstallKeepsOrder(n: Node, args: InstallArgs)
    requires |n.log| > 0 && n.lastIncludedIndex <= n.lastApplied <= n.commitIndex <= LastLogIndex(n)
    ensures var m := Installed(n, args);
            |m.log| > 0 && m.lastIncludedIndex <= m.lastApplied <= m.commitIndex <= LastLogIndex(m)
            && m.commitIndex >= n.commitIndex && m.lastApplied >= n.lastApplied
  {
  }

  /** The code never compares the term at the snapshot's index, so what it keeps is the node's own suffix. */
  lemma InstallKeepsSuffix(n: Node, args: InstallArgs)
    requires |n.log| > 0 && Installs(n, args)
    ensures var m := Installed(n, args);
            |m.log| > 0 && m.lastIncludedIndex == args.lastIncludedIndex && m.lastIncludedTerm == args.lastIncludedTerm
            && EntriesAfter(m, m.lastIncludedIndex) == EntriesAfter(n, args.lastIncludedIndex)
  {
  }

  /**
    * It keeps the entries Figure 13 keeps exactly when the node has no entry past the snapshot, or
    * agrees with the snapshot on the term at its last index.
    */
  lemma InstallIsFigure13Iff(n: Node, args: InstallArgs)
    requires |n.log| > 0 && Installs(n, args)
    ensures |Installed(n, args).log| > 0
    ensures EntriesAfter(Installed(n, args), args.lastIncludedIndex) == EntriesOfFigure13(n, args)
            <==> (args.lastIncludedIndex >= LastLogIndex(n) || LogTerm(n, args.lastIncludedIndex) == args.lastIncludedTerm)
  {
    InstallKeepsSuffix(n, args);
  }

  // ----- Log Matching -----

  /** Log Matching between two nodes: the same term at an index means the same log through it. */
  ghost predicate Matching(m: Node, n: Node) {
    forall k :: HasIndex(m, k) && HasIndex(n, k) && LogTerm(m, k) == LogTerm(n, k) ==> SameThrough(m, n, k)
  }

  /** Two nodes hold the same term at some index past this one. */
  ghost predicate ShareBeyond(m: Node, n: Node, index: nat) {
    exists k :: k > index && HasIndex(m, k) && HasIndex(n, k) && LogTerm(m, k) == LogTerm(n, k)
  }

  /** What a call must avoid: a term at the snapshot's index unlike the node's own, under a later entry both share. */
  ghost predicate Clashes(n: Node, o: Node, args: InstallArgs) {
    && HasIndex(n, args.lastIncludedIndex) && HasIndex(o, args.lastIncludedIndex)
    && LogTerm(n, args.lastIncludedIndex) != args.lastIncludedTerm
    && ShareBeyond(n, o, args.lastIncludedIndex)
  }

  /** What the node holds after installing. */
  lemma InstalledTerms(n: Node, args: InstallArgs, x: int)
    requires |n.log| > 0 && Installs(n, args)
    ensures var m, index := Installed(n, args), args.lastIncludedIndex;
            && (HasIndex(m, x) <==> x == index || (x > index && HasIndex(n, x)))
            && (HasIndex(m, x) ==> LogTerm(m, x) == if x == index then args.lastIncludedTerm else LogTerm(n, x))
            && (HasIndex(m, x) && x > index ==> EntryAt(m, x) == EntryAt(n, x))
  {
  }

  /** Without a clash, every index the installed node shares with the other is still matched. */
  lemma InstallKeepsMatchingAt(n: Node, o: Node, args: InstallArgs, k: int, x: int)
    requires |n.log| > 0 && |o.log| > 0 && Installs(n, args) && Matching(n, o) && !Clashes(n, o, args)
    requires HasIndex(Installed(n, args), k) && HasIndex(o, k) && LogTerm(Installed(n, args), k) == LogTerm(o, k)
    requires HasIndex(Installed(n, args), x) && HasIndex(o, x) && x <= k
    ensures SameAt(Installed(n, args), o, x)
  {
    InstalledTerms(n, args, k);
    InstalledTerms(n, args, x);
    if k > args.lastIncludedIndex {
      assert SameThrough(n, o, k);
      assert SameAt(n, o, x);
    }
  }

  lemma ClashBreaksMatching(n: Node, o: Node, args: InstallArgs)
    requires |n.log| > 0 && |o.log| > 0 && Installs(n, args) && Matching(n, o) && Clashes(n, o, args)
    ensures !Matching(Installed(n, args), o)
  {
    var m, index := Installed(n, args), args.lastIncludedIndex;
    var k :| k > index && HasIndex(n, k) && HasIndex(o, k) && LogTerm(n, k) == LogTerm(o, k);
    InstalledTerms(n, args, k);
    InstalledTerms(n, args, index);
    assert SameThrough(n, o, k);
    assert SameAt(n, o, index);
    assert !SameAt(m, o, index);
    assert !SameThrough(m, o, k);
  }

  /**
    * An install keeps Log Matching with another node exactly when that node does not have the
    * snapshot's index, or the terms agree there, or the two share no later entry.
    */
  lemma InstallKeepsMatchingIff(n: Node, o: Node, args: InstallArgs)
    requires |n.log| > 0 && |o.log| > 0 && Installs(n, args) && Matching(n, o)
    ensures Matching(Installed(n, args), o) <==> !Clashes(n, o, args)
  {
    var m := Installed(n, args);
    if Clashes(n, o, args) {
      ClashBreaksMatching(n, o, args);
    } else {
      forall k | HasIndex(m, k) && HasIndex(o, k) && LogTerm(m, k) == LogTerm(o, k) ensures SameThrough(m, o, k) {
        forall x | HasIndex(m, x) && HasIndex(o, x) && x <= k ensures SameAt(m, o, x) {
          InstallKeepsMatchingAt(n, o, args, k, x);
        }
      }
    }
  }

  /** It is safe whatever the other nodes hold exactly when it does what Figure 13 asks for. */
  lemma InstallAlwaysMatchesIff(n: Node, args: InstallArgs)
    requires |n.log| > 0 && Installs(n, args)
    ensures (forall o: Node :: |o.log| > 0 && Matching(n, o) ==> Matching(Installed(n, args), o))
            <==> (args.lastIncludedIndex >= LastLogIndex(n) || LogTerm(n, args.lastIncludedIndex) == args.lastIncludedTerm)
  {
    forall o: Node | |o.log| > 0 && Matching(n, o) ensures Matching(Installed(n, args), o) <==> !Clashes(n, o, args) {
      InstallKeepsMatchingIff(n, o, args);
    }
    var index := args.lastIncludedIndex;
    if index < LastLogIndex(n) && LogTerm(n, index) != args.lastIncludedTerm {
      assert Matching(n, n);
      assert HasIndex(n, LastLogIndex(n)) && LogTerm(n, LastLogIndex(n)) == LogTerm(n, LastLogIndex(n));
      assert ShareBeyond(n, n, index);
      assert Clashes(n, n, args);
    }
  }

  /**
    * Log Matching breaks: the two nodes agree at index 2 and hold different terms at index 1. A
    * stale suffix has survived, and the installed node's terms fall along its log.
    */
  lemma InstallMayBreakLogMatching() returns (n: Node, o: Node, args: InstallArgs)
    ensures |n.log| > 0 && |o.log| > 0 && Installs(n, args) && Matching(n, o)
    ensures HasIndex(Installed(n, args), 1) && HasIndex(Installed(n, args), 2) && HasIndex(o, 1) && HasIndex(o, 2)
    ensures LogTerm(Installed(n, args), 2) == LogTerm(o, 2) == 1
    ensures LogTerm(Installed(n, args), 1) == 2 && LogTerm(o, 1) == 1
    ensures !Matching(Installed(n, args), o)
  {
    var blank := NewNode(0, 3, Disk(None, None));
    n := blank.(currentTerm := 1, log := [SENTINEL, LogEntry(1, Some(Unknown)), LogEntry(1, Some(Unknown))]);
    o := n.(me := 2);
    args := InstallArgs(2, 1, 1, 2, None);
    assert HasIndex(n, 2) && HasIndex(o, 2) && LogTerm(n, 2) == LogTerm(o, 2) == 1;
    assert LogTerm(n, 1) == 1;
    assert ShareBeyond(n, o, 1);
    InstallKeepsMatchingIff(n, o, args);
  }

  /** The early return for an old snapshot leaves a new term unsaved; otherwise the disk stays up to date. */
  lemma InstallSavesIff(n: Node, args: InstallArgs)
    requires |n.log| > 0 && Persistent(n) == Load(n.disk)
    ensures Persistent(Installed(n, args)) == Load(Installed(n, args).disk)
            <==> (args.term <= n.currentTerm || args.lastIncludedIndex > n.lastIncludedIndex)
  {
  }
}
