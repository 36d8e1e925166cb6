/** One leader and one follower: duplicated and delayed messages, and how fast rejections converge. */
module RaftReplication {
  import opened StoreTypes
  import opened RaftTypes
  import opened RaftNode
  import P = RaftProtocol
  import I = RaftInvariant
  import Quorum

  // ----- duplicated and delayed messages -----

  lemma {:induction false} SpliceTwice(l: Log, at: nat, es: Log)
    requires at <= |l|
    ensures at <= |Splice(l, at, es)| && Splice(Splice(l, at, es), at, es) == Splice(l, at, es)
    ensures Splice(l, at, es)[..at] == l[..at]
    decreases |es|
  {
    if es == [] {
    } else if at < |l| && l[at].term == es[0].term {
      SpliceTwice(l, at + 1, es[1..]);
      assert Splice(l, at, es)[..at + 1][at] == l[at];
      assert Splice(l, at, es)[..at] == Splice(l, at, es)[..at + 1][..at] == l[..at];
    } else {
      SpliceOwn(l[..at], es);
    }
  }

  /** Entries already in place are left alone. */
  lemma {:induction false} SpliceOwn(l: Log, es: Log)
    ensures Splice(l + es, |l|, es) == l + es
    decreases |es|
  {
    if es != [] {
      SpliceOwn(l + [es[0]], es[1..]);
      assert l + [es[0]] + es[1..] == l + es;
    }
  }

  /** Handling a message twice leaves the node, its disk and the reply of handling it once. */
  lemma AppendTwice(n: Node, a: AppendArgs)
    requires |n.log| > 0
    ensures |AppendEntries(n, a).0.log| > 0 && AppendEntries(AppendEntries(n, a).0, a) == AppendEntries(n, a)
  {
    var (n', reply) := AppendEntries(n, a);
    if reply.success {
      SpliceTwice(n.log, a.prevLogIndex + 1 - n.lastIncludedIndex, a.entries);
      var at := a.prevLogIndex + 1 - n.lastIncludedIndex;
      assert n'.log[..at] == n.log[..at];
      assert n'.log[at - 1] == n'.log[..at][at - 1] == n.log[at - 1];
    }
  }

  /** What the node keeps of its log agrees with `full` through index k. */
  predicate AgreesThrough(n: Node, full: Log, k: nat) {
    && n.lastIncludedIndex <= k < |full| && HasIndex(n, k)
    && forall x :: n.lastIncludedIndex < x <= k ==> EntryAt(n, x) == full[x]
  }

  lemma {:induction false} SpliceKeeps(l: Log, at: nat, es: Log, k: nat)
    requires at <= |l| && k <= |l|
    requires forall x :: at <= x < k && x - at < |es| ==> l[x] == es[x - at]
    ensures k <= |Splice(l, at, es)| && Splice(l, at, es)[..k] == l[..k]
    decreases |es|
  {
    assert es != [] && at < k ==> l[at] == es[0];
    if es != [] && at < |l| && l[at].term == es[0].term {
      SpliceKeeps(l, at + 1, es[1..], k);
    }
  }

  /** Splicing a piece of `full` into a log array that starts at index b keeps what agrees with `full`. */
  lemma SpliceAgrees(l: Log, b: nat, full: Log, k: nat, prev: nat, es: Log)
    requires b <= k < |full| && k - b < |l| && b <= prev && prev + 1 - b <= |l| && prev + |es| < |full|
    requires es == full[prev + 1..prev + |es| + 1]
    requires forall x :: b < x <= k ==> l[x - b] == full[x]
    ensures var l' := Splice(l, prev + 1 - b, es);
            k - b < |l'| && forall x :: b < x <= k ==> l'[x - b] == full[x]
  {
    var at := prev + 1 - b;
    forall x | at <= x < k + 1 - b && x - at < |es| ensures l[x] == es[x - at] {
      assert l[(x + b) - b] == full[x + b];
    }
    SpliceKeeps(l, at, es, k + 1 - b);
    var l' := Splice(l, at, es);
    forall x | b < x <= k ensures l'[x - b] == full[x] {
      assert l'[..k + 1 - b][x - b] == l[..k + 1 - b][x - b];
    }
  }

  /**
    * A message cut from the leader's log, however old, never takes away an entry the follower
    * already shares with that log; so it never shortens an acknowledged prefix.
    */
  lemma OldMessageHarmless(n: Node, full: Log, k: nat, a: AppendArgs)
    requires |n.log| > 0 && AgreesThrough(n, full, k)
    requires 0 <= a.prevLogIndex && a.prevLogIndex + |a.entries| < |full|
    requires a.entries == full[a.prevLogIndex + 1..a.prevLogIndex + |a.entries| + 1]
    ensures AgreesThrough(AppendEntries(n, a).0, full, k)
  {
    if AppendEntries(n, a).1.success {
      forall x | n.lastIncludedIndex < x <= k ensures n.log[x - n.lastIncludedIndex] == full[x] {
        assert EntryAt(n, x) == full[x];
      }
      SpliceAgrees(n.log, n.lastIncludedIndex, full, k, a.prevLogIndex, a.entries);
    }
  }

  // ----- fast backup -----

  /** A node that has not compacted anything. */
  predicate Whole(n: Node) {
    n.lastIncludedIndex == 0 && |n.log| > 0 && n.lastIncludedTerm == n.log[0].term == 0
  }

  predicate Sorted(l: Log) {
    forall i, j :: 0 <= i <= j < |l| ==> l[i].term <= l[j].term
  }

  /** A term that a has at index i and b further on is also b's term at i: one leader wrote them in order. */
  predicate OneSource(a: Log, b: Log) {
    forall i, j {:trigger a[i].term, b[j].term} :: 0 < i < |a| && i <= j < |b| && a[i].term == b[j].term ==>
      b[i].term == a[i].term
  }

  /** The leader's request with this nextIndex, and what the follower answers. */
  function Ask(l: Node, ni: nat): AppendArgs
    requires Whole(l) && 1 <= ni <= |l.log|
  {
    AppendArgs(l.currentTerm, l.me, ni - 1, LogTerm(l, ni - 1), l.log[ni..], l.commitIndex)
  }

  function Answer(l: Node, f: Node, ni: nat): AppendReply
    requires Whole(l) && Whole(f) && 1 <= ni <= |l.log|
  {
    AppendEntries(f, Ask(l, ni)).1
  }

  /** The follower is not ahead of the leader's term, so it looks at the logs. */
  predicate Pair(l: Node, f: Node) {
    Whole(l) && Whole(f) && f.currentTerm <= l.currentTerm && Sorted(l.log) && Sorted(f.log)
  }

  lemma Rejection(l: Node, f: Node, ni: nat)
    requires Pair(l, f) && 1 <= ni <= |l.log|
    ensures !Answer(l, f, ni).success <==> ni - 1 >= |f.log| || f.log[ni - 1].term != l.log[ni - 1].term
    ensures !Answer(l, f, ni).success ==> ni > 1
    ensures !Answer(l, f, ni).success && ni - 1 >= |f.log| ==>
              Answer(l, f, ni).conflictTerm == -1 && Answer(l, f, ni).conflictIndex == |f.log|
    ensures !Answer(l, f, ni).success && ni - 1 < |f.log| ==>
              Answer(l, f, ni).conflictTerm == f.log[ni - 1].term
  {
  }

  /** The leader holds the conflicting term somewhere beyond the index it asked about. */
  predicate LeaderHasBeyond(l: Node, f: Node, ni: nat) {
    1 <= ni <= |f.log| && exists j :: ni - 1 < j < |l.log| && l.log[j].term == f.log[ni - 1].term
  }

  /** A rejection moves nextIndex back, unless the leader has the conflicting term further on. */
  lemma BacksUpIff(l: Node, f: Node, ni: nat)
    requires Pair(l, f) && 1 <= ni <= |l.log| && !Answer(l, f, ni).success
    ensures BackUp(l, Answer(l, f, ni)) >= 1
    ensures BackUp(l, Answer(l, f, ni)) <= ni - 1 <==> !LeaderHasBeyond(l, f, ni)
  {
    Rejection(l, f, ni);
    var r := Answer(l, f, ni);
    if ni - 1 < |f.log| {
      var j := LastOfTerm(l, r.conflictTerm, LastLogIndex(l));
      if j > ni - 1 {
        assert l.log[j].term == f.log[ni - 1].term;
      } else if LeaderHasBeyond(l, f, ni) {
        var k :| ni - 1 < k < |l.log| && l.log[k].term == f.log[ni - 1].term;
        assert LogTerm(l, k) == r.conflictTerm;
      }
    }
  }

  /** With logs that only share indices, not history, nextIndex can jump forward. */
  lemma BackUpMayJumpForward() returns (l: Node, f: Node)
    ensures Pair(l, f) && |l.log| == 3 && !Answer(l, f, 2).success && BackUp(l, Answer(l, f, 2)) == 3
    ensures forall i :: 0 < i < |l.log| && i < |f.log| ==> l.log[i].term != f.log[i].term
  {
    var blank := NewNode(0, 3, Disk(None, None));
    l := blank.(currentTerm := 6, log := [SENTINEL, LogEntry(1, None), LogEntry(5, None)]);
    f := blank.(currentTerm := 6, log := [SENTINEL, LogEntry(5, None)]);
    Rejection(l, f, 2);
    var r := Answer(l, f, 2);
    assert r.conflictTerm == 5;
    assert LastOfTerm(l, 5, 2) == 2 by { assert LogTerm(l, 2) == 5; }
  }

  /** Logs of one protocol share a source, so there a rejection always moves nextIndex back. */
  lemma GenuineOneSource(s: P.Protocol, a: Log, b: Log)
    requires P.TermsBounded(s) && P.Genuine(s, a) && P.Genuine(s, b)
    ensures OneSource(a, b) && Sorted(a)
  {
    forall i, j | 0 < i < |a| && i <= j < |b| && a[i].term == b[j].term ensures b[i].term == a[i].term {
      var l := s.leaders[a[i].term].log;
      assert a[..i + 1] <= l && b[..j + 1] <= l;
      assert a[..i + 1][i] == l[i] && b[..j + 1][i] == l[i];
    }
    forall i, j | 0 <= i <= j < |a| ensures a[i].term <= a[j].term {
      I.TermsSorted(s, a, i, j);
    }
  }

  lemma BacksUp(l: Node, f: Node, ni: nat)
    requires Pair(l, f) && OneSource(f.log, l.log) && 1 <= ni <= |l.log| && !Answer(l, f, ni).success
    ensures 1 <= BackUp(l, Answer(l, f, ni)) <= ni - 1
  {
    Rejection(l, f, ni);
    assert !LeaderHasBeyond(l, f, ni);
    BacksUpIff(l, f, ni);
  }

  /** Both logs have the same terms through index g. */
  predicate AgreeAt(l: Node, f: Node, g: nat) {
    g < |l.log| && g < |f.log| && forall x :: 0 <= x <= g ==> l.log[x].term == f.log[x].term
  }

  /** The next attempt never starts below an index where the logs already agree. */
  lemma NeverBelowAgreement(l: Node, f: Node, ni: nat, g: nat)
    requires Pair(l, f) && 1 <= ni <= |l.log| && !Answer(l, f, ni).success
    requires AgreeAt(l, f, g)
    ensures g < ni - 1 && BackUp(l, Answer(l, f, ni)) - 1 >= g
  {
    Rejection(l, f, ni);
    var r, p := Answer(l, f, ni), ni - 1;
    if p < |f.log| {
      var j := LastOfTerm(l, r.conflictTerm, LastLogIndex(l));
      assert f.log[g].term <= f.log[p].term;
      if j == -1 {
        assert g > 0 ==> LogTerm(l, g) == f.log[g].term && f.log[g].term != r.conflictTerm;
        RunStartAt(f, l, ni);
      } else {
        assert l.log[j].term == r.conflictTerm >= l.log[g].term;
        assert j <= g ==> l.log[j].term <= l.log[g].term;
        assert j < g ==> LogTerm(l, g) != r.conflictTerm;
      }
    }
  }

  /** The conflict index is the start of the conflicting term in the follower's log. */
  lemma RunStartAt(f: Node, l: Node, ni: nat)
    requires Pair(l, f) && 1 <= ni <= |l.log| && ni - 1 < |f.log| && !Answer(l, f, ni).success
    ensures var c := Answer(l, f, ni).conflictIndex;
            1 <= c <= ni - 1 && (forall k :: c <= k <= ni - 1 ==> f.log[k].term == f.log[ni - 1].term)
            && (c > 1 ==> f.log[c - 1].term != f.log[ni - 1].term)
  {
    Rejection(l, f, ni);
    var m := Persist(f.(role := Follower, currentTerm := l.currentTerm));
    var c := RunStart(m, ni - 1);
    assert Answer(l, f, ni).conflictIndex == c;
    forall k | c <= k <= ni - 1 ensures f.log[k].term == f.log[ni - 1].term {
      assert LogTerm(m, k) == LogTerm(m, ni - 1);
    }
  }

  /** If the next attempt is rejected too, it is over a lower term of the follower's log. */
  lemma ConflictTermFalls(l: Node, f: Node, ni: nat)
    requires Pair(l, f) && OneSource(f.log, l.log) && 1 <= ni <= |l.log| && !Answer(l, f, ni).success
    requires ni - 1 < |f.log|
    ensures var ni' := BackUp(l, Answer(l, f, ni));
            1 <= ni' <= |l.log| && ni' - 1 < |f.log|
            && (!Answer(l, f, ni').success ==> f.log[ni' - 1].term < f.log[ni - 1].term)
  {
    BacksUp(l, f, ni);
    Rejection(l, f, ni);
    RunStartAt(f, l, ni);
    var r := Answer(l, f, ni);
    var ni' := BackUp(l, r);
    Rejection(l, f, ni');
    assert f.log[ni' - 1].term <= f.log[ni - 1].term;
    var j := LastOfTerm(l, r.conflictTerm, LastLogIndex(l));
    if j != -1 {
      assert l.log[ni' - 1].term == r.conflictTerm;
    }
  }

  /** How many times the follower rejects before it accepts. */
  ghost function Rejections(l: Node, f: Node, ni: nat): nat
    requires Pair(l, f) && OneSource(f.log, l.log) && 1 <= ni <= |l.log|
    decreases ni
  {
    if Answer(l, f, ni).success then 0
    else
      BacksUp(l, f, ni);
      1 + Rejections(l, f, BackUp(l, Answer(l, f, ni)))
  }

  /** The distinct terms of a log. */
  function Terms(l: Log): (ts: set<nat>)
    ensures forall i :: 0 <= i < |l| ==> l[i].term in ts
  {
    if l == [] then {} else Terms(l[..|l| - 1]) + {LastTerm(l)}
  }

  function TermsUpTo(l: Log, t: nat): (ts: set<nat>)
    ensures ts <= Terms(l) && forall u :: u in ts <==> u in Terms(l) && u <= t
  {
    set u <- Terms(l) | u <= t
  }

  lemma TermsShrink(l: Log, i: nat, t: nat)
    requires i < |l| && t < l[i].term
    ensures |TermsUpTo(l, t)| < |TermsUpTo(l, l[i].term)|
  {
    var all := TermsUpTo(l, l[i].term);
    assert l[i].term in all && l[i].term !in TermsUpTo(l, t);
    Quorum.SubsetSize(TermsUpTo(l, t), all - {l[i].term});
  }

  lemma RejectionsUnfold(l: Node, f: Node, ni: nat) returns (ni': nat)
    requires Pair(l, f) && OneSource(f.log, l.log) && 1 <= ni <= |l.log| && ni - 1 < |f.log|
    requires !Answer(l, f, ni).success
    ensures 1 <= ni' < ni && ni' - 1 < |f.log| && Rejections(l, f, ni) == 1 + Rejections(l, f, ni')
    ensures Answer(l, f, ni').success ==> Rejections(l, f, ni') == 0
    ensures !Answer(l, f, ni').success ==> f.log[ni' - 1].term < f.log[ni - 1].term
  {
    BacksUp(l, f, ni);
    ConflictTermFalls(l, f, ni);
    ni' := BackUp(l, Answer(l, f, ni));
  }

  lemma SomeTerm(l: Log, i: nat)
    requires i < |l|
    ensures |TermsUpTo(l, l[i].term)| >= 1
  {
    assert l[i].term in TermsUpTo(l, l[i].term);
  }

  /** A bound on the distinct terms below an entry, for all entries of lower term at once. */
  lemma LowerTerms(l: Log, i: nat)
    requires i < |l|
    ensures |TermsUpTo(l, l[i].term)| >= 1
    ensures forall k :: 0 <= k < |l| && l[k].term < l[i].term ==>
              |TermsUpTo(l, l[k].term)| < |TermsUpTo(l, l[i].term)|
  {
    SomeTerm(l, i);
    forall k | 0 <= k < |l| && l[k].term < l[i].term
      ensures |TermsUpTo(l, l[k].term)| < |TermsUpTo(l, l[i].term)|
    {
      TermsShrink(l, i, l[k].term);
    }
  }

  lemma {:induction false} RejectionsWithin(l: Node, f: Node, ni: nat)
    requires Pair(l, f) && OneSource(f.log, l.log) && 1 <= ni <= |l.log| && ni - 1 < |f.log|
    ensures Rejections(l, f, ni) <= |TermsUpTo(f.log, f.log[ni - 1].term)|
    decreases ni
  {
    LowerTerms(f.log, ni - 1);
    if !Answer(l, f, ni).success {
      var ni' := RejectionsUnfold(l, f, ni);
      if !Answer(l, f, ni').success {
        RejectionsWithin(l, f, ni');
      }
    }
  }

  /** At most one rejection for each distinct term in the follower's log, and one more. */
  lemma RejectionsBounded(l: Node, f: Node, ni: nat)
    requires Pair(l, f) && OneSource(f.log, l.log) && 1 <= ni <= |l.log|
    ensures Rejections(l, f, ni) <= 1 + |Terms(f.log)|
  {
    forall t { Quorum.SubsetSize(TermsUpTo(f.log, t), Terms(f.log)); }
    if ni - 1 < |f.log| {
      RejectionsWithin(l, f, ni);
    } else if !Answer(l, f, ni).success {
      Rejection(l, f, ni);
      BacksUp(l, f, ni);
      RejectionsWithin(l, f, BackUp(l, Answer(l, f, ni)));
    }
  }
}
