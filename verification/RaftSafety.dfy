/** What the refinement gives for every run of the cluster. */
module RaftSafety {
  import opened StoreTypes
  import opened RaftTypes
  import opened Quorum
  import opened RaftNode
  import opened RaftCluster
  import opened P = RaftProtocol
  import opened RaftInvariant
  import opened RaftRefinement
  import R = RaftReplication

  /** Protocol state s explains cluster state c. */
  ghost predicate Explains(s: Protocol, c: Cluster) {
    Inv(s) && Coupled(c, s)
  }

  ghost predicate OneMove(s: Protocol, s': Protocol) {
    exists mv :: Can(s, mv) && s' == Do(s, mv)
  }

  // The triggers below leave a history's states alone until a proof names the one it needs.

  ghost predicate EachExplained(hist: seq<Protocol>, run: seq<Cluster>) {
    |hist| == |run| && forall i {:trigger Explains(hist[i], run[i])} :: 0 <= i < |hist| ==> Explains(hist[i], run[i])
  }

  ghost predicate Growing(hist: seq<Protocol>) {
    forall i, j {:trigger Grows(hist[i], hist[j])} :: 0 <= i <= j < |hist| ==> Grows(hist[i], hist[j])
  }

  ghost predicate Moving(hist: seq<Protocol>) {
    forall i {:trigger OneMove(hist[i - 1], hist[i])} :: 0 < i < |hist| ==> OneMove(hist[i - 1], hist[i])
  }

  /** A protocol state for every moment of the run, each keeping the invariant, one step apart. */
  ghost predicate Explained(hist: seq<Protocol>, run: seq<Cluster>) {
    EachExplained(hist, run) && Growing(hist) && Moving(hist)
  }

  lemma GrowsTrans(a: Protocol, b: Protocol, c: Protocol)
    requires Grows(a, b) && Grows(b, c)
    ensures Grows(a, c)
  {
    forall t | t in a.leaders ensures t in c.leaders && ReignGrows(a.leaders[t], c.leaders[t]) {
      assert ReignGrows(a.leaders[t], b.leaders[t]) && ReignGrows(b.leaders[t], c.leaders[t]);
    }
  }

  lemma EventExplained(c: Cluster, s: Protocol, e: Event) returns (s': Protocol)
    requires Inv(s) && Coupled(c, s) && Enabled(c, e)
    ensures NoPanic(c, e) && Inv(s') && Grows(s, s') && OneMove(s, s') && Coupled(Next(c, e), s')
  {
    var mv := EventRefines(c, s, e);
    MoveKeeps(s, mv);
    s' := Do(s, mv);
  }

  lemma RunPrefix(run: seq<Cluster>, events: seq<Event>)
    requires IsRun(run, events) && |events| > 0
    ensures var n := |events|;
            IsRun(run[..n], events[..n - 1]) && run == run[..n] + [run[n]] && run[..n][n - 1] == run[n - 1]
            && Enabled(run[n - 1], events[n - 1]) && NoPanic(run[n - 1], events[n - 1])
            && run[n] == Next(run[n - 1], events[n - 1])
  {
  }

  lemma {:induction false} RunExplained(run: seq<Cluster>, events: seq<Event>) returns (hist: seq<Protocol>)
    requires IsRun(run, events)
    ensures Explained(hist, run)
    decreases |events|
  {
    var n := |events|;
    if n == 0 {
      InitRefines(run[0]);
      GrowsRefl(Start0(|run[0].nodes|));
      hist := [Start0(|run[0].nodes|)];
    } else {
      RunPrefix(run, events);
      var h := RunExplained(run[..n], events[..n - 1]);
      hist := HistoryExtended(h, run[..n], events[n - 1]);
    }
  }

  lemma HistoryExtended(h: seq<Protocol>, run: seq<Cluster>, e: Event) returns (h': seq<Protocol>)
    requires Explained(h, run) && |h| > 0 && Enabled(run[|run| - 1], e)
    ensures NoPanic(run[|run| - 1], e) && Explained(h', run + [Next(run[|run| - 1], e)])
  {
    assert Explains(h[|h| - 1], run[|run| - 1]);
    var s := EventExplained(run[|run| - 1], h[|h| - 1], e);
    Extended(h, run, Next(run[|run| - 1], e), s);
    h' := h + [s];
  }

  lemma Extended(h: seq<Protocol>, run: seq<Cluster>, c: Cluster, s: Protocol)
    requires Explained(h, run) && |h| > 0
    requires Inv(s) && Coupled(c, s) && Grows(h[|h| - 1], s) && OneMove(h[|h| - 1], s)
    ensures Explained(h + [s], run + [c])
  {
    assert EachExplained(h + [s], run + [c]);
    StillGrowing(h, s);
    assert Moving(h + [s]);
  }

  lemma StillGrowing(h: seq<Protocol>, s: Protocol)
    requires Growing(h) && |h| > 0 && Shape(s) && Grows(h[|h| - 1], s)
    ensures Growing(h + [s])
  {
    var h' := h + [s];
    forall i, j | 0 <= i <= j < |h'| ensures Grows(h'[i], h'[j]) {
      if i == |h| {
        GrowsRefl(s);
      } else if j == |h| {
        GrowsTrans(h[i], h[|h| - 1], s);
      }
    }
  }

  /** The protocol's view of one moment, and of two. */
  lemma Explain(run: seq<Cluster>, events: seq<Event>, i: nat) returns (s: Protocol)
    requires IsRun(run, events) && i < |run|
    ensures Explains(s, run[i])
  {
    var hist := RunExplained(run, events);
    s := hist[i];
    assert Explains(hist[i], run[i]);
  }

  lemma ExplainTwo(run: seq<Cluster>, events: seq<Event>, i: nat, j: nat) returns (s: Protocol, s': Protocol)
    requires IsRun(run, events) && i <= j < |run|
    ensures Explains(s, run[i]) && Explains(s', run[j]) && Grows(s, s')
  {
    var hist := RunExplained(run, events);
    s, s' := hist[i], hist[j];
    assert Explains(hist[i], run[i]) && Explains(hist[j], run[j]) && Grows(hist[i], hist[j]);
  }

  // ----- the code's own indexing -----

  /** No event of any run makes the code index out of range. */
  lemma NeverPanics(run: seq<Cluster>, events: seq<Event>, e: Event)
    requires IsRun(run, events) && Enabled(run[|run| - 1], e)
    ensures NoPanic(run[|run| - 1], e)
  {
    var s := Explain(run, events, |run| - 1);
    var mv := EventRefines(run[|run| - 1], s, e);
  }

  /** lastIncludedIndex <= lastApplied <= commitIndex <= lastLogIndex, and the disk is up to date. */
  lemma IndicesOrdered(run: seq<Cluster>, events: seq<Event>, i: nat, a: nat)
    requires IsRun(run, events) && i < |run| && a < |run[i].nodes|
    ensures var n := run[i].nodes[a];
            n.lastIncludedIndex <= n.lastApplied <= n.commitIndex <= LastLogIndex(n) && Persistent(n) == Load(n.disk)
  {
    var s := Explain(run, events, i);
    assert NodeCoupled(run[i].nodes[a], s, a);
  }

  // ----- Election Safety -----

  /** At most one node is ever leader in a term, whatever is lost, delayed or restarted. */
  lemma ElectionSafety(run: seq<Cluster>, events: seq<Event>, i: nat, j: nat, a: nat, b: nat)
    requires IsRun(run, events) && i < |run| && j < |run| && a < |run[i].nodes| && b < |run[j].nodes|
    requires run[i].nodes[a].role == Leader && run[j].nodes[b].role == Leader
    requires run[i].nodes[a].currentTerm == run[j].nodes[b].currentTerm
    ensures a == b
  {
    var s, s';
    if i <= j {
      s, s' := ExplainTwo(run, events, i, j);
    } else {
      s', s := ExplainTwo(run, events, j, i);
    }
    SameReign(run[i].nodes[a], run[j].nodes[b], s, s', a, b);
  }

  lemma SameReign(m: Node, n: Node, s: Protocol, s': Protocol, a: nat, b: nat)
    requires NodeCoupled(m, s, a) && NodeCoupled(n, s', b) && (Grows(s, s') || Grows(s', s))
    requires m.role == Leader && n.role == Leader && m.currentTerm == n.currentTerm
    ensures a == b
  {
    assert s.leaders[m.currentTerm].id == a && s'.leaders[m.currentTerm].id == b;
    assert ReignGrows(s.leaders[m.currentTerm], s'.leaders[m.currentTerm])
        || ReignGrows(s'.leaders[m.currentTerm], s.leaders[m.currentTerm]);
  }

  /** No node grants its vote to two candidates in one term, though votedFor may be out of date. */
  lemma OneVotePerTerm(run: seq<Cluster>, events: seq<Event>, i: nat, p: Message, q: Message)
    requires IsRun(run, events) && i < |run| && p in run[i].net && q in run[i].net
    requires p.VoteResponse? && q.VoteResponse? && p.from == q.from && p.vargs.term == q.vargs.term
    requires p.vreply.voteGranted && q.vreply.voteGranted
    ensures p.vargs.candidateId == q.vargs.candidateId
  {
    var s := Explain(run, events, i);
    assert MessageCoupled(p, s) && MessageCoupled(q, s);
  }

  // ----- Log Matching -----

  lemma GenuineLater(s: Protocol, s': Protocol, a: nat)
    requires LogsGenuine(s) && Grows(s, s') && a < |s.logs|
    ensures Genuine(s', s.logs[a])
  {
    StillGenuine(s, s', s.logs[a]);
  }

  lemma ReadSame(m: Node, n: Node, l: Log, l': Log, k: nat)
    requires LogCoupled(m, l) && LogCoupled(n, l') && k < |l| && k < |l'| && l[..k + 1] == l'[..k + 1]
    ensures SameThrough(m, n, k)
  {
    forall x | HasIndex(m, x) && HasIndex(n, x) && x <= k ensures SameAt(m, n, x) {
      ReadLog(m, l, x);
      ReadLog(n, l', x);
      assert l[x] == l[..k + 1][x] == l'[x];
    }
  }

  lemma LogsMatch(m: Node, n: Node, s: Protocol, s': Protocol, a: nat, b: nat, k: nat)
    requires LogsGenuine(s) && LogsGenuine(s') && Grows(s, s') && a < |s.logs| && b < |s'.logs|
    requires LogCoupled(m, s.logs[a]) && LogCoupled(n, s'.logs[b])
    requires HasIndex(m, k) && HasIndex(n, k) && |m.log| > 0 && |n.log| > 0 && LogTerm(m, k) == LogTerm(n, k)
    ensures SameThrough(m, n, k)
  {
    ReadLog(m, s.logs[a], k);
    ReadLog(n, s'.logs[b], k);
    GenuineLater(s, s', a);
    GenuineAgree(s', s.logs[a], s'.logs[b], k);
    ReadSame(m, n, s.logs[a], s'.logs[b], k);
  }

  /** Same index, same term: same log through that index, at any two moments of the run. */
  lemma LogMatching(run: seq<Cluster>, events: seq<Event>, i: nat, j: nat, a: nat, b: nat, k: nat)
    requires IsRun(run, events) && i <= j < |run| && a < |run[i].nodes| && b < |run[j].nodes|
    requires HasIndex(run[i].nodes[a], k) && HasIndex(run[j].nodes[b], k)
    requires LogTerm(run[i].nodes[a], k) == LogTerm(run[j].nodes[b], k)
    ensures SameThrough(run[i].nodes[a], run[j].nodes[b], k)
  {
    var s, s' := ExplainTwo(run, events, i, j);
    assert NodeCoupled(run[i].nodes[a], s, a) && NodeCoupled(run[j].nodes[b], s', b);
    LogsMatch(run[i].nodes[a], run[j].nodes[b], s, s', a, b, k);
  }

  // ----- Leader Completeness -----

  lemma CommittedInLeader(s: Protocol, s': Protocol, a: nat, t: nat, k: nat, u: nat)
    requires LogsGenuine(s') && AcksOk(s') && LeadersComplete(s') && Grows(s, s')
    requires LogsGenuine(s) && a < |s.logs| && CoveredLog(s, t, k, s.logs[a]) && t <= u && u in s'.leaders
    ensures k < |s'.leaders[u].log| && s'.leaders[u].log[..k + 1] == s.logs[a][..k + 1]
  {
    CoveredLogStays(s, s', t, t, k, s.logs[a], s.logs[a]);
    CoveredLogCovers(s', t, k, s.logs[a]);
    CoveredInLeader(s', t, k, u);
    if k == 0 {
      assert Genuine(s, s.logs[a]) && Genuine(s', s'.leaders[u].log);
      assert s'.leaders[u].log[..1] == [SENTINEL] == s.logs[a][..1];
    } else {
      CoveredAgree(s', t, t, k, s.logs[a], s'.leaders[u].log);
    }
  }

  lemma LeaderHolds(s: Protocol, s': Protocol, a: nat, t: nat, k: nat, u: nat, l': Log)
    requires LogsGenuine(s') && AcksOk(s') && LeadersComplete(s') && Grows(s, s')
    requires LogsGenuine(s) && a < |s.logs| && CoveredLog(s, t, k, s.logs[a]) && t <= u && u in s'.leaders
    requires s'.leaders[u].log == l'
    ensures k < |l'| && l'[..k + 1] == s.logs[a][..k + 1]
  {
    CommittedInLeader(s, s', a, t, k, u);
  }

  lemma ReadThrough(m: Node, n: Node, l: Log, l': Log, k: nat)
    requires LogCoupled(m, l) && LogCoupled(n, l') && k < |l| && k < |l'| && l'[..k + 1] == l[..k + 1]
    ensures LastLogIndex(n) >= k && SameThrough(m, n, k)
  {
    ReadLog(n, l', k);
    ReadSame(m, n, l, l', k);
  }

  lemma LeaderHasCommitted(m: Node, n: Node, s: Protocol, s': Protocol, a: nat, b: nat)
    requires LogsGenuine(s) && LogsGenuine(s') && AcksOk(s') && LeadersComplete(s') && Grows(s, s')
    requires a < |s.logs| && LogCoupled(m, s.logs[a]) && CoveredLog(s, m.currentTerm, m.commitIndex, s.logs[a])
    requires b < |s'.logs| && LogCoupled(n, s'.logs[b]) && n.currentTerm >= m.currentTerm
    requires n.currentTerm in s'.leaders && s'.leaders[n.currentTerm].log == s'.logs[b]
    ensures LastLogIndex(n) >= m.commitIndex && SameThrough(m, n, m.commitIndex)
  {
    LeaderHolds(s, s', a, m.currentTerm, m.commitIndex, n.currentTerm, s'.logs[b]);
    ReadThrough(m, n, s.logs[a], s'.logs[b], m.commitIndex);
  }

  /** Whatever a node has committed is in the log of every leader from then on, in its term or later. */
  lemma LeaderCompleteness(run: seq<Cluster>, events: seq<Event>, i: nat, j: nat, a: nat, b: nat)
    requires IsRun(run, events) && i <= j < |run| && a < |run[i].nodes| && b < |run[j].nodes|
    requires run[j].nodes[b].role == Leader && run[j].nodes[b].currentTerm >= run[i].nodes[a].currentTerm
    ensures LastLogIndex(run[j].nodes[b]) >= run[i].nodes[a].commitIndex
    ensures SameThrough(run[i].nodes[a], run[j].nodes[b], run[i].nodes[a].commitIndex)
  {
    var s, s' := ExplainTwo(run, events, i, j);
    assert NodeCoupled(run[i].nodes[a], s, a) && NodeCoupled(run[j].nodes[b], s', b);
    LeaderHasCommitted(run[i].nodes[a], run[j].nodes[b], s, s', a, b);
  }

  // ----- State Machine Safety -----

  /** Two chosen entries agree on every index both reach. */
  lemma ChosenAgree(s: Protocol, u: nat, m: nat, u': nat, m': nat, k: nat)
    requires AcksOk(s) && LeadersComplete(s) && Chosen(s, u, m) && Chosen(s, u', m') && k <= m && k <= m'
    ensures s.leaders[u].log[k] == s.leaders[u'].log[k]
  {
    if u <= u' {
      ChosenInLeader(s, u, u', m);
      assert Through(s, u, m)[k] == s.leaders[u].log[k];
    } else {
      ChosenInLeader(s, u', u, m');
      assert Through(s, u', m')[k] == s.leaders[u'].log[k];
    }
  }

  /** No two nodes ever deliver different commands for the same index. */
  lemma StateMachineSafety(run: seq<Cluster>, events: seq<Event>, i: nat, p: Delivery, q: Delivery)
    requires IsRun(run, events) && i < |run| && p in run[i].delivered && q in run[i].delivered
    requires p.msg.commandIndex == q.msg.commandIndex
    ensures p.msg.command == q.msg.command
  {
    var s := Explain(run, events, i);
    var k := p.msg.commandIndex;
    assert DeliveryCoupled(p, s) && DeliveryCoupled(q, s);
    var u, m :| k <= m && OwnEntry(s, u, m) && Chosen(s, u, m) && s.leaders[u].log[k].command == p.msg.command;
    var u', m' :| k <= m' && OwnEntry(s, u', m') && Chosen(s, u', m') && s.leaders[u'].log[k].command == q.msg.command;
    ChosenAgree(s, u, m, u', m', k);
  }

  // ----- committed entries stay -----

  lemma BothCommitted(m: Node, n: Node, s: Protocol, s': Protocol, a: nat, b: nat, k: nat)
    requires AcksOk(s') && LeadersComplete(s') && Grows(s, s')
    requires NodeCoupled(m, s, a) && NodeCoupled(n, s', b) && 0 < k <= m.commitIndex && k <= n.commitIndex
    ensures SameThrough(m, n, k)
  {
    var l, l' := s.logs[a], s'.logs[b];
    CoveredLogStays(s, s', m.currentTerm, m.currentTerm, m.commitIndex, l, l);
    CoveredLogLower(s', m.currentTerm, m.commitIndex, l, k);
    CoveredLogLower(s', n.currentTerm, n.commitIndex, l', k);
    CoveredAgree(s', m.currentTerm, n.currentTerm, k, l, l');
    ReadSame(m, n, l, l', k);
  }

  /** Any two nodes agree on what both have committed, at any two moments. */
  lemma CommittedAgree(run: seq<Cluster>, events: seq<Event>, i: nat, j: nat, a: nat, b: nat, k: nat)
    requires IsRun(run, events) && i <= j < |run| && a < |run[i].nodes| && b < |run[j].nodes|
    requires 0 < k <= run[i].nodes[a].commitIndex && k <= run[j].nodes[b].commitIndex
    ensures SameThrough(run[i].nodes[a], run[j].nodes[b], k)
  {
    var s, s' := ExplainTwo(run, events, i, j);
    assert NodeCoupled(run[i].nodes[a], s, a) && NodeCoupled(run[j].nodes[b], s', b);
    BothCommitted(run[i].nodes[a], run[j].nodes[b], s, s', a, b, k);
  }

  /** Only accepting entries ever shortens a log. */
  lemma OthersOnlyExtend(s: Protocol, mv: Move, a: nat)
    requires Shape(s) && Can(s, mv) && a < |s.logs| && !(mv.Accepts? && mv.v == a)
    ensures a < |Do(s, mv).logs| && s.logs[a] <= Do(s, mv).logs[a]
  {
  }

  /** A protocol step never cuts a log where it is covered. */
  lemma CoveredKept(s: Protocol, mv: Move, a: nat, k: nat)
    requires Shape(s) && LogsGenuine(s) && AcksOk(s) && LeadersComplete(s)
    requires Can(s, mv) && a < |s.logs| && CoveredLog(s, s.terms[a], k, s.logs[a])
    ensures a < |Do(s, mv).logs| && s.logs[a][..k + 1] <= Do(s, mv).logs[a]
  {
    assert Genuine(s, s.logs[a]);
    if mv.Accepts? && mv.v == a {
      MergeKeepsCovered(s, s.logs[a], s.terms[a], k, mv.u, mv.prev, mv.last);
    } else {
      OthersOnlyExtend(s, mv, a);
    }
  }

  /** Node a still holds p, which is covered through index k. */
  ghost predicate Holds(s: Protocol, a: nat, p: Log, k: nat) {
    a < |s.logs| && a < |s.terms| && |p| == k + 1 && p <= s.logs[a] && CoveredLog(s, s.terms[a], k, s.logs[a])
  }

  lemma StillHolds(s: Protocol, s': Protocol, a: nat, p: Log, k: nat)
    requires Grows(s, s') && Holds(s, a, p, k)
    requires s.logs[a][..k + 1] <= s'.logs[a]
    ensures Holds(s', a, p, k)
  {
    CoveredLogStays(s, s', s.terms[a], s'.terms[a], k, s.logs[a], s'.logs[a]);
    assert p == s.logs[a][..k + 1];
  }

  lemma HoldsOn(s: Protocol, s': Protocol, a: nat, p: Log, k: nat)
    requires Inv(s) && OneMove(s, s') && Holds(s, a, p, k)
    ensures Holds(s', a, p, k)
  {
    var mv :| Can(s, mv) && s' == Do(s, mv);
    CoveredKept(s, mv, a, k);
    MoveGrows(s, mv, Mover(mv));
    StillHolds(s, Do(s, mv), a, p, k);
  }

  /** The same over a whole history. */
  lemma {:induction false} HoldsForever(hist: seq<Protocol>, run: seq<Cluster>, i: nat, j: nat, a: nat, p: Log, k: nat)
    requires Explained(hist, run) && i <= j < |hist| && Holds(hist[i], a, p, k)
    ensures Holds(hist[j], a, p, k)
    decreases j
  {
    if i < j {
      HoldsForever(hist, run, i, j - 1, a, p, k);
      assert Explains(hist[j - 1], run[j - 1]) && OneMove(hist[j - 1], hist[j]);
      HoldsOn(hist[j - 1], hist[j], a, p, k);
    }
  }

  lemma KeptThrough(m: Node, n: Node, s: Protocol, s': Protocol, a: nat)
    requires NodeCoupled(m, s, a) && NodeCoupled(n, s', a)
    requires Holds(s', a, s.logs[a][..m.commitIndex + 1], m.commitIndex)
    ensures LastLogIndex(n) >= m.commitIndex && SameThrough(m, n, m.commitIndex)
  {
    ReadLog(n, s'.logs[a], m.commitIndex);
    ReadSame(m, n, s.logs[a], s'.logs[a], m.commitIndex);
  }

  lemma NodeHolds(n: Node, s: Protocol, a: nat)
    requires NodeCoupled(n, s, a)
    ensures Holds(s, a, s.logs[a][..n.commitIndex + 1], n.commitIndex)
  {
  }

  lemma ExplainHeld(run: seq<Cluster>, events: seq<Event>, i: nat, j: nat, a: nat) returns (s: Protocol, s': Protocol)
    requires IsRun(run, events) && i <= j < |run| && a < |run[i].nodes|
    ensures a < |run[j].nodes| && NodeCoupled(run[i].nodes[a], s, a) && NodeCoupled(run[j].nodes[a], s', a)
    ensures Holds(s', a, s.logs[a][..run[i].nodes[a].commitIndex + 1], run[i].nodes[a].commitIndex)
  {
    var hist := RunExplained(run, events);
    s, s' := hist[i], hist[j];
    assert Explains(hist[i], run[i]) && NodeCoupled(run[i].nodes[a], s, a);
    NodeHolds(run[i].nodes[a], s, a);
    HoldsForever(hist, run, i, j, a, s.logs[a][..run[i].nodes[a].commitIndex + 1], run[i].nodes[a].commitIndex);
    assert Explains(hist[j], run[j]);
    assert a < |run[j].nodes| && NodeCoupled(run[j].nodes[a], s', a);
  }

  /** No event, not even a restart, takes an entry at or below commitIndex out of a node's log. */
  lemma CommittedNeverCut(run: seq<Cluster>, events: seq<Event>, i: nat, j: nat, a: nat)
    requires IsRun(run, events) && i <= j < |run| && a < |run[i].nodes|
    ensures a < |run[j].nodes| && LastLogIndex(run[j].nodes[a]) >= run[i].nodes[a].commitIndex
    ensures SameThrough(run[i].nodes[a], run[j].nodes[a], run[i].nodes[a].commitIndex)
  {
    var s, s' := ExplainHeld(run, events, i, j, a);
    KeptThrough(run[i].nodes[a], run[j].nodes[a], s, s', a);
  }

  lemma MergedEntry(s: Protocol, l: Log, src: Log, prev: nat, last: nat, x: nat)
    requires Genuine(s, l) && Genuine(s, src) && prev < x <= last < |src| && prev < |l| && l[prev].term == src[prev].term
    ensures x < |Merge(l, src, prev, last)| && Merge(l, src, prev, last)[x] == src[x]
  {
    MergeResult(s, l, src, prev, last);
    assert Merge(l, src, prev, last)[x] == src[..last + 1][x];
  }

  lemma AcceptedEntries(n: Node, s: Protocol, i: nat, a: AppendArgs, u: nat, x: nat)
    requires i < |s.logs| && LogCoupled(n, s.logs[i]) && Genuine(s, s.logs[i]) && AppendCoupled(a, s, u)
    requires Genuine(s, s.leaders[u].log) && Can(s, AcceptMove(i, a, u))
    requires AppendEntries(n, a).1.success && a.prevLogIndex < x <= a.prevLogIndex + |a.entries|
    ensures HasIndex(AppendEntries(n, a).0, x)
    ensures EntryAt(AppendEntries(n, a).0, x) == a.entries[x - a.prevLogIndex - 1]
  {
    AcceptLog(n, s, i, a, u);
    AcceptedIn(s, i, a, u, x);
    AcceptedAfter(n, a);
    ReadLog(AppendEntries(n, a).0, Do(s, AcceptMove(i, a, u)).logs[i], x);
  }

  lemma AcceptedAfter(n: Node, a: AppendArgs)
    requires |n.log| > 0 && AppendEntries(n, a).1.success
    ensures AppendEntries(n, a).0.lastIncludedIndex == n.lastIncludedIndex <= a.prevLogIndex
  {
  }

  lemma AcceptedIn(s: Protocol, i: nat, a: AppendArgs, u: nat, x: nat)
    requires i < |s.logs| && Genuine(s, s.logs[i]) && AppendCoupled(a, s, u) && Genuine(s, s.leaders[u].log)
    requires Can(s, AcceptMove(i, a, u)) && a.prevLogIndex < x <= a.prevLogIndex + |a.entries|
    ensures i < |Do(s, AcceptMove(i, a, u)).logs| && x < |Do(s, AcceptMove(i, a, u)).logs[i]|
    ensures Do(s, AcceptMove(i, a, u)).logs[i][x] == a.entries[x - a.prevLogIndex - 1]
  {
    MergedEntry(s, s.logs[i], s.leaders[u].log, a.prevLogIndex, a.prevLogIndex + |a.entries|, x);
  }

  /** The node holds the entries of the message, each at its index. */
  ghost predicate HoldsEntries(n: Node, a: AppendArgs) {
    forall x :: a.prevLogIndex < x <= a.prevLogIndex + |a.entries| ==>
      HasIndex(n, x) && EntryAt(n, x) == a.entries[x - a.prevLogIndex - 1]
  }

  lemma SuccessAgreesNode(n: Node, s: Protocol, v: nat, a: AppendArgs, u: nat)
    requires LogsGenuine(s) && NodeCoupled(n, s, v) && AppendCoupled(a, s, u)
    requires |n.log| > 0 && AppendEntries(n, a).1.success
    ensures HoldsEntries(AppendEntries(n, a).0, a)
  {
    MayAccept(n, s, v, a, u);
    assert Genuine(s, s.logs[v]) && Genuine(s, s.leaders[u].log);
    forall x | a.prevLogIndex < x <= a.prevLogIndex + |a.entries|
      ensures HasIndex(AppendEntries(n, a).0, x)
      ensures EntryAt(AppendEntries(n, a).0, x) == a.entries[x - a.prevLogIndex - 1]
    {
      AcceptedEntries(n, s, v, a, u, x);
    }
  }

  lemma ReceivedFrom(c: Cluster, s: Protocol, m: Message) returns (u: nat)
    requires Coupled(c, s) && Enabled(c, AppendReceived(m))
    ensures NodeCoupled(c.nodes[m.to], s, m.to) && AppendCoupled(m.args, s, u)
  {
    assert NodeCoupled(c.nodes[m.to], s, m.to) && MessageCoupled(m, s);
    u :| AppendCoupled(m.args, s, u);
  }

  /** After a successful AppendEntries the follower holds exactly the entries of the message. */
  lemma SuccessAgrees(run: seq<Cluster>, events: seq<Event>, i: nat, m: Message)
    requires IsRun(run, events) && i < |run| && Enabled(run[i], AppendReceived(m)) && |run[i].nodes[m.to].log| > 0
    requires AppendEntries(run[i].nodes[m.to], m.args).1.success
    ensures HoldsEntries(AppendEntries(run[i].nodes[m.to], m.args).0, m.args)
  {
    var s := Explain(run, events, i);
    var u := ReceivedFrom(run[i], s, m);
    SuccessAgreesNode(run[i].nodes[m.to], s, m.to, m.args, u);
  }

  /** The sender's last index in the message, read on both sides. */
  lemma SuccessReaches(run: seq<Cluster>, events: seq<Event>, i: nat, j: nat, r: Round, peer: nat)
    requires IsRun(run, events) && i < j < |events| && events[i] == AppendSent(r, peer)
    requires events[j] == AppendReceived(AppendRequest(peer, MakeAppend(run[i].nodes[r.node], r, peer)))
    requires |run[j].nodes[peer].log| > 0
    requires AppendEntries(run[j].nodes[peer], MakeAppend(run[i].nodes[r.node], r, peer)).1.success
    ensures var l, a := run[i].nodes[r.node], MakeAppend(run[i].nodes[r.node], r, peer);
            var n', last := AppendEntries(run[j].nodes[peer], a).0, a.prevLogIndex + |a.entries|;
            HasIndex(l, last) && HasIndex(n', last) && LogTerm(l, last) == LogTerm(n', last)
  {
    var l, a := run[i].nodes[r.node], MakeAppend(run[i].nodes[r.node], r, peer);
    IndicesOrdered(run, events, i, r.node);
    if |a.entries| > 0 {
      SuccessAgrees(run, events, j, AppendRequest(peer, a));
    }
  }

  /**
    * After a successful AppendEntries, however late and even without entries, the follower agrees
    * with the log its sender had, through the end of the message.
    */
  lemma SuccessAgreesWithSender(run: seq<Cluster>, events: seq<Event>, i: nat, j: nat, r: Round, peer: nat)
    requires IsRun(run, events) && i < j < |events| && events[i] == AppendSent(r, peer)
    requires events[j] == AppendReceived(AppendRequest(peer, MakeAppend(run[i].nodes[r.node], r, peer)))
    requires |run[j].nodes[peer].log| > 0
    requires AppendEntries(run[j].nodes[peer], MakeAppend(run[i].nodes[r.node], r, peer)).1.success
    ensures peer < |run[j + 1].nodes|
    ensures var l, a := run[i].nodes[r.node], MakeAppend(run[i].nodes[r.node], r, peer);
            HasIndex(run[j + 1].nodes[peer], a.prevLogIndex + |a.entries|)
            && SameThrough(l, run[j + 1].nodes[peer], a.prevLogIndex + |a.entries|)
  {
    var a := MakeAppend(run[i].nodes[r.node], r, peer);
    SuccessReaches(run, events, i, j, r, peer);
    assert run[j + 1].nodes[peer] == AppendEntries(run[j].nodes[peer], a).0;
    LogMatching(run, events, i, j + 1, r.node, peer, a.prevLogIndex + |a.entries|);
  }

  // ----- late messages -----

  /** While its sender still leads the message's term, the message is a piece of that term's log. */
  lemma MessageOfReign(l: Node, s: Protocol, b: nat, a: AppendArgs, u: nat)
    requires LeadersOk(s) && StandsOk(s) && VotesOk(s) && AppendCoupled(a, s, u) && a.leaderId == b
    requires NodeCoupled(l, s, b) && l.role == Leader && l.currentTerm == a.term
    ensures u == a.term && s.leaders[u].log == s.logs[b]
  {
    ReignReached(s, u);
  }

  lemma AcceptMoveKeeps(s: Protocol, v: nat, a: AppendArgs, u: nat, p: Log)
    requires v < |s.logs| && Genuine(s, s.logs[v]) && AppendCoupled(a, s, u) && Genuine(s, s.leaders[u].log)
    requires Can(s, AcceptMove(v, a, u)) && p <= s.logs[v] && p <= s.leaders[u].log
    ensures v < |Do(s, AcceptMove(v, a, u)).logs| && p <= Do(s, AcceptMove(v, a, u)).logs[v]
  {
    MergeKeepsCommon(s, s.logs[v], s.leaders[u].log, a.prevLogIndex, a.prevLogIndex + |a.entries|, p);
  }

  lemma ReadPrefix(n: Node, full: Log, p: Log)
    requires LogCoupled(n, full) && |p| > 0 && p <= full && n.lastIncludedIndex < |p|
    ensures |n.log| > 0 && HasIndex(n, |p| - 1) && LogTerm(n, |p| - 1) == p[|p| - 1].term
  {
    ReadLog(n, full, |p| - 1);
  }

  /** The follower's full log already holds p, a prefix of the reign's log: accepting keeps it. */
  lemma AcceptedKeepsShared(n: Node, s: Protocol, v: nat, a: AppendArgs, u: nat, p: Log)
    requires v < |s.logs| && LogCoupled(n, s.logs[v]) && Genuine(s, s.logs[v])
    requires AppendCoupled(a, s, u) && Genuine(s, s.leaders[u].log) && Can(s, AcceptMove(v, a, u))
    requires |n.log| > 0 && AppendEntries(n, a).1.success
    requires |p| > 0 && p <= s.logs[v] && p <= s.leaders[u].log && n.lastIncludedIndex < |p|
    ensures var k := |p| - 1; HasIndex(AppendEntries(n, a).0, k) && LogTerm(AppendEntries(n, a).0, k) == p[k].term
  {
    AcceptLog(n, s, v, a, u);
    AcceptedAfter(n, a);
    AcceptMoveKeeps(s, v, a, u, p);
    ReadPrefix(AppendEntries(n, a).0, Do(s, AcceptMove(v, a, u)).logs[v], p);
  }

  lemma RejectedKeepsLog(n: Node, a: AppendArgs, k: nat)
    requires |n.log| > 0 && !AppendEntries(n, a).1.success && HasIndex(n, k)
    ensures HasIndex(AppendEntries(n, a).0, k) && LogTerm(AppendEntries(n, a).0, k) == LogTerm(n, k)
  {
  }

  lemma AcceptedKeepsTerm(n: Node, s: Protocol, v: nat, a: AppendArgs, u: nat, k: nat)
    requires LogsGenuine(s) && NodeCoupled(n, s, v) && AppendCoupled(a, s, u) && n.lastIncludedIndex <= k
    requires k < |s.logs[v]| && s.logs[v][..k + 1] <= s.leaders[u].log && AppendEntries(n, a).1.success
    ensures HasIndex(AppendEntries(n, a).0, k) && LogTerm(AppendEntries(n, a).0, k) == s.logs[v][k].term
  {
    MayAccept(n, s, v, a, u);
    assert Genuine(s, s.logs[v]) && Genuine(s, s.leaders[u].log);
    AcceptedKeepsShared(n, s, v, a, u, s.logs[v][..k + 1]);
  }

  lemma HandledKeepsShared(n: Node, s: Protocol, v: nat, a: AppendArgs, u: nat, k: nat)
    requires LogsGenuine(s) && NodeCoupled(n, s, v) && AppendCoupled(a, s, u) && HasIndex(n, k)
    requires k < |s.logs[v]| && s.logs[v][k].term == LogTerm(n, k) && s.logs[v][..k + 1] <= s.leaders[u].log
    ensures HasIndex(AppendEntries(n, a).0, k) && LogTerm(AppendEntries(n, a).0, k) == LogTerm(n, k)
  {
    if AppendEntries(n, a).1.success {
      AcceptedKeepsTerm(n, s, v, a, u, k);
    } else {
      RejectedKeepsLog(n, a, k);
    }
  }

  /** The sender's side: the message is a piece of its term's log, which it holds. */
  lemma SenderAt(c: Cluster, s: Protocol, m: Message, k: nat) returns (u: nat)
    requires Inv(s) && Coupled(c, s) && m in c.net && m.AppendRequest? && m.args.leaderId < |c.nodes|
    requires c.nodes[m.args.leaderId].role == Leader && c.nodes[m.args.leaderId].currentTerm == m.args.term
    requires HasIndex(c.nodes[m.args.leaderId], k)
    ensures AppendCoupled(m.args, s, u) && k < |s.leaders[u].log| && |c.nodes[m.args.leaderId].log| > 0
    ensures s.leaders[u].log[k].term == LogTerm(c.nodes[m.args.leaderId], k)
  {
    assert NodeCoupled(c.nodes[m.args.leaderId], s, m.args.leaderId) && MessageCoupled(m, s);
    u :| AppendCoupled(m.args, s, u);
    MessageOfReign(c.nodes[m.args.leaderId], s, m.args.leaderId, m.args, u);
    ReadLog(c.nodes[m.args.leaderId], s.logs[m.args.leaderId], k);
  }

  /** The follower's side. */
  lemma FollowerAt(c: Cluster, s: Protocol, v: nat, a: AppendArgs, u: nat, k: nat)
    requires LogsGenuine(s) && Coupled(c, s) && v < |c.nodes| && AppendCoupled(a, s, u) && k < |s.leaders[u].log|
    requires HasIndex(c.nodes[v], k) && |c.nodes[v].log| > 0 && LogTerm(c.nodes[v], k) == s.leaders[u].log[k].term
    ensures HasIndex(AppendEntries(c.nodes[v], a).0, k)
    ensures LogTerm(AppendEntries(c.nodes[v], a).0, k) == LogTerm(c.nodes[v], k)
  {
    assert NodeCoupled(c.nodes[v], s, v);
    assert Genuine(s, s.logs[v]) && Genuine(s, s.leaders[u].log);
    ReadLog(c.nodes[v], s.logs[v], k);
    GenuineAgree(s, s.logs[v], s.leaders[u].log, k);
    HandledKeepsShared(c.nodes[v], s, v, a, u, k);
  }

  /** The same reign, from the moment of sending to the moment of handling. */
  lemma ReignLater(s0: Protocol, s: Protocol, a: AppendArgs, u: nat, k: nat)
    requires Grows(s0, s) && AppendCoupled(a, s0, u) && k < |s0.leaders[u].log|
    ensures AppendCoupled(a, s, u) && k < |s.leaders[u].log| && s.leaders[u].log[k] == s0.leaders[u].log[k]
  {
    AppendStays(a, s0, s, u);
    assert ReignGrows(s0.leaders[u], s.leaders[u]);
  }

  lemma LateMessageKeeps(run: seq<Cluster>, events: seq<Event>, i: nat, j: nat, m: Message, k: nat)
    requires IsRun(run, events) && i <= j < |events| && m in run[i].net && m.AppendRequest? && m.to < |run[j].nodes|
    requires m.args.leaderId < |run[i].nodes|
    requires run[i].nodes[m.args.leaderId].role == Leader && run[i].nodes[m.args.leaderId].currentTerm == m.args.term
    requires HasIndex(run[i].nodes[m.args.leaderId], k) && HasIndex(run[j].nodes[m.to], k) && |run[j].nodes[m.to].log| > 0
    requires LogTerm(run[i].nodes[m.args.leaderId], k) == LogTerm(run[j].nodes[m.to], k)
    ensures HasIndex(AppendEntries(run[j].nodes[m.to], m.args).0, k)
    ensures LogTerm(AppendEntries(run[j].nodes[m.to], m.args).0, k) == LogTerm(run[j].nodes[m.to], k)
  {
    var hist := RunExplained(run, events);
    assert Explains(hist[i], run[i]) && Explains(hist[j], run[j]) && Grows(hist[i], hist[j]);
    var u := SenderAt(run[i], hist[i], m, k);
    ReignLater(hist[i], hist[j], m.args, u, k);
    FollowerAt(run[j], hist[j], m.to, m.args, u, k);
  }

  /**
    * A request sent while its sender led the request's term, handled at any later time, takes away
    * nothing that the follower shares with the sender's log of then: in particular nothing it has
    * acknowledged to it and still holds.
    */
  lemma LateMessageHarmless(run: seq<Cluster>, events: seq<Event>, i: nat, j: nat, m: Message, k: nat)
    requires IsRun(run, events) && i <= j < |events| && events[j] == AppendReceived(m) && m in run[i].net
    requires m.AppendRequest? && m.args.leaderId < |run[i].nodes|
    requires run[i].nodes[m.args.leaderId].role == Leader && run[i].nodes[m.args.leaderId].currentTerm == m.args.term
    requires HasIndex(run[i].nodes[m.args.leaderId], k) && HasIndex(run[j].nodes[m.to], k)
    requires LogTerm(run[i].nodes[m.args.leaderId], k) == LogTerm(run[j].nodes[m.to], k)
    ensures m.to < |run[j + 1].nodes| && HasIndex(run[j + 1].nodes[m.to], k)
    ensures LogTerm(run[j + 1].nodes[m.to], k) == LogTerm(run[j].nodes[m.to], k)
    ensures SameThrough(run[i].nodes[m.args.leaderId], run[j + 1].nodes[m.to], k)
  {
    LateMessageKeeps(run, events, i, j, m, k);
    assert run[j + 1].nodes[m.to] == AppendEntries(run[j].nodes[m.to], m.args).0;
    LogMatching(run, events, i, j + 1, m.args.leaderId, m.to, k);
  }

  /** Every AppendEntries request carries the log at least as far as its LeaderCommit. */
  lemma CommitWithinMessage(run: seq<Cluster>, events: seq<Event>, i: nat, m: Message)
    requires IsRun(run, events) && i < |run| && m in run[i].net && m.AppendRequest?
    ensures m.args.leaderCommit <= m.args.prevLogIndex + |m.args.entries|
  {
    var s := Explain(run, events, i);
    assert MessageCoupled(m, s);
  }

  /** One event, on any cluster: only a restart, or a message that claims too much, lowers commitIndex. */
  lemma EventKeepsCommit(c: Cluster, e: Event, a: nat)
    requires Enabled(c, e) && NoPanic(c, e) && a < |c.nodes| && !Ends(e, a)
    requires e.AppendReceived? ==> e.req.args.leaderCommit <= e.req.args.prevLogIndex + |e.req.args.entries|
    ensures a < |Next(c, e).nodes| && Next(c, e).nodes[a].commitIndex >= c.nodes[a].commitIndex
  {
  }

  /** commitIndex never decreases while a node stays up. */
  lemma CommitMonotone(run: seq<Cluster>, events: seq<Event>, i: nat, a: nat)
    requires IsRun(run, events) && i < |events| && a < |run[i].nodes| && !Ends(events[i], a)
    ensures a < |run[i + 1].nodes| && run[i + 1].nodes[a].commitIndex >= run[i].nodes[a].commitIndex
  {
    if events[i].AppendReceived? {
      CommitWithinMessage(run, events, i, events[i].req);
    }
    EventKeepsCommit(run[i], events[i], a);
  }

  // ----- fast backup, between any two nodes of a run -----

  predicate SameTerms(l: Log, full: Log) {
    |l| == |full| && forall k :: 0 <= k < |l| ==> l[k].term == full[k].term
  }

  lemma WholeTerms(n: Node, full: Log)
    requires R.Whole(n) && LogCoupled(n, full)
    ensures SameTerms(n.log, full)
  {
    forall k | 0 <= k < |n.log| ensures n.log[k].term == full[k].term {
      assert k > 0 ==> n.log[k] == n.log[1..][k - 1] == full[1..][k - 1] == full[k];
    }
  }

  lemma SourceOfTerms(a: Log, a': Log, b: Log, b': Log)
    requires SameTerms(a, a') && SameTerms(b, b') && R.OneSource(a', b') && R.Sorted(a')
    ensures R.OneSource(a, b) && R.Sorted(a)
  {
    forall i, j | 0 < i < |a| && i <= j < |b| && a[i].term == b[j].term ensures b[i].term == a[i].term {
      assert a'[i].term == b'[j].term;
    }
    forall i, j | 0 <= i <= j < |a| ensures a[i].term <= a[j].term {
      assert a'[i].term <= a'[j].term;
    }
  }

  lemma WholeNodesShareSource(l: Node, f: Node, s: Protocol, a: nat, b: nat)
    requires TermsBounded(s) && NodeCoupled(l, s, a) && NodeCoupled(f, s, b) && R.Whole(l) && R.Whole(f)
    requires Genuine(s, s.logs[a]) && Genuine(s, s.logs[b])
    ensures R.OneSource(f.log, l.log) && R.Sorted(l.log) && R.Sorted(f.log)
  {
    WholeTerms(l, s.logs[a]);
    WholeTerms(f, s.logs[b]);
    R.GenuineOneSource(s, s.logs[b], s.logs[a]);
    R.GenuineOneSource(s, s.logs[a], s.logs[b]);
    SourceOfTerms(f.log, s.logs[b], l.log, s.logs[a]);
    SourceOfTerms(l.log, s.logs[a], f.log, s.logs[b]);
  }

  /**
    * Between any two uncompacted nodes of a run, each rejection moves nextIndex back, and there is
    * at most one for each term in the follower's log, and one more.
    */
  lemma BackUpConverges(run: seq<Cluster>, events: seq<Event>, i: nat, a: nat, b: nat, ni: nat)
    requires IsRun(run, events) && i < |run| && a < |run[i].nodes| && b < |run[i].nodes|
    requires R.Whole(run[i].nodes[a]) && R.Whole(run[i].nodes[b])
    requires run[i].nodes[b].currentTerm <= run[i].nodes[a].currentTerm && 1 <= ni <= |run[i].nodes[a].log|
    ensures var l, f := run[i].nodes[a], run[i].nodes[b];
            && R.Pair(l, f) && R.OneSource(f.log, l.log)
            && R.Rejections(l, f, ni) <= 1 + |R.Terms(f.log)|
            && (!R.Answer(l, f, ni).success ==> 1 <= BackUp(l, R.Answer(l, f, ni)) <= ni - 1)
  {
    var s := Explain(run, events, i);
    var l, f := run[i].nodes[a], run[i].nodes[b];
    assert NodeCoupled(l, s, a) && NodeCoupled(f, s, b);
    assert Genuine(s, s.logs[a]) && Genuine(s, s.logs[b]);
    WholeNodesShareSource(l, f, s, a, b);
    R.RejectionsBounded(l, f, ni);
    if !R.Answer(l, f, ni).success {
      R.BacksUp(l, f, ni);
    }
  }
}
