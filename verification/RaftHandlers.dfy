/** What the handlers must do, not only what they must not: votes, commits, acknowledgements and first heartbeats. */
module RaftHandlers {
  import opened StoreTypes
  import opened RaftTypes
  import opened Quorum
  import opened RaftNode
  import opened RaftCluster
  import opened P = RaftProtocol
  import opened RaftInvariant
  import opened RaftRefinement
  import opened RaftSafety

  /** Event k of the run, with the states around it. */
  lemma EventAt(run: seq<Cluster>, events: seq<Event>, k: nat)
    requires IsRun(run, events) && k < |events|
    ensures Enabled(run[k], events[k]) && NoPanic(run[k], events[k]) && run[k + 1] == Next(run[k], events[k])
  {
  }

  // ----- votes -----

  /** Where a vote request comes from: the candidate's state right after it stood. */
  predicate AsksFor(n: Node, c: nat, a: VoteArgs) {
    && |n.log| > 0 && n.role == Candidate && n.currentTerm == a.term && a.candidateId == c
    && a.lastLogIndex == LastLogIndex(n) && a.lastLogTerm == LogTerm(n, LastLogIndex(n))
  }

  lemma StandAsks(n: Node, c: nat)
    requires |n.log| > 0 && n.me == c
    ensures AsksFor(StartElection(n).0, c, StartElection(n).1)
  {
  }

  lemma NewRequest(c: Cluster, s: Protocol, e: Event, m: Message)
    requires Coupled(c, s) && Enabled(c, e) && NoPanic(c, e) && m.VoteRequest? && m in Next(c, e).net && m !in c.net
    ensures e.Timeout? && e.node == m.vargs.candidateId && e.node < |Next(c, e).nodes|
    ensures AsksFor(Next(c, e).nodes[e.node], e.node, m.vargs)
  {
    if e.Timeout? {
      assert NodeCoupled(c.nodes[e.node], s, e.node);
      StandAsks(c.nodes[e.node], e.node);
    }
  }

  lemma NewRequestAt(run: seq<Cluster>, events: seq<Event>, i: nat, m: Message)
    requires IsRun(run, events) && i < |events| && m.VoteRequest? && m in run[i + 1].net && m !in run[i].net
    ensures events[i] == Timeout(m.vargs.candidateId) && m.vargs.candidateId < |run[i + 1].nodes|
    ensures AsksFor(run[i + 1].nodes[m.vargs.candidateId], m.vargs.candidateId, m.vargs)
  {
    EventAt(run, events, i);
    var s := Explain(run, events, i);
    NewRequest(run[i], s, events[i], m);
  }

  lemma {:induction false} FirstSeen(run: seq<Cluster>, k: nat, m: Message) returns (i: nat)
    requires k < |run| && m in run[k].net && m !in run[0].net
    ensures i < k && m !in run[i].net && m in run[i + 1].net
    decreases k
  {
    if m in run[k - 1].net {
      i := FirstSeen(run, k - 1, m);
    } else {
      i := k - 1;
    }
  }

  /** Every vote request comes from a candidate that stood with that log. */
  lemma RequestOrigin(run: seq<Cluster>, events: seq<Event>, k: nat, m: Message) returns (i: nat)
    requires IsRun(run, events) && k < |run| && m.VoteRequest? && m in run[k].net
    ensures i < k && events[i] == Timeout(m.vargs.candidateId) && m.vargs.candidateId < |run[i + 1].nodes|
    ensures AsksFor(run[i + 1].nodes[m.vargs.candidateId], m.vargs.candidateId, m.vargs)
  {
    i := FirstSeen(run, k, m);
    NewRequestAt(run, events, i, m);
  }

  /** The voter has no vote on record, in this term or since, or it is for this candidate. */
  predicate Free(n: Node, a: VoteArgs) {
    a.term > n.currentTerm || n.votedFor == NOBODY || n.votedFor == a.candidateId
  }

  lemma FullLogIs(n: Node, full: Log)
    requires LogCoupled(n, full)
    ensures |n.log| > 0 && |full| > 0 && LastLogIndex(n) == |full| - 1 && LogTerm(n, LastLogIndex(n)) == LastTerm(full)
  {
    ReadLog(n, full, |full| - 1);
  }

  lemma GrantedIff(n: Node, own: Log, c: Node, cand: Log, a: VoteArgs)
    requires LogCoupled(n, own) && LogCoupled(c, cand) && AsksFor(c, a.candidateId, a)
    ensures |own| > 0 && |cand| > 0 && |n.log| > 0
    ensures RequestVote(n, a).1.voteGranted <==> a.term >= n.currentTerm && Free(n, a) && UpToDate(cand, own)
  {
    FullLogIs(n, own);
    FullLogIs(c, cand);
  }

  /**
    * In every run a vote is granted exactly when the request is not of an earlier term, the voter is
    * free, and the full log the candidate stood with, at moment i + 1, is at least as up-to-date as
    * the voter's own full log.
    */
  lemma VoteGrantedIff(run: seq<Cluster>, events: seq<Event>, k: nat, m: Message)
    returns (i: nat, cand: Log, own: Log)
    requires IsRun(run, events) && k < |events| && events[k] == VoteAsked(m)
    ensures m.VoteRequest? && m.to < |run[k].nodes| && |run[k].nodes[m.to].log| > 0
    ensures i < k && events[i] == Timeout(m.vargs.candidateId) && m.vargs.candidateId < |run[i + 1].nodes|
    ensures run[i + 1].nodes[m.vargs.candidateId].currentTerm == m.vargs.term
    ensures LogCoupled(run[i + 1].nodes[m.vargs.candidateId], cand) && LogCoupled(run[k].nodes[m.to], own)
    ensures |cand| > 0 && |own| > 0
    ensures RequestVote(run[k].nodes[m.to], m.vargs).1.voteGranted
            <==> m.vargs.term >= run[k].nodes[m.to].currentTerm && Free(run[k].nodes[m.to], m.vargs) && UpToDate(cand, own)
  {
    EventAt(run, events, k);
    i := RequestOrigin(run, events, k, m);
    var s, s' := ExplainTwo(run, events, i + 1, k);
    var c, v := m.vargs.candidateId, m.to;
    assert NodeCoupled(run[i + 1].nodes[c], s, c) && NodeCoupled(run[k].nodes[v], s', v);
    cand, own := s.logs[c], s'.logs[v];
    GrantedIff(run[k].nodes[v], own, run[i + 1].nodes[c], cand, m.vargs);
  }

  /** What a vote request leaves: the later term, and the vote, both on disk before the reply goes out. */
  lemma VoteEffect(n: Node, a: VoteArgs)
    requires Valid(n)
    ensures var (n', r) := RequestVote(n, a);
            && r.term == n.currentTerm && n'.log == n.log && n'.commitIndex == n.commitIndex
            && n'.currentTerm == (if a.term > n.currentTerm then a.term else n.currentTerm)
            && n'.votedFor == (if r.voteGranted then a.candidateId else if a.term > n.currentTerm then NOBODY else n.votedFor)
            && (a.term > n.currentTerm ==> n'.role == Follower) && (a.term <= n.currentTerm ==> n'.role == n.role)
            && Load(n'.disk).votedFor == n'.votedFor && Load(n'.disk).currentTerm == n'.currentTerm
  {
  }

  /** A granted vote counts once for each voter, and with more than half of all votes the candidate leads. */
  lemma VoteCounts(n: Node, from: nat, r: VoteReply)
    requires n.role == Candidate && r.term <= n.currentTerm
    ensures var n' := HandleVoteReply(n, n.currentTerm, from, r);
            if !r.voteGranted then n' == n
            else n'.votes == n.votes + {from} && (n'.role == Leader <==> 2 * |n.votes + {from}| > n.peers)
                 && (n'.role != Leader ==> n'.role == Candidate) && n'.currentTerm == n.currentTerm
  {
  }

  // ----- later terms -----

  /** A request of a later term makes its receiver follow in that term; only a vote request clears its vote. */
  lemma RequestTeaches(n: Node, v: VoteArgs, a: AppendArgs)
    requires |n.log| > 0
    ensures v.term > n.currentTerm ==>
              RequestVote(n, v).0.role == Follower && RequestVote(n, v).0.currentTerm == v.term
    ensures a.term >= n.currentTerm ==>
              AppendEntries(n, a).0.role == Follower && AppendEntries(n, a).0.currentTerm == a.term
              && AppendEntries(n, a).0.votedFor == n.votedFor
    ensures a.term < n.currentTerm ==> AppendEntries(n, a) == (n, AppendReply(n.currentTerm, false, -1, 0))
  {
  }

  /** A node in a later term, with its vote still to give. */
  predicate FollowsIn(n: Node, term: nat) {
    n.role == Follower && n.currentTerm == term && n.votedFor == NOBODY && Load(n.disk) == Persistent(n)
  }

  /** So does a reply of a later term; a reply to an election or reign that is over changes nothing. */
  lemma ReplyTeaches(n: Node, term: nat, from: nat, v: VoteReply, a: AppendArgs, r: AppendReply)
    requires n.role == Leader ==> |n.matchIndex| == n.peers == |n.nextIndex| && from < n.peers
    ensures n.role != Candidate || term != n.currentTerm ==> HandleVoteReply(n, term, from, v) == n
    ensures n.role == Candidate && term == n.currentTerm < v.term ==> FollowsIn(HandleVoteReply(n, term, from, v), v.term)
    ensures n.role != Leader || a.term != n.currentTerm ==> HandleAppendReply(n, a, from, r) == n
    ensures n.role == Leader && a.term == n.currentTerm < r.term ==> FollowsIn(HandleAppendReply(n, a, from, r), r.term)
  {
  }

  // ----- commits spread -----

  /** What an AppendEntries call does to commitIndex, the clamp to the message's end included. */
  lemma AppendCommits(n: Node, a: AppendArgs)
    requires |n.log| > 0
    ensures var (n', r) := AppendEntries(n, a);
            var end := a.prevLogIndex + |a.entries|;
            n'.commitIndex == if !r.success || a.leaderCommit <= n.commitIndex then n.commitIndex
                              else if a.leaderCommit <= end then a.leaderCommit else end
  {
  }

  /** In every run an accepted request brings the follower's commitIndex up to LeaderCommit; a rejected one leaves it. */
  lemma FollowerCommits(run: seq<Cluster>, events: seq<Event>, k: nat, m: Message)
    requires IsRun(run, events) && k < |events| && events[k] == AppendReceived(m)
    ensures m.AppendRequest? && m.to < |run[k].nodes| && m.to < |run[k + 1].nodes| && |run[k].nodes[m.to].log| > 0
    ensures var n, n' := run[k].nodes[m.to], run[k + 1].nodes[m.to];
            n'.commitIndex == if AppendEntries(n, m.args).1.success && m.args.leaderCommit > n.commitIndex
                              then m.args.leaderCommit else n.commitIndex
  {
    EventAt(run, events, k);
    CommitWithinMessage(run, events, k, m);
    AppendCommits(run[k].nodes[m.to], m.args);
  }

  /** The round carries the sender's commitIndex, and every request of the round does. */
  lemma RoundCarriesCommit(n: Node, r: Round, peer: nat)
    requires WillAppend(n, peer) && AppendInRange(n, peer)
    ensures BeginRound(n).commitIndex == n.commitIndex && BeginRound(n).term == n.currentTerm && BeginRound(n).node == n.me
    ensures MakeAppend(n, r, peer).leaderCommit == r.commitIndex && MakeAppend(n, r, peer).term == r.term
  {
  }

  /**
    * What a node had committed when it began a heartbeat round is committed by every follower that
    * accepts a request of that round, whenever the request was sent and however late it arrives.
    */
  lemma CommitSpreads(run: seq<Cluster>, events: seq<Event>, i: nat, j: nat, k: nat, a: nat, r: Round, peer: nat)
    requires IsRun(run, events) && i < j < k < |events| && events[i] == RoundBegun(a) && a < |run[i].nodes|
    requires r == BeginRound(run[i].nodes[a]) && events[j] == AppendSent(r, peer)
    requires r.node < |run[j].nodes| && WillAppend(run[j].nodes[r.node], peer) && AppendInRange(run[j].nodes[r.node], peer)
    requires events[k] == AppendReceived(AppendRequest(peer, MakeAppend(run[j].nodes[r.node], r, peer)))
    requires peer < |run[k].nodes| && |run[k].nodes[peer].log| > 0
    requires AppendEntries(run[k].nodes[peer], MakeAppend(run[j].nodes[r.node], r, peer)).1.success
    ensures peer < |run[k + 1].nodes| && run[k + 1].nodes[peer].commitIndex >= run[i].nodes[a].commitIndex
  {
    RoundCarriesCommit(run[j].nodes[r.node], r, peer);
    FollowerCommits(run, events, k, AppendRequest(peer, MakeAppend(run[j].nodes[r.node], r, peer)));
  }

  // ----- acceptance -----

  lemma AcceptsIff(n: Node, a: AppendArgs)
    requires |n.log| > 0
    ensures AppendEntries(n, a).1.success
            <==> a.term >= n.currentTerm && HasIndex(n, a.prevLogIndex) && LogTerm(n, a.prevLogIndex) == a.prevLogTerm
    ensures AppendEntries(n, a).1.term == if a.term > n.currentTerm then a.term else n.currentTerm
  {
  }

  lemma MakesFrom(n: Node, r: Round, peer: nat)
    requires WillAppend(n, peer) && AppendInRange(n, peer) && |n.log| > 0
    ensures var a := MakeAppend(n, r, peer);
            && HasIndex(n, a.prevLogIndex) && a.prevLogTerm == LogTerm(n, a.prevLogIndex)
            && a.prevLogIndex == n.nextIndex[peer] - 1 && a.prevLogIndex + |a.entries| == LastLogIndex(n)
  {
  }

  /**
    * In every run a request is accepted exactly when it is not of an earlier term, the follower still
    * has the index before its entries, and up to there its log agrees with what the sender's was.
    */
  lemma AcceptedIff(run: seq<Cluster>, events: seq<Event>, i: nat, j: nat, r: Round, peer: nat)
    requires IsRun(run, events) && i < j < |events| && events[i] == AppendSent(r, peer)
    requires r.node < |run[i].nodes| && WillAppend(run[i].nodes[r.node], peer) && AppendInRange(run[i].nodes[r.node], peer)
    requires events[j] == AppendReceived(AppendRequest(peer, MakeAppend(run[i].nodes[r.node], r, peer)))
    requires peer < |run[j].nodes| && |run[j].nodes[peer].log| > 0
    ensures var l, f, prev := run[i].nodes[r.node], run[j].nodes[peer], run[i].nodes[r.node].nextIndex[peer] - 1;
            AppendEntries(f, MakeAppend(l, r, peer)).1.success
            <==> r.term >= f.currentTerm && HasIndex(f, prev) && SameThrough(l, f, prev)
  {
    var l, f := run[i].nodes[r.node], run[j].nodes[peer];
    var a := MakeAppend(l, r, peer);
    IndicesOrdered(run, events, i, r.node);
    MakesFrom(l, r, peer);
    AcceptsIff(f, a);
    if HasIndex(f, a.prevLogIndex) {
      if LogTerm(f, a.prevLogIndex) == a.prevLogTerm {
        LogMatching(run, events, i, j, r.node, peer, a.prevLogIndex);
      } else {
        assert !SameAt(l, f, a.prevLogIndex);
      }
    }
  }

  // ----- the leader's books -----

  /** A new leader knows nothing of its peers, and asks each about the very end of its log. */
  lemma FirstHeartbeat(n: Node, from: nat, v: VoteReply, r: Round, peer: nat)
    requires |n.log| > 0 && n.role == Candidate && peer < n.peers && peer != n.me
    requires HandleVoteReply(n, n.currentTerm, from, v).role == Leader
    ensures var l := HandleVoteReply(n, n.currentTerm, from, v);
            && l.log == n.log && l.currentTerm == n.currentTerm
            && |l.matchIndex| == n.peers && l.matchIndex[peer] == 0
            && WillAppend(l, peer) && AppendInRange(l, peer)
            && MakeAppend(l, r, peer).prevLogIndex == LastLogIndex(n) && MakeAppend(l, r, peer).entries == []
  {
  }

  /** Every request reaches the end of the leader's log; once it is accepted the leader's books say so, and never less later. */
  lemma AckRecorded(n: Node, a: AppendArgs, from: nat, r: AppendReply)
    requires n.role == Leader && a.term == n.currentTerm >= r.term && r.success && a.prevLogIndex >= 0
    requires |n.matchIndex| == n.peers == |n.nextIndex| && from < n.peers
    ensures var n' := HandleAppendReply(n, a, from, r);
            var end := a.prevLogIndex + |a.entries|;
            && |n'.matchIndex| == |n'.nextIndex| == n.peers && n'.role == Leader
            && n'.matchIndex[from] == (if end > n.matchIndex[from] then end else n.matchIndex[from])
            && n'.nextIndex[from] == n'.matchIndex[from] + 1
            && forall p :: 0 <= p < n.peers && p != from ==>
                 n'.matchIndex[p] == n.matchIndex[p] && n'.nextIndex[p] == n.nextIndex[p]
  {
  }

  lemma RejectionRecorded(n: Node, a: AppendArgs, from: nat, r: AppendReply)
    requires n.role == Leader && a.term == n.currentTerm >= r.term && !r.success
    requires |n.matchIndex| == n.peers == |n.nextIndex| && from < n.peers
    ensures var n' := HandleAppendReply(n, a, from, r);
            && n'.matchIndex == n.matchIndex && n'.commitIndex == n.commitIndex && n'.role == Leader
            && |n'.nextIndex| == n.peers
            && forall p :: 0 <= p < n.peers && p != from ==> n'.nextIndex[p] == n.nextIndex[p]
  {
  }

  /** The nodes that hold index k as far as the leader knows, itself included. */
  function Holders(n: Node, k: int): set<nat>
    requires |n.matchIndex| == n.peers
  {
    set i <- Members(n.peers) | i == n.me || n.matchIndex[i] >= k
  }

  predicate MayCommit(n: Node, k: int)
    requires |n.matchIndex| == n.peers
  {
    HasIndex(n, k) && LogTerm(n, k) == n.currentTerm && 2 * |Holders(n, k)| > n.peers
  }

  /** After an acknowledgement the leader has committed exactly as far as a majority holds an entry of its own term. */
  lemma LeaderCommits(n: Node, a: AppendArgs, from: nat, r: AppendReply)
    requires n.role == Leader && a.term == n.currentTerm >= r.term && r.success && a.prevLogIndex >= 0
    requires |n.matchIndex| == n.peers == |n.nextIndex| && from < n.peers
    ensures var n' := HandleAppendReply(n, a, from, r);
            && |n'.matchIndex| == n'.peers && n'.log == n.log && n'.commitIndex >= n.commitIndex
            && (n'.commitIndex > n.commitIndex ==> MayCommit(n', n'.commitIndex))
            && forall k :: n'.commitIndex < k <= LastLogIndex(n') ==> !MayCommit(n', k)
  {
    var m := RecordMatch(n, from, a.prevLogIndex + |a.entries|);
    var n' := HandleAppendReply(n, a, from, r);
    assert n' == AdvanceCommit(m);
    forall k: nat ensures Replicas(m, k) == Holders(n', k) {}
    forall k | n'.commitIndex < k <= LastLogIndex(n') ensures !MayCommit(n', k) {
      assert !Committable(m, k);
    }
  }

  // ----- hints that are not about a term -----

  /** A request from before the follower's snapshot, or past its log, is followed by one at what the follower has. */
  lemma HintFitsFollower(l: Node, f: Node, a: AppendArgs)
    requires |l.log| > 0 && |f.log| > 0 && a.term >= f.currentTerm && !HasIndex(f, a.prevLogIndex) && LastLogIndex(f) >= 0
    ensures var r := AppendEntries(f, a).1;
            !r.success && BackUp(l, r) - 1 == (if a.prevLogIndex < f.lastIncludedIndex then f.lastIncludedIndex else LastLogIndex(f))
  {
  }

  /** A hint about a term: resume after the leader's last entry of that term, or where the follower's run of it begins. */
  lemma HintOfTerm(l: Node, r: AppendReply, j: int)
    requires |l.log| > 0 && r.conflictTerm >= 0
    requires j == -1 || (l.lastIncludedIndex < j <= LastLogIndex(l) && LogTerm(l, j) == r.conflictTerm)
    requires forall k :: l.lastIncludedIndex < k <= LastLogIndex(l) && k > j ==> LogTerm(l, k) != r.conflictTerm
    ensures BackUp(l, r) == if j >= 0 then j + 1 else if r.conflictIndex >= 1 then r.conflictIndex else 1
  {
    var f := LastOfTerm(l, r.conflictTerm, LastLogIndex(l));
    if f != -1 && j != -1 {
      assert f <= j && j <= f;
    }
  }

  // ----- a submitted command -----

  lemma StartAppends(n: Node, command: Command)
    requires Valid(n)
    ensures var (n', at) := Start(n, command);
            if n.role == Leader then
              at == Some((LastLogIndex(n) + 1, n.currentTerm)) && LastLogIndex(n') == LastLogIndex(n) + 1
              && EntryAt(n', LastLogIndex(n')) == LogEntry(n.currentTerm, Some(command)) && Persistent(n') == Load(n'.disk)
              && forall x :: HasIndex(n, x) ==> HasIndex(n', x) && EntryAt(n', x) == EntryAt(n, x)
            else n' == n && at == None
  {
  }

  /**
    * The index and term a leader answers to a submit name the command for good: any node that holds
    * this term at this index, at any later time, holds the command there.
    */
  lemma StartedIndex(run: seq<Cluster>, events: seq<Event>, i: nat, j: nat, a: nat, b: nat, command: Command)
    requires IsRun(run, events) && i < |events| && events[i] == Submitted(a, command) && i < j < |run|
    requires a < |run[i].nodes| && run[i].nodes[a].role == Leader && b < |run[j].nodes|
    ensures Start(run[i].nodes[a], command).1.Some?
    ensures var (index, term) := Start(run[i].nodes[a], command).1.value;
            HasIndex(run[j].nodes[b], index) && index > run[j].nodes[b].lastIncludedIndex && LogTerm(run[j].nodes[b], index) == term ==>
              EntryAt(run[j].nodes[b], index) == LogEntry(term, Some(command))
  {
    EventAt(run, events, i);
    var n, n' := run[i].nodes[a], run[i + 1].nodes[a];
    IndicesOrdered(run, events, i, a);
    var index := LastLogIndex(n) + 1;
    if HasIndex(run[j].nodes[b], index) && LogTerm(run[j].nodes[b], index) == n.currentTerm {
      LogMatching(run, events, i + 1, j, a, b, index);
      assert SameAt(n', run[j].nodes[b], index);
    }
  }
}
