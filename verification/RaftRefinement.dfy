/** Every event of the running cluster is a step of the protocol, or none. */
module RaftRefinement {
  import opened StoreTypes
  import opened RaftTypes
  import opened Quorum
  import opened RaftNode
  import opened RaftCluster
  import opened P = RaftProtocol
  import opened RaftInvariant

  // ----- what relates the code's state to the protocol's -----

  /** A compacted log is the tail of the node's full log; its first entry keeps only a term. */
  predicate LogCoupled(n: Node, full: Log) {
    && n.lastIncludedIndex < |full| && |n.log| == |full| - n.lastIncludedIndex
    && n.log[1..] == full[n.lastIncludedIndex + 1..]
    && n.log[0].term == n.lastIncludedTerm == full[n.lastIncludedIndex].term
  }

  /** Index k is at or below an entry chosen in term t or earlier. */
  predicate CoversAt(s: Protocol, t: nat, k: nat, u: nat, m: nat) {
    u <= t && k <= m && OwnEntry(s, u, m)
  }

  ghost predicate Covered(s: Protocol, t: nat, k: nat) {
    k == 0 || exists u, m :: CoversAt(s, t, k, u, m) && Chosen(s, u, m)
  }

  /** ... and the log agrees with that chosen entry's log through k. */
  ghost predicate CoveredLog(s: Protocol, t: nat, k: nat, l: Log) {
    k < |l| && (k == 0 || exists u, m ::
      CoversAt(s, t, k, u, m) && Chosen(s, u, m) && l[..k + 1] == s.leaders[u].log[..k + 1])
  }

  predicate CandidateCoupled(n: Node, s: Protocol, i: nat) {
    && i < |s.logs| && (n.currentTerm, i) in s.stands && s.stands[(n.currentTerm, i)] == s.logs[i]
    && (n.currentTerm in s.leaders ==> s.leaders[n.currentTerm].id != i)
    && forall v <- n.votes :: (v, n.currentTerm) in s.votes && s.votes[(v, n.currentTerm)] == i
  }

  predicate LeaderCoupled(n: Node, s: Protocol, i: nat) {
    && i < |s.logs| && n.currentTerm in s.leaders && |s.logs[i]| > 0
    && s.leaders[n.currentTerm].id == i && s.leaders[n.currentTerm].log == s.logs[i]
    && Acked(s, i, n.currentTerm, |s.logs[i]| - 1)
    && (forall p :: 0 <= p < |n.matchIndex| && p != i && n.matchIndex[p] > 0 ==>
          Acked(s, p, n.currentTerm, n.matchIndex[p]))
    && (forall p :: 0 <= p < |n.nextIndex| && p != i ==> 1 <= n.nextIndex[p] <= |s.logs[i]|)
  }

  ghost predicate NodeCoupled(n: Node, s: Protocol, i: nat) {
    && i < s.Size() == |s.logs| && n.me == i && n.peers == s.Size() && Valid(n)
    && n.currentTerm == s.terms[i]
    && LogCoupled(n, s.logs[i])
    && (forall t :: t == n.currentTerm && (i, t) in s.votes ==> n.votedFor == s.votes[(i, t)])
    && CoveredLog(s, n.currentTerm, n.commitIndex, s.logs[i])
    && (n.role == Candidate ==> CandidateCoupled(n, s, i))
    && (n.role == Leader ==> LeaderCoupled(n, s, i))
  }

  ghost predicate RoundCoupled(r: Round, s: Protocol) {
    r.node < s.Size() && r.term <= s.terms[r.node] && Covered(s, r.term, r.commitIndex)
  }

  /** The message is a piece of the log its sender had as leader of term u, not before the message's term. */
  ghost predicate AppendCoupled(a: AppendArgs, s: Protocol, u: nat) {
    && a.term <= u && u in s.leaders && s.leaders[u].id == a.leaderId
    && 0 <= a.prevLogIndex && a.prevLogIndex + |a.entries| < |s.leaders[u].log|
    && a.prevLogTerm == s.leaders[u].log[a.prevLogIndex].term
    && a.entries == s.leaders[u].log[a.prevLogIndex + 1..a.prevLogIndex + |a.entries| + 1]
    && a.leaderCommit <= a.prevLogIndex + |a.entries|
    && Covered(s, a.term, a.leaderCommit)
  }

  /** Success acknowledges what the message carried; a hint never points past the leader's log. */
  ghost predicate ReplyCoupled(from: nat, a: AppendArgs, r: AppendReply, s: Protocol, u: nat) {
    && AppendCoupled(a, s, u) && from < s.Size() && from != a.leaderId
    && (r.success ==> r.term == a.term)
    && (r.success && u == a.term ==> Acked(s, from, u, a.prevLogIndex + |a.entries|))
    && r.conflictIndex <= |s.leaders[u].log|
  }

  ghost predicate MessageCoupled(m: Message, s: Protocol) {
    match m
    case VoteRequest(_, a) =>
      (a.term, a.candidateId) in s.stands &&
      var l := s.stands[(a.term, a.candidateId)];
      |l| > 0 && a.lastLogIndex == |l| - 1 && a.lastLogTerm == LastTerm(l)
    case VoteResponse(from, a, r) =>
      from < s.Size() && (r.voteGranted ==> (from, a.term) in s.votes && s.votes[(from, a.term)] == a.candidateId)
    case AppendRequest(to, a) => to < s.Size() && to != a.leaderId && exists u :: AppendCoupled(a, s, u)
    case AppendResponse(from, a, r) => exists u :: ReplyCoupled(from, a, r, s, u)
  }

  /** A delivered command is the one at its index in the log of a chosen entry. */
  ghost predicate DeliveryCoupled(d: Delivery, s: Protocol) {
    d.msg.commandIndex > 0 && exists u, m ::
      d.msg.commandIndex <= m && OwnEntry(s, u, m) && Chosen(s, u, m)
        && s.leaders[u].log[d.msg.commandIndex].command == d.msg.command
  }

  // Triggers: what Coupled says of one node or message is used where a proof names it.
  ghost predicate Coupled(c: Cluster, s: Protocol) {
    && |c.nodes| == s.Size()
    && (forall i {:trigger NodeCoupled(c.nodes[i], s, i)} :: 0 <= i < |c.nodes| ==> NodeCoupled(c.nodes[i], s, i))
    && (forall r <- c.rounds {:trigger RoundCoupled(r, s)} :: RoundCoupled(r, s))
    && (forall m <- c.net {:trigger MessageCoupled(m, s)} :: MessageCoupled(m, s))
    && (forall d <- c.delivered {:trigger DeliveryCoupled(d, s)} :: DeliveryCoupled(d, s))
  }

  // ----- what history's growth leaves true -----

  lemma ChosenStays(s: Protocol, s': Protocol, t: nat, n: nat)
    requires Grows(s, s') && Chosen(s, t, n)
    ensures Chosen(s', t, n) && Through(s', t, n) == Through(s, t, n)
  {
    var q :| AckedByAll(s, q, t, n);
    assert AckedByAll(s', q, t, n);
  }

  lemma ChosenIsChoosable(s: Protocol, t: nat, n: nat)
    requires AcksOk(s) && Chosen(s, t, n)
    ensures Choosable(s, t, n)
  {
    var q :| AckedByAll(s, q, t, n);
    assert MayAckAll(s, q, t, n);
  }

  lemma CoveredStays(s: Protocol, s': Protocol, t: nat, t': nat, k: nat)
    requires Grows(s, s') && Covered(s, t, k) && t <= t'
    ensures Covered(s', t', k)
  {
    if k > 0 {
      var u, m :| CoversAt(s, t, k, u, m) && Chosen(s, u, m);
      ChosenStays(s, s', u, m);
      assert CoversAt(s', t', k, u, m);
    }
  }

  lemma CoveredLogStays(s: Protocol, s': Protocol, t: nat, t': nat, k: nat, l: Log, l': Log)
    requires Grows(s, s') && CoveredLog(s, t, k, l) && t <= t'
    requires k < |l'| && l'[..k + 1] == l[..k + 1]
    ensures CoveredLog(s', t', k, l')
  {
    if k > 0 {
      var u, m :| CoversAt(s, t, k, u, m) && Chosen(s, u, m) && l[..k + 1] == s.leaders[u].log[..k + 1];
      ChosenStays(s, s', u, m);
      assert CoversAt(s', t', k, u, m);
    }
  }

  lemma AppendStays(a: AppendArgs, s: Protocol, s': Protocol, u: nat)
    requires Grows(s, s') && AppendCoupled(a, s, u)
    ensures AppendCoupled(a, s', u)
  {
    CoveredStays(s, s', a.term, a.term, a.leaderCommit);
    assert s.leaders[u].log <= s'.leaders[u].log;
  }

  lemma MessageStays(m: Message, s: Protocol, s': Protocol)
    requires Grows(s, s') && MessageCoupled(m, s)
    ensures MessageCoupled(m, s')
  {
    match m
    case AppendRequest(_, a) =>
      var u :| AppendCoupled(a, s, u);
      AppendStays(a, s, s', u);
    case AppendResponse(from, a, r) =>
      var u :| ReplyCoupled(from, a, r, s, u);
      AppendStays(a, s, s', u);
      assert ReplyCoupled(from, a, r, s', u);
    case _ =>
  }

  lemma DeliveryStays(d: Delivery, s: Protocol, s': Protocol)
    requires Grows(s, s') && DeliveryCoupled(d, s)
    ensures DeliveryCoupled(d, s')
  {
    var u, m :| d.msg.commandIndex <= m && OwnEntry(s, u, m) && Chosen(s, u, m)
      && s.leaders[u].log[d.msg.commandIndex].command == d.msg.command;
    ChosenStays(s, s', u, m);
  }

  lemma NodeStays(n: Node, s: Protocol, s': Protocol, i: nat)
    requires NodeCoupled(n, s, i) && Grows(s, s') && Spares(s, s', i)
    ensures NodeCoupled(n, s', i)
  {
    CoveredLogStays(s, s', n.currentTerm, n.currentTerm, n.commitIndex, s.logs[i], s.logs[i]);
  }

  /** One node changes, history grows, messages and deliveries are added: the rest carries over. */
  lemma CoupledStays(c: Cluster, c': Cluster, s: Protocol, s': Protocol, i: nat)
    requires Coupled(c, s) && Grows(s, s') && OnlyTouches(s, s', i)
    requires |c'.nodes| == |c.nodes| && i < |c.nodes|
    requires forall j :: 0 <= j < |c.nodes| && j != i ==> c'.nodes[j] == c.nodes[j]
    requires NodeCoupled(c'.nodes[i], s', i)
    requires forall r <- c'.rounds :: r in c.rounds || RoundCoupled(r, s')
    requires forall m <- c'.net :: m in c.net || MessageCoupled(m, s')
    requires forall d <- c'.delivered :: d in c.delivered || DeliveryCoupled(d, s')
    ensures Coupled(c', s')
  {
    forall j | 0 <= j < |c'.nodes| ensures NodeCoupled(c'.nodes[j], s', j) {
      if j != i {
        assert NodeCoupled(c.nodes[j], s, j);
        NodeStays(c.nodes[j], s, s', j);
      }
    }
    forall r | r in c'.rounds ensures RoundCoupled(r, s') {
      if r in c.rounds {
        assert RoundCoupled(r, s);
        CoveredStays(s, s', r.term, r.term, r.commitIndex);
      }
    }
    forall m | m in c'.net ensures MessageCoupled(m, s') {
      if m in c.net {
        assert MessageCoupled(m, s);
        MessageStays(m, s, s');
      }
    }
    forall d | d in c'.delivered ensures DeliveryCoupled(d, s') {
      if d in c.delivered {
        assert DeliveryCoupled(d, s);
        DeliveryStays(d, s, s');
      }
    }
  }

  // ----- reading a compacted log -----

  lemma ReadLog(n: Node, full: Log, k: nat)
    requires LogCoupled(n, full)
    ensures |n.log| > 0 && LastLogIndex(n) == |full| - 1
    ensures HasIndex(n, k) <==> n.lastIncludedIndex <= k < |full|
    ensures HasIndex(n, k) ==> LogTerm(n, k) == full[k].term
    ensures HasIndex(n, k) && k > n.lastIncludedIndex ==> EntryAt(n, k) == full[k]
  {
    if n.lastIncludedIndex < k < |full| {
      assert n.log[1..][k - n.lastIncludedIndex - 1] == full[n.lastIncludedIndex + 1..][k - n.lastIncludedIndex - 1];
    }
  }

  // ----- elections -----

  /** Raising the term and growing history leaves what is committed committed. */
  lemma CommitStays(n: Node, s: Protocol, s': Protocol, i: nat, t: nat)
    requires NodeCoupled(n, s, i) && Grows(s, s') && n.currentTerm <= t && s'.logs[i] == s.logs[i]
    ensures CoveredLog(s', t, n.commitIndex, s'.logs[i])
  {
    CoveredLogStays(s, s', n.currentTerm, t, n.commitIndex, s.logs[i], s'.logs[i]);
  }

  lemma StandCoupled(n: Node, s: Protocol, i: nat)
    requires NodeCoupled(n, s, i) && StandsOk(s) && VotesOk(s) && LeadersOk(s)
    requires CoveredLog(Stand(s, i), n.currentTerm + 1, n.commitIndex, s.logs[i])
    ensures NodeCoupled(StartElection(n).0, Stand(s, i), i)
  {
    var (n', s') := (StartElection(n).0, Stand(s, i));
    assert Valid(n');
    assert CandidateCoupled(n', s', i);
  }

  lemma StandRequest(n: Node, s: Protocol, i: nat, p: nat)
    requires NodeCoupled(n, s, i)
    ensures MessageCoupled(VoteRequest(p, StartElection(n).1), Stand(s, i))
  {
    ReadLog(n, s.logs[i], |s.logs[i]| - 1);
  }

  lemma TimeoutCoupled(c: Cluster, s: Protocol, s': Protocol, i: nat)
    requires Coupled(c, s) && Enabled(c, Timeout(i)) && NoPanic(c, Timeout(i))
    requires Grows(s, s') && OnlyTouches(s, s', i)
    requires NodeCoupled(StartElection(c.nodes[i]).0, s', i)
    requires forall p :: MessageCoupled(VoteRequest(p, StartElection(c.nodes[i]).1), s')
    ensures Coupled(Next(c, Timeout(i)), s')
  {
    CoupledStays(c, Next(c, Timeout(i)), s, s', i);
  }

  lemma TimeoutRefines(c: Cluster, s: Protocol, i: nat) returns (mv: Move)
    requires Inv(s) && Coupled(c, s) && Enabled(c, Timeout(i))
    ensures NoPanic(c, Timeout(i))
    ensures Can(s, mv) && Grows(s, Do(s, mv)) && Coupled(Next(c, Timeout(i)), Do(s, mv))
  {
    assert NodeCoupled(c.nodes[i], s, i);
    mv := Stands(i);
    MoveGrows(s, mv, i);
    CommitStays(c.nodes[i], s, Stand(s, i), i, s.terms[i] + 1);
    StandCoupled(c.nodes[i], s, i);
    forall p: nat { StandRequest(c.nodes[i], s, i, p); }
    TimeoutCoupled(c, s, Do(s, mv), i);
  }

  lemma VoterReads(n: Node, full: Log, l: Log, args: VoteArgs)
    requires LogCoupled(n, full) && RequestVote(n, args).1.voteGranted
    requires |l| > 0 && args.lastLogIndex == |l| - 1 && args.lastLogTerm == LastTerm(l)
    ensures UpToDate(l, full)
  {
    ReadLog(n, full, |full| - 1);
  }

  lemma MayVote(n: Node, s: Protocol, i: nat, args: VoteArgs)
    requires NodeCoupled(n, s, i) && VotesOk(s) && MessageCoupled(VoteRequest(i, args), s)
    requires RequestVote(n, args).1.voteGranted
    ensures CanVote(s, i, args.term, args.candidateId)
  {
    VoterReads(n, s.logs[i], s.stands[(args.term, args.candidateId)], args);
    if (i, args.term) in s.votes {
      assert args.term <= s.terms[i];
      assert n.votedFor == s.votes[(i, args.term)];
    }
  }

  lemma VoterAfter(n: Node, args: VoteArgs)
    requires Valid(n) && RequestVote(n, args).1.voteGranted
    ensures Valid(RequestVote(n, args).0)
    ensures var n' := RequestVote(n, args).0;
            n' == n.(currentTerm := args.term, votedFor := args.candidateId, disk := n'.disk,
                     role := if args.term > n.currentTerm then Follower else n.role)
    ensures n.currentTerm <= args.term
  {
  }

  lemma VoteCoupled(n: Node, s: Protocol, i: nat, args: VoteArgs)
    requires NodeCoupled(n, s, i) && CanVote(s, i, args.term, args.candidateId)
    requires RequestVote(n, args).1.voteGranted
    requires CoveredLog(Vote(s, i, args.term, args.candidateId), args.term, n.commitIndex, s.logs[i])
    ensures NodeCoupled(RequestVote(n, args).0, Vote(s, i, args.term, args.candidateId), i)
  {
    VoterAfter(n, args);
  }

  /** A node may become a follower, in a later term whatever its votedFor says by then. */
  predicate MovesOn(n: Node, n': Node) {
    && n'.role == Follower
    && (n'.currentTerm > n.currentTerm || (n'.currentTerm == n.currentTerm && n'.votedFor == n.votedFor))
    && n'.(disk := n.disk, role := n.role, currentTerm := n.currentTerm, votedFor := n.votedFor,
           nextIndex := n.nextIndex) == n
  }

  lemma LearnCoupled(n: Node, n': Node, s: Protocol, i: nat)
    requires NodeCoupled(n, s, i) && VotesOk(s) && Valid(n')
    requires n' == n || MovesOn(n, n')
    requires CoveredLog(Learn(s, i, n'.currentTerm), n'.currentTerm, n.commitIndex, s.logs[i])
    ensures NodeCoupled(n', Learn(s, i, n'.currentTerm), i)
  {
  }

  lemma Learned(n: Node, n': Node, s: Protocol, i: nat) returns (mv: Move)
    requires Inv(s) && NodeCoupled(n, s, i) && Valid(n')
    requires n' == n || MovesOn(n, n')
    ensures Can(s, mv) && Grows(s, Do(s, mv)) && OnlyTouches(s, Do(s, mv), i)
    ensures NodeCoupled(n', Do(s, mv), i)
  {
    mv := Learns(i, n'.currentTerm);
    MoveGrows(s, mv, i);
    CommitStays(n, s, Do(s, mv), i, n'.currentTerm);
    LearnCoupled(n, n', s, i);
  }

  lemma Voted(n: Node, s: Protocol, i: nat, args: VoteArgs) returns (mv: Move)
    requires Inv(s) && NodeCoupled(n, s, i) && MessageCoupled(VoteRequest(i, args), s)
    requires RequestVote(n, args).1.voteGranted
    ensures Can(s, mv) && Grows(s, Do(s, mv)) && OnlyTouches(s, Do(s, mv), i)
    ensures NodeCoupled(RequestVote(n, args).0, Do(s, mv), i)
    ensures (i, args.term) in Do(s, mv).votes && Do(s, mv).votes[(i, args.term)] == args.candidateId
  {
    MayVote(n, s, i, args);
    mv := Votes(i, args.term, args.candidateId);
    MoveGrows(s, mv, i);
    CommitStays(n, s, Do(s, mv), i, args.term);
    VoteCoupled(n, s, i, args);
  }

  /** A rejected vote request raises the term or changes nothing. */
  lemma VoteRefused(n: Node, args: VoteArgs)
    requires Valid(n) && !RequestVote(n, args).1.voteGranted
    ensures Valid(RequestVote(n, args).0)
    ensures RequestVote(n, args).0 == n || MovesOn(n, RequestVote(n, args).0)
  {
  }

  lemma VoteAskedCoupled(c: Cluster, s: Protocol, s': Protocol, m: Message)
    requires Coupled(c, s) && Enabled(c, VoteAsked(m)) && NoPanic(c, VoteAsked(m))
    requires Grows(s, s') && OnlyTouches(s, s', m.to)
    requires NodeCoupled(RequestVote(c.nodes[m.to], m.vargs).0, s', m.to)
    requires MessageCoupled(VoteResponse(m.to, m.vargs, RequestVote(c.nodes[m.to], m.vargs).1), s')
    ensures Coupled(Next(c, VoteAsked(m)), s')
  {
    CoupledStays(c, Next(c, VoteAsked(m)), s, s', m.to);
  }

  lemma VoteAskedRefines(c: Cluster, s: Protocol, m: Message) returns (mv: Move)
    requires Inv(s) && Coupled(c, s) && Enabled(c, VoteAsked(m))
    ensures NoPanic(c, VoteAsked(m))
    ensures Can(s, mv) && Grows(s, Do(s, mv)) && Coupled(Next(c, VoteAsked(m)), Do(s, mv))
  {
    var n := c.nodes[m.to];
    assert NodeCoupled(n, s, m.to) && MessageCoupled(m, s);
    var (n', reply) := RequestVote(n, m.vargs);
    if reply.voteGranted {
      mv := Voted(n, s, m.to, m.vargs);
    } else {
      VoteRefused(n, m.vargs);
      mv := Learned(n, n', s, m.to);
    }
    VoteAskedCoupled(c, s, Do(s, mv), m);
  }

  lemma MayElect(n: Node, s: Protocol, i: nat)
    requires NodeCoupled(n, s, i) && LeadersOk(s) && n.role == Candidate && Majority(|n.votes|, n.peers)
    ensures CanElect(s, i, n.votes)
  {
    if n.currentTerm in s.leaders {
      var v := QuorumsMeet(n.votes, s.leaders[n.currentTerm].voters, s.Size());
    }
  }

  lemma ElectCoupled(n: Node, s: Protocol, i: nat)
    requires NodeCoupled(n, s, i) && n.role == Candidate && CanElect(s, i, n.votes)
    requires CoveredLog(Elect(s, i, n.votes), n.currentTerm, n.commitIndex, s.logs[i])
    ensures NodeCoupled(BecomeLeader(n), Elect(s, i, n.votes), i)
  {
    ReadLog(n, s.logs[i], |s.logs[i]| - 1);
    assert LeaderCoupled(BecomeLeader(n), Elect(s, i, n.votes), i);
  }

  lemma Elected(n: Node, s: Protocol, i: nat) returns (mv: Move)
    requires Inv(s) && NodeCoupled(n, s, i) && n.role == Candidate && Majority(|n.votes|, n.peers)
    ensures Can(s, mv) && Grows(s, Do(s, mv)) && OnlyTouches(s, Do(s, mv), i)
    ensures NodeCoupled(BecomeLeader(n), Do(s, mv), i)
  {
    MayElect(n, s, i);
    mv := Elects(i, n.votes);
    MoveGrows(s, mv, i);
    CommitStays(n, s, Do(s, mv), i, n.currentTerm);
    ElectCoupled(n, s, i);
  }

  /** Counting one more vote changes nothing else. */
  lemma Counted(n: Node, s: Protocol, i: nat, v: nat)
    requires NodeCoupled(n, s, i) && n.role == Candidate
    requires v < s.Size() && (v, n.currentTerm) in s.votes && s.votes[(v, n.currentTerm)] == i
    ensures NodeCoupled(n.(votes := n.votes + {v}), s, i)
  {
  }

  /** A vote reply that does not count leaves the node alone or makes it step down. */
  lemma NotCounted(n: Node, term: nat, from: nat, r: VoteReply)
    requires Valid(n) && !(n.currentTerm == term && n.role == Candidate && r.term <= n.currentTerm && r.voteGranted)
    ensures var n' := HandleVoteReply(n, term, from, r); Valid(n') && (n' == n || MovesOn(n, n'))
  {
  }

  /** A candidate that has just counted a vote. */
  function Tally(n: Node): Node {
    if Majority(|n.votes|, n.peers) then BecomeLeader(n) else n
  }

  lemma Tallied(n: Node, s: Protocol, i: nat) returns (mv: Move)
    requires Inv(s) && NodeCoupled(n, s, i) && n.role == Candidate
    ensures Can(s, mv) && Grows(s, Do(s, mv)) && OnlyTouches(s, Do(s, mv), i)
    ensures NodeCoupled(Tally(n), Do(s, mv), i)
  {
    if Majority(|n.votes|, n.peers) {
      mv := Elected(n, s, i);
    } else {
      mv := Idle;
      GrowsRefl(s);
    }
  }

  /** A vote reply that counts. */
  lemma VoteTallied(n: Node, from: nat, r: VoteReply)
    requires n.role == Candidate && r.term <= n.currentTerm && r.voteGranted
    ensures HandleVoteReply(n, n.currentTerm, from, r) == Tally(n.(votes := n.votes + {from}))
  {
  }

  lemma VoteReplied(n: Node, s: Protocol, i: nat, from: nat, args: VoteArgs, r: VoteReply) returns (mv: Move)
    requires Inv(s) && NodeCoupled(n, s, i) && args.candidateId == i && MessageCoupled(VoteResponse(from, args, r), s)
    ensures Can(s, mv) && Grows(s, Do(s, mv)) && OnlyTouches(s, Do(s, mv), i)
    ensures NodeCoupled(HandleVoteReply(n, args.term, from, r), Do(s, mv), i)
  {
    if n.currentTerm == args.term && n.role == Candidate && r.term <= n.currentTerm && r.voteGranted {
      Counted(n, s, i, from);
      mv := Tallied(n.(votes := n.votes + {from}), s, i);
      VoteTallied(n, from, r);
    } else {
      NotCounted(n, args.term, from, r);
      mv := Learned(n, HandleVoteReply(n, args.term, from, r), s, i);
    }
  }

  lemma GrowsRefl(s: Protocol)
    requires Shape(s)
    ensures Grows(s, s) && forall i :: OnlyTouches(s, s, i)
  {
  }

  lemma VoteAnsweredCoupled(c: Cluster, s: Protocol, s': Protocol, m: Message)
    requires Coupled(c, s) && Enabled(c, VoteAnswered(m)) && NoPanic(c, VoteAnswered(m))
    requires Grows(s, s') && OnlyTouches(s, s', m.vargs.candidateId)
    requires NodeCoupled(HandleVoteReply(c.nodes[m.vargs.candidateId], m.vargs.term, m.from, m.vreply), s', m.vargs.candidateId)
    ensures Coupled(Next(c, VoteAnswered(m)), s')
  {
    CoupledStays(c, Next(c, VoteAnswered(m)), s, s', m.vargs.candidateId);
  }

  lemma VoteAnsweredRefines(c: Cluster, s: Protocol, m: Message) returns (mv: Move)
    requires Inv(s) && Coupled(c, s) && Enabled(c, VoteAnswered(m))
    ensures NoPanic(c, VoteAnswered(m))
    ensures Can(s, mv) && Grows(s, Do(s, mv)) && Coupled(Next(c, VoteAnswered(m)), Do(s, mv))
  {
    var i := m.vargs.candidateId;
    assert NodeCoupled(c.nodes[i], s, i) && MessageCoupled(m, s);
    mv := VoteReplied(c.nodes[i], s, i, m.from, m.vargs, m.vreply);
    VoteAnsweredCoupled(c, s, Do(s, mv), m);
  }

  // ----- what is covered is in every later leader's log -----

  lemma ChosenInLeader(s: Protocol, t: nat, u: nat, m: nat)
    requires AcksOk(s) && LeadersComplete(s) && Chosen(s, t, m) && t <= u && u in s.leaders
    ensures Through(s, t, m) <= s.leaders[u].log
  {
    ChosenIsChoosable(s, t, m);
  }

  lemma CoveredInLeader(s: Protocol, t: nat, k: nat, u: nat)
    requires u in s.leaders && Genuine(s, s.leaders[u].log) && AcksOk(s) && LeadersComplete(s)
    requires Covered(s, t, k) && t <= u
    ensures CoveredLog(s, t, k, s.leaders[u].log)
  {
    if k > 0 {
      var x, m :| CoversAt(s, t, k, x, m) && Chosen(s, x, m);
      ChosenInLeader(s, x, u, m);
      assert s.leaders[x].log[..k + 1] == Through(s, x, m)[..k + 1] == s.leaders[u].log[..k + 1];
    }
  }

  /** Two logs agree as far as both are covered: the core of State Machine Safety. */
  lemma CoveredAgree(s: Protocol, t: nat, t': nat, k: nat, l: Log, l': Log)
    requires AcksOk(s) && LeadersComplete(s) && 0 < k
    requires CoveredLog(s, t, k, l) && CoveredLog(s, t', k, l')
    ensures l[..k + 1] == l'[..k + 1]
  {
    var u, m :| CoversAt(s, t, k, u, m) && Chosen(s, u, m) && l[..k + 1] == s.leaders[u].log[..k + 1];
    var u', m' :| CoversAt(s, t', k, u', m') && Chosen(s, u', m') && l'[..k + 1] == s.leaders[u'].log[..k + 1];
    if u <= u' {
      ChosenInLeader(s, u, u', m);
      assert l[..k + 1] == Through(s, u, m)[..k + 1];
    } else {
      ChosenInLeader(s, u', u, m');
      assert l'[..k + 1] == Through(s, u', m')[..k + 1];
    }
  }

  lemma CoveredLogLower(s: Protocol, t: nat, k: nat, l: Log, j: nat)
    requires CoveredLog(s, t, k, l) && j <= k
    ensures CoveredLog(s, t, j, l)
  {
    if j > 0 {
      var u, m :| CoversAt(s, t, k, u, m) && Chosen(s, u, m) && l[..k + 1] == s.leaders[u].log[..k + 1];
      assert CoversAt(s, t, j, u, m);
      assert l[..j + 1] == l[..k + 1][..j + 1] == s.leaders[u].log[..j + 1];
    }
  }

  // ----- replication: the leader's side -----

  lemma StartCovered(n: Node, s: Protocol, i: nat, command: Command)
    requires NodeCoupled(n, s, i) && CanAppend(s, i) && Grows(s, Append(s, i, Some(command)))
    ensures CoveredLog(Append(s, i, Some(command)), n.currentTerm, n.commitIndex, Append(s, i, Some(command)).logs[i])
  {
    var s' := Append(s, i, Some(command));
    assert s'.logs[i][..n.commitIndex + 1] == s.logs[i][..n.commitIndex + 1];
    CoveredLogStays(s, s', n.currentTerm, n.currentTerm, n.commitIndex, s.logs[i], s'.logs[i]);
  }

  lemma StartCoupled(n: Node, s: Protocol, i: nat, command: Command)
    requires NodeCoupled(n, s, i) && n.role == Leader
    requires CanAppend(s, i)
    requires forall p :: p in s.acks ==> p in Append(s, i, Some(command)).acks && Append(s, i, Some(command)).acks[p] >= s.acks[p]
    requires CoveredLog(Append(s, i, Some(command)), n.currentTerm, n.commitIndex, Append(s, i, Some(command)).logs[i])
    ensures NodeCoupled(Start(n, command).0, Append(s, i, Some(command)), i)
  {
    var n', s' := Start(n, command).0, Append(s, i, Some(command));
    assert n'.log[1..] == n.log[1..] + [LogEntry(n.currentTerm, Some(command))];
    assert LogCoupled(n', s'.logs[i]);
    assert LeaderCoupled(n', s', i);
  }

  lemma Started(n: Node, s: Protocol, i: nat, command: Command) returns (mv: Move)
    requires Inv(s) && NodeCoupled(n, s, i) && n.role == Leader
    ensures Can(s, mv) && Grows(s, Do(s, mv)) && OnlyTouches(s, Do(s, mv), i)
    ensures NodeCoupled(Start(n, command).0, Do(s, mv), i)
  {
    mv := Appends(i, Some(command));
    MoveGrows(s, mv, i);
    StartCovered(n, s, i, command);
    StartCoupled(n, s, i, command);
  }

  lemma SubmittedRefines(c: Cluster, s: Protocol, i: nat, command: Command) returns (mv: Move)
    requires Inv(s) && Coupled(c, s) && Enabled(c, Submitted(i, command))
    ensures NoPanic(c, Submitted(i, command))
    ensures Can(s, mv) && Grows(s, Do(s, mv)) && Coupled(Next(c, Submitted(i, command)), Do(s, mv))
  {
    assert NodeCoupled(c.nodes[i], s, i);
    if c.nodes[i].role == Leader {
      mv := Started(c.nodes[i], s, i, command);
    } else {
      mv := Idle;
      GrowsRefl(s);
    }
    CoupledStays(c, Next(c, Submitted(i, command)), s, Do(s, mv), i);
  }

  lemma RoundBegunCoupled(n: Node, s: Protocol, i: nat)
    requires NodeCoupled(n, s, i)
    ensures RoundCoupled(BeginRound(n), s)
  {
    if n.commitIndex > 0 {
      var u, m :| CoversAt(s, n.currentTerm, n.commitIndex, u, m) && Chosen(s, u, m)
        && s.logs[i][..n.commitIndex + 1] == s.leaders[u].log[..n.commitIndex + 1];
    }
  }

  lemma RoundBegunRefines(c: Cluster, s: Protocol, i: nat)
    requires Coupled(c, s) && Enabled(c, RoundBegun(i))
    ensures NoPanic(c, RoundBegun(i)) && Coupled(Next(c, RoundBegun(i)), s)
  {
    assert NodeCoupled(c.nodes[i], s, i);
    RoundBegunCoupled(c.nodes[i], s, i);
  }

  lemma ReadTail(n: Node, full: Log, k: nat)
    requires LogCoupled(n, full) && n.lastIncludedIndex < k <= |full|
    ensures n.log[k - n.lastIncludedIndex..] == full[k..] == full[k..|full|]
  {
    assert n.log[k - n.lastIncludedIndex..] == n.log[1..][k - n.lastIncludedIndex - 1..];
    assert full[k..] == full[n.lastIncludedIndex + 1..][k - n.lastIncludedIndex - 1..];
  }

  lemma MadePiece(n: Node, full: Log, r: Round, peer: nat)
    requires LogCoupled(n, full) && WillAppend(n, peer) && n.nextIndex[peer] <= |full|
    ensures AppendInRange(n, peer)
    ensures var a := MakeAppend(n, r, peer);
            && a.term == r.term && a.leaderId == n.me && a.leaderCommit == r.commitIndex
            && 0 <= a.prevLogIndex < |full| && a.prevLogTerm == full[a.prevLogIndex].term
            && a.entries == full[a.prevLogIndex + 1..|full|] && a.prevLogIndex + |a.entries| + 1 == |full|
  {
    ReadLog(n, full, n.nextIndex[peer] - 1);
    ReadTail(n, full, n.nextIndex[peer]);
  }

  lemma RoundWithin(n: Node, s: Protocol, r: Round)
    requires LogsGenuine(s) && AcksOk(s) && LeadersComplete(s)
    requires NodeCoupled(n, s, r.node) && n.role == Leader && RoundCoupled(r, s)
    ensures r.commitIndex < |s.logs[r.node]|
  {
    CoveredInLeader(s, r.term, r.commitIndex, n.currentTerm);
  }

  /** The message of a round, however old the round is. */
  lemma MadeAppend(n: Node, s: Protocol, r: Round, peer: nat)
    requires NodeCoupled(n, s, r.node) && RoundCoupled(r, s) && WillAppend(n, peer)
    requires r.commitIndex < |s.logs[r.node]|
    ensures AppendInRange(n, peer) && AppendCoupled(MakeAppend(n, r, peer), s, n.currentTerm)
  {
    MadePiece(n, s.logs[r.node], r, peer);
  }

  lemma AppendSentCoupled(c: Cluster, s: Protocol, r: Round, peer: nat)
    requires Coupled(c, s) && Enabled(c, AppendSent(r, peer)) && NoPanic(c, AppendSent(r, peer))
    requires MessageCoupled(AppendRequest(peer, MakeAppend(c.nodes[r.node], r, peer)), s)
    ensures Coupled(Next(c, AppendSent(r, peer)), s)
  {
  }

  lemma AppendSentRefines(c: Cluster, s: Protocol, r: Round, peer: nat)
    requires Inv(s) && Coupled(c, s) && Enabled(c, AppendSent(r, peer))
    ensures NoPanic(c, AppendSent(r, peer)) && Coupled(Next(c, AppendSent(r, peer)), s)
  {
    var n := c.nodes[r.node];
    assert NodeCoupled(n, s, r.node) && RoundCoupled(r, s);
    RoundWithin(n, s, r);
    MadeAppend(n, s, r, peer);
    assert MessageCoupled(AppendRequest(peer, MakeAppend(n, r, peer)), s);
    AppendSentCoupled(c, s, r, peer);
  }

  // ----- replication: the follower's side -----

  /** Splicing a compacted log is splicing the full one. */
  lemma {:induction false} SpliceTail(l: Log, full: Log, b: nat, at: nat, es: Log)
    requires b < at <= |full| && |l| == |full| - b && l[1..] == full[b + 1..]
    ensures var x, y := Splice(l, at - b, es), Splice(full, at, es);
            |y| > b && |x| == |y| - b && x[1..] == y[b + 1..] && x[0] == l[0] && y[b] == full[b]
    decreases |es|
  {
    if es == [] {
    } else {
      if at < |full| {
        assert l[1..][at - b - 1] == full[b + 1..][at - b - 1];
      }
      if at < |full| && full[at].term == es[0].term {
        SpliceTail(l, full, b, at + 1, es[1..]);
      } else {
        assert (l[..at - b] + es)[1..] == l[1..][..at - b - 1] + es;
        assert (full[..at] + es)[b + 1..] == full[b + 1..][..at - b - 1] + es;
      }
    }
  }

  lemma MayAccept(n: Node, s: Protocol, i: nat, a: AppendArgs, u: nat)
    requires NodeCoupled(n, s, i) && AppendCoupled(a, s, u)
    requires AppendEntries(n, a).1.success
    ensures Can(s, AcceptMove(i, a, u))
    ensures HasIndex(n, a.prevLogIndex)
  {
    ReadLog(n, s.logs[i], a.prevLogIndex);
  }

  lemma CoveredLogCovers(s: Protocol, t: nat, k: nat, l: Log)
    requires CoveredLog(s, t, k, l)
    ensures Covered(s, t, k)
  {
  }

  /** Merging a later leader's log keeps everything a log has covered: it is never cut there. */
  lemma MergeKeepsCovered(s: Protocol, l: Log, t: nat, k: nat, u: nat, prev: nat, last: nat)
    requires u in s.leaders && Genuine(s, s.leaders[u].log) && AcksOk(s) && LeadersComplete(s)
    requires Genuine(s, l) && CoveredLog(s, t, k, l) && t <= u
    requires prev <= last < |s.leaders[u].log| && prev < |l| && l[prev].term == s.leaders[u].log[prev].term
    ensures l[..k + 1] <= Merge(l, s.leaders[u].log, prev, last)
  {
    var src := s.leaders[u].log;
    assert Genuine(s, src);
    CoveredLogCovers(s, t, k, l);
    CoveredInLeader(s, t, k, u);
    if k == 0 {
      assert l[..1] == [SENTINEL] == src[..1];
    } else {
      CoveredAgree(s, t, t, k, l, src);
    }
    assert src[..k + 1] <= src;
    MergeKeepsCommon(s, l, src, prev, last, l[..k + 1]);
  }

  lemma MergeStaysCovered(s: Protocol, s': Protocol, l: Log, t: nat, t': nat, k: nat, u: nat, prev: nat, last: nat)
    requires u in s.leaders && Genuine(s, s.leaders[u].log) && AcksOk(s) && LeadersComplete(s) && Grows(s, s')
    requires Genuine(s, l) && CoveredLog(s, t, k, l) && t <= t' <= u
    requires prev <= last < |s.leaders[u].log| && prev < |l| && l[prev].term == s.leaders[u].log[prev].term
    ensures CoveredLog(s', t', k, Merge(l, s.leaders[u].log, prev, last))
  {
    MergeKeepsCovered(s, l, t, k, u, prev, last);
    CoveredLogStays(s, s', t, t', k, l, Merge(l, s.leaders[u].log, prev, last));
  }

  /** ... and what the message claims committed is covered in the result. */
  lemma MergeNewlyCovered(s: Protocol, s': Protocol, l: Log, t: nat, k: nat, u: nat, prev: nat, last: nat)
    requires u in s.leaders && Genuine(s, s.leaders[u].log) && AcksOk(s) && LeadersComplete(s) && Grows(s, s')
    requires Genuine(s, l) && Covered(s, t, k) && t <= u
    requires prev <= last < |s.leaders[u].log| && prev < |l| && l[prev].term == s.leaders[u].log[prev].term
    requires k <= last
    ensures CoveredLog(s', t, k, Merge(l, s.leaders[u].log, prev, last))
  {
    var src := s.leaders[u].log;
    assert Genuine(s, src);
    MergeResult(s, l, src, prev, last);
    CoveredInLeader(s, t, k, u);
    assert src[..last + 1][..k + 1] == src[..k + 1];
    CoveredLogStays(s, s', t, t, k, src, Merge(l, src, prev, last));
  }

  /** Every message carries at least as much log as it claims committed, so the clamp is idle. */
  lemma CommitNotClamped(n: Node, a: AppendArgs)
    requires a.leaderCommit <= a.prevLogIndex + |a.entries|
    ensures NewCommit(n, a) == if a.leaderCommit > n.commitIndex then a.leaderCommit else n.commitIndex
    ensures NewCommit(n, a) >= n.commitIndex
  {
  }

  /** The protocol's step for a follower that accepts message a from the leader of term u. */
  function AcceptMove(i: nat, a: AppendArgs, u: nat): Move
    requires a.prevLogIndex >= 0
  {
    Accepts(i, a.term, u, a.prevLogIndex, a.prevLogIndex + |a.entries|)
  }

  /** Whichever is greater, what was covered or what the message claims, is covered in the result. */
  lemma MergeCovered(s: Protocol, s': Protocol, l: Log, t: nat, t': nat, k: nat, k': nat, top: nat,
                     u: nat, prev: nat, last: nat)
    requires u in s.leaders && Genuine(s, s.leaders[u].log) && AcksOk(s) && LeadersComplete(s) && Grows(s, s')
    requires Genuine(s, l) && CoveredLog(s, t, k, l) && Covered(s, t', k') && t <= t' <= u
    requires prev <= last < |s.leaders[u].log| && prev < |l| && l[prev].term == s.leaders[u].log[prev].term
    requires k' <= last && top == if k' > k then k' else k
    ensures CoveredLog(s', t', top, Merge(l, s.leaders[u].log, prev, last))
  {
    if k' > k {
      MergeNewlyCovered(s, s', l, t', k', u, prev, last);
    } else {
      MergeStaysCovered(s, s', l, t, t', k, u, prev, last);
    }
  }

  /** Log l becomes l' by taking the message's piece of log src. */
  predicate MergedAs(l: Log, src: Log, a: AppendArgs, l': Log) {
    && 0 <= a.prevLogIndex < |l| && a.prevLogIndex + |a.entries| < |src|
    && l[a.prevLogIndex].term == src[a.prevLogIndex].term
    && l' == Merge(l, src, a.prevLogIndex, a.prevLogIndex + |a.entries|)
  }

  lemma AcceptMerges(s: Protocol, i: nat, a: AppendArgs, u: nat)
    requires a.prevLogIndex >= 0 && Can(s, AcceptMove(i, a, u))
    ensures i < |s.logs| && s.terms[i] <= a.term <= u && u in s.leaders
    ensures i < |Do(s, AcceptMove(i, a, u)).logs|
    ensures MergedAs(s.logs[i], s.leaders[u].log, a, Do(s, AcceptMove(i, a, u)).logs[i])
  {
  }

  lemma AcceptTail(n: Node, full: Log, src: Log, a: AppendArgs, last: nat)
    requires LogCoupled(n, full) && AppendEntries(n, a).1.success
    requires 0 <= a.prevLogIndex <= last < |src| && a.prevLogIndex < |full|
    requires a.entries == src[a.prevLogIndex + 1..last + 1]
    ensures LogCoupled(AppendEntries(n, a).0, Merge(full, src, a.prevLogIndex, last))
  {
    SpliceTail(n.log, full, n.lastIncludedIndex, a.prevLogIndex + 1, a.entries);
  }

  lemma AcceptLog(n: Node, s: Protocol, i: nat, a: AppendArgs, u: nat)
    requires i < |s.logs| && LogCoupled(n, s.logs[i]) && AppendCoupled(a, s, u) && AppendEntries(n, a).1.success
    requires Can(s, AcceptMove(i, a, u))
    ensures LogCoupled(AppendEntries(n, a).0, Do(s, AcceptMove(i, a, u)).logs[i])
  {
    AcceptMerges(s, i, a, u);
    AcceptTail(n, s.logs[i], s.leaders[u].log, a, a.prevLogIndex + |a.entries|);
  }

  lemma AcceptCoupled(n: Node, s: Protocol, i: nat, a: AppendArgs, u: nat)
    requires NodeCoupled(n, s, i) && VotesOk(s) && AppendCoupled(a, s, u) && AppendEntries(n, a).1.success
    requires Can(s, AcceptMove(i, a, u))
    requires NewCommit(n, a) >= 0
    requires CoveredLog(Do(s, AcceptMove(i, a, u)), a.term, NewCommit(n, a), Do(s, AcceptMove(i, a, u)).logs[i])
    ensures NodeCoupled(AppendEntries(n, a).0, Do(s, AcceptMove(i, a, u)), i)
  {
    AcceptLog(n, s, i, a, u);
    CommitNotClamped(n, a);
    ReadLog(AppendEntries(n, a).0, Do(s, AcceptMove(i, a, u)).logs[i], 0);
  }

  lemma AcceptReply(n: Node, s: Protocol, i: nat, a: AppendArgs, u: nat)
    requires a.prevLogIndex >= 0 && Can(s, AcceptMove(i, a, u))
    requires AppendCoupled(a, Do(s, AcceptMove(i, a, u)), u)
    requires |n.log| > 0 && AppendEntries(n, a).1.success && i != a.leaderId
    ensures MessageCoupled(AppendResponse(i, a, AppendEntries(n, a).1), Do(s, AcceptMove(i, a, u)))
  {
    assert ReplyCoupled(i, a, AppendEntries(n, a).1, Do(s, AcceptMove(i, a, u)), u);
  }

  /** A rejection leaves the log alone. */
  lemma RejectedMovesOn(n: Node, a: AppendArgs)
    requires Valid(n) && !AppendEntries(n, a).1.success
    ensures var n' := AppendEntries(n, a).0; Valid(n') && (n' == n || MovesOn(n, n'))
  {
  }

  lemma HintWithin(n: Node, a: AppendArgs, k: nat)
    requires Valid(n) && !AppendEntries(n, a).1.success
    requires a.prevLogIndex < k && (a.term >= n.currentTerm ==> n.commitIndex < k)
    ensures AppendEntries(n, a).1.conflictIndex <= k
  {
  }

  lemma CommitWithinLeader(n: Node, s: Protocol, i: nat, u: nat)
    requires LogsGenuine(s) && AcksOk(s) && LeadersComplete(s)
    requires NodeCoupled(n, s, i) && n.currentTerm <= u && u in s.leaders
    ensures n.commitIndex < |s.leaders[u].log|
  {
    CoveredLogCovers(s, n.currentTerm, n.commitIndex, s.logs[i]);
    CoveredInLeader(s, n.currentTerm, n.commitIndex, u);
  }

  /** ... and its hint stays within the leader's log. */
  lemma Rejected(n: Node, s: Protocol, i: nat, a: AppendArgs, u: nat)
    requires LogsGenuine(s) && AcksOk(s) && LeadersComplete(s)
    requires NodeCoupled(n, s, i) && !AppendEntries(n, a).1.success
    requires a.term <= u && u in s.leaders && a.prevLogIndex < |s.leaders[u].log|
    ensures AppendEntries(n, a).1.conflictIndex <= |s.leaders[u].log|
  {
    if a.term >= n.currentTerm {
      CommitWithinLeader(n, s, i, u);
    }
    HintWithin(n, a, |s.leaders[u].log|);
  }

  lemma RefusedReply(n: Node, s: Protocol, s': Protocol, i: nat, a: AppendArgs, u: nat)
    requires AppendCoupled(a, s, u) && Grows(s, s') && i < s.Size() && i != a.leaderId
    requires |n.log| > 0 && !AppendEntries(n, a).1.success && AppendEntries(n, a).1.conflictIndex <= |s.leaders[u].log|
    ensures MessageCoupled(AppendResponse(i, a, AppendEntries(n, a).1), s')
  {
    AppendStays(a, s, s', u);
    assert ReignGrows(s.leaders[u], s'.leaders[u]);
    assert ReplyCoupled(i, a, AppendEntries(n, a).1, s', u);
  }

  lemma AppendReceivedCoupled(c: Cluster, s: Protocol, s': Protocol, m: Message)
    requires Coupled(c, s) && Enabled(c, AppendReceived(m)) && NoPanic(c, AppendReceived(m))
    requires Grows(s, s') && OnlyTouches(s, s', m.to)
    requires NodeCoupled(AppendEntries(c.nodes[m.to], m.args).0, s', m.to)
    requires MessageCoupled(AppendResponse(m.to, m.args, AppendEntries(c.nodes[m.to], m.args).1), s')
    ensures Coupled(Next(c, AppendReceived(m)), s')
  {
    CoupledStays(c, Next(c, AppendReceived(m)), s, s', m.to);
  }

  lemma AcceptCovered(n: Node, s: Protocol, s': Protocol, l: Log, l': Log, t: nat, a: AppendArgs, u: nat)
    requires u in s.leaders && Genuine(s, s.leaders[u].log) && AcksOk(s) && LeadersComplete(s) && Grows(s, s')
    requires Genuine(s, l) && CoveredLog(s, t, n.commitIndex, l) && Covered(s, a.term, a.leaderCommit)
    requires t <= a.term <= u && a.leaderCommit <= a.prevLogIndex + |a.entries|
    requires MergedAs(l, s.leaders[u].log, a, l')
    ensures NewCommit(n, a) >= 0
    ensures CoveredLog(s', a.term, NewCommit(n, a), l')
  {
    CommitNotClamped(n, a);
    MergeCovered(s, s', l, t, a.term, n.commitIndex, a.leaderCommit, NewCommit(n, a), u,
                 a.prevLogIndex, a.prevLogIndex + |a.entries|);
  }

  lemma AcceptCoveredAt(n: Node, s: Protocol, i: nat, a: AppendArgs, u: nat)
    requires u in s.leaders && Genuine(s, s.leaders[u].log) && AcksOk(s) && LeadersComplete(s)
    requires 0 <= a.prevLogIndex && a.leaderCommit <= a.prevLogIndex + |a.entries| && Covered(s, a.term, a.leaderCommit)
    requires Can(s, AcceptMove(i, a, u)) && Grows(s, Do(s, AcceptMove(i, a, u)))
    requires i < |s.logs| == |s.terms| && Genuine(s, s.logs[i])
    requires CoveredLog(s, s.terms[i], n.commitIndex, s.logs[i])
    ensures NewCommit(n, a) >= 0
    ensures CoveredLog(Do(s, AcceptMove(i, a, u)), a.term, NewCommit(n, a), Do(s, AcceptMove(i, a, u)).logs[i])
  {
    AcceptMerges(s, i, a, u);
    AcceptCovered(n, s, Do(s, AcceptMove(i, a, u)), s.logs[i], Do(s, AcceptMove(i, a, u)).logs[i], s.terms[i], a, u);
  }

  lemma AcceptedNode(n: Node, s: Protocol, i: nat, a: AppendArgs, u: nat)
    requires LogsGenuine(s) && VotesOk(s) && AcksOk(s) && LeadersComplete(s)
    requires NodeCoupled(n, s, i) && AppendCoupled(a, s, u) && AppendEntries(n, a).1.success
    requires Can(s, AcceptMove(i, a, u))
    requires Grows(s, Do(s, AcceptMove(i, a, u)))
    ensures NodeCoupled(AppendEntries(n, a).0, Do(s, AcceptMove(i, a, u)), i)
  {
    AcceptCoveredAt(n, s, i, a, u);
    AcceptCoupled(n, s, i, a, u);
  }

  lemma Accepted(n: Node, s: Protocol, i: nat, a: AppendArgs, u: nat) returns (mv: Move)
    requires Inv(s) && NodeCoupled(n, s, i) && AppendCoupled(a, s, u) && AppendEntries(n, a).1.success
    requires i != a.leaderId
    ensures Can(s, mv) && Grows(s, Do(s, mv)) && OnlyTouches(s, Do(s, mv), i)
    ensures NodeCoupled(AppendEntries(n, a).0, Do(s, mv), i)
    ensures MessageCoupled(AppendResponse(i, a, AppendEntries(n, a).1), Do(s, mv))
  {
    MayAccept(n, s, i, a, u);
    mv := AcceptMove(i, a, u);
    MoveGrows(s, mv, i);
    AcceptedNode(n, s, i, a, u);
    AppendStays(a, s, Do(s, AcceptMove(i, a, u)), u);
    AcceptReply(n, s, i, a, u);
  }

  lemma Refused(n: Node, s: Protocol, i: nat, a: AppendArgs, u: nat) returns (mv: Move)
    requires Inv(s) && NodeCoupled(n, s, i) && AppendCoupled(a, s, u) && !AppendEntries(n, a).1.success
    requires i != a.leaderId
    ensures Can(s, mv) && Grows(s, Do(s, mv)) && OnlyTouches(s, Do(s, mv), i)
    ensures NodeCoupled(AppendEntries(n, a).0, Do(s, mv), i)
    ensures MessageCoupled(AppendResponse(i, a, AppendEntries(n, a).1), Do(s, mv))
  {
    Rejected(n, s, i, a, u);
    RejectedMovesOn(n, a);
    mv := Learned(n, AppendEntries(n, a).0, s, i);
    RefusedReply(n, s, Do(s, mv), i, a, u);
  }

  lemma AppendReceivedRefines(c: Cluster, s: Protocol, m: Message) returns (mv: Move)
    requires Inv(s) && Coupled(c, s) && Enabled(c, AppendReceived(m))
    ensures NoPanic(c, AppendReceived(m))
    ensures Can(s, mv) && Grows(s, Do(s, mv)) && Coupled(Next(c, AppendReceived(m)), Do(s, mv))
  {
    var n := c.nodes[m.to];
    assert NodeCoupled(n, s, m.to) && MessageCoupled(m, s);
    var u :| AppendCoupled(m.args, s, u);
    if AppendEntries(n, m.args).1.success {
      mv := Accepted(n, s, m.to, m.args, u);
    } else {
      mv := Refused(n, s, m.to, m.args, u);
    }
    AppendReceivedCoupled(c, s, Do(s, mv), m);
  }

  // ----- replies to AppendEntries -----

  /** A node led only terms it has reached. */
  lemma ReignReached(s: Protocol, u: nat)
    requires LeadersOk(s) && StandsOk(s) && VotesOk(s) && u in s.leaders
    ensures s.leaders[u].id < s.Size() && u <= s.terms[s.leaders[u].id]
  {
    assert (u, s.leaders[u].id) in s.stands;
  }

  lemma MatchCoupled(n: Node, s: Protocol, i: nat, from: nat, k: nat)
    requires NodeCoupled(n, s, i) && n.role == Leader && from < s.Size() && from != i
    requires Acked(s, from, n.currentTerm, k) && AcksOk(s)
    ensures NodeCoupled(RecordMatch(n, from, k), s, i)
  {
    var n' := RecordMatch(n, from, k);
    assert LeaderCoupled(n', s, i);
  }

  /** An index the leader finds committable is chosen. */
  lemma CommittableChosen(n: Node, s: Protocol, i: nat, k: nat)
    requires NodeCoupled(n, s, i) && n.role == Leader && k > n.commitIndex && Committable(n, k)
    ensures Chosen(s, n.currentTerm, k)
  {
    ReadLog(n, s.logs[i], k);
    var q := Replicas(n, k);
    assert AckedByAll(s, q, n.currentTerm, k);
  }

  lemma CommitCoupled(n: Node, s: Protocol, i: nat)
    requires NodeCoupled(n, s, i) && n.role == Leader
    ensures NodeCoupled(AdvanceCommit(n), s, i)
  {
    var k := CommitBelow(n, LastLogIndex(n));
    ReadLog(n, s.logs[i], k);
    if k > n.commitIndex {
      CommittableChosen(n, s, i, k);
      assert CoversAt(s, n.currentTerm, k, n.currentTerm, k);
    }
  }

  lemma BackUpCoupled(n: Node, s: Protocol, i: nat, from: nat, reply: AppendReply)
    requires NodeCoupled(n, s, i) && n.role == Leader && from < s.Size() && from != i
    requires reply.conflictIndex <= |s.logs[i]|
    ensures NodeCoupled(n.(nextIndex := n.nextIndex[from := BackUp(n, reply)]), s, i)
  {
    ReadLog(n, s.logs[i], |s.logs[i]| - 1);
  }

  lemma SuccessCoupled(n: Node, s: Protocol, i: nat, from: nat, a: AppendArgs, r: AppendReply)
    requires NodeCoupled(n, s, i) && AcksOk(s) && from < s.Size() && from != i && a.prevLogIndex >= 0
    requires n.role == Leader && n.currentTerm == a.term && r.success && r.term == a.term
    requires Acked(s, from, n.currentTerm, a.prevLogIndex + |a.entries|)
    ensures NodeCoupled(HandleAppendReply(n, a, from, r), s, i)
  {
    MatchCoupled(n, s, i, from, a.prevLogIndex + |a.entries|);
    CommitCoupled(RecordMatch(n, from, a.prevLogIndex + |a.entries|), s, i);
    SuccessHandled(n, from, a, r);
  }

  lemma SuccessHandled(n: Node, from: nat, a: AppendArgs, r: AppendReply)
    requires n.role == Leader && n.currentTerm == a.term == r.term && r.success && a.prevLogIndex >= 0
    requires |n.matchIndex| == n.peers == |n.nextIndex| && from < n.peers
    ensures HandleAppendReply(n, a, from, r) == AdvanceCommit(RecordMatch(n, from, a.prevLogIndex + |a.entries|))
  {
  }

  lemma FailureCoupled(n: Node, s: Protocol, i: nat, from: nat, a: AppendArgs, r: AppendReply)
    requires NodeCoupled(n, s, i) && ReplyCoupled(from, a, r, s, n.currentTerm) && a.leaderId == i
    requires n.role == Leader && n.currentTerm == a.term && !r.success && r.term <= n.currentTerm
    ensures NodeCoupled(HandleAppendReply(n, a, from, r), s, i)
  {
    BackUpCoupled(n, s, i, from, r);
  }

  lemma Deposed(n: Node, s: Protocol, i: nat, from: nat, a: AppendArgs, r: AppendReply)
    requires NodeCoupled(n, s, i) && from < s.Size()
    requires n.role == Leader && n.currentTerm == a.term && !r.success && r.term > n.currentTerm
    ensures var n' := HandleAppendReply(n, a, from, r); Valid(n') && MovesOn(n, n')
  {
  }

  lemma AppendReplied(n: Node, s: Protocol, i: nat, from: nat, a: AppendArgs, r: AppendReply, u: nat)
    returns (mv: Move)
    requires Inv(s) && NodeCoupled(n, s, i) && a.leaderId == i && ReplyCoupled(from, a, r, s, u)
    ensures Can(s, mv) && Grows(s, Do(s, mv)) && OnlyTouches(s, Do(s, mv), i)
    ensures NodeCoupled(HandleAppendReply(n, a, from, r), Do(s, mv), i)
  {
    mv := Idle;
    if n.role == Leader && n.currentTerm == a.term {
      ReignReached(s, u);
      if r.success {
        SuccessCoupled(n, s, i, from, a, r);
        GrowsRefl(s);
      } else if r.term > n.currentTerm {
        Deposed(n, s, i, from, a, r);
        mv := Learned(n, HandleAppendReply(n, a, from, r), s, i);
      } else {
        FailureCoupled(n, s, i, from, a, r);
        GrowsRefl(s);
      }
    } else {
      GrowsRefl(s);
    }
  }

  lemma AppendAnsweredCoupled(c: Cluster, s: Protocol, s': Protocol, m: Message)
    requires Coupled(c, s) && Enabled(c, AppendAnswered(m)) && NoPanic(c, AppendAnswered(m))
    requires Grows(s, s') && OnlyTouches(s, s', m.args.leaderId)
    requires NodeCoupled(HandleAppendReply(c.nodes[m.args.leaderId], m.args, m.from, m.reply), s', m.args.leaderId)
    ensures Coupled(Next(c, AppendAnswered(m)), s')
  {
    CoupledStays(c, Next(c, AppendAnswered(m)), s, s', m.args.leaderId);
  }

  lemma AnswerInRange(c: Cluster, s: Protocol, m: Message)
    requires Coupled(c, s) && Enabled(c, AppendAnswered(m))
    ensures NoPanic(c, AppendAnswered(m))
  {
    assert NodeCoupled(c.nodes[m.args.leaderId], s, m.args.leaderId) && MessageCoupled(m, s);
  }

  lemma AppendAnsweredRefines(c: Cluster, s: Protocol, m: Message) returns (mv: Move)
    requires Inv(s) && Coupled(c, s) && Enabled(c, AppendAnswered(m))
    ensures NoPanic(c, AppendAnswered(m))
    ensures Can(s, mv) && Grows(s, Do(s, mv)) && Coupled(Next(c, AppendAnswered(m)), Do(s, mv))
  {
    var i := m.args.leaderId;
    assert NodeCoupled(c.nodes[i], s, i) && MessageCoupled(m, s);
    var u :| ReplyCoupled(m.from, m.args, m.reply, s, u);
    mv := AppendReplied(c.nodes[i], s, i, m.from, m.args, m.reply, u);
    AnswerInRange(c, s, m);
    AppendAnsweredCoupled(c, s, Do(s, mv), m);
  }

  // ----- applying, compacting, restarting -----

  lemma AppliedNode(n: Node, s: Protocol, i: nat)
    requires NodeCoupled(n, s, i) && n.lastApplied < n.commitIndex
    ensures n.lastApplied < LastLogIndex(n)
    ensures NodeCoupled(ApplyNext(n).0, s, i)
  {
  }

  /** What a node applies next is the entry of its full log there. */
  lemma AppliedEntry(n: Node, full: Log)
    requires LogCoupled(n, full) && n.lastIncludedIndex <= n.lastApplied < n.commitIndex < |full|
    ensures n.lastApplied < LastLogIndex(n)
    ensures ApplyNext(n).1 == Some(ApplyMsg(n.lastApplied + 1, full[n.lastApplied + 1].command))
  {
    ReadLog(n, full, n.lastApplied + 1);
  }

  lemma CoveredDelivers(s: Protocol, t: nat, k: nat, l: Log, i: nat, j: nat)
    requires CoveredLog(s, t, k, l) && 0 < j <= k
    ensures DeliveryCoupled(Delivery(i, ApplyMsg(j, l[j].command)), s)
  {
    var u, m :| CoversAt(s, t, k, u, m) && Chosen(s, u, m) && l[..k + 1] == s.leaders[u].log[..k + 1];
    assert l[..k + 1][j] == s.leaders[u].log[..k + 1][j];
  }

  lemma AppliedCoupled(n: Node, s: Protocol, i: nat)
    requires NodeCoupled(n, s, i) && n.lastApplied < n.commitIndex
    ensures n.lastApplied < LastLogIndex(n)
    ensures ApplyNext(n).1.Some? && DeliveryCoupled(Delivery(i, ApplyNext(n).1.value), s)
  {
    AppliedEntry(n, s.logs[i]);
    CoveredDelivers(s, n.currentTerm, n.commitIndex, s.logs[i], i, n.lastApplied + 1);
  }

  lemma AppliedRefines(c: Cluster, s: Protocol, i: nat)
    requires Shape(s) && Coupled(c, s) && Enabled(c, Applied(i))
    ensures NoPanic(c, Applied(i)) && Coupled(Next(c, Applied(i)), s)
  {
    assert NodeCoupled(c.nodes[i], s, i);
    AppliedNode(c.nodes[i], s, i);
    AppliedCoupled(c.nodes[i], s, i);
    GrowsRefl(s);
    CoupledStays(c, Next(c, Applied(i)), s, s, i);
  }

  lemma SnapshotCoupled(n: Node, s: Protocol, i: nat, index: nat, snapshot: Option<StoreState>)
    requires NodeCoupled(n, s, i) && index <= n.lastApplied
    ensures index > n.lastIncludedIndex ==> HasIndex(n, index)
    ensures NodeCoupled(Snapshot(n, index, snapshot), s, i)
  {
    if index > n.lastIncludedIndex {
      ReadLog(n, s.logs[i], index);
      var n' := Snapshot(n, index, snapshot);
      assert n.log[index - n.lastIncludedIndex + 1..] == n.log[1..][index - n.lastIncludedIndex..];
      assert s.logs[i][index + 1..] == s.logs[i][n.lastIncludedIndex + 1..][index - n.lastIncludedIndex..];
      assert LogCoupled(n', s.logs[i]);
    }
  }

  lemma CompactedCoupled(c: Cluster, s: Protocol, i: nat, index: nat, snapshot: Option<StoreState>)
    requires Coupled(c, s) && Enabled(c, Compacted(i, index, snapshot)) && NoPanic(c, Compacted(i, index, snapshot))
    requires Grows(s, s) && OnlyTouches(s, s, i) && NodeCoupled(Snapshot(c.nodes[i], index, snapshot), s, i)
    ensures Coupled(Next(c, Compacted(i, index, snapshot)), s)
  {
    CoupledStays(c, Next(c, Compacted(i, index, snapshot)), s, s, i);
  }

  lemma CompactedRefines(c: Cluster, s: Protocol, i: nat, index: nat, snapshot: Option<StoreState>)
    requires Shape(s) && Coupled(c, s) && Enabled(c, Compacted(i, index, snapshot))
    ensures NoPanic(c, Compacted(i, index, snapshot)) && Coupled(Next(c, Compacted(i, index, snapshot)), s)
  {
    assert NodeCoupled(c.nodes[i], s, i);
    SnapshotCoupled(c.nodes[i], s, i, index, snapshot);
    GrowsRefl(s);
    CompactedCoupled(c, s, i, index, snapshot);
  }

  lemma RestartedCoupled(n: Node, s: Protocol, i: nat)
    requires NodeCoupled(n, s, i)
    ensures NodeCoupled(NewNode(i, s.Size(), n.disk), s, i)
  {
    CoveredLogLower(s, n.currentTerm, n.commitIndex, s.logs[i], n.lastIncludedIndex);
  }

  lemma RestartedKeeps(c: Cluster, s: Protocol, i: nat)
    requires Coupled(c, s) && Enabled(c, Restarted(i)) && Grows(s, s) && OnlyTouches(s, s, i)
    requires NodeCoupled(NewNode(i, |c.nodes|, c.nodes[i].disk), s, i)
    ensures Coupled(Next(c, Restarted(i)), s)
  {
    CoupledStays(c, Next(c, Restarted(i)), s, s, i);
  }

  lemma RestartedRefines(c: Cluster, s: Protocol, i: nat)
    requires Shape(s) && Coupled(c, s) && Enabled(c, Restarted(i))
    ensures NoPanic(c, Restarted(i)) && Coupled(Next(c, Restarted(i)), s)
  {
    assert NodeCoupled(c.nodes[i], s, i);
    RestartedCoupled(c.nodes[i], s, i);
    GrowsRefl(s);
    RestartedKeeps(c, s, i);
  }

  lemma TermSavedOk(n: Node, s: Protocol, i: nat, m: Message)
    requires NodeCoupled(n, s, i) && (m.VoteRequest? || m.AppendRequest?) && SavesTerm(n, m)
    ensures Valid(TermSaved(n, m)) && MovesOn(n, TermSaved(n, m))
  {
  }

  lemma CutShortCoupled(c: Cluster, s: Protocol, s': Protocol, m: Message)
    requires Coupled(c, s) && Enabled(c, CutShort(m)) && Grows(s, s') && OnlyTouches(s, s', m.to)
    requires NodeCoupled(NewNode(m.to, |c.nodes|, TermSaved(c.nodes[m.to], m).disk), s', m.to)
    ensures Coupled(Next(c, CutShort(m)), s')
  {
    CoupledStays(c, Next(c, CutShort(m)), s, s', m.to);
  }

  lemma CutShortRefines(c: Cluster, s: Protocol, m: Message) returns (mv: Move)
    requires Inv(s) && Coupled(c, s) && Enabled(c, CutShort(m))
    ensures NoPanic(c, CutShort(m))
    ensures Can(s, mv) && Grows(s, Do(s, mv)) && Coupled(Next(c, CutShort(m)), Do(s, mv))
  {
    var n := c.nodes[m.to];
    assert NodeCoupled(n, s, m.to);
    TermSavedOk(n, s, m.to, m);
    mv := Learned(n, TermSaved(n, m), s, m.to);
    RestartedCoupled(TermSaved(n, m), Do(s, mv), m.to);
    CutShortCoupled(c, s, Do(s, mv), m);
  }

  // ----- all events, and whole runs -----

  predicate NoStep(e: Event) {
    e.RoundBegun? || e.AppendSent? || e.Applied? || e.Compacted? || e.Restarted?
  }

  lemma NoStepRefines(c: Cluster, s: Protocol, e: Event)
    requires Inv(s) && Coupled(c, s) && Enabled(c, e) && NoStep(e)
    ensures NoPanic(c, e) && Coupled(Next(c, e), s)
  {
    match e
    case RoundBegun(i) => RoundBegunRefines(c, s, i);
    case AppendSent(r, peer) => AppendSentRefines(c, s, r, peer);
    case Applied(i) => AppliedRefines(c, s, i);
    case Compacted(i, index, snapshot) => CompactedRefines(c, s, i, index, snapshot);
    case Restarted(i) => RestartedRefines(c, s, i);
    case _ =>
  }

  lemma StepRefines(c: Cluster, s: Protocol, e: Event) returns (mv: Move)
    requires Inv(s) && Coupled(c, s) && Enabled(c, e) && !NoStep(e)
    ensures NoPanic(c, e)
    ensures Can(s, mv) && Grows(s, Do(s, mv)) && Coupled(Next(c, e), Do(s, mv))
  {
    match e
    case Timeout(i) => mv := TimeoutRefines(c, s, i);
    case VoteAsked(m) => mv := VoteAskedRefines(c, s, m);
    case VoteAnswered(m) => mv := VoteAnsweredRefines(c, s, m);
    case Submitted(i, command) => mv := SubmittedRefines(c, s, i, command);
    case AppendReceived(m) => mv := AppendReceivedRefines(c, s, m);
    case AppendAnswered(m) => mv := AppendAnsweredRefines(c, s, m);
    case CutShort(m) => mv := CutShortRefines(c, s, m);
    case _ =>
  }

  lemma EventRefines(c: Cluster, s: Protocol, e: Event) returns (mv: Move)
    requires Inv(s) && Coupled(c, s) && Enabled(c, e)
    ensures NoPanic(c, e) && Can(s, mv) && Grows(s, Do(s, mv)) && Coupled(Next(c, e), Do(s, mv))
  {
    if NoStep(e) {
      mv := Idle;
      GrowsRefl(s);
      NoStepRefines(c, s, e);
    } else {
      mv := StepRefines(c, s, e);
    }
  }

  /** The protocol before anything happened. */
  function Start0(n: nat): Protocol {
    Protocol(seq(n, _ => 0), seq(n, _ => [SENTINEL]), map[], map[], map[], map[])
  }

  lemma InitRefines(c: Cluster)
    requires Init(c)
    ensures Inv(Start0(|c.nodes|)) && Coupled(c, Start0(|c.nodes|))
  {
    var s := Start0(|c.nodes|);
    forall i | 0 <= i < |c.nodes| ensures NodeCoupled(c.nodes[i], s, i) {}
  }
}
