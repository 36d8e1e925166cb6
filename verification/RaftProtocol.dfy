/**
  * Raft seen from outside the code: every node's term and full log, and the history that the
  * proofs need (who stood, who voted for whom, who led each term with which log, and how far
  * each node has acknowledged each leader). The cluster of running nodes refines this
  * protocol (module RaftRefinement); safety is proved here once, on six small steps.
  */
module RaftProtocol {
  import opened StoreTypes
  import opened RaftTypes
  import opened Quorum

  /** The reign of one leader: who it is, who elected it, and its log, which only grows. */
  datatype Reign = Reign(id: nat, voters: set<nat>, log: Log)

  datatype Protocol = Protocol(
    terms: seq<nat>,                  // current term of each node
    logs: seq<Log>,                   // full log of each node, sentinel first
    stands: map<(nat, nat), Log>,     // (term, node): its log when it stood for that term
    votes: map<(nat, nat), nat>,      // (voter, term): whom it voted for
    leaders: map<nat, Reign>,        // term: its leader
    acks: map<(nat, nat), nat>)       // (node, term): highest index acknowledged to that leader
  {
    function Size(): nat { |terms| }
  }

  // ----- what the protocol promises -----

  /** The leader of term t has its own entry at index n. */
  predicate OwnEntry(s: Protocol, t: nat, n: nat) {
    t in s.leaders && 0 < n < |s.leaders[t].log| && s.leaders[t].log[n].term == t
  }

  /** The leader's log through index n. */
  function Through(s: Protocol, t: nat, n: nat): Log
    requires OwnEntry(s, t, n)
  {
    s.leaders[t].log[..n + 1]
  }

  predicate Acked(s: Protocol, v: nat, t: nat, n: nat) {
    (v, t) in s.acks && s.acks[(v, t)] >= n
  }

  /** Node v has acknowledged index n to the leader of t, or might still do so. */
  predicate MayAck(s: Protocol, v: nat, t: nat, n: nat) {
    v < s.Size() && (s.terms[v] <= t || Acked(s, v, t, n))
  }

  predicate MayAckAll(s: Protocol, q: set<nat>, t: nat, n: nat) {
    IsQuorum(q, s.Size()) && forall v <- q :: MayAck(s, v, t, n)
  }

  /** Some majority may still acknowledge index n in term t: the entry could yet be committed. */
  ghost predicate Choosable(s: Protocol, t: nat, n: nat) {
    exists q :: MayAckAll(s, q, t, n)
  }

  predicate AckedByAll(s: Protocol, q: set<nat>, t: nat, n: nat) {
    IsQuorum(q, s.Size()) && forall v <- q :: Acked(s, v, t, n)
  }

  /** The leader of t committed its own entry at n: a majority acknowledged it in that term. */
  ghost predicate Chosen(s: Protocol, t: nat, n: nat) {
    OwnEntry(s, t, n) && exists q :: AckedByAll(s, q, t, n)
  }

  // ----- the invariant -----

  predicate Shape(s: Protocol) {
    |s.logs| == |s.terms|
  }

  /** Every entry of l came from the leader of its term, and so did everything before it. */
  predicate Genuine(s: Protocol, l: Log) {
    && |l| > 0 && l[0] == SENTINEL
    && forall k :: 0 < k < |l| ==> l[k].term in s.leaders && l[..k + 1] <= s.leaders[l[k].term].log
  }

  ghost predicate LogsGenuine(s: Protocol) {
    && (forall v :: 0 <= v < |s.logs| ==> Genuine(s, s.logs[v]))
    && (forall t :: t in s.leaders ==> Genuine(s, s.leaders[t].log))
    && (forall p :: p in s.stands ==> Genuine(s, s.stands[p]))
  }

  /** A leader's log holds no term above its own. */
  ghost predicate TermsBounded(s: Protocol) {
    forall t, k :: t in s.leaders && 0 <= k < |s.leaders[t].log| ==> s.leaders[t].log[k].term <= t
  }

  ghost predicate StandsOk(s: Protocol) {
    forall t: nat, c: nat :: (t, c) in s.stands ==> c < s.Size() && (c, t) in s.votes && s.votes[(c, t)] == c
  }

  ghost predicate VotesOk(s: Protocol) {
    forall v: nat, t: nat :: (v, t) in s.votes ==>
      v < s.Size() && t <= s.terms[v] && (t, s.votes[(v, t)]) in s.stands
  }

  ghost predicate LeadersOk(s: Protocol) {
    forall t :: t in s.leaders ==>
      && IsQuorum(s.leaders[t].voters, s.Size())
      && (t, s.leaders[t].id) in s.stands
      && s.stands[(t, s.leaders[t].id)] <= s.leaders[t].log
      && forall v <- s.leaders[t].voters :: (v, t) in s.votes && s.votes[(v, t)] == s.leaders[t].id
  }

  /**
    * A heartbeat may carry entries above its receiver's term, so a node can stand for a term
    * that its log has already passed. Nobody who voted for it then elected the later leader.
    */
  ghost predicate VotesFresh(s: Protocol) {
    forall v: nat, t: nat, k: nat ::
      ((v, t) in s.votes && (t, s.votes[(v, t)]) in s.stands && 0 < k < |s.stands[(t, s.votes[(v, t)])]|) ==>
        FreshAt(s, v, t, s.stands[(t, s.votes[(v, t)])][k].term)
  }

  predicate FreshAt(s: Protocol, v: nat, t: nat, u: nat) {
    && (v, t) in s.votes && u in s.leaders
    && (u > t ==> v !in s.leaders[u].voters)
    && (u == t ==> s.leaders[u].id != s.votes[(v, t)])
  }

  ghost predicate AcksOk(s: Protocol) {
    forall v: nat, t: nat :: (v, t) in s.acks ==>
      v < s.Size() && t in s.leaders && t <= s.terms[v] && s.acks[(v, t)] < |s.leaders[t].log|
  }

  /** A node keeps what it acknowledged for as long as that could still be committed. */
  ghost predicate AcksKept(s: Protocol) {
    forall v: nat, t: nat, n: nat :: Acked(s, v, t, n) && v < |s.logs| && OwnEntry(s, t, n) && Choosable(s, t, n) ==>
      Through(s, t, n) <= s.logs[v]
  }

  /** ... and so does every candidate it votes for later. */
  ghost predicate VotesKeep(s: Protocol) {
    forall v: nat, u: nat, t: nat, n: nat ::
      (v, u) in s.votes && Acked(s, v, t, n) && t < u && OwnEntry(s, t, n) && Choosable(s, t, n)
        && (u, s.votes[(v, u)]) in s.stands ==>
      Through(s, t, n) <= s.stands[(u, s.votes[(v, u)])]
  }

  /** Leader Completeness: what could be committed in t is in the log of every later leader. */
  ghost predicate LeadersComplete(s: Protocol) {
    forall t: nat, u: nat, n: nat :: u in s.leaders && t < u && OwnEntry(s, t, n) && Choosable(s, t, n) ==>
      Through(s, t, n) <= s.leaders[u].log
  }

  ghost predicate Inv(s: Protocol) {
    && Shape(s) && LogsGenuine(s) && TermsBounded(s) && StandsOk(s) && VotesOk(s) && LeadersOk(s)
    && VotesFresh(s) && AcksOk(s) && AcksKept(s) && VotesKeep(s) && LeadersComplete(s)
  }

  // ----- the steps -----

  /** A node enters the next term as a candidate and votes for itself. */
  predicate CanStand(s: Protocol, c: nat) {
    Shape(s) && c < s.Size()
  }

  function Stand(s: Protocol, c: nat): Protocol
    requires CanStand(s, c)
  {
    var t := s.terms[c] + 1;
    s.(terms := s.terms[c := t], stands := s.stands[(t, c) := s.logs[c]], votes := s.votes[(c, t) := c])
  }

  /** A node votes for a candidate of term t, at most one in each term. */
  predicate CanVote(s: Protocol, v: nat, t: nat, c: nat) {
    && Shape(s) && v < s.Size() && s.terms[v] <= t && (t, c) in s.stands
    && ((v, t) in s.votes ==> s.votes[(v, t)] == c)
    && |s.logs[v]| > 0 && |s.stands[(t, c)]| > 0 && UpToDate(s.stands[(t, c)], s.logs[v])
  }

  function Vote(s: Protocol, v: nat, t: nat, c: nat): Protocol
    requires CanVote(s, v, t, c)
  {
    s.(terms := s.terms[v := t], votes := s.votes[(v, t) := c])
  }

  /** A candidate with a majority of votes, its log untouched since it stood, becomes leader. */
  predicate CanElect(s: Protocol, c: nat, q: set<nat>) {
    && Shape(s) && c < s.Size() && IsQuorum(q, s.Size())
    && (s.terms[c], c) in s.stands && s.stands[(s.terms[c], c)] == s.logs[c] && |s.logs[c]| > 0
    && s.terms[c] !in s.leaders
    && forall v <- q :: (v, s.terms[c]) in s.votes && s.votes[(v, s.terms[c])] == c
  }

  function Elect(s: Protocol, c: nat, q: set<nat>): Protocol
    requires CanElect(s, c, q)
  {
    s.(leaders := s.leaders[s.terms[c] := Reign(c, q, s.logs[c])],
       acks := s.acks[(c, s.terms[c]) := |s.logs[c]| - 1])
  }

  /** A leader appends a command of its own term. */
  predicate CanAppend(s: Protocol, c: nat) {
    && Shape(s) && c < s.Size() && s.terms[c] in s.leaders
    && s.leaders[s.terms[c]].id == c && s.leaders[s.terms[c]].log == s.logs[c]
  }

  function Append(s: Protocol, c: nat, cmd: Option<Command>): Protocol
    requires CanAppend(s, c)
  {
    var t := s.terms[c];
    var l := s.logs[c] + [LogEntry(t, cmd)];
    s.(logs := s.logs[c := l], leaders := s.leaders[t := s.leaders[t].(log := l)], acks := s.acks[(c, t) := |l| - 1])
  }

  /** The log after accepting src[prev+1 .. last]. */
  function Merge(l: Log, src: Log, prev: nat, last: nat): Log
    requires prev <= last < |src| && prev < |l|
  {
    Splice(l, prev + 1, src[prev + 1..last + 1])
  }

  /**
    * A node accepts a piece of the log of the leader of term u. The heartbeat's own term t is
    * what its sender read when the round began; it may be lower than u, and then nothing is
    * acknowledged.
    */
  predicate CanAccept(s: Protocol, v: nat, t: nat, u: nat, prev: nat, last: nat) {
    && Shape(s) && v < s.Size() && s.terms[v] <= t <= u && u in s.leaders
    && prev <= last < |s.leaders[u].log| && prev < |s.logs[v]|
    && s.logs[v][prev].term == s.leaders[u].log[prev].term
  }

  function Accept(s: Protocol, v: nat, t: nat, u: nat, prev: nat, last: nat): Protocol
    requires CanAccept(s, v, t, u, prev, last)
  {
    s.(terms := s.terms[v := t],
       logs := s.logs[v := Merge(s.logs[v], s.leaders[u].log, prev, last)],
       acks := if t != u then s.acks
               else s.acks[(v, u) := if Acked(s, v, u, last) then s.acks[(v, u)] else last])
  }

  /** A node learns of a later term. */
  predicate CanLearn(s: Protocol, v: nat, t: nat) {
    Shape(s) && v < s.Size() && s.terms[v] <= t
  }

  function Learn(s: Protocol, v: nat, t: nat): Protocol
    requires CanLearn(s, v, t)
  {
    s.(terms := s.terms[v := t])
  }

  // ----- all steps -----

  datatype Move =
    | Idle
    | Stands(c: nat)
    | Votes(v: nat, t: nat, c: nat)
    | Elects(c: nat, q: set<nat>)
    | Appends(c: nat, cmd: Option<Command>)
    | Accepts(v: nat, t: nat, u: nat, prev: nat, last: nat)
    | Learns(v: nat, t: nat)

  predicate Can(s: Protocol, m: Move) {
    match m
    case Idle => true
    case Stands(c) => CanStand(s, c)
    case Votes(v, t, c) => CanVote(s, v, t, c)
    case Elects(c, q) => CanElect(s, c, q)
    case Appends(c, _) => CanAppend(s, c)
    case Accepts(v, t, u, prev, last) => CanAccept(s, v, t, u, prev, last)
    case Learns(v, t) => CanLearn(s, v, t)
  }

  function Do(s: Protocol, m: Move): Protocol
    requires Can(s, m)
  {
    match m
    case Idle => s
    case Stands(c) => Stand(s, c)
    case Votes(v, t, c) => Vote(s, v, t, c)
    case Elects(c, q) => Elect(s, c, q)
    case Appends(c, cmd) => Append(s, c, cmd)
    case Accepts(v, t, u, prev, last) => Accept(s, v, t, u, prev, last)
    case Learns(v, t) => Learn(s, v, t)
  }

  /** The node that takes the step. */
  function Mover(m: Move): nat {
    match m
    case Idle => 0
    case Stands(c) => c
    case Votes(v, _, _) => v
    case Elects(c, _) => c
    case Appends(c, _) => c
    case Accepts(v, _, _, _, _) => v
    case Learns(v, _) => v
  }
}
