/**
  * The running cluster: nodes with their disks, and everything ever sent. Messages stay in the
  * network, so they can be lost, duplicated, delayed and reordered; a restart forgets everything
  * a node has not written to disk. Each event is one locked region of the code.
  */
module RaftCluster {
  import opened StoreTypes
  import opened RaftTypes
  import opened RaftNode
  import Quorum

  datatype Message =
    | VoteRequest(to: nat, vargs: VoteArgs)
    | VoteResponse(from: nat, vargs: VoteArgs, vreply: VoteReply)
    | AppendRequest(to: nat, args: AppendArgs)
    | AppendResponse(from: nat, args: AppendArgs, reply: AppendReply)

  /** A command handed to the store of a node. */
  datatype Delivery = Delivery(node: nat, msg: ApplyMsg)

  datatype Cluster = Cluster(
    nodes: seq<Node>,
    rounds: set<Round>,           // heartbeat rounds begun, some of whose sends may still come
    net: set<Message>,
    delivered: set<Delivery>)

  datatype Event =
    | Timeout(node: nat)
    | VoteAsked(vreq: Message)
    | VoteAnswered(vresp: Message)
    | Submitted(node: nat, command: Command)
    | RoundBegun(node: nat)
    | AppendSent(round: Round, peer: nat)
    | AppendReceived(req: Message)
    | AppendAnswered(resp: Message)
    | Applied(node: nat)
    | Compacted(node: nat, index: nat, snapshot: Option<StoreState>)
    | Restarted(node: nat)
    | CutShort(request: Message)    // a crash between a handler's first save and its second

  predicate Init(c: Cluster) {
    && (forall i :: 0 <= i < |c.nodes| ==> c.nodes[i] == NewNode(i, |c.nodes|, Disk(None, None)))
    && c.rounds == {} && c.net == {} && c.delivered == {}
  }

  /** Handling the request starts with saving its term. */
  predicate SavesTerm(n: Node, m: Message)
    requires m.VoteRequest? || m.AppendRequest?
  {
    if m.VoteRequest? then m.vargs.term > n.currentTerm else m.args.term >= n.currentTerm
  }

  /** The node after that save: RequestVote forgets its vote, AppendEntries does not. */
  function TermSaved(n: Node, m: Message): Node
    requires m.VoteRequest? || m.AppendRequest?
  {
    if m.VoteRequest? then StepDown(n, m.vargs.term) else Persist(n.(role := Follower, currentTerm := m.args.term))
  }

  /** The event ends the process on node a. */
  predicate Ends(e: Event, a: nat) {
    e == Restarted(a) || (e.CutShort? && !e.request.VoteResponse? && !e.request.AppendResponse? && e.request.to == a)
  }

  /** What makes an event possible. */
  predicate Enabled(c: Cluster, e: Event) {
    match e
    case Timeout(i) => i < |c.nodes| && c.nodes[i].role != Leader
    case VoteAsked(m) => m.VoteRequest? && m in c.net && m.to < |c.nodes|
    case VoteAnswered(m) =>
      m.VoteResponse? && m in c.net && m.vargs.candidateId < |c.nodes|
    case Submitted(i, _) => i < |c.nodes|
    case RoundBegun(i) => i < |c.nodes|
    case AppendSent(r, peer) =>
      r in c.rounds && r.node < |c.nodes| && peer < |c.nodes| && WillAppend(c.nodes[r.node], peer)
    case AppendReceived(m) => m.AppendRequest? && m in c.net && m.to < |c.nodes|
    case AppendAnswered(m) =>
      m.AppendResponse? && m in c.net && m.args.leaderId < |c.nodes|
    case Applied(i) => i < |c.nodes| && c.nodes[i].lastApplied < c.nodes[i].commitIndex
    case Compacted(i, index, _) => i < |c.nodes| && index <= c.nodes[i].lastApplied
    case Restarted(i) => i < |c.nodes|
    case CutShort(m) =>
      (m.VoteRequest? || m.AppendRequest?) && m in c.net && m.to < |c.nodes| && SavesTerm(c.nodes[m.to], m)
  }

  /** No index the code uses in this event is out of range; otherwise the process would panic. */
  predicate NoPanic(c: Cluster, e: Event)
    requires Enabled(c, e)
  {
    match e
    case Timeout(i) => |c.nodes[i].log| > 0
    case VoteAsked(m) => |c.nodes[m.to].log| > 0
    case AppendSent(r, peer) => AppendInRange(c.nodes[r.node], peer)
    case AppendReceived(m) => |c.nodes[m.to].log| > 0
    case AppendAnswered(m) =>
      var n := c.nodes[m.args.leaderId];
      && |n.log| > 0 && n.lastIncludedIndex <= n.commitIndex + 1
      && (n.role == Leader ==> |n.matchIndex| == n.peers == |n.nextIndex| && m.from < n.peers)
    case Applied(i) => |c.nodes[i].log| > 0 && c.nodes[i].lastApplied < LastLogIndex(c.nodes[i])
    case Compacted(i, index, _) => index > c.nodes[i].lastIncludedIndex ==> HasIndex(c.nodes[i], index)
    case _ => true
  }

  function WithNode(c: Cluster, i: nat, n: Node): Cluster
    requires i < |c.nodes|
  {
    c.(nodes := c.nodes[i := n])
  }

  function Send(c: Cluster, ms: set<Message>): Cluster {
    c.(net := c.net + ms)
  }

  /** The requests of an election, one to each peer. */
  function VoteRequests(n: Node, args: VoteArgs): set<Message> {
    set p <- Quorum.Members(n.peers) | p != n.me :: VoteRequest(p, args)
  }

  function Next(c: Cluster, e: Event): Cluster
    requires Enabled(c, e) && NoPanic(c, e)
  {
    match e
    case Timeout(i) =>
      var (n, args) := StartElection(c.nodes[i]);
      Send(WithNode(c, i, n), VoteRequests(n, args))
    case VoteAsked(m) =>
      var (n, reply) := RequestVote(c.nodes[m.to], m.vargs);
      Send(WithNode(c, m.to, n), {VoteResponse(m.to, m.vargs, reply)})
    case VoteAnswered(m) =>
      var i := m.vargs.candidateId;
      WithNode(c, i, HandleVoteReply(c.nodes[i], m.vargs.term, m.from, m.vreply))
    case Submitted(i, command) => WithNode(c, i, Start(c.nodes[i], command).0)
    case RoundBegun(i) => c.(rounds := c.rounds + {BeginRound(c.nodes[i])})
    case AppendSent(r, peer) => Send(c, {AppendRequest(peer, MakeAppend(c.nodes[r.node], r, peer))})
    case AppendReceived(m) =>
      var (n, reply) := AppendEntries(c.nodes[m.to], m.args);
      Send(WithNode(c, m.to, n), {AppendResponse(m.to, m.args, reply)})
    case AppendAnswered(m) =>
      var i := m.args.leaderId;
      WithNode(c, i, HandleAppendReply(c.nodes[i], m.args, m.from, m.reply))
    case Applied(i) =>
      var (n, msg) := ApplyNext(c.nodes[i]);
      WithNode(c, i, n).(delivered := c.delivered + if msg.Some? then {Delivery(i, msg.value)} else {})
    case Compacted(i, index, snapshot) => WithNode(c, i, Snapshot(c.nodes[i], index, snapshot))
    case Restarted(i) => WithNode(c, i, NewNode(i, |c.nodes|, c.nodes[i].disk))
    case CutShort(m) => WithNode(c, m.to, NewNode(m.to, |c.nodes|, TermSaved(c.nodes[m.to], m).disk))
  }

  /** A run of the cluster: its states and the events between them. */
  ghost predicate IsRun(run: seq<Cluster>, events: seq<Event>) {
    && |run| == |events| + 1 && Init(run[0])
    && forall i :: 0 <= i < |events| ==>
         Enabled(run[i], events[i]) && NoPanic(run[i], events[i]) && run[i + 1] == Next(run[i], events[i])
  }
}
