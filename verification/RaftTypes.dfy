/** Log entries, logs and RPC messages of the Raft package. */
module RaftTypes {
  import opened StoreTypes

  datatype LogEntry = LogEntry(term: nat, command: Option<Command>)

  type Log = seq<LogEntry>

  /** The entry at index 0 of every log: term 0, no command. */
  const SENTINEL := LogEntry(0, None)

  function LastTerm(l: Log): nat
    requires |l| > 0
  {
    l[|l| - 1].term
  }

  /** Log a is at least as up-to-date as log b (section 5.4.1 of the Raft paper). */
  predicate UpToDate(a: Log, b: Log)
    requires |a| > 0 && |b| > 0
  {
    LastTerm(a) > LastTerm(b) || (LastTerm(a) == LastTerm(b) && |a| >= |b|)
  }

  /**
    * Log l after a follower takes entries es from position at: entries whose term it already
    * has are skipped; at the first that is new or differs, l is cut and the rest copied.
    */
  function Splice(l: Log, at: nat, es: Log): Log
    requires at <= |l|
    decreases |es|
  {
    if es == [] then l
    else if at < |l| && l[at].term == es[0].term then Splice(l, at + 1, es[1..])
    else l[..at] + es
  }

  datatype VoteArgs = VoteArgs(term: nat, candidateId: nat, lastLogIndex: nat, lastLogTerm: nat)

  datatype VoteReply = VoteReply(term: nat, voteGranted: bool)

  datatype AppendArgs = AppendArgs(
    term: nat,
    leaderId: nat,
    prevLogIndex: int,
    prevLogTerm: nat,
    entries: Log,
    leaderCommit: nat)

  /** conflictTerm is -1 when the follower has no entry to compare. */
  datatype AppendReply = AppendReply(term: nat, success: bool, conflictTerm: int, conflictIndex: nat)
}
