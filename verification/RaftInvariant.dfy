/** Every step of the protocol keeps its invariant. */
module RaftInvariant {
  import opened StoreTypes
  import opened RaftTypes
  import opened Quorum
  import opened RaftProtocol

  /**
    * How history grows: terms rise, records are only added, leaders' logs only get longer,
    * and a node acknowledges only in its current term or later.
    */
  ghost predicate Grows(s: Protocol, s': Protocol) {
    && s'.Size() == s.Size() == |s.logs| == |s'.logs|
    && (forall v :: 0 <= v < s.Size() ==> s.terms[v] <= s'.terms[v])
    && (forall t :: t in s.leaders ==> t in s'.leaders && ReignGrows(s.leaders[t], s'.leaders[t]))
    && (forall p :: p in s.stands ==> p in s'.stands && s'.stands[p] == s.stands[p])
    && (forall p :: p in s.votes ==> p in s'.votes && s'.votes[p] == s.votes[p])
    && (forall p :: p in s.acks ==> p in s'.acks && s'.acks[p] >= s.acks[p])
    && (forall v: nat, t: nat :: (v, t) in s'.acks ==>
          ((v, t) in s.acks && s'.acks[(v, t)] == s.acks[(v, t)]) || (v < s.Size() && s.terms[v] <= t))
  }

  predicate ReignGrows(a: Reign, b: Reign) {
    b.id == a.id && b.voters == a.voters && a.log <= b.log
  }

  /** What can still be chosen could be chosen before: choice only closes. */
  lemma ChoosableBefore(s: Protocol, s': Protocol, t: nat, n: nat)
    requires Grows(s, s') && Choosable(s', t, n)
    ensures Choosable(s, t, n)
  {
    var q :| MayAckAll(s', q, t, n);
    assert MayAckAll(s, q, t, n) by {
      forall v | v in q ensures MayAck(s, v, t, n) {
        assert MayAck(s', v, t, n);
      }
    }
  }

  lemma StillOwn(s: Protocol, s': Protocol, t: nat, n: nat)
    requires Grows(s, s') && OwnEntry(s, t, n)
    ensures OwnEntry(s', t, n) && Through(s', t, n) == Through(s, t, n)
  {
  }

  lemma StillGenuine(s: Protocol, s': Protocol, l: Log)
    requires Grows(s, s') && Genuine(s, l)
    ensures Genuine(s', l)
  {
  }

  lemma PrefixGenuine(s: Protocol, l: Log, n: nat)
    requires Genuine(s, l) && 0 < n <= |l|
    ensures Genuine(s, l[..n])
  {
    forall k | 0 < k < n ensures l[..n][..k + 1] <= s.leaders[l[k].term].log {
      assert l[..n][..k + 1] == l[..k + 1];
    }
  }

  lemma LogsStillGenuine(s: Protocol, s': Protocol)
    requires LogsGenuine(s) && Grows(s, s')
    requires forall v :: 0 <= v < |s'.logs| ==> s'.logs[v] == s.logs[v] || Genuine(s', s'.logs[v])
    requires forall t :: t in s'.leaders ==>
               (t in s.leaders && s'.leaders[t].log == s.leaders[t].log) || Genuine(s', s'.leaders[t].log)
    requires s'.stands == s.stands
    ensures LogsGenuine(s')
  {
    forall v | 0 <= v < |s.logs| ensures Genuine(s', s.logs[v]) { StillGenuine(s, s', s.logs[v]); }
    forall t | t in s.leaders ensures Genuine(s', s.leaders[t].log) { StillGenuine(s, s', s.leaders[t].log); }
    forall p | p in s.stands ensures Genuine(s', s.stands[p]) { StillGenuine(s, s', s.stands[p]); }
  }

  /** The terms of a genuine log never decrease. */
  lemma TermsSorted(s: Protocol, l: Log, i: nat, k: nat)
    requires TermsBounded(s) && Genuine(s, l) && i <= k < |l|
    ensures l[i].term <= l[k].term
  {
    if 0 < k {
      var t := l[k].term;
      assert l[..k + 1][i] == l[i];
      assert s.leaders[t].log[i] == l[i];
    }
  }

  /** Two genuine logs with the same term at the same index agree up to it (Log Matching). */
  lemma GenuineAgree(s: Protocol, a: Log, b: Log, k: nat)
    requires Genuine(s, a) && Genuine(s, b) && k < |a| && k < |b| && a[k].term == b[k].term
    ensures a[..k + 1] == b[..k + 1]
  {
    if k == 0 {
      assert a[..1] == [SENTINEL] == b[..1];
    } else {
      var l := s.leaders[a[k].term].log;
      assert a[..k + 1] == l[..k + 1] == b[..k + 1];
    }
  }

  /** What is already on record stays safe; only new leaders and new entries need an argument. */
  lemma CompleteBefore(s: Protocol, s': Protocol, t: nat, u: nat, n: nat)
    requires LeadersComplete(s) && Grows(s, s')
    requires OwnEntry(s, t, n) && u in s.leaders && t < u && Choosable(s', t, n)
    ensures Through(s', t, n) <= s'.leaders[u].log
  {
    ChoosableBefore(s, s', t, n);
    StillOwn(s, s', t, n);
  }

  lemma VotesKeepBefore(s: Protocol, s': Protocol, v: nat, u: nat, t: nat, n: nat)
    requires VotesOk(s) && VotesKeep(s) && Grows(s, s')
    requires (v, u) in s.votes && t < u && OwnEntry(s, t, n) && Choosable(s', t, n) && Acked(s', v, t, n)
    ensures (u, s'.votes[(v, u)]) in s'.stands && Through(s', t, n) <= s'.stands[(u, s'.votes[(v, u)])]
  {
    ChoosableBefore(s, s', t, n);
    StillOwn(s, s', t, n);
    assert Acked(s, v, t, n);
  }

  /** No log changes. */
  lemma StillLogsGenuine(s: Protocol, s': Protocol)
    requires LogsGenuine(s) && s'.logs == s.logs && s'.leaders == s.leaders && s'.stands == s.stands
    ensures LogsGenuine(s')
  {
    forall v | 0 <= v < |s.logs| ensures Genuine(s', s.logs[v]) { assert Genuine(s, s.logs[v]); }
    forall t | t in s.leaders ensures Genuine(s', s.leaders[t].log) { assert Genuine(s, s.leaders[t].log); }
    forall p | p in s.stands ensures Genuine(s', s.stands[p]) { assert Genuine(s, s.stands[p]); }
  }

  /** No vote is added: who elected whom stays as it was. */
  lemma FreshStays(s: Protocol, s': Protocol)
    requires VotesFresh(s) && Grows(s, s') && s'.votes == s.votes && s'.stands == s.stands
    ensures VotesFresh(s')
  {
    forall w: nat, r: nat, k: nat |
      ((w, r) in s'.votes && (r, s'.votes[(w, r)]) in s'.stands && 0 < k < |s'.stands[(r, s'.votes[(w, r)])]|)
      ensures FreshAt(s', w, r, s'.stands[(r, s'.votes[(w, r)])][k].term)
    {
      var u := s.stands[(r, s.votes[(w, r)])][k].term;
      assert FreshAt(s, w, r, u);
      assert ReignGrows(s.leaders[u], s'.leaders[u]);
    }
  }

  // ----- standing -----

  lemma StandGrows(s: Protocol, c: nat)
    requires Shape(s) && StandsOk(s) && VotesOk(s) && CanStand(s, c)
    ensures Grows(s, Stand(s, c))
  {
  }

  /** Steps that touch neither logs nor acknowledgements: standing, voting, learning a term. */
  ghost predicate Quiet(s: Protocol, s': Protocol) {
    Grows(s, s') && s'.leaders == s.leaders && s'.acks == s.acks && s'.logs == s.logs
  }

  lemma QuietAcksKept(s: Protocol, s': Protocol)
    requires AcksKept(s) && Quiet(s, s')
    ensures AcksKept(s')
  {
    forall v: nat, t: nat, n: nat | Acked(s', v, t, n) && v < |s'.logs| && OwnEntry(s', t, n) && Choosable(s', t, n)
      ensures Through(s', t, n) <= s'.logs[v]
    {
      ChoosableBefore(s, s', t, n);
      assert Acked(s, v, t, n) && OwnEntry(s, t, n);
    }
  }

  lemma QuietKeeps(s: Protocol, s': Protocol)
    requires Inv(s) && Quiet(s, s')
    ensures AcksKept(s') && LeadersComplete(s')
  {
    QuietAcksKept(s, s');
    forall t: nat, u: nat, n: nat | u in s'.leaders && t < u && OwnEntry(s', t, n) && Choosable(s', t, n)
      ensures Through(s', t, n) <= s'.leaders[u].log
    {
      assert OwnEntry(s, t, n);
      CompleteBefore(s, s', t, u, n);
    }
  }

  lemma StandVotesKeep(s: Protocol, c: nat)
    requires Inv(s) && CanStand(s, c)
    ensures VotesKeep(Stand(s, c))
  {
    var s' := Stand(s, c);
    StandGrows(s, c);
    forall v: nat, u: nat, t: nat, n: nat |
      (v, u) in s'.votes && Acked(s', v, t, n) && t < u && OwnEntry(s', t, n) && Choosable(s', t, n)
        && (u, s'.votes[(v, u)]) in s'.stands
      ensures Through(s', t, n) <= s'.stands[(u, s'.votes[(v, u)])]
    {
      assert OwnEntry(s, t, n);
      if (v, u) in s.votes {
        VotesKeepBefore(s, s', v, u, t, n);
      } else {
        ChoosableBefore(s, s', t, n);
        assert Acked(s, v, t, n);
      }
    }
  }

  lemma StandVotesFresh(s: Protocol, c: nat)
    requires Inv(s) && CanStand(s, c)
    ensures VotesFresh(Stand(s, c))
  {
    var s' := Stand(s, c);
    forall v: nat, t: nat, k: nat |
      ((v, t) in s'.votes && (t, s'.votes[(v, t)]) in s'.stands && 0 < k < |s'.stands[(t, s'.votes[(v, t)])]|)
      ensures FreshAt(s', v, t, s'.stands[(t, s'.votes[(v, t)])][k].term)
    {
      if (v, t) in s.votes {
        assert FreshAt(s, v, t, s.stands[(t, s.votes[(v, t)])][k].term);
      } else {
        assert Genuine(s, s.logs[c]);
      }
    }
  }

  lemma StandVoters(s: Protocol, c: nat)
    requires Shape(s) && StandsOk(s) && VotesOk(s) && CanStand(s, c)
    ensures StandsOk(Stand(s, c)) && VotesOk(Stand(s, c))
  {
  }

  lemma StandReigns(s: Protocol, c: nat)
    requires Shape(s) && StandsOk(s) && VotesOk(s) && LeadersOk(s) && CanStand(s, c)
    ensures LeadersOk(Stand(s, c))
  {
  }

  lemma StandAcks(s: Protocol, c: nat)
    requires Shape(s) && AcksOk(s) && CanStand(s, c)
    ensures AcksOk(Stand(s, c))
  {
  }

  lemma StandLogs(s: Protocol, c: nat)
    requires LogsGenuine(s) && TermsBounded(s) && CanStand(s, c)
    ensures LogsGenuine(Stand(s, c)) && TermsBounded(Stand(s, c))
  {
    assert Genuine(s, s.logs[c]);
  }

  lemma StandKeeps(s: Protocol, c: nat)
    requires Inv(s) && CanStand(s, c)
    ensures Inv(Stand(s, c))
  {
    StandGrows(s, c);
    StandVoters(s, c);
    StandReigns(s, c);
    StandAcks(s, c);
    StandLogs(s, c);
    QuietKeeps(s, Stand(s, c));
    StandVotesKeep(s, c);
    StandVotesFresh(s, c);
  }

  // ----- voting -----

  /** Of two prefixes of one log, the one that ends in a term the other never reaches is longer. */
  lemma LongerByTerm(l: Log, p: Log, a: Log, t: nat)
    requires p <= l && a <= l && |a| > 0 && LastTerm(a) > t
    requires forall i :: 0 <= i < |p| ==> p[i].term <= t
    ensures p <= a
  {
    var k := |a| - 1;
    assert a[k] == l[k];
    assert forall i :: 0 <= i < |p| ==> p[i] == l[i];
  }

  /** The up-to-date check: a candidate that passes it has every choosable entry its voter has. */
  lemma UpToDateKeeps(s: Protocol, a: Log, b: Log, t: nat, n: nat)
    requires TermsBounded(s) && LeadersComplete(s)
    requires Genuine(s, a) && Genuine(s, b) && UpToDate(a, b)
    requires OwnEntry(s, t, n) && Choosable(s, t, n) && Through(s, t, n) <= b
    ensures Through(s, t, n) <= a
  {
    var p, k := Through(s, t, n), |a| - 1;
    assert b[n] == p[n];
    TermsSorted(s, b, n, |b| - 1);
    var u := a[k].term;
    assert a == a[..k + 1] <= s.leaders[u].log;
    if t < u {
      LongerByTerm(s.leaders[u].log, p, a, t);
    }
  }

  lemma VoteGrows(s: Protocol, v: nat, t: nat, c: nat)
    requires Shape(s) && AcksOk(s) && CanVote(s, v, t, c)
    ensures Grows(s, Vote(s, v, t, c))
  {
  }

  lemma VoteVotesKeep(s: Protocol, v: nat, t: nat, c: nat)
    requires Inv(s) && CanVote(s, v, t, c)
    ensures VotesKeep(Vote(s, v, t, c))
  {
    var s' := Vote(s, v, t, c);
    VoteGrows(s, v, t, c);
    forall w: nat, u: nat, r: nat, n: nat |
      (w, u) in s'.votes && Acked(s', w, r, n) && r < u && OwnEntry(s', r, n) && Choosable(s', r, n)
        && (u, s'.votes[(w, u)]) in s'.stands
      ensures Through(s', r, n) <= s'.stands[(u, s'.votes[(w, u)])]
    {
      assert OwnEntry(s, r, n) && Acked(s, w, r, n);
      if (w, u) in s.votes {
        VotesKeepBefore(s, s', w, u, r, n);
      } else {
        ChoosableBefore(s, s', r, n);
        assert Through(s, r, n) <= s.logs[v];
        UpToDateKeeps(s, s.stands[(t, c)], s.logs[v], r, n);
      }
    }
  }

  lemma VoteVotesFresh(s: Protocol, v: nat, t: nat, c: nat)
    requires Inv(s) && CanVote(s, v, t, c)
    ensures VotesFresh(Vote(s, v, t, c))
  {
    var s' := Vote(s, v, t, c);
    forall w: nat, r: nat, k: nat |
      ((w, r) in s'.votes && (r, s'.votes[(w, r)]) in s'.stands && 0 < k < |s'.stands[(r, s'.votes[(w, r)])]|)
      ensures FreshAt(s', w, r, s'.stands[(r, s'.votes[(w, r)])][k].term)
    {
      if (w, r) in s.votes {
        assert FreshAt(s, w, r, s.stands[(r, s.votes[(w, r)])][k].term);
      } else {
        var u := s.stands[(t, c)][k].term;
        assert Genuine(s, s.stands[(t, c)]);
        assert FreshAt(s, c, t, u);  // from the candidate's vote for itself
      }
    }
  }

  lemma VoteVoters(s: Protocol, v: nat, t: nat, c: nat)
    requires Shape(s) && StandsOk(s) && VotesOk(s) && CanVote(s, v, t, c)
    ensures StandsOk(Vote(s, v, t, c)) && VotesOk(Vote(s, v, t, c))
  {
  }

  lemma VoteReigns(s: Protocol, v: nat, t: nat, c: nat)
    requires Shape(s) && LeadersOk(s) && CanVote(s, v, t, c)
    ensures LeadersOk(Vote(s, v, t, c))
  {
  }

  lemma VoteAcks(s: Protocol, v: nat, t: nat, c: nat)
    requires Shape(s) && AcksOk(s) && CanVote(s, v, t, c)
    ensures AcksOk(Vote(s, v, t, c))
  {
  }

  lemma VoteLogs(s: Protocol, v: nat, t: nat, c: nat)
    requires LogsGenuine(s) && TermsBounded(s) && CanVote(s, v, t, c)
    ensures LogsGenuine(Vote(s, v, t, c)) && TermsBounded(Vote(s, v, t, c))
  {
    assert LogsGenuine(Vote(s, v, t, c)) by {
      StillLogsGenuine(s, Vote(s, v, t, c));
    }
  }

  lemma VoteKeeps(s: Protocol, v: nat, t: nat, c: nat)
    requires Inv(s) && CanVote(s, v, t, c)
    ensures Inv(Vote(s, v, t, c))
  {
    VoteGrows(s, v, t, c);
    VoteVoters(s, v, t, c);
    VoteReigns(s, v, t, c);
    VoteAcks(s, v, t, c);
    VoteLogs(s, v, t, c);
    QuietKeeps(s, Vote(s, v, t, c));
    VoteVotesKeep(s, v, t, c);
    VoteVotesFresh(s, v, t, c);
  }

  // ----- learning a later term -----

  lemma LearnGrows(s: Protocol, v: nat, t: nat)
    requires Shape(s) && AcksOk(s) && CanLearn(s, v, t)
    ensures Grows(s, Learn(s, v, t))
  {
  }

  lemma LearnVoters(s: Protocol, v: nat, t: nat)
    requires Shape(s) && StandsOk(s) && VotesOk(s) && CanLearn(s, v, t)
    ensures StandsOk(Learn(s, v, t)) && VotesOk(Learn(s, v, t))
  {
  }

  lemma LearnReigns(s: Protocol, v: nat, t: nat)
    requires Shape(s) && LeadersOk(s) && CanLearn(s, v, t)
    ensures LeadersOk(Learn(s, v, t))
  {
  }

  lemma LearnAcks(s: Protocol, v: nat, t: nat)
    requires Shape(s) && AcksOk(s) && CanLearn(s, v, t)
    ensures AcksOk(Learn(s, v, t))
  {
  }

  lemma LearnLogs(s: Protocol, v: nat, t: nat)
    requires LogsGenuine(s) && TermsBounded(s) && CanLearn(s, v, t)
    ensures LogsGenuine(Learn(s, v, t)) && TermsBounded(Learn(s, v, t))
  {
    StillLogsGenuine(s, Learn(s, v, t));
  }

  lemma LearnVotesKeep(s: Protocol, v: nat, t: nat)
    requires Inv(s) && CanLearn(s, v, t)
    ensures VotesKeep(Learn(s, v, t))
  {
    var s' := Learn(s, v, t);
    LearnGrows(s, v, t);
    forall w: nat, u: nat, r: nat, n: nat |
      (w, u) in s'.votes && Acked(s', w, r, n) && r < u && OwnEntry(s', r, n) && Choosable(s', r, n)
        && (u, s'.votes[(w, u)]) in s'.stands
      ensures Through(s', r, n) <= s'.stands[(u, s'.votes[(w, u)])]
    {
      assert OwnEntry(s, r, n);
      VotesKeepBefore(s, s', w, u, r, n);
    }
  }

  lemma LearnKeeps(s: Protocol, v: nat, t: nat)
    requires Inv(s) && CanLearn(s, v, t)
    ensures Inv(Learn(s, v, t))
  {
    LearnGrows(s, v, t);
    LearnVoters(s, v, t);
    LearnReigns(s, v, t);
    LearnAcks(s, v, t);
    LearnLogs(s, v, t);
    QuietKeeps(s, Learn(s, v, t));
    LearnVotesKeep(s, v, t);
    FreshStays(s, Learn(s, v, t));
  }

  // ----- winning an election -----

  /** No node wins with a log that already reaches its own term. */
  lemma WinnerBehind(s: Protocol, c: nat, q: set<nat>, k: nat)
    requires Inv(s) && CanElect(s, c, q) && 0 < k < |s.logs[c]|
    ensures s.logs[c][k].term < s.terms[c]
  {
    var t, u := s.terms[c], s.logs[c][k].term;
    assert Genuine(s, s.logs[c]);
    var v := QuorumsMeet(q, s.leaders[u].voters, s.Size());
    assert FreshAt(s, v, t, s.stands[(t, c)][k].term);
  }

  lemma ElectGrows(s: Protocol, c: nat, q: set<nat>)
    requires Shape(s) && AcksOk(s) && CanElect(s, c, q)
    ensures Grows(s, Elect(s, c, q))
  {
    assert (c, s.terms[c]) !in s.acks;
  }

  lemma ElectOwnEntry(s: Protocol, c: nat, q: set<nat>, t: nat, n: nat)
    requires Inv(s) && CanElect(s, c, q) && OwnEntry(Elect(s, c, q), t, n)
    ensures t != s.terms[c] && OwnEntry(s, t, n)
  {
    if t == s.terms[c] {
      WinnerBehind(s, c, q, n);
    }
  }

  lemma ElectComplete(s: Protocol, c: nat, q: set<nat>)
    requires Inv(s) && CanElect(s, c, q)
    ensures LeadersComplete(Elect(s, c, q))
  {
    var s' := Elect(s, c, q);
    ElectGrows(s, c, q);
    forall t: nat, u: nat, n: nat | u in s'.leaders && t < u && OwnEntry(s', t, n) && Choosable(s', t, n)
      ensures Through(s', t, n) <= s'.leaders[u].log
    {
      ElectOwnEntry(s, c, q, t, n);
      if u in s.leaders {
        CompleteBefore(s, s', t, u, n);
      } else {
        ElectedComplete(s, c, q, t, n);
      }
    }
  }

  /** The new leader has what could still be chosen: one of its voters acknowledged it before voting. */
  lemma ElectedComplete(s: Protocol, c: nat, q: set<nat>, t: nat, n: nat)
    requires Inv(s) && CanElect(s, c, q) && OwnEntry(s, t, n) && t < s.terms[c] && Choosable(Elect(s, c, q), t, n)
    ensures Through(s, t, n) <= s.logs[c]
  {
    var u := s.terms[c];
    ElectGrows(s, c, q);
    ChoosableBefore(s, Elect(s, c, q), t, n);
    var q' :| MayAckAll(Elect(s, c, q), q', t, n);
    var v := QuorumsMeet(q, q', s.Size());
    assert MayAck(Elect(s, c, q), v, t, n);
    assert Acked(s, v, t, n);
    assert Through(s, t, n) <= s.stands[(u, s.votes[(v, u)])];
  }

  lemma ElectAcksKept(s: Protocol, c: nat, q: set<nat>)
    requires Inv(s) && CanElect(s, c, q)
    ensures AcksKept(Elect(s, c, q))
  {
    var s' := Elect(s, c, q);
    ElectGrows(s, c, q);
    forall v: nat, t: nat, n: nat | Acked(s', v, t, n) && v < |s'.logs| && OwnEntry(s', t, n) && Choosable(s', t, n)
      ensures Through(s', t, n) <= s'.logs[v]
    {
      ElectOwnEntry(s, c, q, t, n);
      ChoosableBefore(s, s', t, n);
      assert Acked(s, v, t, n);
    }
  }

  lemma ElectVotesKeep(s: Protocol, c: nat, q: set<nat>)
    requires Inv(s) && CanElect(s, c, q)
    ensures VotesKeep(Elect(s, c, q))
  {
    var s' := Elect(s, c, q);
    ElectGrows(s, c, q);
    forall w: nat, u: nat, r: nat, n: nat |
      (w, u) in s'.votes && Acked(s', w, r, n) && r < u && OwnEntry(s', r, n) && Choosable(s', r, n)
        && (u, s'.votes[(w, u)]) in s'.stands
      ensures Through(s', r, n) <= s'.stands[(u, s'.votes[(w, u)])]
    {
      ElectOwnEntry(s, c, q, r, n);
      VotesKeepBefore(s, s', w, u, r, n);
    }
  }

  lemma ElectLogs(s: Protocol, c: nat, q: set<nat>)
    requires LogsGenuine(s) && TermsBounded(s) && CanElect(s, c, q)
    requires forall k :: 0 < k < |s.logs[c]| ==> s.logs[c][k].term < s.terms[c]
    ensures LogsGenuine(Elect(s, c, q)) && TermsBounded(Elect(s, c, q))
  {
    assert Genuine(s, s.logs[c]);
  }

  lemma WinnerBehindAll(s: Protocol, c: nat, q: set<nat>)
    requires Inv(s) && CanElect(s, c, q)
    ensures forall k :: 0 < k < |s.logs[c]| ==> s.logs[c][k].term < s.terms[c]
  {
    forall k | 0 < k < |s.logs[c]| ensures s.logs[c][k].term < s.terms[c] {
      WinnerBehind(s, c, q, k);
    }
  }

  lemma ElectVoters(s: Protocol, c: nat, q: set<nat>)
    requires Shape(s) && StandsOk(s) && VotesOk(s) && CanElect(s, c, q)
    ensures StandsOk(Elect(s, c, q)) && VotesOk(Elect(s, c, q))
  {
  }

  lemma ElectReigns(s: Protocol, c: nat, q: set<nat>)
    requires Shape(s) && LeadersOk(s) && CanElect(s, c, q)
    ensures LeadersOk(Elect(s, c, q))
  {
    assert s.stands[(s.terms[c], c)] <= s.logs[c];
  }

  lemma ElectAcks(s: Protocol, c: nat, q: set<nat>)
    requires Shape(s) && AcksOk(s) && CanElect(s, c, q)
    ensures AcksOk(Elect(s, c, q))
  {
  }

  lemma ElectKeeps(s: Protocol, c: nat, q: set<nat>)
    requires Inv(s) && CanElect(s, c, q)
    ensures Inv(Elect(s, c, q))
  {
    ElectGrows(s, c, q);
    ElectVoters(s, c, q);
    ElectReigns(s, c, q);
    ElectAcks(s, c, q);
    ElectComplete(s, c, q);
    ElectAcksKept(s, c, q);
    ElectVotesKeep(s, c, q);
    FreshStays(s, Elect(s, c, q));
    WinnerBehindAll(s, c, q);
    ElectLogs(s, c, q);
  }

  // ----- appending -----

  lemma AppendGrows(s: Protocol, c: nat, cmd: Option<Command>)
    requires Shape(s) && AcksOk(s) && CanAppend(s, c)
    ensures Grows(s, Append(s, c, cmd))
  {
  }

  lemma AppendedGenuine(s: Protocol, s': Protocol, l: Log, e: LogEntry)
    requires Grows(s, s') && Genuine(s, l) && e.term in s'.leaders && s'.leaders[e.term].log == l + [e]
    ensures Genuine(s', l + [e])
  {
    var m := l + [e];
    forall k | 0 < k < |m| ensures m[k].term in s'.leaders && m[..k + 1] <= s'.leaders[m[k].term].log {
      if k < |l| {
        assert m[..k + 1] == l[..k + 1] && m[k] == l[k];
        assert l[..k + 1] <= s.leaders[l[k].term].log;
      }
    }
  }

  lemma AppendLogs(s: Protocol, c: nat, cmd: Option<Command>)
    requires LogsGenuine(s) && CanAppend(s, c) && Grows(s, Append(s, c, cmd))
    ensures LogsGenuine(Append(s, c, cmd))
  {
    assert Genuine(s, s.logs[c]);
    AppendedGenuine(s, Append(s, c, cmd), s.logs[c], LogEntry(s.terms[c], cmd));
    LogsStillGenuine(s, Append(s, c, cmd));
  }

  lemma AppendBounded(s: Protocol, c: nat, cmd: Option<Command>)
    requires TermsBounded(s) && CanAppend(s, c)
    ensures TermsBounded(Append(s, c, cmd))
  {
  }

  /** An entry of the new state is an old entry, or the one just appended, acknowledged by c alone. */
  lemma AppendEntry(s: Protocol, c: nat, cmd: Option<Command>, v: nat, t: nat, n: nat)
    requires Inv(s) && CanAppend(s, c) && OwnEntry(Append(s, c, cmd), t, n)
    ensures OwnEntry(s, t, n) || (t == s.terms[c] && n == |s.logs[c]|)
    ensures !OwnEntry(s, t, n) && Acked(Append(s, c, cmd), v, t, n) ==> v == c
  {
  }

  lemma AppendAckedBefore(s: Protocol, c: nat, cmd: Option<Command>, v: nat, t: nat, n: nat)
    requires Shape(s) && AcksKept(s) && CanAppend(s, c) && Grows(s, Append(s, c, cmd)) && v < |s.logs|
    requires Acked(Append(s, c, cmd), v, t, n) && OwnEntry(s, t, n) && (v != c || t != s.terms[c])
    requires Choosable(Append(s, c, cmd), t, n)
    ensures OwnEntry(Append(s, c, cmd), t, n) && Through(Append(s, c, cmd), t, n) <= Append(s, c, cmd).logs[v]
  {
    ChoosableBefore(s, Append(s, c, cmd), t, n);
    assert Acked(s, v, t, n);
    assert Through(s, t, n) <= s.logs[v] <= Append(s, c, cmd).logs[v];
  }

  lemma AppendOwnKept(s: Protocol, c: nat, cmd: Option<Command>, n: nat)
    requires CanAppend(s, c) && OwnEntry(Append(s, c, cmd), s.terms[c], n)
    ensures Through(Append(s, c, cmd), s.terms[c], n) <= Append(s, c, cmd).logs[c]
  {
  }

  lemma AppendKeepsAcked(s: Protocol, c: nat, cmd: Option<Command>, v: nat, t: nat, n: nat)
    requires Inv(s) && CanAppend(s, c) && v < |Append(s, c, cmd).logs|
    requires Acked(Append(s, c, cmd), v, t, n) && OwnEntry(Append(s, c, cmd), t, n)
    requires Choosable(Append(s, c, cmd), t, n)
    ensures Through(Append(s, c, cmd), t, n) <= Append(s, c, cmd).logs[v]
  {
    if v == c && t == s.terms[c] {
      AppendOwnKept(s, c, cmd, n);
    } else {
      AppendGrows(s, c, cmd);
      AppendEntry(s, c, cmd, v, t, n);
      AppendAckedBefore(s, c, cmd, v, t, n);
    }
  }

  lemma AppendAcksKept(s: Protocol, c: nat, cmd: Option<Command>)
    requires Inv(s) && CanAppend(s, c)
    ensures AcksKept(Append(s, c, cmd))
  {
    var s' := Append(s, c, cmd);
    forall v: nat, t: nat, n: nat | Acked(s', v, t, n) && v < |s'.logs| && OwnEntry(s', t, n) && Choosable(s', t, n)
      ensures Through(s', t, n) <= s'.logs[v]
    {
      AppendKeepsAcked(s, c, cmd, v, t, n);
    }
  }

  lemma AppendComplete(s: Protocol, c: nat, cmd: Option<Command>)
    requires Inv(s) && CanAppend(s, c)
    ensures LeadersComplete(Append(s, c, cmd))
  {
    var s' := Append(s, c, cmd);
    AppendGrows(s, c, cmd);
    forall t: nat, u: nat, n: nat | u in s'.leaders && t < u && OwnEntry(s', t, n) && Choosable(s', t, n)
      ensures Through(s', t, n) <= s'.leaders[u].log
    {
      var q :| MayAckAll(s', q, t, n);
      var v := QuorumsMeet(q, s.leaders[u].voters, s.Size());
      assert MayAck(s', v, t, n) && (v, u) in s.votes;
      AppendEntry(s, c, cmd, v, t, n);
      CompleteBefore(s, s', t, u, n);
    }
  }

  lemma AppendVotesKeep(s: Protocol, c: nat, cmd: Option<Command>)
    requires Inv(s) && CanAppend(s, c)
    ensures VotesKeep(Append(s, c, cmd))
  {
    var s' := Append(s, c, cmd);
    AppendGrows(s, c, cmd);
    forall w: nat, u: nat, r: nat, n: nat |
      (w, u) in s'.votes && Acked(s', w, r, n) && r < u && OwnEntry(s', r, n) && Choosable(s', r, n)
        && (u, s'.votes[(w, u)]) in s'.stands
      ensures Through(s', r, n) <= s'.stands[(u, s'.votes[(w, u)])]
    {
      AppendEntry(s, c, cmd, w, r, n);
      VotesKeepBefore(s, s', w, u, r, n);
    }
  }

  lemma AppendVoters(s: Protocol, c: nat, cmd: Option<Command>)
    requires Shape(s) && StandsOk(s) && VotesOk(s) && CanAppend(s, c)
    ensures StandsOk(Append(s, c, cmd)) && VotesOk(Append(s, c, cmd))
  {
  }

  lemma AppendReigns(s: Protocol, c: nat, cmd: Option<Command>)
    requires Shape(s) && LeadersOk(s) && CanAppend(s, c)
    ensures LeadersOk(Append(s, c, cmd))
  {
    assert s.logs[c] <= s.logs[c] + [LogEntry(s.terms[c], cmd)];
  }

  lemma AppendAcks(s: Protocol, c: nat, cmd: Option<Command>)
    requires Shape(s) && AcksOk(s) && CanAppend(s, c)
    ensures AcksOk(Append(s, c, cmd))
  {
  }

  lemma AppendKeeps(s: Protocol, c: nat, cmd: Option<Command>)
    requires Inv(s) && CanAppend(s, c)
    ensures Inv(Append(s, c, cmd))
  {
    AppendGrows(s, c, cmd);
    AppendVoters(s, c, cmd);
    AppendReigns(s, c, cmd);
    AppendAcks(s, c, cmd);
    AppendLogs(s, c, cmd);
    AppendBounded(s, c, cmd);
    AppendAcksKept(s, c, cmd);
    AppendComplete(s, c, cmd);
    AppendVotesKeep(s, c, cmd);
    FreshStays(s, Append(s, c, cmd));
  }

  // ----- accepting entries -----

  /** Splicing a piece of src into a log that agrees with src so far. */
  lemma {:induction false} SpliceResult(s: Protocol, l: Log, src: Log, at: nat, end: nat)
    requires Genuine(s, l) && Genuine(s, src)
    requires at <= end <= |src| && at <= |l| && l[..at] == src[..at]
    ensures src[..end] <= Splice(l, at, src[at..end])
    ensures Splice(l, at, src[at..end]) == l || Splice(l, at, src[at..end]) == src[..end]
    ensures Splice(l, at, src[at..end]) != l ==>
              exists i :: at <= i < end && i <= |l| && l[..i] == src[..i] && (i == |l| || l[i] != src[i])
    decreases end - at
  {
    var es := src[at..end];
    if es != [] && at < |l| && l[at].term == es[0].term {
      GenuineAgree(s, l, src, at);
      assert es[1..] == src[at + 1..end];
      SpliceResult(s, l, src, at + 1, end);
    } else if es != [] {
      assert l[..at] + es == src[..end];
    }
  }

  /** Merging leaves the log alone when it already agrees, and otherwise copies the source. */
  lemma MergeResult(s: Protocol, l: Log, src: Log, prev: nat, last: nat)
    requires Genuine(s, l) && Genuine(s, src)
    requires prev <= last < |src| && prev < |l| && l[prev].term == src[prev].term
    ensures src[..last + 1] <= Merge(l, src, prev, last)
    ensures Merge(l, src, prev, last) == l || Merge(l, src, prev, last) == src[..last + 1]
  {
    GenuineAgree(s, l, src, prev);
    SpliceResult(s, l, src, prev + 1, last + 1);
  }

  /** Merging never cuts into a prefix that both logs share. */
  lemma MergeKeepsCommon(s: Protocol, l: Log, src: Log, prev: nat, last: nat, p: Log)
    requires Genuine(s, l) && Genuine(s, src)
    requires prev <= last < |src| && prev < |l| && l[prev].term == src[prev].term
    requires p <= l && p <= src
    ensures p <= Merge(l, src, prev, last)
  {
    GenuineAgree(s, l, src, prev);
    SpliceResult(s, l, src, prev + 1, last + 1);
    assert forall j :: 0 <= j < |p| ==> p[j] == l[j];
    assert forall j :: 0 <= j < |p| ==> p[j] == src[j];
  }

  lemma AcceptGrows(s: Protocol, v: nat, t: nat, u: nat, prev: nat, last: nat)
    requires Shape(s) && AcksOk(s) && CanAccept(s, v, t, u, prev, last)
    ensures Grows(s, Accept(s, v, t, u, prev, last))
  {
  }

  lemma AcceptLogs(s: Protocol, v: nat, t: nat, u: nat, prev: nat, last: nat)
    requires Inv(s) && CanAccept(s, v, t, u, prev, last)
    ensures LogsGenuine(Accept(s, v, t, u, prev, last)) && TermsBounded(Accept(s, v, t, u, prev, last))
  {
    var s', src := Accept(s, v, t, u, prev, last), s.leaders[u].log;
    AcceptGrows(s, v, t, u, prev, last);
    MergeResult(s, s.logs[v], src, prev, last);
    PrefixGenuine(s, src, last + 1);
    StillGenuine(s, s', src[..last + 1]);
    LogsStillGenuine(s, s');
  }

  /** The accepting node still has whatever it acknowledged before and may yet be committed. */
  lemma AcceptKeepsAcked(s: Protocol, v: nat, t: nat, u: nat, prev: nat, last: nat, r: nat, n: nat)
    requires Shape(s) && LogsGenuine(s) && AcksOk(s) && AcksKept(s) && LeadersComplete(s)
    requires CanAccept(s, v, t, u, prev, last)
    requires Acked(s, v, r, n) && OwnEntry(s, r, n) && Choosable(s, r, n)
    ensures Through(s, r, n) <= Merge(s.logs[v], s.leaders[u].log, prev, last)
  {
    assert Through(s, r, n) <= s.logs[v];
    assert Through(s, r, n) <= s.leaders[u].log;
    MergeKeepsCommon(s, s.logs[v], s.leaders[u].log, prev, last, Through(s, r, n));
  }

  /** ... and so does it keep what it acknowledges now. */
  lemma AcceptKeepsNew(s: Protocol, v: nat, u: nat, prev: nat, last: nat, n: nat)
    requires LogsGenuine(s) && CanAccept(s, v, u, u, prev, last)
    requires OwnEntry(s, u, n) && n <= last
    ensures Through(s, u, n) <= Merge(s.logs[v], s.leaders[u].log, prev, last)
  {
    var src := s.leaders[u].log;
    MergeResult(s, s.logs[v], src, prev, last);
    assert src[..n + 1] <= src[..last + 1];
  }

  lemma AcceptAcksKept(s: Protocol, v: nat, t: nat, u: nat, prev: nat, last: nat)
    requires Shape(s) && LogsGenuine(s) && AcksOk(s) && AcksKept(s) && LeadersComplete(s)
    requires CanAccept(s, v, t, u, prev, last) && Grows(s, Accept(s, v, t, u, prev, last))
    ensures AcksKept(Accept(s, v, t, u, prev, last))
  {
    var s' := Accept(s, v, t, u, prev, last);
    forall w: nat, r: nat, n: nat | Acked(s', w, r, n) && w < |s'.logs| && OwnEntry(s', r, n) && Choosable(s', r, n)
      ensures Through(s', r, n) <= s'.logs[w]
    {
      ChoosableBefore(s, s', r, n);
      assert OwnEntry(s, r, n);
      if !Acked(s, w, r, n) {
        AcceptKeepsNew(s, v, u, prev, last, n);
      } else if w == v {
        AcceptKeepsAcked(s, v, t, u, prev, last, r, n);
      }
    }
  }

  lemma AcceptComplete(s: Protocol, v: nat, t: nat, u: nat, prev: nat, last: nat)
    requires Inv(s) && CanAccept(s, v, t, u, prev, last)
    ensures LeadersComplete(Accept(s, v, t, u, prev, last))
  {
    var s' := Accept(s, v, t, u, prev, last);
    AcceptGrows(s, v, t, u, prev, last);
    forall r: nat, x: nat, n: nat | x in s'.leaders && r < x && OwnEntry(s', r, n) && Choosable(s', r, n)
      ensures Through(s', r, n) <= s'.leaders[x].log
    {
      assert OwnEntry(s, r, n);
      CompleteBefore(s, s', r, x, n);
    }
  }

  lemma AcceptVotesKeep(s: Protocol, v: nat, t: nat, u: nat, prev: nat, last: nat)
    requires Inv(s) && CanAccept(s, v, t, u, prev, last)
    ensures VotesKeep(Accept(s, v, t, u, prev, last))
  {
    var s' := Accept(s, v, t, u, prev, last);
    AcceptGrows(s, v, t, u, prev, last);
    forall w: nat, x: nat, r: nat, n: nat |
      (w, x) in s'.votes && Acked(s', w, r, n) && r < x && OwnEntry(s', r, n) && Choosable(s', r, n)
        && (x, s'.votes[(w, x)]) in s'.stands
      ensures Through(s', r, n) <= s'.stands[(x, s'.votes[(w, x)])]
    {
      assert OwnEntry(s, r, n);
      VotesKeepBefore(s, s', w, x, r, n);
    }
  }

  lemma AcceptVoters(s: Protocol, v: nat, t: nat, u: nat, prev: nat, last: nat)
    requires Shape(s) && StandsOk(s) && VotesOk(s) && CanAccept(s, v, t, u, prev, last)
    ensures StandsOk(Accept(s, v, t, u, prev, last)) && VotesOk(Accept(s, v, t, u, prev, last))
  {
  }

  lemma AcceptReigns(s: Protocol, v: nat, t: nat, u: nat, prev: nat, last: nat)
    requires Shape(s) && LeadersOk(s) && CanAccept(s, v, t, u, prev, last)
    ensures LeadersOk(Accept(s, v, t, u, prev, last))
  {
  }

  lemma AcceptAcks(s: Protocol, v: nat, t: nat, u: nat, prev: nat, last: nat)
    requires Shape(s) && AcksOk(s) && CanAccept(s, v, t, u, prev, last)
    ensures AcksOk(Accept(s, v, t, u, prev, last))
  {
  }

  lemma AcceptKeeps(s: Protocol, v: nat, t: nat, u: nat, prev: nat, last: nat)
    requires Inv(s) && CanAccept(s, v, t, u, prev, last)
    ensures Inv(Accept(s, v, t, u, prev, last))
  {
    AcceptGrows(s, v, t, u, prev, last);
    AcceptVoters(s, v, t, u, prev, last);
    AcceptReigns(s, v, t, u, prev, last);
    AcceptAcks(s, v, t, u, prev, last);
    AcceptLogs(s, v, t, u, prev, last);
    AcceptAcksKept(s, v, t, u, prev, last);
    AcceptComplete(s, v, t, u, prev, last);
    AcceptVotesKeep(s, v, t, u, prev, last);
    FreshStays(s, Accept(s, v, t, u, prev, last));
  }

  // ----- each step at a glance -----

  /** Node i takes no part in the step from s to s'. */
  ghost predicate Spares(s: Protocol, s': Protocol, i: nat) {
    && i < s.Size() == s'.Size() == |s.logs| == |s'.logs|
    && s'.terms[i] == s.terms[i] && s'.logs[i] == s.logs[i]
    && (forall t: nat :: (i, t) in s'.votes ==> (i, t) in s.votes)
    && (forall t :: t in s'.leaders && s'.leaders[t].id == i ==> t in s.leaders && s'.leaders[t].log == s.leaders[t].log)
  }

  ghost predicate OnlyTouches(s: Protocol, s': Protocol, i: nat) {
    forall j :: 0 <= j < s.Size() && j != i ==> Spares(s, s', j)
  }

  lemma MoveTouches(s: Protocol, m: Move, i: nat)
    requires Shape(s) && Can(s, m) && (m.Idle? || i == Mover(m))
    ensures OnlyTouches(s, Do(s, m), i)
  {
  }

  lemma MoveGrows(s: Protocol, m: Move, i: nat)
    requires Inv(s) && Can(s, m) && (m.Idle? || i == Mover(m))
    ensures Grows(s, Do(s, m)) && OnlyTouches(s, Do(s, m), i)
  {
    MoveTouches(s, m, i);
    match m
    case Idle =>
    case Stands(c) => StandGrows(s, c);
    case Votes(v, t, c) => VoteGrows(s, v, t, c);
    case Elects(c, q) => ElectGrows(s, c, q);
    case Appends(c, cmd) => AppendGrows(s, c, cmd);
    case Accepts(v, t, u, prev, last) => AcceptGrows(s, v, t, u, prev, last);
    case Learns(v, t) => LearnGrows(s, v, t);
  }

  lemma MoveKeeps(s: Protocol, m: Move)
    requires Inv(s) && Can(s, m)
    ensures Inv(Do(s, m))
  {
    match m
    case Idle =>
    case Stands(c) => StandKeeps(s, c);
    case Votes(v, t, c) => VoteKeeps(s, v, t, c);
    case Elects(c, q) => ElectKeeps(s, c, q);
    case Appends(c, cmd) => AppendKeeps(s, c, cmd);
    case Accepts(v, t, u, prev, last) => AcceptKeeps(s, v, t, u, prev, last);
    case Learns(v, t) => LearnKeeps(s, v, t);
  }
}
