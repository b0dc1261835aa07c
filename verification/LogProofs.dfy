/** How steps change logs, ballots and acknowledgements, and why the log invariants survive. */
module LogProofs {
  import opened Types
  import opened NodeSpec
  import opened Cluster
  import opened Invariants
  import opened LogLemmas
  import opened ElectionProofs

  // ---------------------------------------------------------------- no log changes

  /** No log, leader record or acknowledgement changes; terms only grow. */
  ghost predicate KeepLogs(s: State, s': State) {
    && s'.members == s.members && s'.nodes.Keys == s.nodes.Keys
    && (forall i :: i in s.nodes ==> s'.nodes[i].log == s.nodes[i].log && s'.nodes[i].term >= s.nodes[i].term)
    && s'.past.logs == s.past.logs && s'.past.elected == s.past.elected && s'.past.acks == s.past.acks
  }

  lemma KeepNodeLogs(s: State, s': State)
    requires KeepLogs(s, s') && NodeLogs(s) && LeaderLogs(s) && Leaders(s) && Bases(s)
    ensures NodeLogs(s') && LeaderLogs(s') && Bases(s')
  {
  }

  lemma KeepAcks(s: State, s': State)
    requires KeepLogs(s, s') && AckBounds(s) && NodesKeep(s) && LeaderAcks(s)
    ensures AckBounds(s') && NodesKeep(s') && LeaderAcks(s')
  {
    forall k, n: nat | k in s'.past.acks && n <= s'.past.acks[k] && k.who in s'.nodes
      ensures Kept(s'.past, s'.nodes[k.who].log, k.term, n, s'.nodes[k.who].term)
    {
      assert Kept(s.past, s.nodes[k.who].log, k.term, n, s.nodes[k.who].term);
    }
  }

  /** Ballots stay as they are. */
  lemma KeepBallots(s: State, s': State)
    requires KeepLogs(s, s') && s'.past.ballots == s.past.ballots
    requires BallotLogs(s) && WinnersAhead(s) && BallotsKeep(s)
    ensures BallotLogs(s') && WinnersAhead(s') && BallotsKeep(s')
  {
    forall b, k, n: nat |
      BallotMatters(s', b) && k in s'.past.acks && k.who == b.who && k.term < b.term && n <= s'.past.acks[k]
      ensures BallotKeeps(s'.past, b, k.term, n)
    {
      assert BallotMatters(s, b);
      assert BallotKeeps(s.past, b, k.term, n);
    }
  }

  /** A server in its new term `t` casts its first ballot of that term with its current log. */
  ghost predicate NewBallot(s: State, s': State, v: Addr, t: nat, c: Addr) {
    && v in s'.nodes && s'.nodes[v].term == t && At(v, t) !in s.past.ballots
    && s'.past.ballots == s.past.ballots[At(v, t) := Ballot(c, s'.nodes[v].log)]
  }

  lemma CastBallots(s: State, s': State, v: Addr, t: nat, c: Addr)
    requires KeepLogs(s, s') && NewBallot(s, s', v, t, c)
    requires NodeLogs(s) && BallotLogs(s) && WinnersAhead(s) && BallotsKeep(s) && NodesKeep(s')
    requires QuorumsStick(s) && t >= 1
    ensures BallotLogs(s') && WinnersAhead(s') && BallotsKeep(s')
  {
    forall b, k, n: nat |
      BallotMatters(s', b) && k in s'.past.acks && k.who == b.who && k.term < b.term && n <= s'.past.acks[k]
      ensures BallotKeeps(s'.past, b, k.term, n)
    {
      if b == At(v, t) {
        assert t !in s.past.elected;
        assert Kept(s'.past, s'.nodes[v].log, k.term, n, t);
      } else {
        assert BallotMatters(s, b);
        assert BallotKeeps(s.past, b, k.term, n);
      }
    }
  }

  // ---------------------------------------------------------------- growing leader logs

  /** Leader logs grow, and only by entries of their own term. */
  ghost predicate LogsGrow(h: History, h': History) {
    && (forall t :: t in h.logs ==>
          && t in h'.logs && Same(h.logs[t], h'.logs[t], |h.logs[t]|)
          && forall k :: |h.logs[t]| <= k < |h'.logs[t]| ==> h'.logs[t][k].term == t)
    && (forall t :: t in h.elected ==> t in h'.elected)
  }

  lemma GroundedGrows(h: History, h': History, l: seq<Entry>)
    requires LogsGrow(h, h') && Grounded(h.logs, l)
    ensures Grounded(h'.logs, l)
  {
  }

  lemma OverruledGrows(h: History, h': History, t: nat, n: nat, bound: int)
    requires LogsGrow(h, h') && Overruled(h, t, n, bound)
    requires TermsUpTo(h.logs[t], t) && n <= |h.logs[t]|
    ensures Overruled(h', t, n, bound)
  {
    var u :| u in h.elected && u in h.logs && t < u <= bound && !Same(h.logs[u], h.logs[t], n);
    assert n > |h.logs[u]| && n <= |h'.logs[u]| ==> h'.logs[u][n - 1].term == u;
  }

  lemma KeptGrows(h: History, h': History, l: seq<Entry>, t: nat, n: nat, bound: int)
    requires LogsGrow(h, h') && Kept(h, l, t, n, bound)
    requires TermsUpTo(h.logs[t], t) && n <= |h.logs[t]|
    ensures Kept(h', l, t, n, bound)
  {
    if !Same(l, h.logs[t], n) {
      OverruledGrows(h, h', t, n, bound);
    }
  }

  // ---------------------------------------------------------------- a leader writes an entry

  /** The server `i` now has `log` as its log and as the leader log of its term `t`. */
  ghost predicate Writes(s: State, s': State, i: Addr, t: nat) {
    && OneNode(s, s', i) && s.nodes[i].term == t && s'.nodes[i].term == t
    && |s'.nodes[i].log| == |s.nodes[i].log| + 1 && Same(s.nodes[i].log, s'.nodes[i].log, |s.nodes[i].log|)
    && s'.nodes[i].log[|s.nodes[i].log|].term == t
    && s'.past.logs == s.past.logs[t := s'.nodes[i].log]
    && s'.past.acks == s.past.acks[At(i, t) := |s'.nodes[i].log|]
    && s'.past.ballots == s.past.ballots
  }

  ghost predicate Client(s: State, s': State, i: Addr) {
    && i in s.nodes && Writes(s, s', i, s.nodes[i].term)
    && s.nodes[i].role == Leader && s'.past.elected == s.past.elected
  }

  /** The log part of a won election: the no-op entry and the record of the winner. */
  ghost predicate FirstEntry(s: State, s': State, i: Addr) {
    && i in s.nodes && Writes(s, s', i, s.nodes[i].term) && i in s.past.counted
    && s.nodes[i].role == Candidate && s.nodes[i].term >= 1
    && s.nodes[i].term !in s.past.elected
    && s'.past.elected == s.past.elected[s.nodes[i].term := Election(i, s.past.counted[i], s.nodes[i].log)]
  }

  lemma ClientGrows(s: State, s': State, i: Addr)
    requires Client(s, s', i) && Leaders(s) && LeaderLogs(s)
    ensures LogsGrow(s.past, s'.past)
    ensures s.nodes[i].term in s.past.elected && s.past.elected[s.nodes[i].term].leader == i
    ensures s.past.logs[s.nodes[i].term] == s.nodes[i].log
  {
    assert LeaderLog(s, s.nodes[i].term, i);
  }

  lemma FirstGrows(s: State, s': State, i: Addr)
    requires FirstEntry(s, s', i) && LeaderLogs(s)
    ensures LogsGrow(s.past, s'.past) && s.nodes[i].term !in s.past.logs
  {
  }

  lemma WritesGrounded(s: State, s': State, i: Addr, t: nat)
    requires Writes(s, s', i, t) && LogsGrow(s.past, s'.past)
    requires LogsGrounded(s.past.logs) && NodeLogs(s)
    ensures Grounded(s'.past.logs, s'.nodes[i].log) && TermsUpTo(s'.nodes[i].log, t)
    ensures LogsGrounded(s'.past.logs) && NodeLogs(s')
  {
    GroundedGrows(s.past, s'.past, s.nodes[i].log);
    forall u | u in s.past.logs ensures Grounded(s'.past.logs, s.past.logs[u]) {
      GroundedGrows(s.past, s'.past, s.past.logs[u]);
    }
    forall j | j in s.nodes ensures Grounded(s'.past.logs, s.nodes[j].log) {
      GroundedGrows(s.past, s'.past, s.nodes[j].log);
    }
  }

  lemma WritesBallotLogs(s: State, s': State, i: Addr, t: nat)
    requires Writes(s, s', i, t) && LogsGrow(s.past, s'.past) && BallotLogs(s)
    ensures BallotLogs(s')
  {
  }

  lemma WritesKeep(s: State, s': State, i: Addr, t: nat)
    requires Writes(s, s', i, t) && LogsGrow(s.past, s'.past)
    requires LogsGrounded(s.past.logs) && AckBounds(s) && NodesKeep(s)
    ensures NodesKeep(s')
  {
    forall k, n: nat | k in s'.past.acks && n <= s'.past.acks[k] && k.who in s'.nodes
      ensures Kept(s'.past, s'.nodes[k.who].log, k.term, n, s'.nodes[k.who].term)
    {
      if k != At(i, t) {
        assert Kept(s.past, s.nodes[k.who].log, k.term, n, s.nodes[k.who].term);
        KeptGrows(s.past, s'.past, s.nodes[k.who].log, k.term, n, s.nodes[k.who].term);
      }
    }
  }

  lemma WritesMatters(s: State, s': State, i: Addr, t: nat)
    requires Writes(s, s', i, t)
    requires forall u :: u in s.past.elected ==> u in s'.past.elected && s'.past.elected[u] == s.past.elected[u]
    ensures forall b :: BallotMatters(s', b) ==> BallotMatters(s, b)
  {
  }

  lemma WritesBallotsKeep(s: State, s': State, i: Addr, t: nat)
    requires Writes(s, s', i, t) && LogsGrow(s.past, s'.past) && BallotTerms(s)
    requires LogsGrounded(s.past.logs) && AckBounds(s) && BallotsKeep(s)
    requires forall b :: BallotMatters(s', b) ==> BallotMatters(s, b)
    ensures BallotsKeep(s')
  {
    forall b, k, n: nat |
      BallotMatters(s', b) && k in s'.past.acks && k.who == b.who && k.term < b.term && n <= s'.past.acks[k]
      ensures BallotKeeps(s'.past, b, k.term, n)
    {
      assert BallotMatters(s, b);
      assert k != At(i, t);
      assert BallotKeeps(s.past, b, k.term, n);
      KeptGrows(s.past, s'.past, s.past.ballots[b].log, k.term, n, b.term - 1);
    }
  }

  lemma ClientLogs(s: State, s': State, i: Addr)
    requires Client(s, s', i) && Leaders(s) && LeaderLogs(s)
    ensures LeaderLogs(s')
  {
  }

  lemma ClientBases(s: State, s': State, i: Addr)
    requires Client(s, s', i) && LogsGrow(s.past, s'.past) && Bases(s)
    ensures Bases(s')
  {
  }

  lemma ClientAckBounds(s: State, s': State, i: Addr)
    requires Client(s, s', i) && LogsGrow(s.past, s'.past)
    requires s.nodes[i].term in s.past.elected && s.past.elected[s.nodes[i].term].leader == i
    requires AckBounds(s)
    ensures AckBounds(s')
  {
  }

  lemma ClientLeaderAcks(s: State, s': State, i: Addr)
    requires Client(s, s', i) && LogsGrow(s.past, s'.past)
    requires s.nodes[i].term in s.past.elected && s.past.elected[s.nodes[i].term].leader == i
    requires AckBounds(s) && LeaderAcks(s)
    ensures LeaderAcks(s')
  {
  }

  lemma FirstLogs(s: State, s': State, i: Addr)
    requires FirstEntry(s, s', i) && Leaders(s) && LeaderLogs(s)
    ensures LeaderLogs(s')
  {
  }

  lemma FirstBases(s: State, s': State, i: Addr)
    requires FirstEntry(s, s', i) && LeaderLogs(s) && Bases(s) && NodeLogs(s)
    ensures Bases(s')
  {
  }

  lemma FirstAckBounds(s: State, s': State, i: Addr)
    requires FirstEntry(s, s', i) && s.nodes[i].term !in s.past.logs
    requires AckBounds(s)
    ensures AckBounds(s')
  {
  }

  lemma FirstLeaderAcks(s: State, s': State, i: Addr)
    requires FirstEntry(s, s', i) && s.nodes[i].term !in s.past.logs
    requires AckBounds(s) && LeaderAcks(s)
    ensures LeaderAcks(s')
  {
  }

  lemma FirstMatters(s: State, s': State, i: Addr)
    requires FirstEntry(s, s', i)
    ensures forall b :: BallotMatters(s', b) ==> BallotMatters(s, b)
  {
  }

  lemma FirstAhead(s: State, s': State, i: Addr)
    requires FirstEntry(s, s', i) && CountedVotes(s) && WinnersAhead(s) && CandidatesAhead(s)
    ensures WinnersAhead(s')
  {
  }

  // ---------------------------------------------------------------- a follower takes entries

  /** A follower in term `t` now agrees with that term's leader log up to `e`. */
  ghost predicate Takes(s: State, s': State, i: Addr, t: nat, e: nat) {
    && OneNode(s, s', i) && s.nodes[i].term <= t && s'.nodes[i].term == t
    && t in s.past.elected && t in s.past.logs && s.past.elected[t].leader != i
    && s'.past.logs == s.past.logs && s'.past.elected == s.past.elected && s'.past.ballots == s.past.ballots
    && Same(s'.nodes[i].log, s.past.logs[t], e)
    && (s'.nodes[i].log == s.nodes[i].log || |s'.nodes[i].log| == e)
    && (forall n :: Same(s.nodes[i].log, s.past.logs[t], n) ==> Same(s'.nodes[i].log, s.nodes[i].log, n))
    && (s'.past.acks == s.past.acks || s'.past.acks == Acknowledge(s.past.acks, i, t, e))
  }

  lemma TakesLogs(s: State, s': State, i: Addr, t: nat, e: nat)
    requires Takes(s, s', i, t, e)
    requires LogsGrounded(s.past.logs) && NodeLogs(s) && LeaderLogs(s) && Leaders(s) && Bases(s)
    ensures NodeLogs(s') && LeaderLogs(s') && Bases(s')
  {
    TakesNodeLogs(s, s', i, t, e);
    TakesLeaderLogs(s, s', i, t, e);
  }

  lemma TakesNodeLogs(s: State, s': State, i: Addr, t: nat, e: nat)
    requires Takes(s, s', i, t, e) && LogsGrounded(s.past.logs) && NodeLogs(s)
    ensures NodeLogs(s')
  {
    if s'.nodes[i].log != s.nodes[i].log {
      PrefixGrounded(s.past.logs, s'.nodes[i].log, s.past.logs[t]);
    }
  }

  lemma TakesLeaderLogs(s: State, s': State, i: Addr, t: nat, e: nat)
    requires Takes(s, s', i, t, e) && LeaderLogs(s) && Leaders(s) && Bases(s)
    ensures LeaderLogs(s') && Bases(s')
  {
    forall u | u in s'.past.elected ensures LeaderLog(s', u, s'.past.elected[u].leader) {
      assert LeaderLog(s, u, s.past.elected[u].leader) && Won(s, u, s.past.elected[u].leader);
    }
  }

  lemma TakesKeptLog(s: State, s': State, i: Addr, t: nat, e: nat, u: nat, n: nat)
    requires Takes(s, s', i, t, e)
    requires u <= s.nodes[i].term && Kept(s.past, s.nodes[i].log, u, n, s.nodes[i].term)
    ensures Kept(s'.past, s'.nodes[i].log, u, n, t)
  {
    if Same(s.nodes[i].log, s.past.logs[u], n) && u < t && Same(s.past.logs[t], s.past.logs[u], n) {
      assert Same(s.nodes[i].log, s.past.logs[t], n);
    }
  }

  lemma TakesKeep(s: State, s': State, i: Addr, t: nat, e: nat)
    requires Takes(s, s', i, t, e) && AckBounds(s) && NodesKeep(s)
    ensures NodesKeep(s')
  {
    forall k, n: nat | k in s'.past.acks && n <= s'.past.acks[k] && k.who in s'.nodes
      ensures Kept(s'.past, s'.nodes[k.who].log, k.term, n, s'.nodes[k.who].term)
    {
      if k in s.past.acks && n <= s.past.acks[k] {
        assert Kept(s.past, s.nodes[k.who].log, k.term, n, s.nodes[k.who].term);
        if k.who == i {
          TakesKeptLog(s, s', i, t, e, k.term, n);
        }
      }
    }
  }

  lemma TakesAckBounds(s: State, s': State, i: Addr, t: nat, e: nat)
    requires Takes(s, s', i, t, e) && AckBounds(s)
    ensures AckBounds(s')
  {
  }

  lemma TakesLeaderAcks(s: State, s': State, i: Addr, t: nat, e: nat)
    requires Takes(s, s', i, t, e) && AckBounds(s) && LeaderAcks(s)
    ensures LeaderAcks(s')
  {
  }

  lemma TakesBallots(s: State, s': State, i: Addr, t: nat, e: nat)
    requires Takes(s, s', i, t, e) && BallotTerms(s) && BallotLogs(s)
    requires WinnersAhead(s) && BallotsKeep(s) && AckBounds(s)
    requires BallotTerms(s')
    ensures BallotLogs(s') && WinnersAhead(s') && BallotsKeep(s')
  {
    forall b, k, n: nat |
      BallotMatters(s', b) && k in s'.past.acks && k.who == b.who && k.term < b.term && n <= s'.past.acks[k]
      ensures BallotKeeps(s'.past, b, k.term, n)
    {
      assert BallotMatters(s, b);
      assert k in s.past.acks && n <= s.past.acks[k];
      assert BallotKeeps(s.past, b, k.term, n);
    }
  }

  // ---------------------------------------------------------------- candidates

  ghost predicate StillCandidates(s: State, s': State) {
    && (forall c :: c in s'.nodes && s'.nodes[c].role == Candidate ==>
          && c in s.nodes && s.nodes[c].role == Candidate
          && s'.nodes[c].term == s.nodes[c].term && s'.nodes[c].log == s.nodes[c].log)
    && (forall t :: t in s.past.elected ==> t in s'.past.elected)
  }

  lemma StillAhead(s: State, s': State)
    requires StillCandidates(s, s') && s'.past.ballots == s.past.ballots && CandidatesAhead(s)
    ensures CandidatesAhead(s')
  {
  }

  lemma StillHonest(s: State, s': State)
    requires StillCandidates(s, s') && RequestsHonest(s)
    requires forall id :: id in s'.voteCalls ==> id in s.voteCalls && s'.voteCalls[id] == s.voteCalls[id]
    ensures RequestsHonest(s')
  {
  }

  /** The voter compared its log with the candidate's last entry before casting the ballot. */
  lemma CastAhead(s: State, s': State, id: CallId)
    requires StillCandidates(s, s') && CandidatesAhead(s) && RequestsHonest(s)
    requires id in s.voteCalls && NewBallot(s, s', id.dst, id.num, id.src)
    requires UpToDate(s.voteCalls[id].lastIndex, s.voteCalls[id].lastTerm, s'.nodes[id.dst].log)
    ensures CandidatesAhead(s')
  {
  }

  lemma StartAhead(s: State, s': State, i: Addr)
    requires Start(s, s', i) && s'.nodes[i].log == s.nodes[i].log
    requires CandidatesAhead(s) && BallotCandidates(s)
    ensures CandidatesAhead(s')
  {
  }

  lemma StartHonest(s: State, s': State, i: Addr)
    requires Start(s, s', i) && s'.nodes[i].log == s.nodes[i].log
    requires RequestsHonest(s) && OpenCalls(s)
    requires forall id :: id in s'.voteCalls ==>
      || (id in s.voteCalls && s'.voteCalls[id] == s.voteCalls[id])
      || (s'.voteCalls[id] == BuildVoteRequest(s'.nodes[i], i) && id.src == i)
    ensures RequestsHonest(s')
  {
  }
}
