/** Replication and commitment: what is accepted stays accepted, what is committed stays committed. */
module ReplicationProofs {
  import opened Types
  import opened NodeSpec
  import opened Cluster
  import opened Invariants
  import opened Quorum
  import opened LogLemmas
  import opened ElectionProofs
  import opened LogProofs

  // ---------------------------------------------------------------- growth of the history

  /** Winners stay recorded, leader logs grow, and acknowledgements are never taken back. */
  ghost predicate Grows(s: State, s': State) {
    && s'.members == s.members && LogsGrow(s.past, s'.past)
    && (forall t :: t in s.past.elected ==> t in s'.past.elected && s'.past.elected[t] == s.past.elected[t])
    && (forall k :: k in s.past.acks ==> k in s'.past.acks && s.past.acks[k] <= s'.past.acks[k])
  }

  lemma CommittedGrows(s: State, s': State, t: nat, k: nat)
    requires Grows(s, s') && Committed(s, t, k)
    ensures Committed(s', t, k)
  {
    SubsetSize(Ackers(s, t, k), Ackers(s', t, k));
  }

  lemma SafeGrows(s: State, s': State, l: seq<Entry>, l': seq<Entry>, c: int, b: nat, b': nat)
    requires Grows(s, s') && Safe(s, l, c, b) && b <= b' && Same(l, l', c + 1)
    ensures Safe(s', l', c, b')
  {
    if c >= 0 {
      var t: nat, k: nat :| t <= b && c <= k && Committed(s, t, k) && Same(l, s.past.logs[t], c + 1);
      CommittedGrows(s, s', t, k);
      assert Same(l', s'.past.logs[t], c + 1);
    }
  }

  lemma StretchGrows(h: History, h': History, id: CallId, req: AppendRequest)
    requires LogsGrow(h, h') && Stretch(h, id, req)
    requires forall k :: k in h.acks ==> k in h'.acks && h.acks[k] <= h'.acks[k]
    ensures Stretch(h', id, req)
  {
  }

  // ---------------------------------------------------------------- calls and answers

  ghost predicate SameRounds(s: State, s': State) {
    s'.round == s.round
  }

  /** Calls only disappear, and answers are old ones or fit the call they answer. */
  ghost predicate NoNewCalls(s: State, s': State) {
    && (forall id :: id in s'.appendCalls ==>
          && id in s.appendCalls && s'.appendCalls[id] == s.appendCalls[id]
          && (id in s'.appendAnswers ==> id in s.appendAnswers))
  }

  lemma CallsStillFit(s: State, s': State)
    requires Grows(s, s') && SameRounds(s, s') && NoNewCalls(s, s') && CallsFit(s)
    ensures CallsFit(s')
  {
    forall id | id in s'.appendCalls ensures Stretch(s'.past, id, s'.appendCalls[id]) {
      StretchGrows(s.past, s'.past, id, s.appendCalls[id]);
    }
  }

  lemma CallsStillSafe(s: State, s': State)
    requires Grows(s, s') && NoNewCalls(s, s') && CallsSafe(s)
    ensures CallsSafe(s')
  {
    forall id | id in s'.appendCalls
      ensures s'.appendCalls[id].term in s'.past.logs
      ensures Safe(s', s'.past.logs[s'.appendCalls[id].term], s'.appendCalls[id].leaderCommit, s'.appendCalls[id].term)
    {
      var req := s.appendCalls[id];
      SafeGrows(s, s', s.past.logs[req.term], s'.past.logs[req.term], req.leaderCommit, req.term, req.term);
    }
  }

  ghost predicate NoNewAnswers(s: State, s': State) {
    forall id :: id in s'.appendAnswers ==> id in s.appendAnswers && s'.appendAnswers[id] == s.appendAnswers[id]
  }

  lemma AnswersStillFit(s: State, s': State)
    requires Grows(s, s') && SameRounds(s, s') && NoNewAnswers(s, s') && AnswersFit(s)
    ensures AnswersFit(s')
  {
  }

  /** The call `id` has been answered, with success exactly when the follower was in its term. */
  ghost predicate Answered(s: State, s': State, id: CallId) {
    && id in s.appendCalls && s'.appendCalls == s.appendCalls - {id}
    && id in s'.appendAnswers && s'.appendAnswers == s.appendAnswers[id := s'.appendAnswers[id]]
    && var a := s'.appendAnswers[id];
       && a.req == s.appendCalls[id]
       && (a.reply.success <==> a.reply.term == a.req.term)
       && (a.reply.success ==> Accepted(s'.past, id.dst, a.req.term, a.req.prevIndex + 1 + |a.req.entries|))
  }

  lemma AnswerFits(s: State, s': State, id: CallId)
    requires Grows(s, s') && SameRounds(s, s') && Answered(s, s', id) && AnswersFit(s)
    requires Links(s, id, s.appendCalls[id].term) && -1 <= s.appendCalls[id].prevIndex
    ensures AnswersFit(s')
  {
  }

  // ---------------------------------------------------------------- a heartbeat round

  ghost predicate Beat(s: State, s': State, i: Addr) {
    && OneNode(s, s', i) && i in s.round && s.nodes[i].role == Leader
    && s'.nodes[i].role == Leader && s'.nodes[i].term == s.nodes[i].term
    && s'.nodes[i].next == s.nodes[i].next && s'.nodes[i].matched == s.nodes[i].matched
    && s'.nodes[i].log == s.nodes[i].log
    && s'.past == s.past && s'.round == s.round[i := s.round[i] + 1]
    && s'.appendAnswers == s.appendAnswers
    && (forall id :: id in s'.appendCalls ==>
          || (id in s.appendCalls && s'.appendCalls[id] == s.appendCalls[id])
          || (&& id.src == i && id.dst in s.members && id.dst != i && id.num == s.round[i] + 1
              && s'.appendCalls[id] == BuildAppendRequest(s.nodes[i], i, id.dst)))
  }

  lemma BuiltStretch(s: State, i: Addr, p: Addr, num: nat)
    requires i in s.nodes && s.nodes[i].role == Leader && p in s.members && p != i
    requires Leaders(s) && LeaderLogs(s) && AckBounds(s) && MatchSound(s) && NodesSafe(s)
    ensures Stretch(s.past, CallId(i, p, num), BuildAppendRequest(s.nodes[i], i, p))
  {
    var n := s.nodes[i];
    assert Progress(s, i, p);
    assert LeaderLog(s, n.term, i);
    assert Safe(s, n.log, n.commit, n.term);
    BuiltFrom(s.past, n, i, p, num);
  }

  lemma BuiltFrom(h: History, n: Node, i: Addr, p: Addr, num: nat)
    requires n.term in h.logs && h.logs[n.term] == n.log && n.commit < |n.log|
    requires p in n.next && 0 <= n.next[p] <= |n.log| && Accepted(h, p, n.term, n.next[p])
    ensures Stretch(h, CallId(i, p, num), BuildAppendRequest(n, i, p))
  {
  }

  lemma BeatCalls(s: State, s': State, i: Addr)
    requires Beat(s, s', i) && CallsFit(s) && AnswersFit(s) && i in s.members
    requires i in s.nodes && s.nodes[i].term in s.past.elected && s.past.elected[s.nodes[i].term].leader == i
    requires forall p, num :: p in s.members && p != i ==>
      Stretch(s.past, CallId(i, p, num), BuildAppendRequest(s.nodes[i], i, p))
    ensures CallsFit(s')
  {
  }

  lemma BeatSafe(s: State, s': State, i: Addr)
    requires Beat(s, s', i) && CallsSafe(s) && NodesSafe(s) && Leaders(s) && LeaderLogs(s)
    ensures CallsSafe(s')
  {
    assert LeaderLog(s, s.nodes[i].term, i);
    assert Grows(s, s');
    forall id | id in s'.appendCalls
      ensures s'.appendCalls[id].term in s'.past.logs
      ensures Safe(s', s'.past.logs[s'.appendCalls[id].term], s'.appendCalls[id].leaderCommit, s'.appendCalls[id].term)
    {
      var req := s'.appendCalls[id];
      assert req.term in s.past.logs && Safe(s, s.past.logs[req.term], req.leaderCommit, req.term);
      SafeGrows(s, s', s.past.logs[req.term], s'.past.logs[req.term], req.leaderCommit, req.term, req.term);
    }
  }

  lemma BeatAnswers(s: State, s': State, i: Addr)
    requires Beat(s, s', i) && AnswersFit(s)
    ensures AnswersFit(s')
  {
  }

  lemma BeatRounds(s: State, s': State, i: Addr)
    requires Beat(s, s', i) && Rounds(s) && CallsFit(s) && AnswersFit(s) && MatchSound(s)
    requires i in s'.pending && s'.pending == s.pending[i := s'.pending[i]]
    ensures Rounds(s')
  {
    forall id | id in s'.appendCalls ensures InRound(s', id, s'.appendCalls[id]) {
      if id in s.appendCalls && s'.appendCalls[id] == s.appendCalls[id] {
        assert InRound(s, id, s.appendCalls[id]) && Links(s, id, s.appendCalls[id].term);
      } else {
        assert Progress(s, i, id.dst);
      }
    }
    forall id | id in s'.appendAnswers ensures InRound(s', id, s'.appendAnswers[id].req) {
      assert InRound(s, id, s.appendAnswers[id].req) && Links(s, id, s.appendAnswers[id].req.term);
    }
  }

  // ---------------------------------------------------------------- leaders and their peers

  /** A leader has been one with the same view of its peers, or has just been promoted. */
  ghost predicate LeadersKeep(s: State, s': State) {
    && s'.nodes.Keys == s.nodes.Keys
    && (forall i :: i in s.nodes && s'.nodes[i].role == Leader ==>
          && s'.nodes[i].next == s.nodes[i].next && s'.nodes[i].matched == s.nodes[i].matched
          && s'.nodes[i].term == s.nodes[i].term && (s.nodes[i].role == Leader || i !in s.past.led))
  }

  lemma LeadersStillSound(s: State, s': State)
    requires Grows(s, s') && LeadersKeep(s, s') && MatchSound(s) && NeverLed(s)
    ensures MatchSound(s')
  {
  }

  ghost predicate SameViews(s: State, s': State) {
    && s'.members == s.members && s'.nodes.Keys == s.nodes.Keys && s.past.led <= s'.past.led
    && (forall i :: i in s.nodes && i !in s'.past.led ==>
          s'.nodes[i].next == s.nodes[i].next && s'.nodes[i].matched == s.nodes[i].matched)
  }

  lemma StillNeverLed(s: State, s': State)
    requires SameViews(s, s') && NeverLed(s)
    ensures NeverLed(s')
  {
  }

  ghost predicate FewerPending(s: State, s': State) {
    s'.pending.Keys == s.pending.Keys && forall i :: i in s.pending ==> s'.pending[i] <= s.pending[i]
  }

  /** A server promoted just now has sent no append call yet. */
  lemma StillInRound(s: State, s': State, id: CallId, req: AppendRequest)
    requires LeadersKeep(s, s') && FewerPending(s, s') && SameRounds(s, s')
    requires Leaders(s) && Links(s, id, req.term) && InRound(s, id, req)
    ensures InRound(s', id, req)
  {
  }

  lemma RoundsKeep(s: State, s': State)
    requires LeadersKeep(s, s') && FewerPending(s, s') && SameRounds(s, s') && NoNewCalls(s, s')
    requires forall id :: id in s'.appendAnswers ==>
      || (id in s.appendAnswers && s'.appendAnswers[id] == s.appendAnswers[id])
      || (id in s.appendCalls && s'.appendAnswers[id].req == s.appendCalls[id])
    requires Leaders(s) && CallsFit(s) && AnswersFit(s) && Rounds(s)
    ensures Rounds(s')
  {
    forall id | id in s'.appendCalls ensures InRound(s', id, s'.appendCalls[id]) {
      StillInRound(s, s', id, s.appendCalls[id]);
    }
    forall id | id in s'.appendAnswers ensures InRound(s', id, s'.appendAnswers[id].req) {
      StillInRound(s, s', id, s'.appendAnswers[id].req);
    }
  }

  lemma BeatPeers(s: State, s': State, i: Addr)
    requires Beat(s, s', i) && MatchSound(s) && NeverLed(s)
    ensures MatchSound(s') && NeverLed(s')
  {
  }

  // ---------------------------------------------------------------- a leader hears from a peer

  /** The open call `id` of the current round succeeded: the leader moves the peer's indices on. */
  ghost predicate Advance(s: State, s': State, id: CallId) {
    && OneNode(s, s', id.src) && id in s.appendAnswers && id.src in s.pending && id.src in s.round
    && id.num == s.round[id.src] && id.dst in s.pending[id.src]
    && s.nodes[id.src].role == Leader && s.nodes[id.src].term == s.appendAnswers[id].req.term
    && s.appendAnswers[id].reply.success
    && s'.nodes[id.src].role == Leader && s'.nodes[id.src].term == s.nodes[id.src].term
    && (var next := Lookup(s.nodes[id.src].next, id.dst) + |s.appendAnswers[id].req.entries|;
        && s'.nodes[id.src].next == s.nodes[id.src].next[id.dst := next]
        && s'.nodes[id.src].matched == s.nodes[id.src].matched[id.dst := next - 1])
    && s'.pending == s.pending[id.src := s.pending[id.src] - {id.dst}]
    && s'.round == s.round && s'.appendCalls == s.appendCalls && s'.appendAnswers == s.appendAnswers - {id}
    && s'.past.acks == s.past.acks && s'.past.led == s.past.led
  }

  lemma AdvanceSound(s: State, s': State, id: CallId)
    requires Advance(s, s', id) && MatchSound(s) && AnswersFit(s) && Rounds(s)
    ensures MatchSound(s')
  {
    assert InRound(s, id, s.appendAnswers[id].req);
    assert Links(s, id, s.appendAnswers[id].req.term);
    forall i, p | i in s'.nodes && s'.nodes[i].role == Leader && p in s'.members && p != i ensures Progress(s', i, p) {
      assert Progress(s, i, p);
    }
  }

  lemma AdvanceViews(s: State, s': State, id: CallId)
    requires Advance(s, s', id) && Leaders(s) && NeverLed(s)
    ensures NeverLed(s')
  {
  }

  lemma AdvanceRounds(s: State, s': State, id: CallId)
    requires Advance(s, s', id) && Rounds(s)
    ensures Rounds(s')
  {
  }

  // ---------------------------------------------------------------- commitment

  /** Index `k` passes the leader's test only if a majority has accepted its entry. */
  lemma CommittableCommits(s: State, n: Node, i: Addr, k: nat)
    requires Committable(n, i, s.members, k) && i in s.members
    requires n.term in s.past.elected && n.term in s.past.logs && s.past.logs[n.term] == n.log
    requires Accepted(s.past, i, n.term, |n.log|)
    requires forall p :: p in s.members && p != i ==> p in n.matched && Accepted(s.past, p, n.term, n.matched[p] + 1)
    ensures Committed(s, n.term, k)
  {
    SubsetSize(MatchPeers(n, i, s.members, k), Ackers(s, n.term, k));
  }

  /** The commit index a leader computes is safe. */
  lemma LeaderCommitSafe(s: State, i: Addr, n: Node)
    requires i in s.members && n.term in s.past.elected && n.term in s.past.logs && s.past.logs[n.term] == n.log
    requires Accepted(s.past, i, n.term, |n.log|)
    requires forall p :: p in s.members && p != i ==> p in n.matched && Accepted(s.past, p, n.term, n.matched[p] + 1)
    requires Safe(s, n.log, n.commit, n.term)
    ensures n.commit <= CommitTarget(n, i, s.members, |n.log|)
    ensures Safe(s, n.log, CommitTarget(n, i, s.members, |n.log|), n.term)
  {
    var c := CommitTarget(n, i, s.members, |n.log|);
    if c != n.commit {
      CommittableCommits(s, n, i, c);
    }
  }

  /** What a server has committed is in the log of every leader of its term or a later one. */
  lemma CommitInLeader(s: State, l: seq<Entry>, c: int, b: nat, t: nat)
    requires Complete(s) && Safe(s, l, c, b) && b <= t && t in s.past.elected && t in s.past.logs
    ensures Same(l, s.past.logs[t], c + 1)
  {
  }

  /** A follower never cuts its log at or below its commit index. */
  lemma TakesCommitted(s: State, s': State, i: Addr, t: nat, e: nat)
    requires Takes(s, s', i, t, e) && Complete(s)
    requires Safe(s, s.nodes[i].log, s.nodes[i].commit, s.nodes[i].term)
    ensures Same(s.nodes[i].log, s'.nodes[i].log, s.nodes[i].commit + 1)
  {
    CommitInLeader(s, s.nodes[i].log, s.nodes[i].commit, s.nodes[i].term, t);
  }

  /** The commit index a follower takes from a request is safe. */
  lemma FollowerCommitSafe(s: State, s': State, i: Addr, t: nat, e: nat, c: int)
    requires Grows(s, s') && Takes(s, s', i, t, e)
    requires Safe(s, s.past.logs[t], c, t) && c < e
    ensures Safe(s', s'.nodes[i].log, c, t)
  {
    SafeGrows(s, s', s.past.logs[t], s'.nodes[i].log, c, t, t);
  }

  ghost predicate CommitsKeep(s: State, s': State, i: Addr) {
    && i in s.nodes && i in s'.nodes
    && s'.nodes[i].commit == s.nodes[i].commit && s.nodes[i].term <= s'.nodes[i].term
    && Same(s.nodes[i].log, s'.nodes[i].log, s.nodes[i].commit + 1)
  }

  lemma NodeStaysSafe(s: State, s': State, i: Addr)
    requires Grows(s, s') && CommitsKeep(s, s', i) && NodesSafe(s)
    ensures Safe(s', s'.nodes[i].log, s'.nodes[i].commit, s'.nodes[i].term)
  {
    SafeGrows(s, s', s.nodes[i].log, s'.nodes[i].log, s.nodes[i].commit, s.nodes[i].term, s'.nodes[i].term);
  }

  lemma OthersStaySafe(s: State, s': State, i: Addr)
    requires Grows(s, s') && OneNode(s, s', i) && NodesSafe(s)
    requires Safe(s', s'.nodes[i].log, s'.nodes[i].commit, s'.nodes[i].term)
    ensures NodesSafe(s')
  {
    forall j | j in s'.nodes ensures Safe(s', s'.nodes[j].log, s'.nodes[j].commit, s'.nodes[j].term) {
      if j != i {
        assert Safe(s, s.nodes[j].log, s.nodes[j].commit, s.nodes[j].term);
        NodeStaysSafe(s, s', j);
      }
    }
  }

  lemma EntriesAgree(s: State, l: seq<Entry>, m: seq<Entry>, c: nat, t: nat, a: nat, u: nat)
    requires Complete(s) && Committed(s, t, a) && t <= u && u in s.past.elected && u in s.past.logs && c <= a
    requires Same(l, s.past.logs[t], c + 1) && Same(m, s.past.logs[u], c + 1)
    ensures l[c] == m[c]
  {
  }

  lemma SafeWitness(s: State, l: seq<Entry>, c: int, b: nat, j: nat) returns (t: nat, a: nat)
    requires Safe(s, l, c, b) && j <= c
    ensures Committed(s, t, a) && j <= a && Same(l, s.past.logs[t], j + 1)
  {
    t, a :| t <= b && c <= a && Committed(s, t, a) && Same(l, s.past.logs[t], c + 1);
  }
}
