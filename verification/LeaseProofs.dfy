/** Leader leases: a majority of responders keeps every later term from electing a leader. */
module LeaseProofs {
  import opened Types
  import opened NodeSpec
  import opened Cluster
  import opened Invariants
  import opened Quorum
  import opened ElectionProofs

  // ---------------------------------------------------------------- what every step respects

  /** Deadlines and timers are only set an election timeout ahead of the clock. */
  ghost predicate Timely(s: State, s': State) {
    && s.now <= s'.now && s'.nodes.Keys == s.nodes.Keys
    && (forall p :: p in s.nodes ==>
          && (s'.nodes[p].deadline == s.nodes[p].deadline || s'.nodes[p].deadline >= s.now + ELECTION_TIMEOUT)
          && (s'.nodes[p].timer == s.nodes[p].timer || s'.nodes[p].timer == Idle
              || (s'.nodes[p].timer.Armed? && s'.nodes[p].timer.at >= s.now + ELECTION_TIMEOUT)))
    && (forall k :: k in s'.past.ballots ==>
          || k in s.past.ballots
          || (k.who in s.nodes && s.nodes[k.who].deadline < s.now)
          || (k.who in s.nodes && s.nodes[k.who].timer.Armed? && s.nodes[k.who].timer.at <= s.now))
  }

  lemma HeldStays(s: State, s': State, p: Addr, t: nat, h: int)
    requires Timely(s, s') && Held(s, p, t, h) && h <= s.now
    ensures Held(s', p, t, h)
  {
  }

  /** A lease ends when its holder steps down, and a server that does not lead gets none. */
  ghost predicate HolderStays(n: Node, n': Node) {
    n'.holder ==>
      && n.holder
      && ( || n.role == Follower || n.role == Candidate
           || (n'.term == n.term && n'.leaseUntil == n.leaseUntil && (n'.role == Leader || n'.role == Dead)))
  }

  /** A leader keeps its heartbeat time, its responders and its lease, or has just been promoted. */
  ghost predicate LeaderKeepsLease(s: State, s': State, i: Addr) {
    && i in s.nodes && i in s'.nodes && HolderStays(s.nodes[i], s'.nodes[i])
    && (s'.nodes[i].role == Leader ==>
          && s'.nodes[i].term == s.nodes[i].term && (s.nodes[i].role == Leader || i !in s.past.led)
          && s'.nodes[i].heartbeatAt == s.nodes[i].heartbeatAt && s'.nodes[i].responding == s.nodes[i].responding
          && s'.nodes[i].holder == s.nodes[i].holder && s'.nodes[i].leaseUntil == s.nodes[i].leaseUntil)
  }

  ghost predicate LeasesKeep(s: State, s': State) {
    && s'.members == s.members && s'.past.leases == s.past.leases && s'.round == s.round
    && (forall t :: t in s.past.elected ==> t in s'.past.elected && s'.past.elected[t] == s.past.elected[t])
    && s'.nodes.Keys == s.nodes.Keys && forall i :: i in s.nodes ==> LeaderKeepsLease(s, s', i)
  }

  lemma RespondersStay(s: State, s': State)
    requires Timely(s, s') && LeasesKeep(s, s') && Clocks(s) && RespondersHeld(s) && NoEarlyLease(s)
    ensures RespondersHeld(s')
  {
  }

  lemma LeasesStay(s: State, s': State)
    requires Timely(s, s') && LeasesKeep(s, s') && Clocks(s) && LeasesHeld(s) && NoEarlyLease(s)
    ensures LeasesHeld(s')
  {
  }

  /** Successful answers belong to servers that led before the step. */
  lemma AnswersStay(s: State, s': State)
    requires Timely(s, s') && LeasesKeep(s, s') && Clocks(s) && AnswersHeld(s) && AnswersFit(s) && Leaders(s)
    requires forall id :: id in s'.appendAnswers && s'.appendAnswers[id].reply.success ==>
      id in s.appendAnswers && s'.appendAnswers[id] == s.appendAnswers[id]
    ensures AnswersHeld(s')
  {
    forall id | FreshSuccess(s', id)
      ensures Held(s', id.dst, s'.nodes[id.src].term, s'.nodes[id.src].heartbeatAt)
    {
      assert LeaderKeepsLease(s, s', id.src);
      assert Links(s, id, s.appendAnswers[id].req.term);
      assert Won(s, s.nodes[id.src].term, id.src);
      assert FreshSuccess(s, id);
      HeldStays(s, s', id.dst, s.nodes[id.src].term, s.nodes[id.src].heartbeatAt);
    }
  }

  /** The new answer of a step that handles the append call `id`. */
  lemma NewAnswerHeld(s: State, s': State, id: CallId)
    requires Timely(s, s') && LeasesKeep(s, s') && Clocks(s) && AnswersHeld(s) && AnswersFit(s) && Leaders(s)
    requires id in s'.appendAnswers && s'.appendAnswers == s.appendAnswers[id := s'.appendAnswers[id]]
    requires id.dst in s'.nodes && s'.nodes[id.dst].deadline >= s.now + ELECTION_TIMEOUT
    requires s'.nodes[id.dst].timer.Armed? && s'.nodes[id.dst].timer.at >= s.now + ELECTION_TIMEOUT
    requires s'.appendAnswers[id].reply.success ==> s'.nodes[id.dst].term == s'.appendAnswers[id].req.term
    requires BallotTerms(s')
    ensures AnswersHeld(s')
  {
    forall c | FreshSuccess(s', c)
      ensures Held(s', c.dst, s'.nodes[c.src].term, s'.nodes[c.src].heartbeatAt)
    {
      assert LeaderKeepsLease(s, s', c.src);
      if c != id {
        assert Links(s, c, s.appendAnswers[c].req.term);
        assert Won(s, s.nodes[c.src].term, c.src);
        assert FreshSuccess(s, c);
        HeldStays(s, s', c.dst, s.nodes[c.src].term, s.nodes[c.src].heartbeatAt);
      }
    }
  }

  // ---------------------------------------------------------------- a round, and a reply

  /** A leader starts a heartbeat round at the current time. */
  ghost predicate NewRound(s: State, s': State, i: Addr) {
    && OneNode(s, s', i) && i in s.round && s'.now == s.now && s'.past == s.past
    && s'.round == s.round[i := s.round[i] + 1] && s'.appendAnswers == s.appendAnswers
    && s.nodes[i].role == Leader && s'.nodes[i].role == Leader && s'.nodes[i].term == s.nodes[i].term
    && s'.nodes[i].heartbeatAt == s.now && s'.nodes[i].responding == {i}
    && s'.nodes[i].holder == s.nodes[i].holder && s'.nodes[i].leaseUntil == s.nodes[i].leaseUntil
    && s'.nodes[i].deadline == s.nodes[i].deadline && s'.nodes[i].timer == s.nodes[i].timer
  }

  lemma NewRoundHeld(s: State, s': State, i: Addr)
    requires NewRound(s, s', i)
    ensures forall p, t: nat, h :: Held(s, p, t, h) && h <= s.now ==> Held(s', p, t, h)
  {
    forall p, t: nat, h | Held(s, p, t, h) && h <= s.now ensures Held(s', p, t, h) {
      HeldStays(s, s', p, t, h);
    }
  }

  lemma NewRoundResponders(s: State, s': State, i: Addr)
    requires NewRound(s, s', i) && i in s.members && Clocks(s) && RespondersHeld(s)
    ensures RespondersHeld(s')
  {
    NewRoundHeld(s, s', i);
    forall j, p | Responder(s', j, p) && j != i ensures Responder(s, j, p) {
    }
  }

  lemma NewRoundLeases(s: State, s': State, i: Addr)
    requires NewRound(s, s', i) && Clocks(s) && LeasesHeld(s)
    ensures LeasesHeld(s')
  {
    NewRoundHeld(s, s', i);
  }

  lemma NewRoundAnswers(s: State, s': State, i: Addr)
    requires NewRound(s, s', i) && Clocks(s) && AnswersHeld(s) && AnswersFit(s)
    ensures AnswersHeld(s')
  {
  }

  lemma NewRoundClocks(s: State, s': State, i: Addr)
    requires NewRound(s, s', i) && Clocks(s) && NoEarlyLease(s) && Leaders(s)
    ensures Clocks(s') && NoEarlyLease(s')
  {
  }

  /** A leader adds a responder of the current round and may renew its lease. */
  ghost predicate Respond(s: State, s': State, id: CallId) {
    && OneNode(s, s', id.src) && id in s.appendAnswers && id.src in s.round && id.src in s'.past.leases
    && s'.now == s.now && s'.round == s.round && s'.past.ballots == s.past.ballots && s'.past.elected == s.past.elected
    && (forall c :: c in s'.appendAnswers ==> c in s.appendAnswers && s'.appendAnswers[c] == s.appendAnswers[c])
    && s.appendAnswers[id].reply.success && id.num == s.round[id.src]
    && (var n, n' := s.nodes[id.src], s'.nodes[id.src];
        && n.role == Leader && n.term == s.appendAnswers[id].req.term
        && n'.role == Leader && n'.term == n.term && n'.heartbeatAt == n.heartbeatAt
        && n'.deadline == n.deadline && n'.timer == n.timer
        && n'.responding == n.responding + {id.dst}
        && ( || (n'.holder == n.holder && n'.leaseUntil == n.leaseUntil && s'.past.leases == s.past.leases)
             || (&& n'.holder && n'.leaseUntil == n.heartbeatAt + LEADER_LEASE_TIMEOUT
                 && Majority(|n'.responding|, s.members)
                 && s'.past.leases == s.past.leases[id.src := n'.responding])))
  }

  lemma HeldSame(s: State, s': State)
    requires s'.now == s.now && s'.past.ballots == s.past.ballots && s'.nodes.Keys == s.nodes.Keys
    requires forall p :: p in s.nodes ==>
      s'.nodes[p].deadline == s.nodes[p].deadline && s'.nodes[p].timer == s.nodes[p].timer
    ensures forall p, t: nat, h :: Held(s, p, t, h) ==> Held(s', p, t, h)
  {
  }

  lemma RespondResponders(s: State, s': State, id: CallId)
    requires Respond(s, s', id) && RespondersHeld(s) && AnswersHeld(s) && id.dst in s.members
    ensures RespondersHeld(s')
  {
  }

  lemma RespondLeases(s: State, s': State, id: CallId)
    requires Respond(s, s', id) && LeasesHeld(s) && RespondersHeld(s') && id.src in s.members && Leaders(s)
    ensures LeasesHeld(s')
  {
    HeldSame(s, s');
    forall p | p in s'.nodes[id.src].responding ensures Responder(s', id.src, p) {
    }
  }

  lemma RespondAnswers(s: State, s': State, id: CallId)
    requires Respond(s, s', id) && AnswersHeld(s)
    ensures AnswersHeld(s')
  {
  }

  lemma RespondClocks(s: State, s': State, id: CallId)
    requires Respond(s, s', id) && Clocks(s) && NoEarlyLease(s) && Leaders(s) && s'.past.led == s.past.led
    ensures Clocks(s') && NoEarlyLease(s')
  {
  }

  // ---------------------------------------------------------------- exclusivity

  /** Until a lease expires, even when its holder has stopped, no later term has elected a leader. */
  lemma NoLaterLeader(s: State, i: Addr, u: nat)
    requires LeasesHeld(s) && QuorumsStick(s) && BallotTerms(s)
    requires HoldsLease(s, i) && u in s.past.elected
    ensures u <= s.nodes[i].term
  {
    if u > s.nodes[i].term {
      assert QuorumSticks(s, u, s.past.elected[u]);
      var w := MajoritiesMeet(s.past.leases[i], s.past.elected[u].quorum, s.members);
    }
  }

  /** At most one server holds an unexpired lease at any time. */
  lemma OneLease(s: State, i: Addr, j: Addr)
    requires LeasesHeld(s) && QuorumsStick(s) && BallotTerms(s) && Leaders(s)
    requires HoldsLease(s, i) && HoldsLease(s, j)
    ensures i == j
  {
    NoLaterLeader(s, i, s.nodes[j].term);
    NoLaterLeader(s, j, s.nodes[i].term);
  }
}
