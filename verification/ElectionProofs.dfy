/** The ways a step can touch an election, and the proof that each keeps the invariants. */
module ElectionProofs {
  import opened Types
  import opened NodeSpec
  import opened Cluster
  import opened Invariants
  import opened Quorum

  ghost predicate OneNode(s: State, s': State, i: Addr) {
    && s'.members == s.members && i in s.nodes && i in s'.nodes
    && s'.nodes == s.nodes[i := s'.nodes[i]]
  }

  // ---------------------------------------------------------------- quiet steps

  /** A server keeps its vote, stops, moves to a later term, or yields to the leader of its term. */
  ghost predicate QuietNode(s: State, n: Node, n': Node) {
    || (n'.term == n.term && n'.vote == n.vote && n'.votes == n.votes && (n'.role == n.role || n'.role == Dead))
    || (n'.term > n.term && (n'.role == Follower || n'.role == Dead))
    || (&& n'.term == n.term && n.term in s.past.elected
        && n.role == Candidate && n'.role != Leader && n'.role != Candidate)
  }

  ghost predicate SameVotes(h: History, h': History) {
    h'.ballots == h.ballots && h'.counted == h.counted && h'.elected == h.elected && h'.led == h.led
  }

  ghost predicate QuietMessages(s: State, s': State) {
    && (forall id :: id in s'.voteCalls ==> id in s.voteCalls && s'.voteCalls[id] == s.voteCalls[id])
    && (forall id :: id in s'.voteAnswers ==>
          || (id in s.voteAnswers && s'.voteAnswers[id] == s.voteAnswers[id])
          || (&& id in s.voteCalls && id !in s'.voteCalls
              && s'.voteAnswers[id].req == s.voteCalls[id] && !s'.voteAnswers[id].reply.granted))
  }

  ghost predicate Quiet(s: State, s': State, i: Addr) {
    && OneNode(s, s', i) && QuietNode(s, s.nodes[i], s'.nodes[i]) && SameVotes(s.past, s'.past)
  }

  lemma QuietBallots(s: State, s': State, i: Addr)
    requires Quiet(s, s', i)
    requires BallotTerms(s) && VotesStick(s)
    ensures BallotTerms(s') && VotesStick(s')
  {
  }

  lemma QuietCandidates(s: State, s': State, i: Addr)
    requires Quiet(s, s', i) && BallotCandidates(s)
    ensures BallotCandidates(s')
  {
  }

  lemma QuietQuorums(s: State, s': State, i: Addr)
    requires Quiet(s, s', i)
    requires BallotTerms(s) && QuorumsStick(s)
    ensures QuorumsStick(s')
  {
  }

  lemma QuietCounts(s: State, s': State, i: Addr)
    requires Quiet(s, s', i)
    requires CountedVotes(s)
    ensures CountedVotes(s')
  {
  }

  lemma QuietCalls(s: State, s': State, i: Addr)
    requires Quiet(s, s', i) && QuietMessages(s, s')
    requires OpenCalls(s)
    ensures OpenCalls(s')
  {
    forall id | OpenCall(s, id) ensures OpenCall(s', id) {
    }
  }

  lemma QuietAnswers(s: State, s': State, i: Addr)
    requires Quiet(s, s', i) && QuietMessages(s, s')
    requires OpenCalls(s) && OpenAnswers(s)
    ensures OpenAnswers(s')
  {
    forall id | OpenCall(s, id) ensures OpenCall(s', id) {
    }
  }

  lemma QuietLeaders(s: State, s': State, i: Addr)
    requires Quiet(s, s', i)
    requires Leaders(s)
    ensures Leaders(s')
  {
  }

  // ---------------------------------------------------------------- a vote is granted

  /** The voter `id.dst` gives its vote to `id.src` in the term `id.num`. */
  ghost predicate Grant(s: State, s': State, id: CallId) {
    && OneNode(s, s', id.dst)
    && id.num == s'.nodes[id.dst].term && s'.nodes[id.dst].vote == Some(id.src)
    && s'.nodes[id.dst].role != Leader && s'.nodes[id.dst].votes <= s.nodes[id.dst].votes
    && ( || (s.nodes[id.dst].term < id.num && s'.nodes[id.dst].role == Follower)
         || (&& s.nodes[id.dst].term == id.num && s'.nodes[id.dst].role == s.nodes[id.dst].role
             && s'.nodes[id.dst].votes == s.nodes[id.dst].votes
             && (s.nodes[id.dst].vote == None || s.nodes[id.dst].vote == Some(id.src))))
    && s'.past.counted == s.past.counted && s'.past.elected == s.past.elected && s'.past.led == s.past.led
    && s'.past.ballots ==
         (if At(id.dst, id.num) in s.past.ballots then s.past.ballots
          else s.past.ballots[At(id.dst, id.num) := Ballot(id.src, s.nodes[id.dst].log)])
  }

  ghost predicate GrantMessages(s: State, s': State, id: CallId) {
    && id in s.voteCalls && s'.voteCalls == s.voteCalls - {id}
    && s'.voteAnswers == s.voteAnswers[id := VoteAnswer(s.voteCalls[id], VoteReply(id.num, true))]
  }

  /** A candidate has voted for itself, so it has no vote left to give. */
  lemma VoterFollows(s: State, s': State, id: CallId)
    requires Grant(s, s', id) && OpenCall(s, id) && Shape(s)
    requires CountedVotes(s) && VotesStick(s) && BallotTerms(s)
    requires id.num !in s.past.elected
    ensures s'.nodes[id.dst].role == Follower || s'.nodes[id.dst].role == Dead
    ensures At(id.dst, id.num) in s.past.ballots ==> s.past.ballots[At(id.dst, id.num)].candidate == id.src
  {
  }

  lemma GrantTerms(s: State, s': State, id: CallId)
    requires Grant(s, s', id) && OpenCall(s, id) && BallotTerms(s)
    ensures BallotTerms(s')
  {
  }

  lemma GrantSticks(s: State, s': State, id: CallId)
    requires Grant(s, s', id) && VotesStick(s)
    requires id.num !in s.past.elected ==> s'.nodes[id.dst].role == Follower || s'.nodes[id.dst].role == Dead
    requires At(id.dst, id.num) in s.past.ballots && id.num !in s.past.elected ==>
      s.past.ballots[At(id.dst, id.num)].candidate == id.src
    requires BallotTerms(s)
    ensures VotesStick(s')
  {
  }

  lemma GrantBallots(s: State, s': State, id: CallId)
    requires Grant(s, s', id) && OpenCall(s, id) && Shape(s)
    requires CountedVotes(s) && VotesStick(s) && BallotTerms(s)
    ensures BallotTerms(s') && VotesStick(s')
  {
    if id.num !in s.past.elected {
      VoterFollows(s, s', id);
    }
    GrantTerms(s, s', id);
    GrantSticks(s, s', id);
  }

  lemma GrantCandidates(s: State, s': State, id: CallId)
    requires Grant(s, s', id) && OpenCall(s, id) && BallotCandidates(s)
    ensures BallotCandidates(s')
  {
  }

  lemma GrantQuorums(s: State, s': State, id: CallId)
    requires Grant(s, s', id) && OpenCall(s, id)
    requires BallotTerms(s) && QuorumsStick(s)
    ensures QuorumsStick(s')
  {
  }

  /** After the step the granted vote counts for the candidate. */
  lemma GrantBacked(s: State, s': State, id: CallId)
    requires Grant(s, s', id) && OpenCall(s, id) && Shape(s)
    requires CountedVotes(s) && VotesStick(s) && BallotTerms(s) && QuorumsStick(s)
    ensures VoteFor(s', id.dst, id.src, id.num)
  {
  }

  lemma GrantCounts(s: State, s': State, id: CallId)
    requires Grant(s, s', id) && OpenCall(s, id)
    requires CountedVotes(s)
    ensures CountedVotes(s')
  {
  }

  lemma GrantKeepsCall(s: State, s': State, id: CallId, c: CallId)
    requires Grant(s, s', id) && OpenCall(s, c)
    ensures OpenCall(s', c)
  {
  }

  lemma GrantCalls(s: State, s': State, id: CallId)
    requires Grant(s, s', id) && GrantMessages(s, s', id)
    requires OpenCalls(s)
    ensures OpenCalls(s')
  {
  }

  lemma GrantAnswers(s: State, s': State, id: CallId)
    requires Grant(s, s', id) && GrantMessages(s, s', id)
    requires VoteFor(s', id.dst, id.src, id.num)
    requires OpenCalls(s) && OpenAnswers(s)
    ensures OpenAnswers(s')
  {
    forall c | c in s'.voteAnswers
      ensures OpenCall(s', c)
      ensures s'.voteAnswers[c].reply.granted ==> VoteFor(s', c.dst, c.src, c.num)
    {
      GrantKeepsCall(s, s', id, c);
      assert c != id && s.voteAnswers[c].reply.granted ==> VoteFor(s, c.dst, c.src, c.num);
    }
  }

  lemma GrantLeaders(s: State, s': State, id: CallId)
    requires Grant(s, s', id)
    requires Leaders(s)
    ensures Leaders(s')
  {
  }

  // ---------------------------------------------------------------- an election starts

  ghost predicate Start(s: State, s': State, i: Addr) {
    && OneNode(s, s', i)
    && (s.nodes[i].role == Candidate || s.nodes[i].role == Follower)
    && s'.nodes[i].role == Candidate && s'.nodes[i].term == s.nodes[i].term + 1
    && s'.nodes[i].vote == Some(i) && s'.nodes[i].votes == 1
    && s'.past.counted == s.past.counted[i := {i}]
    && s'.past.elected == s.past.elected && s'.past.led == s.past.led
    && s'.past.ballots == s.past.ballots[At(i, s'.nodes[i].term) := Ballot(i, s.nodes[i].log)]
  }

  ghost predicate StartMessages(s: State, s': State, i: Addr) {
    && i in s'.nodes
    && (forall id :: id in s'.voteCalls ==>
          || (id in s.voteCalls && s'.voteCalls[id] == s.voteCalls[id])
          || (&& id.src == i && id.num == s'.nodes[i].term && id.dst in s.members && id.dst != i
              && s'.voteCalls[id].term == id.num && s'.voteCalls[id].candidate == i))
    && s'.voteAnswers == s.voteAnswers
  }

  lemma StartBallots(s: State, s': State, i: Addr)
    requires Start(s, s', i)
    requires VotesStick(s) && BallotTerms(s)
    ensures BallotTerms(s') && VotesStick(s')
  {
  }

  lemma StartCandidates(s: State, s': State, i: Addr)
    requires Start(s, s', i) && BallotCandidates(s)
    ensures BallotCandidates(s')
  {
  }

  lemma StartQuorums(s: State, s': State, i: Addr)
    requires Start(s, s', i)
    requires BallotTerms(s) && QuorumsStick(s)
    ensures QuorumsStick(s')
  {
  }

  lemma StartBacked(s: State, s': State, i: Addr, v: Addr, c: Addr, t: nat)
    requires Start(s, s', i) && BallotTerms(s)
    requires VoteFor(s, v, c, t)
    ensures VoteFor(s', v, c, t)
  {
  }

  lemma StartCounts(s: State, s': State, i: Addr)
    requires Start(s, s', i) && Shape(s)
    requires CountedVotes(s) && BallotTerms(s)
    ensures CountedVotes(s')
  {
    forall v, c, t: nat | VoteFor(s, v, c, t) ensures VoteFor(s', v, c, t) {
      StartBacked(s, s', i, v, c, t);
    }
    forall c | Running(s', c) && c != i ensures Running(s, c) {
    }
  }

  lemma StartOpen(s: State, s': State, i: Addr, c: CallId)
    requires Start(s, s', i) && Shape(s) && OpenCall(s, c)
    ensures OpenCall(s', c)
  {
  }

  lemma StartCalls(s: State, s': State, i: Addr)
    requires Start(s, s', i) && StartMessages(s, s', i) && Shape(s)
    requires OpenCalls(s) && OpenAnswers(s)
    ensures OpenCalls(s')
  {
  }

  lemma StartAnswers(s: State, s': State, i: Addr)
    requires Start(s, s', i) && StartMessages(s, s', i) && Shape(s)
    requires BallotTerms(s) && OpenCalls(s) && OpenAnswers(s)
    ensures OpenAnswers(s')
  {
    forall v, c, t: nat | VoteFor(s, v, c, t) ensures VoteFor(s', v, c, t) {
      StartBacked(s, s', i, v, c, t);
    }
    forall c | OpenCall(s, c) ensures OpenCall(s', c) {
      StartOpen(s, s', i, c);
    }
  }

  lemma StartLeaders(s: State, s': State, i: Addr)
    requires Start(s, s', i)
    requires Leaders(s)
    ensures Leaders(s')
  {
  }

  // ---------------------------------------------------------------- a vote is counted

  ghost predicate Count(s: State, s': State, id: CallId) {
    && OneNode(s, s', id.src) && id in s.voteAnswers && id.src in s.past.counted
    && s.nodes[id.src].role == Candidate && s.nodes[id.src].term == id.num
    && s'.nodes[id.src].role == Candidate && s'.nodes[id.src].term == id.num
    && s'.nodes[id.src].vote == s.nodes[id.src].vote && s'.nodes[id.src].votes == s.nodes[id.src].votes + 1
    && s.voteAnswers[id].reply.granted
    && s'.past.ballots == s.past.ballots && s'.past.elected == s.past.elected && s'.past.led == s.past.led
    && s'.past.counted == s.past.counted[id.src := s.past.counted[id.src] + {id.dst}]
    && s'.voteCalls == s.voteCalls && s'.voteAnswers == s.voteAnswers - {id}
  }

  lemma CountBallots(s: State, s': State, id: CallId)
    requires Count(s, s', id)
    requires VotesStick(s) && BallotTerms(s)
    ensures BallotTerms(s') && VotesStick(s')
  {
  }

  lemma CountCandidates(s: State, s': State, id: CallId)
    requires Count(s, s', id) && BallotCandidates(s)
    ensures BallotCandidates(s')
  {
  }

  lemma CountQuorums(s: State, s': State, id: CallId)
    requires Count(s, s', id)
    requires BallotTerms(s) && QuorumsStick(s)
    ensures QuorumsStick(s')
  {
  }

  lemma CountCounts(s: State, s': State, id: CallId)
    requires Count(s, s', id)
    requires CountedVotes(s) && OpenAnswers(s)
    ensures CountedVotes(s')
  {
    assert Running(s, id.src);
    assert OpenCall(s, id);
    forall c | Running(s', c) ensures Running(s, c) {
    }
    forall v, c, t: nat | VoteFor(s, v, c, t) ensures VoteFor(s', v, c, t) {
    }
  }

  lemma CountCalls(s: State, s': State, id: CallId)
    requires Count(s, s', id)
    requires OpenCalls(s)
    ensures OpenCalls(s')
  {
  }

  lemma CountAnswers(s: State, s': State, id: CallId)
    requires Count(s, s', id)
    requires OpenCalls(s) && OpenAnswers(s)
    ensures OpenAnswers(s')
  {
    forall c | OpenCall(s, c) && c != id ensures OpenCall(s', c) {
    }
    forall v, c, t: nat | VoteFor(s, v, c, t) ensures VoteFor(s', v, c, t) {
    }
  }

  lemma CountLeaders(s: State, s': State, id: CallId)
    requires Count(s, s', id)
    requires Leaders(s)
    ensures Leaders(s')
  {
  }

  // ---------------------------------------------------------------- an election is won

  ghost predicate Win(s: State, s': State, i: Addr) {
    && OneNode(s, s', i) && Running(s, i) && i !in s.past.led
    && Majority(s.nodes[i].votes, s.members)
    && s'.nodes[i].role == Leader && s'.nodes[i].term == s.nodes[i].term && s'.nodes[i].vote == s.nodes[i].vote
    && s'.past.ballots == s.past.ballots && s'.past.counted == s.past.counted
    && s'.past.led == s.past.led + {i}
    && s'.past.elected == s.past.elected[s.nodes[i].term := Election(i, s.past.counted[i], s.nodes[i].log)]
    && s'.voteCalls == s.voteCalls && s'.voteAnswers == s.voteAnswers
  }

  /** Election safety: the term of a winning candidate has had no other winner. */
  lemma TermIsNew(s: State, i: Addr)
    requires Running(s, i) && Majority(s.nodes[i].votes, s.members)
    requires CountedVotes(s) && QuorumsStick(s) && Leaders(s)
    ensures s.nodes[i].term !in s.past.elected
  {
    var t := s.nodes[i].term;
    if t in s.past.elected {
      var e := s.past.elected[t];
      assert QuorumSticks(s, t, e);
      var w := MajoritiesMeet(s.past.counted[i], e.quorum, s.members);
    }
  }

  lemma WinBallots(s: State, s': State, i: Addr)
    requires Win(s, s', i)
    requires VotesStick(s) && BallotTerms(s)
    ensures BallotTerms(s') && VotesStick(s')
  {
  }

  lemma WinCandidates(s: State, s': State, i: Addr)
    requires Win(s, s', i) && BallotCandidates(s)
    ensures BallotCandidates(s')
  {
  }

  lemma WinQuorums(s: State, s': State, i: Addr)
    requires Win(s, s', i) && s.nodes[i].term !in s.past.elected
    requires BallotTerms(s) && VotesStick(s) && CountedVotes(s) && QuorumsStick(s)
    ensures QuorumsStick(s')
  {
  }

  lemma WinCounts(s: State, s': State, i: Addr)
    requires Win(s, s', i) && s.nodes[i].term !in s.past.elected
    requires CountedVotes(s)
    ensures CountedVotes(s')
  {
  }

  lemma WinCalls(s: State, s': State, i: Addr)
    requires Win(s, s', i) && s.nodes[i].term !in s.past.elected
    requires OpenCalls(s)
    ensures OpenCalls(s')
  {
  }

  lemma WinAnswers(s: State, s': State, i: Addr)
    requires Win(s, s', i) && s.nodes[i].term !in s.past.elected
    requires OpenCalls(s) && OpenAnswers(s)
    ensures OpenAnswers(s')
  {
  }

  lemma WinLeaders(s: State, s': State, i: Addr)
    requires Win(s, s', i) && s.nodes[i].term !in s.past.elected
    requires Leaders(s)
    ensures Leaders(s')
  {
  }
}
