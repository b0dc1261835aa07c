/** The facts that hold in every reachable state of the cluster, stated one theme at a time. */
module Invariants {
  import opened Types
  import opened MachineSpec
  import opened NodeSpec
  import opened Cluster

  ghost predicate Shape(s: State) {
    && s.members != {}
    && s.nodes.Keys == s.members && s.round.Keys == s.members && s.pending.Keys == s.members
    && s.past.counted.Keys == s.members && s.past.leases.Keys == s.members
  }

  // ---------------------------------------------------------------- elections

  /** A ballot belongs to a term its voter has reached. */
  ghost predicate BallotTerms(s: State) {
    forall k :: k in s.past.ballots ==> k.who in s.nodes && 1 <= k.term <= s.nodes[k.who].term
  }

  /** A ballot names a candidate that has reached the ballot's term. */
  ghost predicate BallotCandidates(s: State) {
    forall k :: k in s.past.ballots ==>
      s.past.ballots[k].candidate in s.nodes && k.term <= s.nodes[s.past.ballots[k].candidate].term
  }

  /** Until a term has a leader, a voter that is still in the term keeps its vote. */
  ghost predicate VotesStick(s: State) {
    forall k ::
      k in s.past.ballots && k.term !in s.past.elected && k.who in s.nodes && s.nodes[k.who].term == k.term ==>
      var n := s.nodes[k.who];
      && n.vote == Some(s.past.ballots[k].candidate)
      && (n.role == Follower || n.role == Dead || (n.role == Candidate && s.past.ballots[k].candidate == k.who))
  }

  /** A voter counted by the winner of its term keeps its vote as long as it stays in the term. */
  ghost predicate Sticks(s: State, t: nat, leader: Addr, w: Addr) {
    && At(w, t) in s.past.ballots && s.past.ballots[At(w, t)].candidate == leader
    && (w in s.nodes && s.nodes[w].term == t ==>
          && s.nodes[w].vote == Some(leader)
          && (s.nodes[w].role == Follower || s.nodes[w].role == Dead || (w == leader && s.nodes[w].role == Leader)))
  }

  ghost predicate QuorumSticks(s: State, t: nat, e: Election) {
    && Majority(|e.quorum|, s.members) && e.quorum <= s.members && e.leader in e.quorum
    && forall w :: w in e.quorum ==> Sticks(s, t, e.leader, w)
  }

  ghost predicate QuorumsStick(s: State) {
    forall t :: t in s.past.elected && t >= 1 ==> QuorumSticks(s, t, s.past.elected[t])
  }

  /** A vote that can still decide an election is backed by the voter's one ballot. */
  ghost predicate VoteFor(s: State, v: Addr, c: Addr, t: nat) {
    (t !in s.past.elected || v in s.past.elected[t].quorum) ==>
      At(v, t) in s.past.ballots && s.past.ballots[At(v, t)].candidate == c
  }

  ghost predicate Running(s: State, c: Addr) {
    c in s.nodes && c in s.past.counted && s.nodes[c].role == Candidate && s.nodes[c].term >= 1
  }

  /** The vote counter is the number of distinct servers that granted their vote. */
  ghost predicate CountedVotes(s: State) {
    forall c :: Running(s, c) ==>
      && c in s.past.counted[c] && s.past.counted[c] <= s.members
      && s.nodes[c].votes == |s.past.counted[c]|
      && forall v :: v in s.past.counted[c] ==> VoteFor(s, v, c, s.nodes[c].term)
  }

  /** An open vote call of a running candidate is for a voter it has not counted yet. */
  ghost predicate OpenCall(s: State, id: CallId) {
    && id.src in s.members && id.dst in s.members && id.src != id.dst
    && id.src in s.nodes && 1 <= id.num <= s.nodes[id.src].term
    && (Running(s, id.src) && s.nodes[id.src].term == id.num ==> id.dst !in s.past.counted[id.src])
  }

  ghost predicate OpenCalls(s: State) {
    forall id :: id in s.voteCalls ==>
      && s.voteCalls[id].term == id.num && s.voteCalls[id].candidate == id.src
      && OpenCall(s, id) && id !in s.voteAnswers
  }

  ghost predicate OpenAnswers(s: State) {
    forall id :: id in s.voteAnswers ==>
      && s.voteAnswers[id].req.term == id.num && s.voteAnswers[id].req.candidate == id.src
      && OpenCall(s, id)
      && (s.voteAnswers[id].reply.granted ==>
            s.voteAnswers[id].reply.term == id.num && VoteFor(s, id.dst, id.src, id.num))
  }

  /** Leaders are recorded winners, and each server wins at most once. */
  ghost predicate Leaders(s: State) {
    && (forall i :: i in s.nodes && s.nodes[i].role == Leader ==>
          s.nodes[i].term in s.past.elected && s.past.elected[s.nodes[i].term].leader == i)
    && (forall t :: t in s.past.elected ==> Won(s, t, s.past.elected[t].leader))
  }

  ghost predicate Won(s: State, t: nat, i: Addr) {
    && i in s.nodes && i in s.past.led && t <= s.nodes[i].term
    && (s.nodes[i].term == t ==> s.nodes[i].role == Leader || s.nodes[i].role == Dead)
    && (forall u :: u in s.past.elected && s.past.elected[u].leader == i ==> u == t)
  }

  ghost predicate ElectionInv(s: State) {
    && Shape(s)
    && BallotTerms(s) && BallotCandidates(s) && VotesStick(s) && QuorumsStick(s)
    && CountedVotes(s) && OpenCalls(s) && OpenAnswers(s) && Leaders(s)
  }

  // ---------------------------------------------------------------- logs

  /** Two logs agree on their first `n` entries. */
  ghost predicate Same(l: seq<Entry>, m: seq<Entry>, n: int) {
    0 <= n <= |l| && n <= |m| && forall k :: 0 <= k < n ==> l[k] == m[k]
  }

  /** Up to each of its entries, a log is a copy of the log of the leader that wrote the entry. */
  ghost predicate Grounded(logs: map<nat, seq<Entry>>, l: seq<Entry>) {
    forall k :: 0 <= k < |l| ==> l[k].term in logs && Same(l, logs[l[k].term], k + 1)
  }

  ghost predicate TermsUpTo(l: seq<Entry>, t: nat) {
    forall k :: 0 <= k < |l| ==> l[k].term <= t
  }

  ghost predicate LogsGrounded(logs: map<nat, seq<Entry>>) {
    forall t :: t in logs ==> Grounded(logs, logs[t]) && TermsUpTo(logs[t], t)
  }

  ghost predicate NodeLogs(s: State) {
    forall i :: i in s.nodes ==> Grounded(s.past.logs, s.nodes[i].log) && TermsUpTo(s.nodes[i].log, s.nodes[i].term)
  }

  ghost predicate BallotLogs(s: State) {
    forall k :: k in s.past.ballots ==> Grounded(s.past.logs, s.past.ballots[k].log)
  }

  /** The recorded leader log of a term is the log of that leader while it is in the term. */
  ghost predicate LeaderLogs(s: State) {
    && 0 in s.past.logs
    && (forall t :: t in s.past.logs ==> t == 0 || t in s.past.elected)
    && (forall t :: t in s.past.elected ==> LeaderLog(s, t, s.past.elected[t].leader))
  }

  ghost predicate LeaderLog(s: State, t: nat, i: Addr) {
    && t in s.past.logs
    && (i in s.nodes && s.nodes[i].term == t ==> s.nodes[i].log == s.past.logs[t])
  }

  /** A leader log is what the winner brought, older than its term, and then its own entries. */
  ghost predicate Extends(base: seq<Entry>, log: seq<Entry>, t: nat) {
    && |base| < |log| && Same(base, log, |base|)
    && (forall k :: 0 <= k < |base| ==> base[k].term < t)
    && (forall k :: |base| <= k < |log| ==> log[k].term == t)
  }

  ghost predicate Bases(s: State) {
    forall t :: t in s.past.elected && t >= 1 ==>
      t in s.past.logs && Extends(s.past.elected[t].base, s.past.logs[t], t)
  }

  ghost predicate LogAhead(l: seq<Entry>, m: seq<Entry>) {
    UpToDate(|l| - 1, LastTerm(l), m)
  }

  /** While a term has no leader, every ballot for a running candidate found its log up to date. */
  ghost predicate CandidatesAhead(s: State) {
    forall k :: k in s.past.ballots && k.term !in s.past.elected ==>
      var c := s.past.ballots[k].candidate;
      c in s.nodes && s.nodes[c].role == Candidate && s.nodes[c].term == k.term ==>
        LogAhead(s.nodes[c].log, s.past.ballots[k].log)
  }

  ghost predicate RequestsHonest(s: State) {
    forall id ::
      id in s.voteCalls && id.src in s.nodes && s.nodes[id.src].role == Candidate && s.nodes[id.src].term == id.num ==>
      && s.voteCalls[id].lastIndex == |s.nodes[id.src].log| - 1
      && s.voteCalls[id].lastTerm == LastTerm(s.nodes[id.src].log)
  }

  ghost predicate WinnersAhead(s: State) {
    forall t, w :: t in s.past.elected && t >= 1 && w in s.past.elected[t].quorum ==>
      At(w, t) in s.past.ballots && LogAhead(s.past.elected[t].base, s.past.ballots[At(w, t)].log)
  }

  ghost predicate LogInv(s: State) {
    && LogsGrounded(s.past.logs) && NodeLogs(s) && BallotLogs(s) && LeaderLogs(s) && Bases(s)
    && CandidatesAhead(s) && RequestsHonest(s) && WinnersAhead(s)
  }

  // ---------------------------------------------------------------- acknowledgements

  ghost predicate AckBounds(s: State) {
    forall k :: k in s.past.acks ==>
      && k.who in s.nodes && k.term <= s.nodes[k.who].term
      && k.term in s.past.elected && k.term in s.past.logs && s.past.acks[k] <= |s.past.logs[k.term]|
  }

  /** The leader of some later term up to `bound` does not have these entries of term `t`. */
  ghost predicate Overruled(h: History, t: nat, n: nat, bound: int) {
    t in h.logs && exists u :: u in h.elected && u in h.logs && t < u <= bound && !Same(h.logs[u], h.logs[t], n)
  }

  /** A log still holds the first `n` entries of a leader log unless a later leader lacks them. */
  ghost predicate Kept(h: History, l: seq<Entry>, t: nat, n: nat, bound: int) {
    t in h.logs && (Same(l, h.logs[t], n) || Overruled(h, t, n, bound))
  }

  ghost predicate NodesKeep(s: State) {
    forall k, n: nat :: k in s.past.acks && n <= s.past.acks[k] && k.who in s.nodes ==>
      Kept(s.past, s.nodes[k.who].log, k.term, n, s.nodes[k.who].term)
  }

  ghost predicate BallotMatters(s: State, b: At) {
    b in s.past.ballots && (b.term in s.past.elected ==> b.who in s.past.elected[b.term].quorum)
  }

  ghost predicate BallotKeeps(h: History, b: At, t: nat, n: nat) {
    b in h.ballots && Kept(h, h.ballots[b].log, t, n, b.term - 1)
  }

  ghost predicate BallotsKeep(s: State) {
    forall b, k, n: nat ::
      BallotMatters(s, b) && k in s.past.acks && k.who == b.who && k.term < b.term && n <= s.past.acks[k] ==>
      BallotKeeps(s.past, b, k.term, n)
  }

  ghost predicate LeaderAcks(s: State) {
    forall t :: t in s.past.elected ==>
      var k := At(s.past.elected[t].leader, t);
      k in s.past.acks && t in s.past.logs && s.past.acks[k] == |s.past.logs[t]|
  }

  ghost predicate AckInv(s: State) {
    AckBounds(s) && NodesKeep(s) && BallotsKeep(s) && LeaderAcks(s)
  }

  // ---------------------------------------------------------------- commitment

  /** Servers that have accepted the entry at `k` of the leader of term `t`. */
  ghost function Ackers(s: State, t: nat, k: nat): set<Addr> {
    set p | p in s.members && At(p, t) in s.past.acks && s.past.acks[At(p, t)] > k
  }

  /** The commit rule: a majority accepted an entry that the leader wrote in its own term. */
  ghost predicate Committed(s: State, t: nat, k: nat) {
    && t in s.past.elected && t in s.past.logs && k < |s.past.logs[t]| && s.past.logs[t][k].term == t
    && Majority(|Ackers(s, t, k)|, s.members)
  }

  /** Everything in the log up to index `c` is covered by an entry committed by term `bound`. */
  ghost predicate Safe(s: State, l: seq<Entry>, c: int, bound: nat) {
    && -1 <= c < |l|
    && (c >= 0 ==> exists t: nat, k: nat ::
          t <= bound && c <= k && Committed(s, t, k) && Same(l, s.past.logs[t], c + 1))
  }

  ghost predicate NodesSafe(s: State) {
    forall i :: i in s.nodes ==> Safe(s, s.nodes[i].log, s.nodes[i].commit, s.nodes[i].term)
  }

  // ---------------------------------------------------------------- replication

  /** The first `n` entries of the leader of term `t` have been accepted by server `p`. */
  ghost predicate Accepted(h: History, p: Addr, t: nat, n: int) {
    n > 0 ==> At(p, t) in h.acks && n <= h.acks[At(p, t)]
  }

  ghost predicate Links(s: State, id: CallId, t: nat) {
    && id.src in s.members && id.dst in s.members && id.src != id.dst
    && t in s.past.elected && s.past.elected[t].leader == id.src
    && id.src in s.round && id.num <= s.round[id.src]
  }

  /** A request carries the stretch of its leader's log from `prevIndex + 1` past the commit index. */
  ghost predicate Stretch(h: History, id: CallId, req: AppendRequest) {
    && req.leader == id.src && req.term in h.logs && -1 <= req.prevIndex
    && var e := req.prevIndex + 1 + |req.entries|;
       && e <= |h.logs[req.term]|
       && (forall k :: 0 <= k < |req.entries| ==> req.entries[k] == h.logs[req.term][req.prevIndex + 1 + k])
       && (req.prevIndex >= 0 ==> req.prevTerm == h.logs[req.term][req.prevIndex].term)
       && req.leaderCommit < e
       && Accepted(h, id.dst, req.term, req.prevIndex + 1)
  }

  ghost predicate CallsFit(s: State) {
    forall id :: id in s.appendCalls ==>
      && Links(s, id, s.appendCalls[id].term) && Stretch(s.past, id, s.appendCalls[id])
      && id !in s.appendAnswers
  }

  ghost predicate CallsSafe(s: State) {
    forall id :: id in s.appendCalls ==>
      s.appendCalls[id].term in s.past.logs &&
      Safe(s, s.past.logs[s.appendCalls[id].term], s.appendCalls[id].leaderCommit, s.appendCalls[id].term)
  }

  /** A reply in the request's own term is a success, and the follower took every entry. */
  ghost predicate AnswersFit(s: State) {
    forall id :: id in s.appendAnswers ==>
      var req := s.appendAnswers[id].req;
      && Links(s, id, req.term) && -1 <= req.prevIndex
      && (s.appendAnswers[id].reply.success <==> s.appendAnswers[id].reply.term == req.term)
      && (s.appendAnswers[id].reply.success ==> Accepted(s.past, id.dst, req.term, req.prevIndex + 1 + |req.entries|))
  }

  /** What a leader believes a peer has accepted, it has accepted. */
  ghost predicate Progress(s: State, i: Addr, p: Addr) {
    i in s.nodes && (
      var n := s.nodes[i];
      && p in n.next && p in n.matched && n.next[p] == n.matched[p] + 1 && 0 <= n.next[p]
      && Accepted(s.past, p, n.term, n.next[p]))
  }

  ghost predicate MatchSound(s: State) {
    forall i, p :: i in s.nodes && s.nodes[i].role == Leader && p in s.members && p != i ==> Progress(s, i, p)
  }

  ghost predicate NeverLed(s: State) {
    forall i, p :: i in s.nodes && i !in s.past.led && p in s.members && p != i ==>
      && p in s.nodes[i].next && p in s.nodes[i].matched && s.nodes[i].next[p] == 0 && s.nodes[i].matched[p] == -1
  }

  /** The open call of the current round starts right after what the peer has accepted. */
  ghost predicate InRound(s: State, id: CallId, req: AppendRequest) {
    id.src in s.nodes && id.src in s.round && id.src in s.pending
    && s.nodes[id.src].role == Leader && s.nodes[id.src].term == req.term
    && id.num == s.round[id.src] && id.dst in s.pending[id.src] ==>
      id.dst in s.nodes[id.src].next && s.nodes[id.src].next[id.dst] == req.prevIndex + 1
  }

  ghost predicate Rounds(s: State) {
    && (forall id :: id in s.appendCalls ==> InRound(s, id, s.appendCalls[id]))
    && (forall id :: id in s.appendAnswers ==> InRound(s, id, s.appendAnswers[id].req))
  }

  ghost predicate ReplicationInv(s: State) {
    CallsFit(s) && CallsSafe(s) && AnswersFit(s) && MatchSound(s) && NeverLed(s) && Rounds(s) && NodesSafe(s)
  }

  // ---------------------------------------------------------------- leases

  /**
   Server `p` accepted a heartbeat sent at time `h` by the leader of term `t`: for an election
   timeout after `h` it neither votes in a later term nor starts an election.
   */
  ghost predicate Held(s: State, p: Addr, t: nat, h: int) {
    && p in s.nodes && s.nodes[p].deadline >= h + ELECTION_TIMEOUT
    && (s.nodes[p].timer.Armed? ==> s.nodes[p].timer.at >= h + ELECTION_TIMEOUT)
    && (s.now < h + ELECTION_TIMEOUT ==> forall k :: k in s.past.ballots && k.who == p ==> k.term <= t)
  }

  ghost predicate Clocks(s: State) {
    forall i :: i in s.nodes ==>
      s.nodes[i].heartbeatAt <= s.now && (s.nodes[i].holder ==> s.nodes[i].leaseUntil - LEADER_LEASE_TIMEOUT <= s.now)
  }

  ghost predicate Responder(s: State, i: Addr, p: Addr) {
    i in s.nodes && s.nodes[i].role == Leader && p in s.nodes[i].responding
  }

  ghost predicate RespondersHeld(s: State) {
    forall i, p :: Responder(s, i, p) ==>
      p in s.members && (p != i ==> Held(s, p, s.nodes[i].term, s.nodes[i].heartbeatAt))
  }

  /** A success of the sender's current round, still on its way. */
  ghost predicate FreshSuccess(s: State, id: CallId) {
    && id in s.appendAnswers && s.appendAnswers[id].reply.success && id.src in s.nodes && id.src in s.round
    && s.nodes[id.src].role == Leader && s.nodes[id.src].term == s.appendAnswers[id].req.term
    && id.num == s.round[id.src]
  }

  ghost predicate AnswersHeld(s: State) {
    forall id :: FreshSuccess(s, id) ==> Held(s, id.dst, s.nodes[id.src].term, s.nodes[id.src].heartbeatAt)
  }

  /** Only a leader, or one that stopped while leading, holds a lease, which its responders back. */
  ghost predicate LeasesHeld(s: State) {
    forall i :: i in s.nodes && s.nodes[i].holder ==>
      && (s.nodes[i].role == Leader || s.nodes[i].role == Dead)
      && s.nodes[i].term in s.past.elected && s.past.elected[s.nodes[i].term].leader == i
      && i in s.past.leases && s.past.leases[i] <= s.members && Majority(|s.past.leases[i]|, s.members)
      && forall p :: p in s.past.leases[i] && p != i ==>
           Held(s, p, s.nodes[i].term, s.nodes[i].leaseUntil - LEADER_LEASE_TIMEOUT)
  }

  ghost predicate NoEarlyLease(s: State) {
    forall i :: i in s.nodes && i !in s.past.led ==>
      !s.nodes[i].holder && !s.nodes[i].renew && s.nodes[i].responding == {}
  }

  ghost predicate LeaseInv(s: State) {
    Clocks(s) && RespondersHeld(s) && AnswersHeld(s) && LeasesHeld(s) && NoEarlyLease(s)
  }

  /** An unexpired lease: of a leader that may serve reads now, or of one that has stopped meanwhile. */
  ghost predicate HoldsLease(s: State, i: Addr) {
    i in s.nodes && s.nodes[i].holder && s.now < s.nodes[i].leaseUntil
  }

  // ---------------------------------------------------------------- replay

  /** The state machine after applying a log from the start, one index low as followers do. */
  function Replay(l: seq<Entry>): Machine {
    if l == [] then INITIAL
    else ApplyCommand(Replay(l[..|l| - 1]), |l| - 2, l[|l| - 1]).machine
  }

  ghost predicate Replayed(s: State) {
    forall i :: i in s.nodes && i !in s.past.led && -1 <= s.nodes[i].commit < |s.nodes[i].log| ==>
      s.nodes[i].machine == Replay(s.nodes[i].log[..s.nodes[i].commit + 1])
  }

  ghost predicate Applied(s: State) {
    forall i :: i in s.nodes ==> -1 <= s.nodes[i].machine.applied
  }

  ghost predicate ReplayInv(s: State) {
    Replayed(s) && Applied(s)
  }

  ghost predicate Inv(s: State) {
    ElectionInv(s) && LogInv(s) && AckInv(s) && ReplicationInv(s) && LeaseInv(s) && ReplayInv(s)
  }
}
