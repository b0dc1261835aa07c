/** Every step of the cluster keeps the invariants: each handler is reduced to its effects. */
module Steps {
  import opened Types
  import opened MachineSpec
  import opened NodeSpec
  import opened Cluster
  import opened Invariants
  import opened LogLemmas
  import opened ElectionProofs
  import opened LogProofs
  import opened ReplicationProofs
  import opened LeaseProofs
  import opened ReplayProofs
  import opened Effects

  // ---------------------------------------------------------------- from one server to the cluster

  /** What a handler that changes no log, commit index or peer index does to its server. */
  ghost predicate FrameNode(n: Node, n': Node, now: int) {
    && n'.log == n.log && n'.commit == n.commit && n.term <= n'.term
    && n'.next == n.next && n'.matched == n.matched
    && (n'.role == Leader ==> n.role == Leader && n'.term == n.term && n'.holder == n.holder)
    && n'.heartbeatAt == n.heartbeatAt && n'.responding == n.responding && n'.leaseUntil == n.leaseUntil
    && HolderStays(n, n') && (n'.renew ==> n.renew)
    && (n'.deadline == n.deadline || n'.deadline >= now + ELECTION_TIMEOUT)
    && (n'.timer == n.timer || n'.timer == Idle || (n'.timer.Armed? && n'.timer.at >= now + ELECTION_TIMEOUT))
    && n.machine.applied <= n'.machine.applied
  }

  ghost predicate FrameState(s: State, s': State, i: Addr) {
    && OneNode(s, s', i) && FrameNode(s.nodes[i], s'.nodes[i], s.now)
    && (i !in s.past.led ==> s'.nodes[i].machine == s.nodes[i].machine)
    && s.now <= s'.now && s'.round == s.round && FewerPending(s, s')
    && s'.past.logs == s.past.logs && s'.past.elected == s.past.elected && s'.past.acks == s.past.acks
    && s'.past.led == s.past.led && s'.past.leases == s.past.leases
    && NoNewCalls(s, s') && NoNewAnswers(s, s')
  }

  lemma FrameLogs(s: State, s': State, i: Addr)
    requires FrameState(s, s', i)
    ensures KeepLogs(s, s') && MachinesKeep(s, s')
  {
  }

  lemma FrameCommits(s: State, s': State, i: Addr)
    requires FrameState(s, s', i) && NodesSafe(s)
    ensures CommitsStay(s, s')
  {
  }

  lemma FramePeers(s: State, s': State, i: Addr)
    requires FrameState(s, s', i)
    ensures PeersKeep(s, s')
  {
  }

  lemma FrameLeases(s: State, s': State, i: Addr)
    requires FrameState(s, s', i)
    ensures LeasesKeep(s, s') && QuietClocks(s, s')
  {
  }

  lemma FrameFromNode(s: State, s': State, i: Addr)
    requires FrameState(s, s', i) && NodesSafe(s) && Timely(s, s')
    ensures CalmFrame(s, s')
  {
    FrameLogs(s, s', i);
    FrameCommits(s, s', i);
    FramePeers(s, s', i);
    FrameLeases(s, s', i);
  }

  lemma TimelyFromNode(s: State, s': State, i: Addr)
    requires FrameState(s, s', i) && s'.past.ballots == s.past.ballots
    ensures Timely(s, s')
  {
  }

  /** A calm step, seen from the one server it changes. */
  ghost predicate CalmState(s: State, s': State, i: Addr) {
    && FrameState(s, s', i) && QuietNode(s, s.nodes[i], s'.nodes[i])
    && (s'.nodes[i].role == Candidate ==> s.nodes[i].role == Candidate && s'.nodes[i].term == s.nodes[i].term)
    && s'.past == s.past && QuietMessages(s, s')
  }

  lemma StillFromNode(s: State, s': State, i: Addr)
    requires CalmState(s, s', i)
    ensures StillCandidates(s, s') && CallsShrink(s, s')
  {
  }

  lemma CalmFromNode(s: State, s': State, i: Addr)
    requires CalmState(s, s', i) && Shape(s') && NodesSafe(s)
    ensures Calm(s, s', i)
  {
    TimelyFromNode(s, s', i);
    FrameFromNode(s, s', i);
    StillFromNode(s, s', i);
  }

  lemma CalmStep(s: State, s': State, i: Addr)
    requires Inv(s) && CalmState(s, s', i) && Shape(s')
    ensures Inv(s')
  {
    CalmFromNode(s, s', i);
    CalmKeeps(s, s', i);
  }

  // ---------------------------------------------------------------- steps without a message

  lemma TickIsCalm(s: State, ms: nat, i: Addr)
    requires Shape(s) && i in s.members
    ensures CalmState(s, DoTick(s, ms), i) && Shape(DoTick(s, ms))
  {
  }

  lemma TickKeeps(s: State, ms: nat)
    requires Inv(s)
    ensures Inv(DoTick(s, ms))
  {
    var i :| i in s.members;
    TickIsCalm(s, ms, i);
    CalmStep(s, DoTick(s, ms), i);
  }

  lemma AbandonIsCalm(s: State, i: Addr, peer: Addr)
    requires Shape(s) && i in s.pending
    ensures var s' := s.(pending := s.pending[i := s.pending[i] - {peer}]); CalmState(s, s', i) && Shape(s')
  {
  }

  lemma CrashIsCalm(s: State, i: Addr)
    requires Shape(s) && i in s.nodes
    ensures var s' := WithNode(s, i, s.nodes[i].(role := Dead)); CalmState(s, s', i) && Shape(s')
  {
  }

  lemma SkipIsCalm(s: State, i: Addr)
    requires Shape(s) && i in s.nodes && i in s.past.led
    ensures var s' := WithNode(s, i, s.nodes[i].(machine := MachineSpec.Step(s.nodes[i].machine)));
      CalmState(s, s', i) && Shape(s')
  {
  }

  lemma SetNodeCalm(s: State, i: Addr, n: Node)
    requires Shape(s) && i in s.nodes && FrameNode(s.nodes[i], n, s.now) && QuietNode(s, s.nodes[i], n)
    requires n.role == Candidate ==> s.nodes[i].role == Candidate && n.term == s.nodes[i].term
    requires i !in s.past.led ==> n.machine == s.nodes[i].machine
    ensures CalmState(s, WithNode(s, i, n), i) && Shape(WithNode(s, i, n))
  {
  }

  lemma ApplyCounts(m: Machine, index: int, e: Entry)
    ensures m.applied <= ApplyCommand(m, index, e).machine.applied
  {
  }

  lemma ClientApplyIsCalm(s: State, i: Addr, index: nat)
    requires Shape(s) && ClientApplyEnabled(s, i, index)
    ensures CalmState(s, DoClientApply(s, i, index), i) && Shape(DoClientApply(s, i, index))
  {
    var n := s.nodes[i];
    var out := ApplyCommand(n.machine, index, n.log[index]);
    ApplyCounts(n.machine, index, n.log[index]);
    if out.Done? {
      SetNodeCalm(s, i, n.(machine := out.machine));
    } else {
      SetNodeCalm(s, i, n.(machine := out.machine, role := Dead));
    }
  }

  ghost predicate Silent(step: Cluster.Step) {
    step.Abandon? || step.Crash? || step.ClientSkip? || step.ClientApply?
  }

  lemma SilentIsCalm(s: State, step: Cluster.Step) returns (i: Addr)
    requires Shape(s) && Enabled(s, step) && Silent(step)
    ensures CalmState(s, Apply(s, step), i) && Shape(Apply(s, step))
  {
    i := step.i;
    match step
    case Abandon(_, peer) => AbandonIsCalm(s, i, peer);
    case Crash(_) => CrashIsCalm(s, i);
    case ClientSkip(_) => SkipIsCalm(s, i);
    case ClientApply(_, index) => ClientApplyIsCalm(s, i, index);
  }

  lemma SilentKeeps(s: State, step: Cluster.Step)
    requires Inv(s) && Enabled(s, step) && Silent(step)
    ensures Inv(Apply(s, step))
  {
    var i := SilentIsCalm(s, step);
    CalmStep(s, Apply(s, step), i);
  }

  // ---------------------------------------------------------------- the election timer

  lemma LateTimeoutIsCalm(s: State, i: Addr, r: nat)
    requires Shape(s) && TimeoutEnabled(s, i, r) && !StartsElection(s.nodes[i])
    ensures CalmState(s, DoTimeout(s, i, r), i) && Shape(DoTimeout(s, i, r))
  {
  }

  /** Server `i` stands for election with state `c` and sends the requests in `calls`. */
  ghost predicate Stands(s: State, s': State, i: Addr, c: Node, calls: map<CallId, VoteRequest>) {
    && i in s.nodes && (s.nodes[i].role == Candidate || s.nodes[i].role == Follower)
    && c.role == Candidate && c.term == s.nodes[i].term + 1 && c.vote == Some(i) && c.votes == 1
    && FrameNode(s.nodes[i], c, s.now) && c.machine == s.nodes[i].machine
    && s' == s.(nodes := s.nodes[i := c], voteCalls := s.voteCalls + calls,
                past := s.past.(ballots := s.past.ballots[At(i, c.term) := Ballot(i, s.nodes[i].log)],
                                counted := s.past.counted[i := {i}]))
    && (forall id :: id in calls ==>
          id.src == i && id.num == c.term && id.dst in s.members && id.dst != i && calls[id] == BuildVoteRequest(c, i))
  }

  lemma StandsFrame(s: State, s': State, i: Addr, c: Node, calls: map<CallId, VoteRequest>)
    requires Stands(s, s', i, c, calls) && Shape(s)
    ensures Shape(s') && FrameState(s, s', i)
  {
  }

  lemma StandsLogs(s: State, s': State, i: Addr, c: Node, calls: map<CallId, VoteRequest>)
    requires Stands(s, s', i, c, calls) && BallotTerms(s)
    ensures StartMessages(s, s', i) && StartLogs(s, s', i)
  {
  }

  lemma StandingFrame(s: State, s': State, i: Addr)
    requires FrameState(s, s', i) && Start(s, s', i) && NodesSafe(s)
    requires s.nodes[i].timer.Armed? && s.nodes[i].timer.at <= s.now
    ensures CalmFrame(s, s')
  {
    assert Timely(s, s');
    FrameFromNode(s, s', i);
  }

  /** Starting an election keeps the invariants. */
  lemma StartKeeps(s: State, s': State, i: Addr)
    requires Inv(s) && Shape(s') && StartMessages(s, s', i) && StartLogs(s, s', i) && FrameState(s, s', i)
    requires s.nodes[i].timer.Armed? && s.nodes[i].timer.at <= s.now
    ensures Inv(s')
  {
    StandingFrame(s, s', i);
    ElectionStart(s, s', i);
    LogsStart(s, s', i);
    FrameKeeps(s, s');
  }

  lemma TimeoutStands(s: State, i: Addr, r: nat)
    requires Shape(s) && BallotTerms(s) && TimeoutEnabled(s, i, r) && StartsElection(s.nodes[i]) && |s.members| != 1
    ensures Stands(s, DoTimeout(s, i, r), i, ElectionCallback(s.nodes[i], i, s.members, s.now, r),
                   NewVoteCalls(s, i, ElectionCallback(s.nodes[i], i, s.members, s.now, r)))
  {
    assert At(i, s.nodes[i].term + 1) !in s.past.ballots;
  }

  /** A fired timer that does not win at once keeps the invariants. */
  lemma TimeoutKeeps(s: State, i: Addr, r: nat)
    requires Inv(s) && TimeoutEnabled(s, i, r) && (!StartsElection(s.nodes[i]) || |s.members| != 1)
    ensures Inv(DoTimeout(s, i, r))
  {
    var s' := DoTimeout(s, i, r);
    if !StartsElection(s.nodes[i]) {
      LateTimeoutIsCalm(s, i, r);
      CalmStep(s, s', i);
    } else {
      var c := ElectionCallback(s.nodes[i], i, s.members, s.now, r);
      var calls := NewVoteCalls(s, i, c);
      TimeoutStands(s, i, r);
      StandsFrame(s, s', i, c, calls);
      StandsLogs(s, s', i, c, calls);
      StartKeeps(s, s', i);
    }
  }

  // ---------------------------------------------------------------- a won election

  /** A running candidate with a majority of counted votes becomes the leader. */
  ghost predicate Promoted(s: State, s': State, i: Addr) {
    && Running(s, i) && i !in s.past.led && Majority(s.nodes[i].votes, s.members)
    && s' == s.(nodes := s.nodes[i := PromoteToLeader(s.nodes[i])],
                past := Elect(s.past, i, s.nodes[i].term, s.past.counted[i], s.nodes[i].log,
                              s.nodes[i].log + [Entry(s.nodes[i].term, NoOp)]))
  }

  lemma PromotedWins(s: State, s': State, i: Addr)
    requires Promoted(s, s', i) && Shape(s)
    ensures Shape(s') && Win(s, s', i)
  {
  }

  lemma PromotedWrites(s: State, s': State, i: Addr)
    requires Promoted(s, s', i) && s.nodes[i].term !in s.past.elected
    ensures FirstEntry(s, s', i) && StillCandidates(s, s') && CallsShrink(s, s')
  {
  }

  lemma PromotedGrows(s: State, s': State, i: Addr)
    requires FirstEntry(s, s', i) && LogsGrow(s.past, s'.past) && AckBounds(s) && s.nodes[i].term !in s.past.elected
    ensures Grows(s, s')
  {
  }

  lemma PromotedCommits(s: State, s': State, i: Addr)
    requires Promoted(s, s', i) && NodesSafe(s)
    ensures CommitsStay(s, s') && MachinesKeep(s, s')
  {
  }

  lemma PromotedPeers(s: State, s': State, i: Addr)
    requires Promoted(s, s', i)
    ensures PeersKeep(s, s') && NoNewAnswers(s, s')
  {
  }

  lemma PromotedLeases(s: State, s': State, i: Addr)
    requires Promoted(s, s', i) && Grows(s, s')
    ensures Timely(s, s') && LeasesKeep(s, s') && QuietClocks(s, s')
  {
  }

  lemma PromotedFrame(s: State, s': State, i: Addr)
    requires Promoted(s, s', i) && Grows(s, s')
    requires ReplicationInv(s) && LeaseInv(s) && ReplayInv(s) && Leaders(s)
    ensures ReplicationInv(s') && LeaseInv(s') && ReplayInv(s')
  {
    PromotedCommits(s, s', i);
    PromotedPeers(s, s', i);
    PromotedLeases(s, s', i);
    AllStaySafe(s, s');
    ReplicationQuiet(s, s');
    LeaseQuiet(s, s');
    ReplayQuiet(s, s');
  }

  lemma PromotedKeeps(s: State, s': State, i: Addr)
    requires Inv(s) && Promoted(s, s', i)
    ensures Inv(s')
  {
    PromotedWins(s, s', i);
    ElectionWin(s, s', i);
    PromotedWrites(s, s', i);
    LogsFirst(s, s', i);
    PromotedGrows(s, s', i);
    PromotedFrame(s, s', i);
  }

  /** The single server of a cluster stands and wins in one step; this is the state in between. */
  function Alone(n: Node, i: Addr): Node {
    n.(timer := Idle, role := Candidate, term := n.term + 1, vote := Some(i), votes := 1)
  }

  function Candidacy(s: State, i: Addr): State
    requires i in s.nodes
  {
    var c := Alone(s.nodes[i], i);
    s.(nodes := s.nodes[i := c],
       past := s.past.(ballots := s.past.ballots[At(i, c.term) := Ballot(i, s.nodes[i].log)],
                       counted := s.past.counted[i := {i}]))
  }

  lemma LoneStands(s: State, i: Addr)
    requires i in s.nodes && (s.nodes[i].role == Candidate || s.nodes[i].role == Follower)
    ensures Stands(s, Candidacy(s, i), i, Alone(s.nodes[i], i), map[])
  {
  }

  lemma LonePromoted(s: State, s': State, i: Addr, h: History)
    requires Shape(s) && i in s.nodes && i !in s.past.led && |s.members| == 1
    requires h == Candidacy(s, i).past
    requires s' == s.(nodes := s.nodes[i := PromoteToLeader(Alone(s.nodes[i], i))],
                      past := Elect(h, i, s.nodes[i].term + 1, {i}, s.nodes[i].log,
                                    s.nodes[i].log + [Entry(s.nodes[i].term + 1, NoOp)]))
    ensures Promoted(Candidacy(s, i), s', i)
  {
  }

  lemma LoneTimeout(s: State, i: Addr, r: nat)
    requires Shape(s) && BallotTerms(s) && TimeoutEnabled(s, i, r) && StartsElection(s.nodes[i]) && |s.members| == 1
    ensures Promoted(Candidacy(s, i), DoTimeout(s, i, r), i)
  {
    assert At(i, s.nodes[i].term + 1) !in s.past.ballots;
    LonePromoted(s, DoTimeout(s, i, r), i, Candidacy(s, i).past);
  }

  lemma LoneTimeoutKeeps(s: State, i: Addr, r: nat)
    requires Inv(s) && TimeoutEnabled(s, i, r) && StartsElection(s.nodes[i]) && |s.members| == 1
    ensures Inv(DoTimeout(s, i, r))
  {
    var s1, c := Candidacy(s, i), Alone(s.nodes[i], i);
    LoneStands(s, i);
    StandsFrame(s, s1, i, c, map[]);
    StandsLogs(s, s1, i, c, map[]);
    StartKeeps(s, s1, i);
    LoneTimeout(s, i, r);
    PromotedKeeps(s1, DoTimeout(s, i, r), i);
  }

  // ---------------------------------------------------------------- vote requests

  lemma DropVoteCalm(s: State, id: CallId)
    requires Shape(s) && id in s.voteCalls && id.dst in s.nodes
    ensures var s' := s.(voteCalls := s.voteCalls - {id}); CalmState(s, s', id.dst) && Shape(s')
  {
  }

  /** A refused vote may still move the voter to a later term. */
  lemma RefuseCalm(s: State, s': State, id: CallId, n: Node, reply: VoteReply)
    requires Shape(s) && id in s.voteCalls && id.dst in s.nodes && !reply.granted
    requires FrameNode(s.nodes[id.dst], n, s.now) && n.machine == s.nodes[id.dst].machine
    requires n == s.nodes[id.dst] || (n.term > s.nodes[id.dst].term && n.role == Follower)
    requires s' == s.(nodes := s.nodes[id.dst := n], voteCalls := s.voteCalls - {id},
                      voteAnswers := s.voteAnswers[id := VoteAnswer(s.voteCalls[id], reply)])
    ensures CalmState(s, s', id.dst) && Shape(s')
  {
  }

  /** The voter `id.dst` grants the call `id` and ends in state `n`. */
  ghost predicate Grants(s: State, s': State, id: CallId, n: Node) {
    && id in s.voteCalls && id.dst in s.nodes
    && s.voteCalls[id].term == id.num && s.voteCalls[id].candidate == id.src
    && s.nodes[id.dst].deadline < s.now && s.nodes[id.dst].role != Leader
    && FrameNode(s.nodes[id.dst], n, s.now) && n.machine == s.nodes[id.dst].machine
    && n.term == id.num && n.vote == Some(id.src)
    && ( || (s.nodes[id.dst].term < id.num && n.role == Follower && n.votes == 0)
         || (&& s.nodes[id.dst].term == id.num && n.role == s.nodes[id.dst].role && n.votes == s.nodes[id.dst].votes
             && (s.nodes[id.dst].vote == None || s.nodes[id.dst].vote == Some(id.src))))
    && UpToDate(s.voteCalls[id].lastIndex, s.voteCalls[id].lastTerm, s.nodes[id.dst].log)
    && s' == s.(nodes := s.nodes[id.dst := n], voteCalls := s.voteCalls - {id},
                voteAnswers := s.voteAnswers[id := VoteAnswer(s.voteCalls[id], VoteReply(id.num, true))],
                past := CastBallot(s.past, id.dst, id.num, id.src, s.nodes[id.dst].log))
  }

  lemma VoteGrants(s: State, id: CallId, r: nat)
    requires VoteEnabled(s, id, r) && OpenCalls(s)
    requires var out := HandleVote(s.nodes[id.dst], s.voteCalls[id], s.now, r); out.VoteReplied? && out.reply.granted
    ensures Grants(s, DoVote(s, id, r), id, HandleVote(s.nodes[id.dst], s.voteCalls[id], s.now, r).node)
  {
  }

  lemma GrantsElection(s: State, s': State, id: CallId, n: Node)
    requires Grants(s, s', id, n) && Shape(s)
    ensures Shape(s') && Grant(s, s', id) && GrantMessages(s, s', id)
  {
  }

  lemma GrantsFrame(s: State, s': State, id: CallId, n: Node)
    requires Grants(s, s', id, n) && NodesSafe(s)
    ensures CalmFrame(s, s')
  {
    assert FrameState(s, s', id.dst);
    assert Timely(s, s');
    FrameFromNode(s, s', id.dst);
  }

  lemma GrantsLogs(s: State, s': State, id: CallId, n: Node)
    requires Grants(s, s', id, n)
    ensures StillCandidates(s, s') && CallsShrink(s, s')
    ensures s'.past.ballots == s.past.ballots || NewBallot(s, s', id.dst, id.num, id.src)
  {
  }

  lemma GrantsLogInv(s: State, s': State, id: CallId, n: Node)
    requires Grants(s, s', id, n) && KeepLogs(s, s') && OpenCall(s, id)
    requires LogInv(s) && AckInv(s) && Leaders(s) && QuorumsStick(s)
    ensures LogInv(s') && AckInv(s')
  {
    GrantsLogs(s, s', id, n);
    if s'.past.ballots == s.past.ballots {
      LogsQuiet(s, s');
    } else {
      LogsCast(s, s', id);
    }
  }

  lemma GrantsKeep(s: State, s': State, id: CallId, n: Node)
    requires Inv(s) && Grants(s, s', id, n)
    ensures Inv(s')
  {
    GrantsElection(s, s', id, n);
    GrantsFrame(s, s', id, n);
    ElectionGrant(s, s', id);
    GrantsLogInv(s, s', id, n);
    FrameKeeps(s, s');
  }

  lemma VoteRefused(s: State, id: CallId, r: nat)
    requires VoteEnabled(s, id, r) && Shape(s)
    requires var out := HandleVote(s.nodes[id.dst], s.voteCalls[id], s.now, r); out.VoteReplied? ==> !out.reply.granted
    ensures CalmState(s, DoVote(s, id, r), id.dst) && Shape(DoVote(s, id, r))
  {
    match HandleVote(s.nodes[id.dst], s.voteCalls[id], s.now, r)
    case VoteCancelled => DropVoteCalm(s, id);
    case VoteReplied(n, reply) => RefuseCalm(s, DoVote(s, id, r), id, n, reply);
  }

  lemma VoteKeeps(s: State, id: CallId, r: nat)
    requires Inv(s) && VoteEnabled(s, id, r)
    ensures Inv(DoVote(s, id, r))
  {
    var out := HandleVote(s.nodes[id.dst], s.voteCalls[id], s.now, r);
    if out.VoteReplied? && out.reply.granted {
      VoteGrants(s, id, r);
      GrantsKeep(s, DoVote(s, id, r), id, out.node);
    } else {
      VoteRefused(s, id, r);
      CalmStep(s, DoVote(s, id, r), id.dst);
    }
  }

  // ---------------------------------------------------------------- vote replies

  /** A reply that adds no vote: dropped, or news of a later term. */
  lemma IgnoreVoteCalm(s: State, s': State, id: CallId, n: Node)
    requires Shape(s) && id in s.voteAnswers && id.src in s.nodes
    requires FrameNode(s.nodes[id.src], n, s.now) && n.machine == s.nodes[id.src].machine
    requires n == s.nodes[id.src] || (n.term > s.nodes[id.src].term && n.role == Follower)
    requires s' == s.(nodes := s.nodes[id.src := n], voteAnswers := s.voteAnswers - {id})
    ensures CalmState(s, s', id.src) && Shape(s')
  {
  }

  ghost predicate AddsVote(s: State, id: CallId) {
    && id in s.voteAnswers && id.src in s.nodes && s.nodes[id.src].role == Candidate
    && s.voteAnswers[id].reply.term == s.voteAnswers[id].req.term && s.voteAnswers[id].reply.granted
  }

  lemma VoteReturnIgnored(s: State, id: CallId, r: nat)
    requires VoteReturnEnabled(s, id, r) && Shape(s) && !AddsVote(s, id)
    ensures CalmState(s, DoVoteReturn(s, id, r), id.src) && Shape(DoVoteReturn(s, id, r))
  {
    var VoteAnswer(req, reply) := s.voteAnswers[id];
    IgnoreVoteCalm(s, DoVoteReturn(s, id, r), id, HandleVoteReply(s.nodes[id.src], s.members, req, reply, s.now, r));
  }

  /** The state once the vote is counted, before any promotion. */
  function Tallied(s: State, id: CallId): State
    requires id.src in s.nodes && id.src in s.past.counted
  {
    var n := s.nodes[id.src];
    s.(nodes := s.nodes[id.src := n.(votes := n.votes + 1)], voteAnswers := s.voteAnswers - {id},
       past := s.past.(counted := s.past.counted[id.src := s.past.counted[id.src] + {id.dst}]))
  }

  lemma TalliedCounts(s: State, id: CallId)
    requires AddsVote(s, id) && id.src in s.past.counted && Shape(s)
    requires s.voteAnswers[id].req.term == id.num && s.nodes[id.src].term == id.num
    ensures Shape(Tallied(s, id)) && Count(s, Tallied(s, id), id)
  {
  }

  lemma TalliedFrame(s: State, id: CallId)
    requires AddsVote(s, id) && id.src in s.past.counted && NodesSafe(s)
    ensures CalmFrame(s, Tallied(s, id)) && StillCandidates(s, Tallied(s, id))
  {
    var s' := Tallied(s, id);
    assert FrameState(s, s', id.src);
    TimelyFromNode(s, s', id.src);
    FrameFromNode(s, s', id.src);
  }

  lemma TalliedKeeps(s: State, id: CallId)
    requires Inv(s) && AddsVote(s, id) && s.nodes[id.src].term == s.voteAnswers[id].req.term
    ensures Inv(Tallied(s, id))
  {
    var s' := Tallied(s, id);
    TalliedCounts(s, id);
    TalliedFrame(s, id);
    ElectionCount(s, s', id);
    LogsQuiet(s, s');
    FrameKeeps(s, s');
  }

  lemma VoteReturnWins(s: State, id: CallId, r: nat)
    requires VoteReturnEnabled(s, id, r) && AddsVote(s, id)
    requires WinsElection(s.nodes[id.src], s.members, s.voteAnswers[id].req, s.voteAnswers[id].reply)
    requires s.nodes[id.src].term >= 1
    ensures Promoted(Tallied(s, id), DoVoteReturn(s, id, r), id.src)
  {
  }

  lemma VoteReturnTallies(s: State, id: CallId, r: nat)
    requires VoteReturnEnabled(s, id, r) && AddsVote(s, id)
    requires !WinsElection(s.nodes[id.src], s.members, s.voteAnswers[id].req, s.voteAnswers[id].reply)
    ensures DoVoteReturn(s, id, r) == Tallied(s, id)
  {
  }

  lemma VoteAddedKeeps(s: State, id: CallId, r: nat)
    requires Inv(s) && VoteReturnEnabled(s, id, r) && AddsVote(s, id)
    ensures Inv(DoVoteReturn(s, id, r))
  {
    TalliedKeeps(s, id);
    if WinsElection(s.nodes[id.src], s.members, s.voteAnswers[id].req, s.voteAnswers[id].reply) {
      assert OpenCall(s, id);
      VoteReturnWins(s, id, r);
      PromotedKeeps(Tallied(s, id), DoVoteReturn(s, id, r), id.src);
    } else {
      VoteReturnTallies(s, id, r);
    }
  }

  lemma VoteReturnKeeps(s: State, id: CallId, r: nat)
    requires Inv(s) && VoteReturnEnabled(s, id, r)
    ensures Inv(DoVoteReturn(s, id, r))
  {
    if !AddsVote(s, id) {
      VoteReturnIgnored(s, id, r);
      CalmStep(s, DoVoteReturn(s, id, r), id.src);
    } else {
      VoteAddedKeeps(s, id, r);
    }
  }

  // ---------------------------------------------------------------- client entries

  lemma EntryQuiet(s: State, i: Addr, op: Op)
    requires ClientEntryEnabled(s, i, op) && Shape(s)
    ensures var s' := DoClientEntry(s, i, op);
      && Shape(s') && Quiet(s, s', i) && QuietMessages(s, s') && Client(s, s', i)
      && StillCandidates(s, s') && CallsShrink(s, s')
  {
  }

  /** One server's log grows by an entry, and nothing that the replication and the leases look at changes. */
  ghost predicate Adds(s: State, s': State, i: Addr, op: Op) {
    && i in s.nodes && s' == s.(nodes := s.nodes[i := ClientAppend(s.nodes[i], op)], past := s'.past)
    && s'.past == s.past.(logs := s'.past.logs, acks := s'.past.acks)
  }

  lemma EntryCommits(s: State, s': State, i: Addr, op: Op)
    requires Adds(s, s', i, op) && NodesSafe(s)
    ensures CommitsStay(s, s')
  {
  }

  lemma EntryPeers(s: State, s': State, i: Addr, op: Op)
    requires Adds(s, s', i, op)
    ensures PeersKeep(s, s')
  {
  }

  lemma EntryMachines(s: State, s': State, i: Addr, op: Op)
    requires Adds(s, s', i, op)
    ensures MachinesKeep(s, s') && NoNewAnswers(s, s')
  {
  }

  lemma EntryLeases(s: State, s': State, i: Addr, op: Op)
    requires Adds(s, s', i, op)
    ensures Timely(s, s') && LeasesKeep(s, s') && QuietClocks(s, s')
  {
  }

  lemma EntryGrows(s: State, s': State, i: Addr)
    requires Client(s, s', i) && Leaders(s) && LeaderLogs(s) && AckBounds(s)
    ensures Grows(s, s')
  {
    ClientGrows(s, s', i);
    WritesGrows(s, s', i, s.nodes[i].term);
  }

  lemma EntryFrameKeeps(s: State, s': State, i: Addr, op: Op)
    requires Adds(s, s', i, op) && Grows(s, s')
    requires ReplicationInv(s) && LeaseInv(s) && ReplayInv(s) && Leaders(s)
    ensures ReplicationInv(s') && LeaseInv(s') && ReplayInv(s')
  {
    EntryCommits(s, s', i, op);
    EntryPeers(s, s', i, op);
    EntryMachines(s, s', i, op);
    EntryLeases(s, s', i, op);
    AllStaySafe(s, s');
    ReplicationQuiet(s, s');
    LeaseQuiet(s, s');
    ReplayQuiet(s, s');
  }

  lemma ClientEntryKeeps(s: State, i: Addr, op: Op)
    requires Inv(s) && ClientEntryEnabled(s, i, op)
    ensures Inv(DoClientEntry(s, i, op))
  {
    var s' := DoClientEntry(s, i, op);
    EntryQuiet(s, i, op);
    ElectionQuiet(s, s', i);
    LogsClient(s, s', i);
    EntryGrows(s, s', i);
    EntryFrameKeeps(s, s', i, op);
  }

  // ---------------------------------------------------------------- heartbeats

  /** A leader starts a round and ends in state `n`; only its clock fields and commit index change. */
  ghost predicate Beats(s: State, s': State, i: Addr, n: Node) {
    && i in s.nodes && i in s.round && s.nodes[i].role == Leader
    && n == s.nodes[i].(heartbeatAt := s.now, renew := true, responding := {i}, commit := n.commit)
    && s' == s.(nodes := s.nodes[i := n], round := s.round[i := s.round[i] + 1],
                pending := s.pending[i := Peers(s, i)],
                appendCalls := s.appendCalls + NewAppendCalls(s, i, s.nodes[i], s.round[i] + 1))
  }

  lemma HeartbeatBeats(s: State, i: Addr)
    requires HeartbeatEnabled(s, i)
    ensures Beats(s, DoHeartbeat(s, i), i, HeartbeatCallback(s.nodes[i], i, s.members, s.now))
  {
  }

  lemma BeatsQuiet(s: State, s': State, i: Addr, n: Node)
    requires Beats(s, s', i, n) && Shape(s)
    ensures Shape(s') && Quiet(s, s', i) && QuietMessages(s, s')
  {
  }

  lemma BeatsLogs(s: State, s': State, i: Addr, n: Node)
    requires Beats(s, s', i, n)
    ensures KeepLogs(s, s') && StillCandidates(s, s') && CallsShrink(s, s')
  {
  }

  lemma BeatsRound(s: State, s': State, i: Addr, n: Node)
    requires Beats(s, s', i, n) && Shape(s)
    ensures Beat(s, s', i) && NewRound(s, s', i)
    ensures i in s'.pending && s'.pending == s.pending[i := s'.pending[i]]
  {
  }

  lemma BeatsReplay(s: State, s': State, i: Addr, n: Node)
    requires Beats(s, s', i, n) && Leaders(s) && NodesSafe(s)
    ensures MachinesKeep(s, s') && UnledCommitsStay(s, s')
  {
    assert Won(s, s.nodes[i].term, i);
    forall j | j in s.nodes && j !in s'.past.led ensures CommitsKeep(s, s', j) {
      assert Safe(s, s.nodes[j].log, s.nodes[j].commit, s.nodes[j].term);
    }
  }

  /** The commit index of the leader after the round starts is still safe. */
  lemma HeartbeatSafe(s: State, i: Addr)
    requires HeartbeatEnabled(s, i) && Shape(s)
    requires Leaders(s) && LeaderLogs(s) && LeaderAcks(s) && MatchSound(s) && NodesSafe(s)
    ensures var n := HeartbeatCallback(s.nodes[i], i, s.members, s.now); Safe(s, n.log, n.commit, n.term)
  {
    var n := s.nodes[i].(heartbeatAt := s.now, renew := true, responding := {i});
    assert LeaderLog(s, n.term, i);
    assert Safe(s, s.nodes[i].log, s.nodes[i].commit, s.nodes[i].term);
    forall p | p in s.members && p != i ensures p in n.matched && Accepted(s.past, p, n.term, n.matched[p] + 1) {
      assert Progress(s, i, p);
    }
    LeaderCommitSafe(s, i, n);
  }

  lemma BeatsSafe(s: State, s': State, i: Addr, n: Node)
    requires Beats(s, s', i, n) && KeepLogs(s, s') && NodesSafe(s) && Safe(s, n.log, n.commit, n.term)
    ensures NodesSafe(s')
  {
    KeepGrows(s, s');
    SafeGrows(s, s', n.log, n.log, n.commit, n.term, n.term);
    OthersStaySafe(s, s', i);
  }

  lemma BeatsKeeps(s: State, s': State, i: Addr, n: Node)
    requires Inv(s) && Beats(s, s', i, n) && Safe(s, n.log, n.commit, n.term)
    ensures Inv(s')
  {
    BeatsQuiet(s, s', i, n);
    BeatsLogs(s, s', i, n);
    BeatsRound(s, s', i, n);
    BeatsReplay(s, s', i, n);
    BeatsSafe(s, s', i, n);
    ElectionQuiet(s, s', i);
    LogsQuiet(s, s');
    ReplicationBeat(s, s', i);
    LeaseBeat(s, s', i);
    ReplayQuiet(s, s');
  }

  lemma HeartbeatKeeps(s: State, i: Addr)
    requires Inv(s) && HeartbeatEnabled(s, i)
    ensures Inv(DoHeartbeat(s, i))
  {
    HeartbeatBeats(s, i);
    HeartbeatSafe(s, i);
    BeatsKeeps(s, DoHeartbeat(s, i), i, HeartbeatCallback(s.nodes[i], i, s.members, s.now));
  }

  // ---------------------------------------------------------------- append requests

  lemma DropAppendCalm(s: State, id: CallId)
    requires Shape(s) && id in s.appendCalls && id.dst in s.nodes
    ensures var s' := s.(appendCalls := s.appendCalls - {id}); CalmState(s, s', id.dst) && Shape(s')
  {
  }

  lemma {:induction false} ApplyAllCounts(m: Machine, index: int, entries: seq<Entry>)
    ensures m.applied <= ApplyAll(m, index, entries).machine.applied
    decreases |entries|
  {
    if entries != [] {
      ApplyCounts(m, index, entries[0]);
      match ApplyCommand(m, index, entries[0])
      case Done(x) => ApplyAllCounts(x, index + 1, entries[1..]);
      case Duplicate(_) =>
    }
  }

  /** The fields an append request leaves alone, and the timer and deadline it pushes back. */
  ghost predicate AppendLeaves(n: Node, n': Node, now: int) {
    && n'.next == n.next && n'.matched == n.matched
    && n'.heartbeatAt == n.heartbeatAt && n'.responding == n.responding && n'.leaseUntil == n.leaseUntil
    && (n'.holder ==> n.holder && n.role == Follower) && (n'.renew ==> n.renew)
    && (n'.deadline == n.deadline || n'.deadline >= now + ELECTION_TIMEOUT)
    && n'.timer.Armed? && n'.timer.at >= now + ELECTION_TIMEOUT
    && n.machine.applied <= n'.machine.applied
  }

  /** A follower in the request's term with the entries merged and the commit index moved on. */
  ghost predicate TookNode(n: Node, n': Node, req: AppendRequest, now: int) {
    && AppendLeaves(n, n', now) && n'.term == req.term && n.term <= req.term && n'.role == Follower
    && -1 <= req.prevIndex <= |n.log| - 1
    && n'.log == Merge(n.log, req.prevIndex + 1, req.entries)
    && n'.commit == Max(n.commit, req.leaderCommit)
    && (n.term == req.term && n.role == Follower ==> n'.vote == n.vote && n'.votes == n.votes)
    && ( || (req.leaderCommit <= n.commit && n'.machine == n.machine)
         || (&& n.commit < req.leaderCommit < |n'.log| && -1 <= n.machine.applied
             && n'.machine ==
                  ApplyAll(n.machine, n.commit, Backlog(n'.log, n.machine.applied, req.leaderCommit)).machine))
  }

  lemma AcceptFollows(n: Node, req: AppendRequest, now: int, r: nat)
    requires req.term >= n.term && ValidTimeout(r)
    ensures var m := Accept(n, req, now, r);
      && AppendLeaves(n, m, now) && m.term == req.term && m.role == Follower
      && m.log == n.log && m.commit == n.commit && m.machine == n.machine
      && (n.term == req.term && n.role == Follower ==> m.vote == n.vote && m.votes == n.votes)
  {
  }

  /** A follower's state once its log is merged: it commits and applies, or stops at an exception. */
  lemma CommitFollows(n: Node, k: Node, req: AppendRequest, now: int, r: nat)
    requires AppendLeaves(n, k, now) && k.term == req.term && k.role == Follower && ValidTimeout(r)
    requires -1 <= k.machine.applied && k.commit < req.leaderCommit < |k.log|
    ensures var out := CommitAndApply(k, req.leaderCommit, now, r, req.term);
      var applied := ApplyAll(k.machine, k.commit, Backlog(k.log, k.machine.applied, req.leaderCommit));
      && (out.AppendReplied? || out.AppendFaulted?)
      && AppendLeaves(n, out.node, now) && out.node.machine == applied.machine
      && out.node.term == k.term && out.node.role == Follower && out.node.log == k.log
      && out.node.commit == req.leaderCommit && out.node.vote == k.vote && out.node.votes == k.votes
      && (out.AppendReplied? ==>
            out.reply == AppendReply(req.term, true) && out.node.deadline >= now + ELECTION_TIMEOUT)
      && (out.AppendFaulted? ==> out.fault == DuplicateSession && applied.Duplicate?)
  {
    ApplyAllCounts(k.machine, k.commit, Backlog(k.log, k.machine.applied, req.leaderCommit));
  }

  /** What handling a matching request of the server's own or a later term comes to. */
  lemma AppendTakes(n: Node, req: AppendRequest, now: int, r: nat)
    requires n.role != Dead && req.term >= n.term && ValidTimeout(r)
    requires -1 <= req.prevIndex && Matches(n.log, req) && -1 <= n.machine.applied
    requires req.leaderCommit > n.commit ==> req.leaderCommit < |Merge(n.log, req.prevIndex + 1, req.entries)|
    ensures var out := HandleAppend(n, req, now, r);
      && (out.AppendReplied? || out.AppendFaulted?) && TookNode(n, out.node, req, now)
      && (out.AppendReplied? ==>
            out.reply == AppendReply(req.term, true) && out.node.deadline >= now + ELECTION_TIMEOUT)
      && (out.AppendFaulted? ==>
            && out.fault == DuplicateSession && req.leaderCommit > n.commit
            && ApplyAll(n.machine, n.commit, Backlog(out.node.log, n.machine.applied, req.leaderCommit)).Duplicate?)
  {
    var m := Accept(n, req, now, r);
    AcceptFollows(n, req, now, r);
    var k := m.(log := Merge(m.log, req.prevIndex + 1, req.entries));
    if req.leaderCommit > k.commit {
      CommitFollows(n, k, req, now, r);
    }
  }

  /** A request that is in the network matches the log of any server it can still reach in its term. */
  lemma RequestMatches(s: State, id: CallId)
    requires id in s.appendCalls && id.dst in s.nodes && s.nodes[id.dst].term <= s.appendCalls[id].term
    requires Stretch(s.past, id, s.appendCalls[id]) && AckBounds(s) && NodesKeep(s)
    ensures var req := s.appendCalls[id];
      Matches(s.nodes[id.dst].log, req) && Same(s.nodes[id.dst].log, s.past.logs[req.term], req.prevIndex + 1)
  {
    var req, n := s.appendCalls[id], s.nodes[id.dst];
    if req.prevIndex >= 0 {
      assert Kept(s.past, n.log, req.term, req.prevIndex + 1, n.term);
    }
  }

  /** The merged log holds the leader's log up to the end of the request, and what agreed with it before. */
  ghost predicate Merged(log: seq<Entry>, leader: seq<Entry>, e: nat, merged: seq<Entry>) {
    && Same(merged, leader, e) && (merged == log || |merged| == e)
    && forall k :: Same(log, leader, k) ==> Same(merged, log, k)
  }

  /** Merging such a request follows the leader's log and keeps every agreement with it. */
  lemma RequestMerges(s: State, id: CallId)
    requires id in s.appendCalls && id.dst in s.nodes && s.nodes[id.dst].term <= s.appendCalls[id].term
    requires Stretch(s.past, id, s.appendCalls[id]) && AckBounds(s) && NodesKeep(s)
    requires LogsGrounded(s.past.logs) && NodeLogs(s)
    ensures Matches(s.nodes[id.dst].log, s.appendCalls[id])
    ensures var req, n := s.appendCalls[id], s.nodes[id.dst];
      var merged := Merge(n.log, req.prevIndex + 1, req.entries);
      Merged(n.log, s.past.logs[req.term], req.prevIndex + 1 + |req.entries|, merged)
  {
    RequestMatches(s, id);
    var req, n := s.appendCalls[id], s.nodes[id.dst];
    var leader := s.past.logs[req.term];
    assert req.entries == leader[req.prevIndex + 1..req.prevIndex + 1 + |req.entries|];
    MergeFollows(s.past.logs, n.log, leader, req.prevIndex + 1, req.entries);
  }

  function Success(req: AppendRequest): AppendAnswer {
    AppendAnswer(req, AppendReply(req.term, true))
  }

  ghost function Accepts(acks: map<At, nat>, who: Addr, req: AppendRequest): map<At, nat>
    requires -1 <= req.prevIndex
  {
    Acknowledge(acks, who, req.term, req.prevIndex + 1 + |req.entries|)
  }

  /** The append call `id` was handled, ending in `n`; `ok` tells an answer from an exception. */
  ghost predicate Took(s: State, s': State, id: CallId, n: Node, ok: bool) {
    && id in s.appendCalls && id.dst in s.nodes
    && TookNode(s.nodes[id.dst], n, s.appendCalls[id], s.now)
    && (if ok then
          && n.deadline >= s.now + ELECTION_TIMEOUT
          && s' == s.(nodes := s.nodes[id.dst := n], appendCalls := s.appendCalls - {id},
                      appendAnswers := s.appendAnswers[id := Success(s.appendCalls[id])],
                      past := s.past.(acks := Accepts(s.past.acks, id.dst, s.appendCalls[id])))
        else s' == s.(nodes := s.nodes[id.dst := n.(role := Dead)], appendCalls := s.appendCalls - {id}))
  }

  /** The same step without its answer: the entries are merged and perhaps recorded as accepted. */
  ghost predicate Merges(s: State, s': State, id: CallId) {
    && id in s.appendCalls && OneNode(s, s', id.dst) && s'.nodes[id.dst].term == s.appendCalls[id].term
    && s.nodes[id.dst].term <= s.appendCalls[id].term && -1 <= s.appendCalls[id].prevIndex < |s.nodes[id.dst].log|
    && s'.nodes[id.dst].log ==
         Merge(s.nodes[id.dst].log, s.appendCalls[id].prevIndex + 1, s.appendCalls[id].entries)
    && s'.past.logs == s.past.logs && s'.past.elected == s.past.elected && s'.past.ballots == s.past.ballots
    && (s'.past.acks == s.past.acks || s'.past.acks == Accepts(s.past.acks, id.dst, s.appendCalls[id]))
  }

  lemma TookMerges(s: State, s': State, id: CallId, n: Node, ok: bool)
    requires Took(s, s', id, n, ok)
    ensures Merges(s, s', id)
  {
  }

  lemma MergesTakes(s: State, s': State, id: CallId, t: nat, e: nat)
    requires Merges(s, s', id) && Links(s, id, t) && t in s.past.logs
    requires t == s.appendCalls[id].term && e == s.appendCalls[id].prevIndex + 1 + |s.appendCalls[id].entries|
    requires Merged(s.nodes[id.dst].log, s.past.logs[t], e, s'.nodes[id.dst].log)
    ensures Takes(s, s', id.dst, t, e)
  {
  }

  lemma TookTakes(s: State, s': State, id: CallId, n: Node, ok: bool, t: nat, e: nat)
    requires Took(s, s', id, n, ok)
    requires t == s.appendCalls[id].term && e == s.appendCalls[id].prevIndex + 1 + |s.appendCalls[id].entries|
    requires Links(s, id, t) && Stretch(s.past, id, s.appendCalls[id])
    requires AckBounds(s) && NodesKeep(s) && LogsGrounded(s.past.logs) && NodeLogs(s)
    ensures Takes(s, s', id.dst, t, e)
  {
    TookMerges(s, s', id, n, ok);
    RequestMerges(s, id);
    MergesTakes(s, s', id, t, e);
  }

  /** The same step without its effect on the log: one server follows and one call is gone. */
  ghost predicate Answers(s: State, s': State, id: CallId) {
    && OneNode(s, s', id.dst) && AppendLeaves(s.nodes[id.dst], s'.nodes[id.dst], s.now)
    && (s'.nodes[id.dst].role == Follower || s'.nodes[id.dst].role == Dead)
    && s.nodes[id.dst].term <= s'.nodes[id.dst].term
    && id in s.appendCalls && s'.appendCalls == s.appendCalls - {id}
    && (forall c :: c in s'.appendAnswers && c != id ==> c in s.appendAnswers)
    && s'.now == s.now && s'.round == s.round && s'.pending == s.pending
    && s'.voteCalls == s.voteCalls && s'.voteAnswers == s.voteAnswers
    && s'.past == s.past.(acks := s'.past.acks)
  }

  lemma TookFollows(s: State, s': State, id: CallId, n: Node, ok: bool)
    requires Took(s, s', id, n, ok)
    ensures Answers(s, s', id)
  {
  }

  lemma TookQuiet(s: State, s': State, id: CallId, n: Node, ok: bool)
    requires Took(s, s', id, n, ok) && Shape(s) && Leaders(s) && Links(s, id, s.appendCalls[id].term)
    requires s.nodes[id.dst].role != Dead
    ensures Shape(s') && Quiet(s, s', id.dst) && QuietMessages(s, s')
  {
  }

  lemma AnswersStill(s: State, s': State, id: CallId)
    requires Answers(s, s', id)
    ensures StillCandidates(s, s') && CallsShrink(s, s')
  {
  }

  lemma AnswersPeers(s: State, s': State, id: CallId)
    requires Answers(s, s', id)
    ensures PeersKeep(s, s')
  {
  }

  lemma AnswersTimely(s: State, s': State, id: CallId)
    requires Answers(s, s', id)
    ensures Timely(s, s') && QuietClocks(s, s')
  {
  }

  lemma AnswersLeases(s: State, s': State, id: CallId)
    requires Answers(s, s', id)
    ensures LeasesKeep(s, s')
  {
  }

  lemma TookAnswers(s: State, s': State, id: CallId, n: Node, ok: bool)
    requires Took(s, s', id, n, ok)
    ensures ok ==> Answered(s, s', id) && FreshDeadline(s, s', id)
    ensures !ok ==> NoNewAnswers(s, s')
  {
  }

  lemma TookSafe(s: State, s': State, id: CallId, n: Node, ok: bool, t: nat, e: nat)
    requires Took(s, s', id, n, ok) && t == s.appendCalls[id].term
    requires Takes(s, s', id.dst, t, e) && Complete(s) && NodesSafe(s)
    requires Safe(s, s.past.logs[t], s.appendCalls[id].leaderCommit, t) && s.appendCalls[id].leaderCommit < e
    ensures NodesSafe(s') && Same(s.nodes[id.dst].log, n.log, s.nodes[id.dst].commit + 1)
    ensures -1 <= s.nodes[id.dst].commit < |s.nodes[id.dst].log| && -1 <= n.commit < |n.log|
  {
    var i, c := id.dst, s.appendCalls[id].leaderCommit;
    assert Safe(s, s.nodes[i].log, s.nodes[i].commit, s.nodes[i].term);
    TakesGrows(s, s', i, t, e);
    TakesCommitted(s, s', i, t, e);
    if c <= s.nodes[i].commit {
      SafeGrows(s, s', s.nodes[i].log, s'.nodes[i].log, s.nodes[i].commit, s.nodes[i].term, t);
    } else {
      FollowerCommitSafe(s, s', i, t, e, c);
    }
    OthersStaySafe(s, s', i);
  }

  lemma BacklogContinues(done: seq<Entry>, log: seq<Entry>, c: int)
    requires |done| <= c < |log| && done == log[..|done|]
    ensures ApplyAll(Replay(done), |done| - 1, Backlog(log, |done| - 1, c)) == Done(Replay(log[..c + 1]))
  {
    var more := log[|done|..c + 1];
    assert done + more == log[..c + 1];
    ReplayContinues(done, more);
  }

  /** A server that has never led replays exactly the newly committed entries. */
  lemma TookReplay(n: Node, n': Node, req: AppendRequest, now: int)
    requires TookNode(n, n', req, now)
    requires -1 <= n.commit < |n.log| && n.machine == Replay(n.log[..n.commit + 1])
    requires Same(n.log, n'.log, n.commit + 1)
    ensures n'.machine == Replay(n'.log[..n'.commit + 1])
    ensures n.commit < req.leaderCommit ==>
      ApplyAll(n.machine, n.commit, Backlog(n'.log, n.machine.applied, req.leaderCommit)).Done?
  {
    var done := n.log[..n.commit + 1];
    assert done == n'.log[..n.commit + 1];
    ReplayState(done);
    if n.commit < req.leaderCommit {
      BacklogContinues(done, n'.log, req.leaderCommit);
    }
  }

  lemma ReplayFromNode(s: State, s': State, i: Addr)
    requires OneNode(s, s', i) && s'.past.led == s.past.led && ReplayInv(s)
    requires -1 <= s'.nodes[i].machine.applied && -1 <= s'.nodes[i].commit < |s'.nodes[i].log|
    requires i !in s.past.led ==> s'.nodes[i].machine == Replay(s'.nodes[i].log[..s'.nodes[i].commit + 1])
    ensures ReplayInv(s')
  {
  }

  /** The server ends in `n`, up to its role. */
  lemma TookEnds(s: State, s': State, id: CallId, n: Node, ok: bool)
    requires Took(s, s', id, n, ok)
    ensures id.dst in s'.nodes && s'.nodes[id.dst].(role := n.role) == n
    ensures s.nodes[id.dst].machine.applied <= n.machine.applied
  {
  }

  lemma TookReplayed(s: State, s': State, id: CallId, n: Node, ok: bool)
    requires Took(s, s', id, n, ok) && OneNode(s, s', id.dst) && s'.past.led == s.past.led && ReplayInv(s)
    requires -1 <= s.nodes[id.dst].commit < |s.nodes[id.dst].log| && -1 <= n.commit < |n.log|
    requires Same(s.nodes[id.dst].log, n.log, s.nodes[id.dst].commit + 1)
    ensures ReplayInv(s')
  {
    TookEnds(s, s', id, n, ok);
    if id.dst !in s.past.led {
      TookReplay(s.nodes[id.dst], n, s.appendCalls[id], s.now);
    }
    ReplayFromNode(s, s', id.dst);
  }

  lemma TookLogs(s: State, s': State, id: CallId, t: nat, e: nat)
    requires Answers(s, s', id) && Takes(s, s', id.dst, t, e)
    requires LogInv(s) && AckInv(s) && Leaders(s) && BallotTerms(s) && BallotTerms(s')
    ensures LogInv(s') && AckInv(s') && Grows(s, s')
  {
    AnswersStill(s, s', id);
    LogsTake(s, s', id.dst, t, e);
    TakesGrows(s, s', id.dst, t, e);
  }

  lemma TookReplication(s: State, s': State, id: CallId, n: Node, ok: bool)
    requires Took(s, s', id, n, ok) && Answers(s, s', id) && Grows(s, s') && NodesSafe(s') && BallotTerms(s')
    requires ReplicationInv(s) && LeaseInv(s) && Leaders(s)
    ensures ReplicationInv(s') && LeaseInv(s')
  {
    AnswersPeers(s, s', id);
    AnswersTimely(s, s', id);
    AnswersLeases(s, s', id);
    TookAnswers(s, s', id, n, ok);
    if ok {
      ReplicationAnswer(s, s', id);
      LeaseAnswer(s, s', id);
    } else {
      ReplicationQuiet(s, s');
      LeaseQuiet(s, s');
    }
  }

  lemma TookSound(s: State, s': State, id: CallId, n: Node, ok: bool, t: nat, e: nat)
    requires Took(s, s', id, n, ok) && Takes(s, s', id.dst, t, e) && Answers(s, s', id)
    requires t == s.appendCalls[id].term && s.appendCalls[id].leaderCommit < e
    requires Safe(s, s.past.logs[t], s.appendCalls[id].leaderCommit, t)
    requires Complete(s) && NodesSafe(s) && ReplayInv(s)
    ensures NodesSafe(s') && ReplayInv(s')
  {
    TookSafe(s, s', id, n, ok, t, e);
    TookReplayed(s, s', id, n, ok);
  }

  lemma TookElection(s: State, s': State, id: CallId, n: Node, ok: bool)
    requires ElectionInv(s) && CallsFit(s) && Took(s, s', id, n, ok) && s.nodes[id.dst].role != Dead
    ensures ElectionInv(s') && Answers(s, s', id)
  {
    assert Links(s, id, s.appendCalls[id].term);
    TookFollows(s, s', id, n, ok);
    TookQuiet(s, s', id, n, ok);
    ElectionQuiet(s, s', id.dst);
  }

  /** The facts about a call in flight that the follower's step relies on. */
  lemma CallFacts(s: State, id: CallId) returns (t: nat, e: nat)
    requires CallsFit(s) && CallsSafe(s) && id in s.appendCalls
    ensures t == s.appendCalls[id].term && e == s.appendCalls[id].prevIndex + 1 + |s.appendCalls[id].entries|
    ensures Links(s, id, t) && Stretch(s.past, id, s.appendCalls[id])
    ensures t in s.past.logs && s.appendCalls[id].leaderCommit < e
    ensures Safe(s, s.past.logs[t], s.appendCalls[id].leaderCommit, t)
  {
    t := s.appendCalls[id].term;
    assert Stretch(s.past, id, s.appendCalls[id]);
    e := s.appendCalls[id].prevIndex + 1 + |s.appendCalls[id].entries|;
  }

  lemma TookRecord(s: State, s': State, id: CallId, n: Node, ok: bool, t: nat, e: nat)
    requires ElectionInv(s) && LogInv(s) && AckInv(s) && CallsFit(s)
    requires Took(s, s', id, n, ok) && s.nodes[id.dst].role != Dead
    requires t == s.appendCalls[id].term && e == s.appendCalls[id].prevIndex + 1 + |s.appendCalls[id].entries|
    ensures Answers(s, s', id) && Takes(s, s', id.dst, t, e)
    ensures ElectionInv(s') && LogInv(s') && AckInv(s') && Grows(s, s')
  {
    assert Links(s, id, t) && Stretch(s.past, id, s.appendCalls[id]);
    TookElection(s, s', id, n, ok);
    TookTakes(s, s', id, n, ok, t, e);
    TookLogs(s, s', id, t, e);
  }

  lemma TookCommits(s: State, s': State, id: CallId, n: Node, ok: bool)
    requires Took(s, s', id, n, ok) && Answers(s, s', id) && Complete(s)
    requires Takes(s, s', id.dst, s.appendCalls[id].term, s.appendCalls[id].prevIndex + 1 + |s.appendCalls[id].entries|)
    requires CallsFit(s) && CallsSafe(s) && NodesSafe(s) && ReplayInv(s)
    ensures NodesSafe(s') && ReplayInv(s')
  {
    var t, e := CallFacts(s, id);
    TookSound(s, s', id, n, ok, t, e);
  }

  lemma TookRest(s: State, s': State, id: CallId, n: Node, ok: bool)
    requires Took(s, s', id, n, ok) && Answers(s, s', id) && Grows(s, s') && BallotTerms(s') && Complete(s)
    requires Takes(s, s', id.dst, s.appendCalls[id].term, s.appendCalls[id].prevIndex + 1 + |s.appendCalls[id].entries|)
    requires ReplicationInv(s) && LeaseInv(s) && ReplayInv(s) && Leaders(s)
    ensures ReplicationInv(s') && LeaseInv(s') && ReplayInv(s')
  {
    TookCommits(s, s', id, n, ok);
    TookReplication(s, s', id, n, ok);
  }

  lemma TookKeeps(s: State, s': State, id: CallId, n: Node, ok: bool, t: nat, e: nat)
    requires Inv(s) && Complete(s) && Took(s, s', id, n, ok) && s.nodes[id.dst].role != Dead
    requires t == s.appendCalls[id].term && e == s.appendCalls[id].prevIndex + 1 + |s.appendCalls[id].entries|
    ensures Inv(s')
  {
    TookRecord(s, s', id, n, ok, t, e);
    TookRest(s, s', id, n, ok);
  }

  /** A request of an earlier term only pushes back the timer and the deadline. */
  ghost predicate Stale(s: State, s': State, id: CallId, n: Node) {
    && id in s.appendCalls && id.dst in s.nodes && s.nodes[id.dst].term > s.appendCalls[id].term
    && FrameNode(s.nodes[id.dst], n, s.now) && n.machine == s.nodes[id.dst].machine
    && n.term == s.nodes[id.dst].term && n.vote == s.nodes[id.dst].vote && n.votes == s.nodes[id.dst].votes
    && n.role == s.nodes[id.dst].role
    && n.deadline >= s.now + ELECTION_TIMEOUT && n.timer.Armed? && n.timer.at >= s.now + ELECTION_TIMEOUT
    && s' == s.(nodes := s.nodes[id.dst := n], appendCalls := s.appendCalls - {id},
                appendAnswers := s.appendAnswers[id := AppendAnswer(s.appendCalls[id], AppendReply(n.term, false))])
  }

  lemma StaleQuiet(s: State, s': State, id: CallId, n: Node)
    requires Stale(s, s', id, n) && Shape(s)
    ensures Shape(s') && Quiet(s, s', id.dst) && QuietMessages(s, s')
    ensures StillCandidates(s, s') && CallsShrink(s, s') && Answered(s, s', id) && FreshDeadline(s, s', id)
  {
  }

  lemma StaleIsFrame(s: State, s': State, id: CallId, n: Node)
    requires Stale(s, s', id, n)
    ensures FrameState(s, s'.(appendAnswers := s.appendAnswers), id.dst)
  {
  }

  lemma StaleCalls(s: State, s': State, id: CallId, n: Node)
    requires Stale(s, s', id, n)
    ensures NoNewCalls(s, s')
  {
  }

  /** Answers make no difference to what a step does to logs, machines, peers and leases. */
  lemma AnswersAside(s: State, c: State, s': State)
    requires s' == c.(appendAnswers := s'.appendAnswers)
    requires KeepLogs(s, c) && MachinesKeep(s, c) && PeersKeep(s, c) && NoNewCalls(s, s')
    ensures KeepLogs(s, s') && MachinesKeep(s, s') && PeersKeep(s, s')
  {
  }

  lemma CommitsAside(s: State, c: State, s': State)
    requires s' == c.(appendAnswers := s'.appendAnswers) && CommitsStay(s, c)
    ensures CommitsStay(s, s')
  {
    forall j | j in s.nodes ensures CommitsKeep(s, s', j) {
      assert CommitsKeep(s, c, j);
    }
  }

  lemma LeasesAside(s: State, c: State, s': State)
    requires s' == c.(appendAnswers := s'.appendAnswers)
    requires Timely(s, c) && LeasesKeep(s, c) && QuietClocks(s, c)
    ensures Timely(s, s') && LeasesKeep(s, s') && QuietClocks(s, s')
  {
    forall j | j in s.nodes ensures LeaderKeepsLease(s, s', j) {
      assert LeaderKeepsLease(s, c, j);
    }
  }

  lemma StaleFrame(s: State, s': State, id: CallId, n: Node)
    requires Stale(s, s', id, n) && NodesSafe(s)
    ensures KeepLogs(s, s') && CommitsStay(s, s') && MachinesKeep(s, s') && PeersKeep(s, s')
  {
    var c := s'.(appendAnswers := s.appendAnswers);
    StaleIsFrame(s, s', id, n);
    FrameLogs(s, c, id.dst);
    FrameCommits(s, c, id.dst);
    FramePeers(s, c, id.dst);
    StaleCalls(s, s', id, n);
    AnswersAside(s, c, s');
    CommitsAside(s, c, s');
  }

  lemma StaleTimes(s: State, s': State, id: CallId, n: Node)
    requires Stale(s, s', id, n)
    ensures Timely(s, s') && LeasesKeep(s, s') && QuietClocks(s, s')
  {
    var c := s'.(appendAnswers := s.appendAnswers);
    StaleIsFrame(s, s', id, n);
    TimelyFromNode(s, c, id.dst);
    FrameLeases(s, c, id.dst);
    LeasesAside(s, c, s');
  }

  lemma StaleRest(s: State, s': State, id: CallId, n: Node)
    requires Stale(s, s', id, n) && Answered(s, s', id) && FreshDeadline(s, s', id)
    requires KeepLogs(s, s') && BallotTerms(s')
    requires ReplicationInv(s) && LeaseInv(s) && ReplayInv(s) && Leaders(s)
    ensures ReplicationInv(s') && LeaseInv(s') && ReplayInv(s')
  {
    StaleFrame(s, s', id, n);
    StaleTimes(s, s', id, n);
    KeepGrows(s, s');
    AllStaySafe(s, s');
    ReplicationAnswer(s, s', id);
    LeaseAnswer(s, s', id);
    ReplayQuiet(s, s');
  }

  lemma StaleKeeps(s: State, s': State, id: CallId, n: Node)
    requires Inv(s) && Stale(s, s', id, n)
    ensures Inv(s')
  {
    StaleQuiet(s, s', id, n);
    StaleFrame(s, s', id, n);
    ElectionQuiet(s, s', id.dst);
    LogsQuiet(s, s');
    StaleRest(s, s', id, n);
  }

  lemma AppendIsStale(s: State, id: CallId, r: nat)
    requires AppendEnabled(s, id, r) && s.nodes[id.dst].role != Dead && s.nodes[id.dst].term > s.appendCalls[id].term
    ensures Stale(s, DoAppend(s, id, r), id, Rearm(s.nodes[id.dst], s.appendCalls[id].term, s.now, r))
  {
  }

  /** The handler's outcome for a call in flight that is not stale. */
  lemma AppendReady(s: State, id: CallId, r: nat)
    requires AppendEnabled(s, id, r) && s.nodes[id.dst].role != Dead && s.nodes[id.dst].term <= s.appendCalls[id].term
    requires Stretch(s.past, id, s.appendCalls[id]) && AckBounds(s) && NodesKeep(s)
    requires LogsGrounded(s.past.logs) && NodeLogs(s)
    requires -1 <= s.nodes[id.dst].machine.applied
    ensures var out := HandleAppend(s.nodes[id.dst], s.appendCalls[id], s.now, r);
      && (out.AppendReplied? || out.AppendFaulted?) && TookNode(s.nodes[id.dst], out.node, s.appendCalls[id], s.now)
      && (out.AppendReplied? ==>
            out.reply == AppendReply(s.appendCalls[id].term, true) && out.node.deadline >= s.now + ELECTION_TIMEOUT)
      && (out.AppendFaulted? ==>
            && out.fault == DuplicateSession && s.appendCalls[id].leaderCommit > s.nodes[id.dst].commit
            && ApplyAll(s.nodes[id.dst].machine, s.nodes[id.dst].commit,
                 Backlog(out.node.log, s.nodes[id.dst].machine.applied, s.appendCalls[id].leaderCommit)).Duplicate?)
  {
    RequestMerges(s, id);
    AppendTakes(s.nodes[id.dst], s.appendCalls[id], s.now, r);
  }

  lemma FinishTook(s: State, id: CallId, out: AppendOutcome)
    requires id in s.appendCalls && id.dst in s.nodes && (out.AppendReplied? || out.AppendFaulted?)
    requires TookNode(s.nodes[id.dst], out.node, s.appendCalls[id], s.now)
    requires out.AppendReplied? ==>
      out.reply == AppendReply(s.appendCalls[id].term, true) && out.node.deadline >= s.now + ELECTION_TIMEOUT
    ensures Took(s, FinishAppend(s, id, out), id, out.node, out.AppendReplied?)
  {
  }

  /** A live server handles a call of its own or a later term. */
  lemma AppendLive(s: State, id: CallId, r: nat) returns (n: Node, ok: bool)
    requires AppendEnabled(s, id, r) && s.nodes[id.dst].role != Dead && s.nodes[id.dst].term <= s.appendCalls[id].term
    requires CallsFit(s) && AckBounds(s) && NodesKeep(s) && LogsGrounded(s.past.logs) && NodeLogs(s) && Applied(s)
    ensures Took(s, DoAppend(s, id, r), id, n, ok)
  {
    assert Stretch(s.past, id, s.appendCalls[id]);
    AppendReady(s, id, r);
    var out := HandleAppend(s.nodes[id.dst], s.appendCalls[id], s.now, r);
    FinishTook(s, id, out);
    n, ok := out.node, out.AppendReplied?;
  }

  lemma AppendLiveKeeps(s: State, id: CallId, r: nat)
    requires Inv(s) && Complete(s) && AppendEnabled(s, id, r)
    requires s.nodes[id.dst].role != Dead && s.nodes[id.dst].term <= s.appendCalls[id].term
    ensures Inv(DoAppend(s, id, r))
  {
    var n, ok := AppendLive(s, id, r);
    var t, e := CallFacts(s, id);
    TookKeeps(s, DoAppend(s, id, r), id, n, ok, t, e);
  }

  lemma AppendDeadIsCalm(s: State, id: CallId, r: nat)
    requires AppendEnabled(s, id, r) && Shape(s) && s.nodes[id.dst].role == Dead
    ensures CalmState(s, DoAppend(s, id, r), id.dst) && Shape(DoAppend(s, id, r))
  {
    DropAppendCalm(s, id);
  }

  lemma AppendDeadKeeps(s: State, id: CallId, r: nat)
    requires Inv(s) && AppendEnabled(s, id, r) && s.nodes[id.dst].role == Dead
    ensures Inv(DoAppend(s, id, r))
  {
    AppendDeadIsCalm(s, id, r);
    CalmStep(s, DoAppend(s, id, r), id.dst);
  }

  lemma AppendLateKeeps(s: State, id: CallId, r: nat)
    requires Inv(s) && AppendEnabled(s, id, r)
    requires s.nodes[id.dst].role != Dead && s.nodes[id.dst].term > s.appendCalls[id].term
    ensures Inv(DoAppend(s, id, r))
  {
    AppendIsStale(s, id, r);
    StaleKeeps(s, DoAppend(s, id, r), id, Rearm(s.nodes[id.dst], s.appendCalls[id].term, s.now, r));
  }

  // ---------------------------------------------------------------- append replies

  /** The reply does not move the peer's indices: it tells of a later term, or is too old to matter. */
  lemma ReturnCalm(s: State, s': State, id: CallId, n: Node)
    requires Shape(s) && id in s.appendAnswers && id.src in s.nodes && id.src in s.pending
    requires FrameNode(s.nodes[id.src], n, s.now) && n.machine == s.nodes[id.src].machine
    requires n == s.nodes[id.src] || (n.term > s.nodes[id.src].term && n.role == Follower)
    requires s' == s.(nodes := s.nodes[id.src := n], appendAnswers := s.appendAnswers - {id},
                      pending := s.pending[id.src := s.pending[id.src] - {id.dst}])
    ensures CalmState(s, s', id.src) && Shape(s')
  {
  }

  lemma AppendReturnIdle(s: State, id: CallId, r: nat)
    requires AppendReturnEnabled(s, id, r) && Shape(s) && AnswersFit(s) && !s.appendAnswers[id].reply.success
    ensures CalmState(s, DoAppendReturn(s, id, r), id.src) && Shape(DoAppendReturn(s, id, r))
  {
    var AppendAnswer(req, reply) := s.appendAnswers[id];
    ReturnCalm(s, DoAppendReturn(s, id, r), id,
               HandleAppendReply(s.nodes[id.src], id.src, s.members, id.dst, req, reply, s.now, r));
  }

  /** A leader hears of a success: `k` is its state before the commit index moves to `c`. */
  ghost predicate Hears(s: State, s': State, id: CallId, k: Node, c: int) {
    && id in s.appendAnswers && id.src in s.nodes && id.src in s.pending && id.src in s.round && id.src in s.past.leases
    && id.num == s.round[id.src] && id.dst in s.pending[id.src]
    && s.appendAnswers[id].reply.success && s.nodes[id.src].role == Leader
    && s.nodes[id.src].term == s.appendAnswers[id].req.term
    && (var n, next := s.nodes[id.src], Lookup(s.nodes[id.src].next, id.dst) + |s.appendAnswers[id].req.entries|;
        && k == n.(responding := n.responding + {id.dst},
                   renew := k.renew, holder := k.holder, leaseUntil := k.leaseUntil,
                   next := n.next[id.dst := next], matched := n.matched[id.dst := next - 1])
        && ( || (k.renew == n.renew && k.holder == n.holder && k.leaseUntil == n.leaseUntil)
             || (&& n.renew && !k.renew && k.holder && k.leaseUntil == n.heartbeatAt + LEADER_LEASE_TIMEOUT
                 && Majority(|k.responding|, s.members)))
        && s' == s.(nodes := s.nodes[id.src := k.(commit := c)], appendAnswers := s.appendAnswers - {id},
                    pending := s.pending[id.src := s.pending[id.src] - {id.dst}],
                    past := if n.renew && !k.renew
                            then s.past.(leases := s.past.leases[id.src := k.responding]) else s.past))
  }

  /** The leader's state after the reply and before it looks for a new commit index. */
  function Heard(n: Node, members: set<Addr>, peer: Addr, req: AppendRequest): Node {
    var k := RenewLease(n, peer, members);
    var next := Lookup(n.next, peer);
    k.(next := k.next[peer := next + |req.entries|], matched := k.matched[peer := next + |req.entries| - 1])
  }

  lemma AppendReturnHears(s: State, id: CallId, r: nat)
    requires AppendReturnEnabled(s, id, r) && AnswersFit(s) && s.appendAnswers[id].reply.success
    requires s.nodes[id.src].role == Leader
    ensures var k := Heard(s.nodes[id.src], s.members, id.dst, s.appendAnswers[id].req);
      Hears(s, DoAppendReturn(s, id, r), id, k, CommitTarget(k, id.src, s.members, |k.log|))
  {
  }

  lemma HearsLogs(s: State, s': State, id: CallId, k: Node, c: int)
    requires Hears(s, s', id, k, c)
    ensures KeepLogs(s, s') && StillCandidates(s, s') && CallsShrink(s, s')
  {
  }

  lemma HearsQuiet(s: State, s': State, id: CallId, k: Node, c: int)
    requires Hears(s, s', id, k, c) && Shape(s)
    ensures Shape(s') && Quiet(s, s', id.src) && QuietMessages(s, s')
  {
  }

  lemma HearsAdvance(s: State, s': State, id: CallId, k: Node, c: int)
    requires Hears(s, s', id, k, c)
    ensures Advance(s, s', id) && Respond(s, s', id) && s'.past.led == s.past.led
  {
  }

  lemma HearsReplay(s: State, s': State, id: CallId, k: Node, c: int)
    requires Hears(s, s', id, k, c) && Leaders(s) && NodesSafe(s)
    ensures MachinesKeep(s, s') && UnledCommitsStay(s, s')
  {
    assert Won(s, s.nodes[id.src].term, id.src);
    forall j | j in s.nodes && j !in s'.past.led ensures CommitsKeep(s, s', j) {
      assert Safe(s, s.nodes[j].log, s.nodes[j].commit, s.nodes[j].term);
    }
  }

  /** The commit index the leader finds with the new match index is safe. */
  lemma HearsSafe(s: State, s': State, id: CallId, k: Node, c: int)
    requires Hears(s, s', id, k, c) && c == CommitTarget(k, id.src, s.members, |k.log|)
    requires Shape(s) && KeepLogs(s, s') && Leaders(s) && LeaderLogs(s) && LeaderAcks(s)
    requires NodesSafe(s) && MatchSound(s')
    ensures NodesSafe(s')
  {
    var i := id.src;
    assert LeaderLog(s, k.term, i);
    KeepGrows(s, s');
    assert Safe(s, s.nodes[i].log, s.nodes[i].commit, s.nodes[i].term);
    SafeGrows(s, s', k.log, k.log, k.commit, k.term, k.term);
    forall p | p in s'.members && p != i ensures p in k.matched && Accepted(s'.past, p, k.term, k.matched[p] + 1) {
      assert Progress(s', i, p);
    }
    LeaderCommitSafe(s', i, k);
    OthersStaySafe(s, s', i);
  }

  lemma HearsRest(s: State, s': State, id: CallId, k: Node, c: int)
    requires Hears(s, s', id, k, c) && c == CommitTarget(k, id.src, s.members, |k.log|) && KeepLogs(s, s')
    requires ReplicationInv(s) && Leaders(s) && LeaderLogs(s) && LeaderAcks(s) && Shape(s)
    ensures ReplicationInv(s')
  {
    HearsAdvance(s, s', id, k, c);
    AdvanceSound(s, s', id);
    HearsSafe(s, s', id, k, c);
    ReplicationAdvance(s, s', id);
  }

  lemma HearsLease(s: State, s': State, id: CallId, k: Node, c: int)
    requires Hears(s, s', id, k, c) && LeaseInv(s) && ReplayInv(s) && Leaders(s) && AnswersFit(s) && NodesSafe(s)
    ensures LeaseInv(s') && ReplayInv(s')
  {
    assert Links(s, id, s.appendAnswers[id].req.term);
    HearsAdvance(s, s', id, k, c);
    HearsReplay(s, s', id, k, c);
    LeaseRespond(s, s', id);
    ReplayQuiet(s, s');
  }

  lemma HearsKeeps(s: State, s': State, id: CallId, k: Node, c: int)
    requires Inv(s) && Hears(s, s', id, k, c) && c == CommitTarget(k, id.src, s.members, |k.log|)
    ensures Inv(s')
  {
    HearsQuiet(s, s', id, k, c);
    HearsLogs(s, s', id, k, c);
    ElectionQuiet(s, s', id.src);
    LogsQuiet(s, s');
    HearsRest(s, s', id, k, c);
    HearsLease(s, s', id, k, c);
  }

  /** An answer in the sender's own term finds the sender leading. */
  lemma SenderLeads(s: State, id: CallId, r: nat)
    requires AppendReturnEnabled(s, id, r) && AnswersFit(s) && Leaders(s)
    ensures s.nodes[id.src].role == Leader
  {
  }

  lemma AppendReturnKeeps(s: State, id: CallId, r: nat)
    requires Inv(s) && AppendReturnEnabled(s, id, r)
    ensures Inv(DoAppendReturn(s, id, r))
  {
    if s.appendAnswers[id].reply.success {
      SenderLeads(s, id, r);
      AppendReturnHears(s, id, r);
      var k := Heard(s.nodes[id.src], s.members, id.dst, s.appendAnswers[id].req);
      HearsKeeps(s, DoAppendReturn(s, id, r), id, k, CommitTarget(k, id.src, s.members, |k.log|));
    } else {
      AppendReturnIdle(s, id, r);
      CalmStep(s, DoAppendReturn(s, id, r), id.src);
    }
  }
}
