/** Steps grouped by their effect on the cluster; each effect keeps every group of invariants. */
module Effects {
  import opened Types
  import opened NodeSpec
  import opened Cluster
  import opened Invariants
  import opened ElectionProofs
  import opened LogProofs
  import opened ReplicationProofs
  import opened LeaseProofs

  // ---------------------------------------------------------------- elections

  lemma ElectionQuiet(s: State, s': State, i: Addr)
    requires ElectionInv(s) && Quiet(s, s', i) && QuietMessages(s, s') && Shape(s')
    ensures ElectionInv(s')
  {
    QuietBallots(s, s', i);
    QuietQuorums(s, s', i);
    QuietCounts(s, s', i);
    QuietCalls(s, s', i);
    QuietAnswers(s, s', i);
    QuietLeaders(s, s', i);
    QuietCandidates(s, s', i);
  }

  lemma ElectionGrant(s: State, s': State, id: CallId)
    requires ElectionInv(s) && Grant(s, s', id) && GrantMessages(s, s', id) && Shape(s')
    ensures ElectionInv(s')
  {
    assert OpenCall(s, id);
    GrantBallots(s, s', id);
    GrantQuorums(s, s', id);
    GrantBacked(s, s', id);
    GrantCounts(s, s', id);
    GrantCalls(s, s', id);
    GrantAnswers(s, s', id);
    GrantLeaders(s, s', id);
    GrantCandidates(s, s', id);
  }

  lemma ElectionStart(s: State, s': State, i: Addr)
    requires ElectionInv(s) && Start(s, s', i) && StartMessages(s, s', i) && Shape(s')
    ensures ElectionInv(s')
  {
    StartBallots(s, s', i);
    StartQuorums(s, s', i);
    StartCounts(s, s', i);
    StartCalls(s, s', i);
    StartAnswers(s, s', i);
    StartLeaders(s, s', i);
    StartCandidates(s, s', i);
  }

  lemma ElectionCount(s: State, s': State, id: CallId)
    requires ElectionInv(s) && Count(s, s', id) && Shape(s')
    ensures ElectionInv(s')
  {
    CountBallots(s, s', id);
    CountQuorums(s, s', id);
    CountCounts(s, s', id);
    CountCalls(s, s', id);
    CountAnswers(s, s', id);
    CountLeaders(s, s', id);
    CountCandidates(s, s', id);
  }

  lemma ElectionWin(s: State, s': State, i: Addr)
    requires ElectionInv(s) && Win(s, s', i) && Shape(s')
    ensures ElectionInv(s') && s.nodes[i].term !in s.past.elected
  {
    TermIsNew(s, i);
    WinBallots(s, s', i);
    WinQuorums(s, s', i);
    WinCounts(s, s', i);
    WinCalls(s, s', i);
    WinAnswers(s, s', i);
    WinLeaders(s, s', i);
    WinCandidates(s, s', i);
  }

  // ---------------------------------------------------------------- logs and acknowledgements

  ghost predicate CallsShrink(s: State, s': State) {
    forall id :: id in s'.voteCalls ==> id in s.voteCalls && s'.voteCalls[id] == s.voteCalls[id]
  }

  lemma LogsQuiet(s: State, s': State)
    requires LogInv(s) && AckInv(s) && Leaders(s)
    requires KeepLogs(s, s') && s'.past.ballots == s.past.ballots && StillCandidates(s, s') && CallsShrink(s, s')
    ensures LogInv(s') && AckInv(s')
  {
    KeepNodeLogs(s, s');
    KeepAcks(s, s');
    KeepBallots(s, s');
    StillAhead(s, s');
    StillHonest(s, s');
  }

  lemma LogsCast(s: State, s': State, id: CallId)
    requires LogInv(s) && AckInv(s) && Leaders(s) && QuorumsStick(s) && id.num >= 1
    requires KeepLogs(s, s') && StillCandidates(s, s') && CallsShrink(s, s')
    requires id in s.voteCalls && NewBallot(s, s', id.dst, id.num, id.src)
    requires UpToDate(s.voteCalls[id].lastIndex, s.voteCalls[id].lastTerm, s'.nodes[id.dst].log)
    ensures LogInv(s') && AckInv(s')
  {
    KeepNodeLogs(s, s');
    KeepAcks(s, s');
    CastBallots(s, s', id.dst, id.num, id.src);
    CastAhead(s, s', id);
    StillHonest(s, s');
  }

  /** The log part of an election start: the candidate's own ballot and its requests. */
  ghost predicate StartLogs(s: State, s': State, i: Addr) {
    && KeepLogs(s, s') && Start(s, s', i) && NewBallot(s, s', i, s'.nodes[i].term, i)
    && (forall id :: id in s'.voteCalls ==>
          || (id in s.voteCalls && s'.voteCalls[id] == s.voteCalls[id])
          || (s'.voteCalls[id] == BuildVoteRequest(s'.nodes[i], i) && id.src == i))
  }

  lemma LogsStart(s: State, s': State, i: Addr)
    requires LogInv(s) && AckInv(s) && Leaders(s) && QuorumsStick(s) && BallotCandidates(s) && OpenCalls(s)
    requires StartLogs(s, s', i)
    ensures LogInv(s') && AckInv(s')
  {
    KeepNodeLogs(s, s');
    KeepAcks(s, s');
    CastBallots(s, s', i, s'.nodes[i].term, i);
    StartAhead(s, s', i);
    StartHonest(s, s', i);
  }

  lemma LogsFirst(s: State, s': State, i: Addr)
    requires LogInv(s) && AckInv(s) && Leaders(s) && BallotTerms(s) && CountedVotes(s)
    requires FirstEntry(s, s', i) && StillCandidates(s, s') && CallsShrink(s, s')
    ensures LogInv(s') && AckInv(s') && LogsGrow(s.past, s'.past)
  {
    var t := s.nodes[i].term;
    FirstGrows(s, s', i);
    WritesGrounded(s, s', i, t);
    WritesBallotLogs(s, s', i, t);
    FirstLogs(s, s', i);
    FirstBases(s, s', i);
    FirstAhead(s, s', i);
    StillAhead(s, s');
    StillHonest(s, s');
    FirstAckBounds(s, s', i);
    FirstLeaderAcks(s, s', i);
    WritesKeep(s, s', i, t);
    FirstMatters(s, s', i);
    WritesBallotsKeep(s, s', i, t);
  }

  lemma LogsClient(s: State, s': State, i: Addr)
    requires LogInv(s) && AckInv(s) && Leaders(s) && BallotTerms(s)
    requires Client(s, s', i) && StillCandidates(s, s') && CallsShrink(s, s')
    ensures LogInv(s') && AckInv(s') && LogsGrow(s.past, s'.past)
  {
    var t := s.nodes[i].term;
    ClientGrows(s, s', i);
    WritesGrounded(s, s', i, t);
    WritesBallotLogs(s, s', i, t);
    ClientLogs(s, s', i);
    ClientBases(s, s', i);
    StillAhead(s, s');
    StillHonest(s, s');
    ClientAckBounds(s, s', i);
    ClientLeaderAcks(s, s', i);
    WritesKeep(s, s', i, t);
    WritesMatters(s, s', i, t);
    WritesBallotsKeep(s, s', i, t);
  }

  lemma LogsTake(s: State, s': State, i: Addr, t: nat, e: nat)
    requires LogInv(s) && AckInv(s) && Leaders(s) && BallotTerms(s) && BallotTerms(s')
    requires Takes(s, s', i, t, e) && StillCandidates(s, s') && CallsShrink(s, s')
    ensures LogInv(s') && AckInv(s')
  {
    TakesLogs(s, s', i, t, e);
    TakesKeep(s, s', i, t, e);
    TakesAckBounds(s, s', i, t, e);
    TakesLeaderAcks(s, s', i, t, e);
    TakesBallots(s, s', i, t, e);
    StillAhead(s, s');
    StillHonest(s, s');
  }

  // ---------------------------------------------------------------- replication

  lemma KeepGrows(s: State, s': State)
    requires KeepLogs(s, s')
    ensures Grows(s, s')
  {
  }

  lemma WritesGrows(s: State, s': State, i: Addr, t: nat)
    requires Writes(s, s', i, t) && LogsGrow(s.past, s'.past)
    requires forall u :: u in s.past.elected ==> u in s'.past.elected && s'.past.elected[u] == s.past.elected[u]
    requires At(i, t) in s.past.acks ==> s.past.acks[At(i, t)] <= |s.nodes[i].log|
    ensures Grows(s, s')
  {
  }

  lemma TakesGrows(s: State, s': State, i: Addr, t: nat, e: nat)
    requires Takes(s, s', i, t, e)
    ensures Grows(s, s')
  {
  }

  ghost predicate CommitsStay(s: State, s': State) {
    s'.nodes.Keys == s.nodes.Keys && forall i :: i in s.nodes ==> CommitsKeep(s, s', i)
  }

  lemma AllStaySafe(s: State, s': State)
    requires Grows(s, s') && CommitsStay(s, s') && NodesSafe(s)
    ensures NodesSafe(s')
  {
    forall i | i in s'.nodes ensures Safe(s', s'.nodes[i].log, s'.nodes[i].commit, s'.nodes[i].term) {
      NodeStaysSafe(s, s', i);
    }
  }

  ghost predicate PeersKeep(s: State, s': State) {
    && LeadersKeep(s, s') && SameViews(s, s') && FewerPending(s, s') && SameRounds(s, s') && NoNewCalls(s, s')
  }

  lemma ReplicationQuiet(s: State, s': State)
    requires ReplicationInv(s) && Leaders(s) && Grows(s, s') && NodesSafe(s')
    requires PeersKeep(s, s') && NoNewAnswers(s, s')
    ensures ReplicationInv(s')
  {
    CallsStillFit(s, s');
    CallsStillSafe(s, s');
    AnswersStillFit(s, s');
    LeadersStillSound(s, s');
    StillNeverLed(s, s');
    RoundsKeep(s, s');
  }

  lemma ReplicationAnswer(s: State, s': State, id: CallId)
    requires ReplicationInv(s) && Leaders(s) && Grows(s, s') && NodesSafe(s')
    requires PeersKeep(s, s') && Answered(s, s', id)
    ensures ReplicationInv(s')
  {
    assert Links(s, id, s.appendCalls[id].term) && Stretch(s.past, id, s.appendCalls[id]);
    CallsStillFit(s, s');
    CallsStillSafe(s, s');
    AnswerFits(s, s', id);
    LeadersStillSound(s, s');
    StillNeverLed(s, s');
    RoundsKeep(s, s');
  }

  lemma ReplicationBeat(s: State, s': State, i: Addr)
    requires ReplicationInv(s) && Leaders(s) && LeaderLogs(s) && AckBounds(s) && Shape(s)
    requires Beat(s, s', i) && NodesSafe(s')
    requires i in s'.pending && s'.pending == s.pending[i := s'.pending[i]]
    ensures ReplicationInv(s')
  {
    forall p, num: nat | p in s.members && p != i
      ensures Stretch(s.past, CallId(i, p, num), BuildAppendRequest(s.nodes[i], i, p))
    {
      BuiltStretch(s, i, p, num);
    }
    BeatCalls(s, s', i);
    BeatSafe(s, s', i);
    BeatAnswers(s, s', i);
    BeatRounds(s, s', i);
    BeatPeers(s, s', i);
  }

  lemma ReplicationAdvance(s: State, s': State, id: CallId)
    requires ReplicationInv(s) && Leaders(s) && Advance(s, s', id) && KeepLogs(s, s') && NodesSafe(s')
    ensures ReplicationInv(s')
  {
    KeepGrows(s, s');
    CallsStillFit(s, s');
    CallsStillSafe(s, s');
    AnswersStillFit(s, s');
    AdvanceSound(s, s', id);
    AdvanceRounds(s, s', id);
    AdvanceViews(s, s', id);
  }

  // ---------------------------------------------------------------- leases

  /** No step but a heartbeat and its replies touches the lease fields, except to clear them. */
  ghost predicate QuietClocks(s: State, s': State) {
    && s.now <= s'.now && s'.nodes.Keys == s.nodes.Keys && s.past.led <= s'.past.led
    && forall i :: i in s.nodes ==>
         && s'.nodes[i].heartbeatAt == s.nodes[i].heartbeatAt && s'.nodes[i].responding == s.nodes[i].responding
         && s'.nodes[i].leaseUntil == s.nodes[i].leaseUntil
         && (s'.nodes[i].holder ==> s.nodes[i].holder) && (s'.nodes[i].renew ==> s.nodes[i].renew)
  }

  lemma ClocksStay(s: State, s': State)
    requires QuietClocks(s, s') && Clocks(s) && NoEarlyLease(s)
    ensures Clocks(s') && NoEarlyLease(s')
  {
  }

  lemma LeaseQuiet(s: State, s': State)
    requires LeaseInv(s) && AnswersFit(s) && Leaders(s)
    requires Timely(s, s') && LeasesKeep(s, s') && QuietClocks(s, s') && NoNewAnswers(s, s')
    ensures LeaseInv(s')
  {
    ClocksStay(s, s');
    RespondersStay(s, s');
    LeasesStay(s, s');
    AnswersStay(s, s');
  }

  /** The server that answered the append call has just pushed back its deadline and its timer. */
  ghost predicate FreshDeadline(s: State, s': State, id: CallId) {
    && id in s'.appendAnswers && s'.appendAnswers == s.appendAnswers[id := s'.appendAnswers[id]]
    && id.dst in s'.nodes && s'.nodes[id.dst].deadline >= s.now + ELECTION_TIMEOUT
    && s'.nodes[id.dst].timer.Armed? && s'.nodes[id.dst].timer.at >= s.now + ELECTION_TIMEOUT
    && (s'.appendAnswers[id].reply.success ==> s'.nodes[id.dst].term == s'.appendAnswers[id].req.term)
  }

  lemma LeaseAnswer(s: State, s': State, id: CallId)
    requires LeaseInv(s) && AnswersFit(s) && Leaders(s) && BallotTerms(s')
    requires Timely(s, s') && LeasesKeep(s, s') && QuietClocks(s, s') && FreshDeadline(s, s', id)
    ensures LeaseInv(s')
  {
    ClocksStay(s, s');
    RespondersStay(s, s');
    LeasesStay(s, s');
    NewAnswerHeld(s, s', id);
  }

  lemma LeaseBeat(s: State, s': State, i: Addr)
    requires LeaseInv(s) && AnswersFit(s) && Leaders(s) && NewRound(s, s', i) && i in s.members
    ensures LeaseInv(s')
  {
    NewRoundResponders(s, s', i);
    NewRoundLeases(s, s', i);
    NewRoundAnswers(s, s', i);
    NewRoundClocks(s, s', i);
  }

  lemma LeaseRespond(s: State, s': State, id: CallId)
    requires LeaseInv(s) && Leaders(s) && Respond(s, s', id) && id.src in s.members && id.dst in s.members
    requires s'.past.led == s.past.led
    ensures LeaseInv(s')
  {
    RespondResponders(s, s', id);
    RespondLeases(s, s', id);
    RespondAnswers(s, s', id);
    RespondClocks(s, s', id);
  }

  // ---------------------------------------------------------------- replay

  /** Servers that have never led keep their state machine. */
  ghost predicate MachinesKeep(s: State, s': State) {
    && s'.nodes.Keys == s.nodes.Keys && s.past.led <= s'.past.led
    && forall i :: i in s.nodes ==>
         && s.nodes[i].machine.applied <= s'.nodes[i].machine.applied
         && (i !in s'.past.led ==> s'.nodes[i].machine == s.nodes[i].machine)
  }

  ghost predicate UnledCommitsStay(s: State, s': State) {
    forall i :: i in s.nodes && i !in s'.past.led ==> CommitsKeep(s, s', i)
  }

  lemma ReplayQuiet(s: State, s': State)
    requires ReplayInv(s) && MachinesKeep(s, s') && UnledCommitsStay(s, s') && NodesSafe(s)
    ensures ReplayInv(s')
  {
    forall i | i in s'.nodes && i !in s'.past.led
      ensures s'.nodes[i].machine == Replay(s'.nodes[i].log[..s'.nodes[i].commit + 1])
    {
      assert CommitsKeep(s, s', i) && Safe(s, s.nodes[i].log, s.nodes[i].commit, s.nodes[i].term);
      assert s'.nodes[i].log[..s'.nodes[i].commit + 1] == s.nodes[i].log[..s.nodes[i].commit + 1];
    }
  }

  // ---------------------------------------------------------------- calm steps

  ghost predicate CalmFrame(s: State, s': State) {
    && KeepLogs(s, s') && CommitsStay(s, s') && MachinesKeep(s, s')
    && PeersKeep(s, s') && NoNewAnswers(s, s')
    && Timely(s, s') && LeasesKeep(s, s') && QuietClocks(s, s')
  }

  /** A step that starts, counts and wins nothing, and leaves logs and commit indices alone. */
  ghost predicate Calm(s: State, s': State, i: Addr) {
    && Shape(s') && Quiet(s, s', i) && QuietMessages(s, s') && StillCandidates(s, s') && CallsShrink(s, s')
    && CalmFrame(s, s')
  }

  lemma FrameKeeps(s: State, s': State)
    requires ReplicationInv(s) && LeaseInv(s) && ReplayInv(s) && Leaders(s) && CalmFrame(s, s')
    ensures ReplicationInv(s') && LeaseInv(s') && ReplayInv(s')
  {
    KeepGrows(s, s');
    AllStaySafe(s, s');
    ReplicationQuiet(s, s');
    LeaseQuiet(s, s');
    ReplayQuiet(s, s');
  }

  lemma CalmKeeps(s: State, s': State, i: Addr)
    requires Inv(s) && Calm(s, s', i)
    ensures Inv(s')
  {
    ElectionQuiet(s, s', i);
    LogsQuiet(s, s');
    FrameKeeps(s, s');
  }
}
