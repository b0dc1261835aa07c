/** Every run keeps the invariants, and what one step does to committed entries and terms. */
module Safety {
  import opened Types
  import opened MachineSpec
  import opened NodeSpec
  import opened Cluster
  import opened Invariants
  import opened LogLemmas
  import opened ElectionProofs
  import opened LogProofs
  import opened ReplicationProofs
  import opened Effects
  import opened Steps

  // ---------------------------------------------------------------- the invariants hold in every run

  lemma TickStepKeeps(s: State, step: Cluster.Step)
    requires Inv(s) && Enabled(s, step) && step.Tick?
    ensures Inv(Apply(s, step))
  {
    TickKeeps(s, step.ms);
  }

  lemma AnyTimeoutKeeps(s: State, i: Addr, r: nat)
    requires Inv(s) && TimeoutEnabled(s, i, r)
    ensures Inv(DoTimeout(s, i, r))
  {
    if StartsElection(s.nodes[i]) && |s.members| == 1 {
      LoneTimeoutKeeps(s, i, r);
    } else {
      TimeoutKeeps(s, i, r);
    }
  }

  lemma AppendKeeps(s: State, id: CallId, r: nat)
    requires Inv(s) && Complete(s) && AppendEnabled(s, id, r)
    ensures Inv(DoAppend(s, id, r))
  {
    if s.nodes[id.dst].role == Dead {
      AppendDeadKeeps(s, id, r);
    } else if s.nodes[id.dst].term > s.appendCalls[id].term {
      AppendLateKeeps(s, id, r);
    } else {
      AppendLiveKeeps(s, id, r);
    }
  }

  lemma TimeoutStepKeeps(s: State, step: Cluster.Step)
    requires Inv(s) && Enabled(s, step) && step.Timeout?
    ensures Inv(Apply(s, step))
  {
    AnyTimeoutKeeps(s, step.i, step.r);
  }

  lemma VoteStepKeeps(s: State, step: Cluster.Step)
    requires Inv(s) && Enabled(s, step) && step.Vote?
    ensures Inv(Apply(s, step))
  {
    VoteKeeps(s, step.id, step.r);
  }

  lemma VoteReturnStepKeeps(s: State, step: Cluster.Step)
    requires Inv(s) && Enabled(s, step) && step.VoteReturn?
    ensures Inv(Apply(s, step))
  {
    VoteReturnKeeps(s, step.id, step.r);
  }

  lemma HeartbeatStepKeeps(s: State, step: Cluster.Step)
    requires Inv(s) && Enabled(s, step) && step.Heartbeat?
    ensures Inv(Apply(s, step))
  {
    HeartbeatKeeps(s, step.i);
  }

  lemma AppendStepKeeps(s: State, step: Cluster.Step)
    requires Inv(s) && Complete(s) && Enabled(s, step) && step.Append?
    ensures Inv(Apply(s, step))
  {
    AppendKeeps(s, step.id, step.r);
  }

  lemma ReturnIs(s: State, step: Cluster.Step, id: CallId, r: nat)
    requires Enabled(s, step) && step == AppendReturn(id, r)
    ensures AppendReturnEnabled(s, id, r) && Apply(s, step) == DoAppendReturn(s, id, r)
  {
  }

  lemma EntryIs(s: State, step: Cluster.Step, i: Addr, op: Op)
    requires Enabled(s, step) && step == ClientEntry(i, op)
    ensures ClientEntryEnabled(s, i, op) && Apply(s, step) == DoClientEntry(s, i, op)
  {
  }

  lemma AppendReturnStepKeeps(s: State, step: Cluster.Step)
    requires Inv(s) && Enabled(s, step) && step.AppendReturn?
    ensures Inv(Apply(s, step))
  {
    ReturnIs(s, step, step.id, step.r);
    AppendReturnKeeps(s, step.id, step.r);
  }

  lemma ClientEntryStepKeeps(s: State, step: Cluster.Step)
    requires Inv(s) && Enabled(s, step) && step.ClientEntry?
    ensures Inv(Apply(s, step))
  {
    EntryIs(s, step, step.i, step.op);
    ClientEntryKeeps(s, step.i, step.op);
  }

  lemma ElectionStepKeeps(s: State, step: Cluster.Step)
    requires Inv(s) && Enabled(s, step) && (step.Tick? || step.Timeout? || step.Vote? || step.VoteReturn?)
    ensures Inv(Apply(s, step))
  {
    if step.Tick? {
      TickStepKeeps(s, step);
    } else if step.Timeout? {
      TimeoutStepKeeps(s, step);
    } else if step.Vote? {
      VoteStepKeeps(s, step);
    } else {
      VoteReturnStepKeeps(s, step);
    }
  }

  lemma ReplicationStepKeeps(s: State, step: Cluster.Step)
    requires Inv(s) && Complete(s) && Enabled(s, step)
    requires step.Heartbeat? || step.Append? || step.AppendReturn? || step.ClientEntry?
    ensures Inv(Apply(s, step))
  {
    if step.Heartbeat? {
      HeartbeatStepKeeps(s, step);
    } else if step.Append? {
      AppendStepKeeps(s, step);
    } else if step.AppendReturn? {
      AppendReturnStepKeeps(s, step);
    } else {
      ClientEntryStepKeeps(s, step);
    }
  }

  lemma StepKeeps(s: State, step: Cluster.Step)
    requires Inv(s) && Complete(s) && Enabled(s, step)
    ensures Inv(Apply(s, step))
  {
    if step.Tick? || step.Timeout? || step.Vote? || step.VoteReturn? {
      ElectionStepKeeps(s, step);
    } else if step.Heartbeat? || step.Append? || step.AppendReturn? || step.ClientEntry? {
      ReplicationStepKeeps(s, step);
    } else {
      SilentKeeps(s, step);
    }
  }

  lemma InvComplete(s: State)
    requires Inv(s)
    ensures Complete(s)
  {
    AllComplete(s);
  }

  /** A starting state, whether or not a bootstrap server leads term 0. */
  ghost predicate StartNode(s: State, i: Addr, n: Node) {
    && 0 in s.past.logs && n.term == 0 && n.commit == -1 && (n.role == Candidate || n.role == Leader)
    && (n.role == Leader ==> 0 in s.past.elected && s.past.elected[0].leader == i && n.log == s.past.logs[0])
    && Same(n.log, s.past.logs[0], |n.log|)
    && (forall p :: p in s.members && p != i ==> p in n.next && p in n.matched && n.next[p] == 0 && n.matched[p] == -1)
    && n.heartbeatAt <= s.now && !n.renew && !n.holder && n.responding == {} && n.machine == INITIAL
  }

  /** Nothing has been sent and nobody has voted; the one recorded log is of term 0. */
  ghost predicate Untouched(s: State) {
    && Shape(s) && s.past.ballots == map[] && s.past.logs.Keys == {0}
    && s.voteCalls == map[] && s.voteAnswers == map[] && s.appendCalls == map[] && s.appendAnswers == map[]
    && (forall k :: 0 <= k < |s.past.logs[0]| ==> s.past.logs[0][k].term == 0)
  }

  /** The one recorded leader, if any, leads term 0 and has accepted its own log. */
  ghost predicate Bootstrapped(s: State) {
    && 0 in s.past.logs
    && (forall t :: t in s.past.elected ==>
          var i := s.past.elected[t].leader;
          t == 0 && i in s.nodes && s.nodes[i].role == Leader && i in s.past.led
          && At(i, 0) in s.past.acks && s.past.acks[At(i, 0)] == |s.past.logs[0]|)
    && (forall k :: k in s.past.acks ==> k.term == 0 && 0 in s.past.elected && k.who == s.past.elected[0].leader)
  }

  ghost predicate Started(s: State) {
    Untouched(s) && Bootstrapped(s) && forall i :: i in s.nodes ==> StartNode(s, i, s.nodes[i])
  }

  lemma InitUntouched(s: State, log: seq<Entry>, bootstrap: Option<Addr>, added: seq<Entry>)
    requires InitWith(s, log, bootstrap, added)
    ensures Untouched(s)
  {
    if bootstrap.Some? {
      StartTerms(log, added);
      assert s.past.logs == map[0 := log + [Entry(0, NoOp)] + added];
    } else {
      assert s.past.logs == map[0 := log];
    }
  }

  lemma StartTerms(log: seq<Entry>, added: seq<Entry>)
    requires forall k :: 0 <= k < |log| ==> log[k].term == 0
    requires forall k :: 0 <= k < |added| ==> added[k].term == 0
    ensures TermsUpTo(log + [Entry(0, NoOp)] + added, 0)
  {
  }

  lemma InitBootstrapped(s: State, log: seq<Entry>, bootstrap: Option<Addr>, added: seq<Entry>)
    requires InitWith(s, log, bootstrap, added)
    ensures Bootstrapped(s)
  {
  }

  lemma InitStartNode(s: State, log: seq<Entry>, bootstrap: Option<Addr>, added: seq<Entry>, i: Addr)
    requires InitWith(s, log, bootstrap, added) && i in s.nodes
    ensures StartNode(s, i, s.nodes[i])
  {
  }

  lemma InitStarts(s: State, log: seq<Entry>, bootstrap: Option<Addr>, added: seq<Entry>)
    requires InitWith(s, log, bootstrap, added)
    ensures Started(s)
  {
    InitUntouched(s, log, bootstrap, added);
    InitBootstrapped(s, log, bootstrap, added);
    forall i | i in s.nodes ensures StartNode(s, i, s.nodes[i]) {
      InitStartNode(s, log, bootstrap, added, i);
    }
  }

  lemma InitElection(s: State)
    requires Started(s)
    ensures ElectionInv(s)
  {
    forall t | t in s.past.elected ensures Won(s, t, s.past.elected[t].leader) {
      assert StartNode(s, s.past.elected[t].leader, s.nodes[s.past.elected[t].leader]);
    }
  }

  lemma InitLogs(s: State)
    requires Started(s)
    ensures LogInv(s)
  {
    assert Grounded(s.past.logs, s.past.logs[0]);
    forall i | i in s.nodes ensures Grounded(s.past.logs, s.nodes[i].log) && TermsUpTo(s.nodes[i].log, 0) {
      assert StartNode(s, i, s.nodes[i]);
    }
    forall t | t in s.past.elected ensures LeaderLog(s, t, s.past.elected[t].leader) {
      assert StartNode(s, s.past.elected[t].leader, s.nodes[s.past.elected[t].leader]);
    }
  }

  lemma InitAcks(s: State)
    requires Started(s)
    ensures AckInv(s)
  {
    forall k, n: nat | k in s.past.acks && n <= s.past.acks[k] && k.who in s.nodes
      ensures Kept(s.past, s.nodes[k.who].log, k.term, n, s.nodes[k.who].term)
    {
      assert StartNode(s, k.who, s.nodes[k.who]);
    }
  }

  lemma InitReplication(s: State)
    requires Started(s)
    ensures ReplicationInv(s)
  {
    forall i, p | i in s.nodes && s.nodes[i].role == Leader && p in s.members && p != i ensures Progress(s, i, p) {
      assert StartNode(s, i, s.nodes[i]);
    }
    forall i | i in s.nodes ensures Safe(s, s.nodes[i].log, s.nodes[i].commit, s.nodes[i].term) {
      assert StartNode(s, i, s.nodes[i]);
    }
  }

  lemma InitRest(s: State)
    requires Started(s)
    ensures LeaseInv(s) && ReplayInv(s)
  {
  }

  lemma InitKeeps(s: State)
    requires Init(s)
    ensures Inv(s)
  {
    var log, bootstrap, added :| InitWith(s, log, bootstrap, added);
    InitStarts(s, log, bootstrap, added);
    InitElection(s);
    InitLogs(s);
    InitAcks(s);
    InitReplication(s);
    InitRest(s);
  }

  lemma NextKeeps(s: State, s': State)
    requires Inv(s) && Next(s, s')
    ensures Inv(s')
  {
    var step :| Enabled(s, step) && s' == Apply(s, step);
    InvComplete(s);
    StepKeeps(s, step);
  }

  lemma {:induction false} RunKeeps(b: seq<State>, k: nat)
    requires Run(b) && k < |b|
    ensures Inv(b[k])
  {
    if k == 0 {
      InitKeeps(b[0]);
    } else {
      RunKeeps(b, k - 1);
      assert Next(b[k - 1], b[k - 1 + 1]);
      NextKeeps(b[k - 1], b[k]);
    }
  }

  // ---------------------------------------------------------------- what no step takes back

  /** A server's term and commit index only grow, and its committed entries stay as they are. */
  ghost predicate NodePermanent(n: Node, n': Node) {
    n.term <= n'.term && n.commit <= n'.commit && Same(n.log, n'.log, n.commit + 1)
  }

  ghost predicate Permanent(s: State, s': State) {
    && Grows(s, s') && s'.nodes.Keys == s.nodes.Keys
    && forall i :: i in s.nodes ==> NodePermanent(s.nodes[i], s'.nodes[i])
  }

  lemma PermanentFromNode(s: State, s': State, i: Addr)
    requires Grows(s, s') && OneNode(s, s', i) && NodePermanent(s.nodes[i], s'.nodes[i]) && NodesSafe(s)
    ensures Permanent(s, s')
  {
  }

  lemma PermanentFromCommits(s: State, s': State)
    requires Grows(s, s') && CommitsStay(s, s')
    ensures Permanent(s, s')
  {
  }

  lemma FramePermanent(s: State, s': State, i: Addr)
    requires FrameState(s, s', i) && NodesSafe(s)
    ensures Permanent(s, s')
  {
  }

  lemma LogsGrowOn(a: State, b: State, c: State)
    requires Grows(a, b) && Grows(b, c)
    ensures Grows(a, c)
  {
  }

  lemma PermanentOn(a: State, b: State, c: State)
    requires Permanent(a, b) && Permanent(b, c)
    ensures Permanent(a, c)
  {
    LogsGrowOn(a, b, c);
    forall i | i in a.nodes ensures NodePermanent(a.nodes[i], c.nodes[i]) {
      assert NodePermanent(a.nodes[i], b.nodes[i]) && NodePermanent(b.nodes[i], c.nodes[i]);
    }
  }

  lemma PromotedPermanent(s: State, s': State, i: Addr)
    requires Promoted(s, s', i) && s.nodes[i].term !in s.past.elected
    requires NodesSafe(s) && LeaderLogs(s) && AckBounds(s)
    ensures Permanent(s, s')
  {
    PromotedWrites(s, s', i);
    FirstGrows(s, s', i);
    PromotedGrows(s, s', i);
    PromotedCommits(s, s', i);
    PermanentFromCommits(s, s');
  }

  lemma PromotionPermanent(s: State, s1: State, s': State, i: Addr, j: Addr)
    requires NodesSafe(s) && FrameState(s, s1, j) && Inv(s1) && Promoted(s1, s', i)
    ensures Permanent(s, s')
  {
    FramePermanent(s, s1, j);
    TermIsNew(s1, i);
    PromotedPermanent(s1, s', i);
    PermanentOn(s, s1, s');
  }

  lemma TimeoutPermanent(s: State, i: Addr, r: nat)
    requires Inv(s) && TimeoutEnabled(s, i, r)
    ensures Permanent(s, DoTimeout(s, i, r))
  {
    if !StartsElection(s.nodes[i]) {
      LateTimeoutIsCalm(s, i, r);
      FramePermanent(s, DoTimeout(s, i, r), i);
    } else if |s.members| != 1 {
      TimeoutStands(s, i, r);
      var c := ElectionCallback(s.nodes[i], i, s.members, s.now, r);
      StandsFrame(s, DoTimeout(s, i, r), i, c, NewVoteCalls(s, i, c));
      FramePermanent(s, DoTimeout(s, i, r), i);
    } else {
      LoneStarts(s, i);
      LoneTimeout(s, i, r);
      PromotionPermanent(s, Candidacy(s, i), DoTimeout(s, i, r), i, i);
    }
  }

  /** The lone candidate's intermediate state is a proper one. */
  lemma LoneStarts(s: State, i: Addr)
    requires Inv(s) && i in s.nodes && StartsElection(s.nodes[i]) && s.nodes[i].timer.at <= s.now
    ensures Inv(Candidacy(s, i)) && FrameState(s, Candidacy(s, i), i)
  {
    var s1, c := Candidacy(s, i), Alone(s.nodes[i], i);
    LoneStands(s, i);
    StandsFrame(s, s1, i, c, map[]);
    StandsLogs(s, s1, i, c, map[]);
    StartKeeps(s, s1, i);
  }

  lemma GrantsPermanent(s: State, s': State, id: CallId, n: Node)
    requires Grants(s, s', id, n) && NodesSafe(s)
    ensures Permanent(s, s')
  {
  }

  lemma VotePermanent(s: State, id: CallId, r: nat)
    requires VoteEnabled(s, id, r) && Shape(s) && OpenCalls(s) && NodesSafe(s)
    ensures Permanent(s, DoVote(s, id, r))
  {
    var out := HandleVote(s.nodes[id.dst], s.voteCalls[id], s.now, r);
    if out.VoteReplied? && out.reply.granted {
      VoteGrants(s, id, r);
      GrantsPermanent(s, DoVote(s, id, r), id, out.node);
    } else {
      VoteRefused(s, id, r);
      FramePermanent(s, DoVote(s, id, r), id.dst);
    }
  }

  lemma TalliedPermanent(s: State, id: CallId)
    requires AddsVote(s, id) && id.src in s.past.counted
    ensures FrameState(s, Tallied(s, id), id.src)
  {
  }

  lemma VoteReturnPermanent(s: State, id: CallId, r: nat)
    requires Inv(s) && VoteReturnEnabled(s, id, r)
    ensures Permanent(s, DoVoteReturn(s, id, r))
  {
    if !AddsVote(s, id) {
      VoteReturnIgnored(s, id, r);
      FramePermanent(s, DoVoteReturn(s, id, r), id.src);
    } else {
      TalliedPermanent(s, id);
      if WinsElection(s.nodes[id.src], s.members, s.voteAnswers[id].req, s.voteAnswers[id].reply) {
        assert OpenCall(s, id);
        TalliedKeeps(s, id);
        VoteReturnWins(s, id, r);
        PromotionPermanent(s, Tallied(s, id), DoVoteReturn(s, id, r), id.src, id.src);
      } else {
        VoteReturnTallies(s, id, r);
        FramePermanent(s, Tallied(s, id), id.src);
      }
    }
  }

  lemma HeartbeatPermanent(s: State, i: Addr)
    requires HeartbeatEnabled(s, i) && NodesSafe(s)
    ensures Permanent(s, DoHeartbeat(s, i))
  {
  }

  lemma TakesPermanent(s: State, s': State, i: Addr, t: nat, e: nat)
    requires Takes(s, s', i, t, e) && Complete(s) && NodesSafe(s) && s.nodes[i].commit <= s'.nodes[i].commit
    ensures Permanent(s, s')
  {
    assert Safe(s, s.nodes[i].log, s.nodes[i].commit, s.nodes[i].term);
    TakesGrows(s, s', i, t, e);
    TakesCommitted(s, s', i, t, e);
    PermanentFromNode(s, s', i);
  }

  lemma TookAdvances(s: State, s': State, id: CallId, n: Node, ok: bool)
    requires Took(s, s', id, n, ok)
    ensures OneNode(s, s', id.dst) && s.nodes[id.dst].commit <= s'.nodes[id.dst].commit
  {
  }

  lemma TookStepPermanent(s: State, s': State, id: CallId, n: Node, ok: bool, t: nat, e: nat)
    requires Took(s, s', id, n, ok) && Complete(s) && NodesSafe(s)
    requires t == s.appendCalls[id].term && e == s.appendCalls[id].prevIndex + 1 + |s.appendCalls[id].entries|
    requires Links(s, id, t) && Stretch(s.past, id, s.appendCalls[id])
    requires AckBounds(s) && NodesKeep(s) && LogsGrounded(s.past.logs) && NodeLogs(s)
    ensures Permanent(s, s')
  {
    TookTakes(s, s', id, n, ok, t, e);
    TookAdvances(s, s', id, n, ok);
    TakesPermanent(s, s', id.dst, t, e);
  }

  lemma AppendLivePermanent(s: State, id: CallId, r: nat)
    requires AppendEnabled(s, id, r) && Complete(s) && NodesSafe(s)
    requires s.nodes[id.dst].role != Dead && s.nodes[id.dst].term <= s.appendCalls[id].term
    requires CallsFit(s) && CallsSafe(s) && AckBounds(s) && NodesKeep(s)
    requires LogsGrounded(s.past.logs) && NodeLogs(s) && Applied(s)
    ensures Permanent(s, DoAppend(s, id, r))
  {
    var n, ok := AppendLive(s, id, r);
    var t, e := CallFacts(s, id);
    TookStepPermanent(s, DoAppend(s, id, r), id, n, ok, t, e);
  }

  lemma AppendLatePermanent(s: State, id: CallId, r: nat)
    requires AppendEnabled(s, id, r) && Shape(s) && NodesSafe(s)
    requires s.nodes[id.dst].role == Dead || s.nodes[id.dst].term > s.appendCalls[id].term
    ensures Permanent(s, DoAppend(s, id, r))
  {
    if s.nodes[id.dst].role == Dead {
      AppendDeadIsCalm(s, id, r);
      FramePermanent(s, DoAppend(s, id, r), id.dst);
    } else {
      AppendIsStale(s, id, r);
      StaleFrame(s, DoAppend(s, id, r), id, Rearm(s.nodes[id.dst], s.appendCalls[id].term, s.now, r));
      KeepGrows(s, DoAppend(s, id, r));
      PermanentFromCommits(s, DoAppend(s, id, r));
    }
  }

  lemma AppendPermanent(s: State, id: CallId, r: nat)
    requires AppendEnabled(s, id, r) && Inv(s) && Complete(s)
    ensures Permanent(s, DoAppend(s, id, r))
  {
    if s.nodes[id.dst].role == Dead || s.nodes[id.dst].term > s.appendCalls[id].term {
      AppendLatePermanent(s, id, r);
    } else {
      AppendLivePermanent(s, id, r);
    }
  }

  lemma HearsPermanent(s: State, s': State, id: CallId, k: Node, c: int)
    requires Hears(s, s', id, k, c) && Shape(s) && NodesSafe(s) && k.commit <= c
    ensures Permanent(s, s')
  {
    HearsLogs(s, s', id, k, c);
    KeepGrows(s, s');
    assert Safe(s, s.nodes[id.src].log, s.nodes[id.src].commit, s.nodes[id.src].term);
    HearsNode(s, s', id, k, c);
    PermanentFromNode(s, s', id.src);
  }

  lemma HearsNode(s: State, s': State, id: CallId, k: Node, c: int)
    requires Hears(s, s', id, k, c) && k.commit <= c && -1 <= s.nodes[id.src].commit < |s.nodes[id.src].log|
    ensures OneNode(s, s', id.src) && NodePermanent(s.nodes[id.src], s'.nodes[id.src])
  {
  }

  lemma AppendReturnPermanent(s: State, id: CallId, r: nat)
    requires AppendReturnEnabled(s, id, r) && Shape(s) && AnswersFit(s) && Leaders(s) && NodesSafe(s)
    ensures Permanent(s, DoAppendReturn(s, id, r))
  {
    if s.appendAnswers[id].reply.success {
      SenderLeads(s, id, r);
      AppendReturnHears(s, id, r);
      var k := Heard(s.nodes[id.src], s.members, id.dst, s.appendAnswers[id].req);
      HearsPermanent(s, DoAppendReturn(s, id, r), id, k, CommitTarget(k, id.src, s.members, |k.log|));
    } else {
      AppendReturnIdle(s, id, r);
      FramePermanent(s, DoAppendReturn(s, id, r), id.src);
    }
  }

  lemma ClientEntryPermanent(s: State, i: Addr, op: Op)
    requires ClientEntryEnabled(s, i, op) && Shape(s) && NodesSafe(s) && Leaders(s) && LeaderLogs(s) && AckBounds(s)
    ensures Permanent(s, DoClientEntry(s, i, op))
  {
    EntryQuiet(s, i, op);
    EntryGrows(s, DoClientEntry(s, i, op), i);
    EntryCommits(s, DoClientEntry(s, i, op), i, op);
    PermanentFromCommits(s, DoClientEntry(s, i, op));
  }

  lemma SilentPermanent(s: State, step: Cluster.Step)
    requires Shape(s) && NodesSafe(s) && Enabled(s, step) && Silent(step)
    ensures Permanent(s, Apply(s, step))
  {
    var i := SilentIsCalm(s, step);
    FramePermanent(s, Apply(s, step), i);
  }

  lemma TickPermanent(s: State, ms: nat)
    requires Shape(s) && NodesSafe(s)
    ensures Permanent(s, DoTick(s, ms))
  {
  }

  lemma TickStepPermanent(s: State, step: Cluster.Step)
    requires Inv(s) && Enabled(s, step) && step.Tick?
    ensures Permanent(s, Apply(s, step))
  {
    TickPermanent(s, step.ms);
  }

  lemma TimeoutStepPermanent(s: State, step: Cluster.Step)
    requires Inv(s) && Enabled(s, step) && step.Timeout?
    ensures Permanent(s, Apply(s, step))
  {
    TimeoutPermanent(s, step.i, step.r);
  }

  lemma VoteStepPermanent(s: State, step: Cluster.Step)
    requires Inv(s) && Enabled(s, step) && step.Vote?
    ensures Permanent(s, Apply(s, step))
  {
    VotePermanent(s, step.id, step.r);
  }

  lemma VoteReturnStepPermanent(s: State, step: Cluster.Step)
    requires Inv(s) && Enabled(s, step) && step.VoteReturn?
    ensures Permanent(s, Apply(s, step))
  {
    VoteReturnPermanent(s, step.id, step.r);
  }

  lemma HeartbeatStepPermanent(s: State, step: Cluster.Step)
    requires Inv(s) && Enabled(s, step) && step.Heartbeat?
    ensures Permanent(s, Apply(s, step))
  {
    HeartbeatPermanent(s, step.i);
  }

  lemma AppendStepPermanent(s: State, step: Cluster.Step)
    requires Inv(s) && Complete(s) && Enabled(s, step) && step.Append?
    ensures Permanent(s, Apply(s, step))
  {
    AppendPermanent(s, step.id, step.r);
  }

  lemma AppendReturnStepPermanent(s: State, step: Cluster.Step)
    requires Inv(s) && Enabled(s, step) && step.AppendReturn?
    ensures Permanent(s, Apply(s, step))
  {
    ReturnIs(s, step, step.id, step.r);
    AppendReturnPermanent(s, step.id, step.r);
  }

  lemma ClientEntryStepPermanent(s: State, step: Cluster.Step)
    requires Inv(s) && Enabled(s, step) && step.ClientEntry?
    ensures Permanent(s, Apply(s, step))
  {
    EntryIs(s, step, step.i, step.op);
    ClientEntryPermanent(s, step.i, step.op);
  }

  lemma ElectionStepPermanent(s: State, step: Cluster.Step)
    requires Inv(s) && Enabled(s, step) && (step.Tick? || step.Timeout? || step.Vote? || step.VoteReturn?)
    ensures Permanent(s, Apply(s, step))
  {
    if step.Tick? {
      TickStepPermanent(s, step);
    } else if step.Timeout? {
      TimeoutStepPermanent(s, step);
    } else if step.Vote? {
      VoteStepPermanent(s, step);
    } else {
      VoteReturnStepPermanent(s, step);
    }
  }

  lemma ReplicationStepPermanent(s: State, step: Cluster.Step)
    requires Inv(s) && Complete(s) && Enabled(s, step)
    requires step.Heartbeat? || step.Append? || step.AppendReturn? || step.ClientEntry?
    ensures Permanent(s, Apply(s, step))
  {
    if step.Heartbeat? {
      HeartbeatStepPermanent(s, step);
    } else if step.Append? {
      AppendStepPermanent(s, step);
    } else if step.AppendReturn? {
      AppendReturnStepPermanent(s, step);
    } else {
      ClientEntryStepPermanent(s, step);
    }
  }

  lemma NextPermanent(s: State, s': State)
    requires Inv(s) && Next(s, s')
    ensures Permanent(s, s')
  {
    var step :| Enabled(s, step) && s' == Apply(s, step);
    InvComplete(s);
    if Silent(step) {
      SilentPermanent(s, step);
    } else if step.Tick? || step.Timeout? || step.Vote? || step.VoteReturn? {
      ElectionStepPermanent(s, step);
    } else {
      ReplicationStepPermanent(s, step);
    }
  }

  /** Along every run, terms and commit indices grow and committed entries stay. */
  lemma {:induction false} RunPermanent(b: seq<State>, j: nat, k: nat)
    requires Run(b) && j <= k < |b|
    ensures Permanent(b[j], b[k])
    decreases k - j
  {
    RunKeeps(b, j);
    if j == k {
      PermanentSelf(b[j]);
    } else {
      assert Next(b[j], b[j + 1]);
      NextPermanent(b[j], b[j + 1]);
      RunPermanent(b, j + 1, k);
      PermanentOn(b[j], b[j + 1], b[k]);
    }
  }

  lemma PermanentSelf(s: State)
    requires NodesSafe(s)
    ensures Permanent(s, s)
  {
  }

  // ---------------------------------------------------------------- who has led

  /** A server that joins those that have led is a leader at that moment. */
  ghost predicate LedLead(s: State, s': State) {
    forall i :: i in s'.past.led && i !in s.past.led ==> i in s'.nodes && s'.nodes[i].role == Leader
  }

  lemma TimeoutLed(s: State, i: Addr, r: nat)
    requires TimeoutEnabled(s, i, r)
    ensures LedLead(s, DoTimeout(s, i, r))
  {
    var n' := ElectionCallback(s.nodes[i], i, s.members, s.now, r);
    if n'.role != Leader || !StartsElection(s.nodes[i]) {
      assert DoTimeout(s, i, r).past.led == s.past.led;
    } else {
      assert DoTimeout(s, i, r).past.led == s.past.led + {i};
      assert DoTimeout(s, i, r).nodes[i] == n';
    }
  }

  lemma VoteReturnLed(s: State, id: CallId, r: nat)
    requires VoteReturnEnabled(s, id, r)
    ensures LedLead(s, DoVoteReturn(s, id, r))
  {
  }

  lemma VoteLed(s: State, id: CallId, r: nat)
    requires VoteEnabled(s, id, r)
    ensures DoVote(s, id, r).past.led == s.past.led
  {
  }

  lemma AppendLed(s: State, id: CallId, r: nat)
    requires AppendEnabled(s, id, r)
    ensures DoAppend(s, id, r).past.led == s.past.led
  {
  }

  lemma StepLed(s: State, step: Cluster.Step)
    requires Enabled(s, step)
    ensures LedLead(s, Apply(s, step))
  {
    match step
    case Timeout(i, r) => TimeoutLed(s, i, r);
    case Vote(id, r) => VoteLed(s, id, r);
    case VoteReturn(id, r) => VoteReturnLed(s, id, r);
    case Append(id, r) => AppendLed(s, id, r);
    case _ =>
  }

  /** A server that was a leader in no state of a run so far is not among those that have led. */
  lemma {:induction false} LedHaveLed(b: seq<State>, k: nat, i: Addr)
    requires Run(b) && k < |b| && (forall m :: 0 <= m <= k && i in b[m].nodes ==> b[m].nodes[i].role != Leader)
    ensures i !in b[k].past.led
  {
    if k > 0 {
      LedHaveLed(b, k - 1, i);
      assert Next(b[k - 1], b[k - 1 + 1]);
      var step :| Enabled(b[k - 1], step) && b[k] == Apply(b[k - 1], step);
      StepLed(b[k - 1], step);
    }
  }
}
