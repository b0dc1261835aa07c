/**
 The whole cluster as a state machine. Every handler of the consensus module is one step;
 calls are identified by sender, receiver and a number (the term of a vote call, the
 heartbeat round of an append call), so that a request is handled at most once and a reply
 is delivered at most once.
 */
module Cluster {
  import opened Types
  import opened MachineSpec
  import opened NodeSpec

  datatype CallId = CallId(src: Addr, dst: Addr, num: nat)

  datatype VoteAnswer = VoteAnswer(req: VoteRequest, reply: VoteReply)
  datatype AppendAnswer = AppendAnswer(req: AppendRequest, reply: AppendReply)

  /** A server in one of the terms it went through. */
  datatype At = At(who: Addr, term: nat)

  /** The first vote a server gives in a term, with its log at that moment. */
  datatype Ballot = Ballot(candidate: Addr, log: seq<Entry>)

  /** A won election: the winner, the voters it counted, and its log before its first own entry. */
  datatype Election = Election(leader: Addr, quorum: set<Addr>, base: seq<Entry>)

  /**
   What a run has done so far. No server reads it; the step relation uses only `led`, to let
   each server be promoted once.
   */
  datatype History = History(
    ballots: map<At, Ballot>,
    counted: map<Addr, set<Addr>>,   // voters a candidate has counted in its current term
    elected: map<nat, Election>,
    logs: map<nat, seq<Entry>>,      // the log of the leader of each term; term 0 is the starting log
    acks: map<At, nat>,              // how much of that term's leader log a server has accepted
    led: set<Addr>,
    leases: map<Addr, set<Addr>>)    // the responders that gave a leader its lease

  datatype State = State(
    members: set<Addr>,
    now: int,
    nodes: map<Addr, Node>,
    voteCalls: map<CallId, VoteRequest>,
    voteAnswers: map<CallId, VoteAnswer>,
    appendCalls: map<CallId, AppendRequest>,
    appendAnswers: map<CallId, AppendAnswer>,
    round: map<Addr, nat>,
    pending: map<Addr, set<Addr>>,   // peers whose call of the current round is still open
    past: History)

  datatype Step =
    | Tick(ms: nat)
    | Timeout(i: Addr, r: nat)
    | Vote(id: CallId, r: nat)
    | VoteReturn(id: CallId, r: nat)
    | Heartbeat(i: Addr)
    | Append(id: CallId, r: nat)
    | AppendReturn(id: CallId, r: nat)
    | Abandon(i: Addr, peer: Addr)
    | ClientEntry(i: Addr, op: Op)
    | ClientApply(i: Addr, index: nat)
    | ClientSkip(i: Addr)
    | Crash(i: Addr)

  // ---------------------------------------------------------------- starting states

  ghost predicate FreshNode(n: Node, me: Addr, members: set<Addr>, now: int, log: seq<Entry>) {
    && n.term == 0 && n.vote == None && n.votes == 0 && n.log == log && n.commit == -1
    && n.next == (map p | p in members && p != me :: 0)
    && n.matched == (map p | p in members && p != me :: -1)
    && (n.timer.Armed? ==> n.timer.term == 0)
    && n.heartbeatAt <= now && !n.renew && !n.holder && n.responding == {}
    && n.machine == INITIAL
  }

  /**
   All members hold the same starting log, written in term 0. At most one of them, the
   bootstrap server, has promoted itself in term 0 without an election; its log goes on with the
   no-op of its promotion and whatever it has appended since, such as its first configuration.
   */
  ghost predicate InitWith(s: State, log: seq<Entry>, bootstrap: Option<Addr>, added: seq<Entry>) {
    && s.members != {} && "" !in s.members
    && (forall k :: 0 <= k < |log| ==> log[k].term == 0)
    && (forall k :: 0 <= k < |added| ==> added[k].term == 0)
    && s.nodes.Keys == s.members
    && (forall i :: i in s.members && bootstrap != Some(i) ==>
          FreshNode(s.nodes[i], i, s.members, s.now, log) && s.nodes[i].role == Candidate)
    && s.voteCalls == map[] && s.voteAnswers == map[]
    && s.appendCalls == map[] && s.appendAnswers == map[]
    && s.round == (map i | i in s.members :: 0)
    && s.pending == (map i | i in s.members :: {})
    && s.past.ballots == map[]
    && s.past.counted == (map i | i in s.members :: {})
    && s.past.leases == (map i | i in s.members :: {})
    && match bootstrap {
         case None =>
           s.past.elected == map[] && s.past.logs == map[0 := log] && s.past.acks == map[] && s.past.led == {}
         case Some(b) =>
           && b in s.members
           && FreshNode(s.nodes[b], b, s.members, s.now, log + [Entry(0, NoOp)] + added)
           && s.nodes[b].role == Leader && s.nodes[b].timer == Idle
           && s.past.elected == map[0 := Election(b, {}, log)]
           && s.past.logs == map[0 := log + [Entry(0, NoOp)] + added]
           && s.past.acks == map[At(b, 0) := |log| + 1 + |added|]
           && s.past.led == {b}
       }
  }

  ghost predicate Init(s: State) {
    exists log, bootstrap, added :: InitWith(s, log, bootstrap, added)
  }

  // ---------------------------------------------------------------- steps

  function WithNode(s: State, i: Addr, n: Node): State {
    s.(nodes := s.nodes[i := n])
  }

  function CallsTo(i: Addr, peers: set<Addr>, num: nat): (ids: set<CallId>)
    ensures forall id :: id in ids <==> id.src == i && id.num == num && id.dst in peers
  {
    set p | p in peers :: CallId(i, p, num)
  }

  function Peers(s: State, i: Addr): set<Addr> {
    set p | p in s.members && p != i
  }

  function NewVoteCalls(s: State, i: Addr, c: Node): map<CallId, VoteRequest> {
    map id | id in CallsTo(i, Peers(s, i), c.term) :: BuildVoteRequest(c, i)
  }

  function NewAppendCalls(s: State, i: Addr, n: Node, round: nat): map<CallId, AppendRequest> {
    map id | id in CallsTo(i, Peers(s, i), round) :: BuildAppendRequest(n, i, id.dst)
  }

  function Elect(h: History, i: Addr, term: nat, quorum: set<Addr>, base: seq<Entry>, log: seq<Entry>): History {
    h.(elected := h.elected[term := Election(i, quorum, base)],
       logs := h.logs[term := log],
       acks := h.acks[At(i, term) := |log|],
       led := h.led + {i})
  }

  function CastBallot(h: History, voter: Addr, term: nat, candidate: Addr, log: seq<Entry>): History {
    if At(voter, term) in h.ballots then h
    else h.(ballots := h.ballots[At(voter, term) := Ballot(candidate, log)])
  }

  function DoTick(s: State, ms: nat): State {
    s.(now := s.now + ms)
  }

  predicate TimeoutEnabled(s: State, i: Addr, r: nat) {
    && i in s.nodes && ValidTimeout(r)
    && s.nodes[i].role != Dead
    && s.nodes[i].timer.Armed? && s.nodes[i].timer.at <= s.now
    && (StartsElection(s.nodes[i]) && |s.members| == 1 ==> i !in s.past.led)
  }

  function DoTimeout(s: State, i: Addr, r: nat): State
    requires i in s.nodes
  {
    var n := s.nodes[i];
    var n' := ElectionCallback(n, i, s.members, s.now, r);
    var s' := WithNode(s, i, n');
    if !StartsElection(n) then s'
    else
      var h := CastBallot(s.past, i, n'.term, i, n.log).(counted := s.past.counted[i := {i}]);
      if n'.role == Leader then s'.(past := Elect(h, i, n'.term, {i}, n.log, n'.log))
      else
        s'.(past := h,
            voteCalls := s.voteCalls + NewVoteCalls(s, i, n'))
  }

  predicate VoteEnabled(s: State, id: CallId, r: nat) {
    id in s.voteCalls && id.dst in s.nodes && ValidTimeout(r)
  }

  function DoVote(s: State, id: CallId, r: nat): State
    requires id in s.voteCalls && id.dst in s.nodes
  {
    var n := s.nodes[id.dst];
    var req := s.voteCalls[id];
    var s' := s.(voteCalls := s.voteCalls - {id});
    match HandleVote(n, req, s.now, r)
    case VoteCancelled => s'
    case VoteReplied(n', reply) =>
      WithNode(s', id.dst, n').(
        voteAnswers := s.voteAnswers[id := VoteAnswer(req, reply)],
        past := if reply.granted then CastBallot(s.past, id.dst, req.term, req.candidate, n.log) else s.past)
  }

  /** A reply reaches its sender only while the sender is still in the term of the request. */
  predicate VoteReturnEnabled(s: State, id: CallId, r: nat) {
    && id in s.voteAnswers && id.src in s.nodes && id.src in s.past.counted && ValidTimeout(r)
    && s.nodes[id.src].role != Dead
    && s.nodes[id.src].term == s.voteAnswers[id].req.term
    && (WinsElection(s.nodes[id.src], s.members, s.voteAnswers[id].req, s.voteAnswers[id].reply)
        ==> id.src !in s.past.led)
  }

  function DoVoteReturn(s: State, id: CallId, r: nat): State
    requires id in s.voteAnswers && id.src in s.nodes && id.src in s.past.counted
  {
    var n := s.nodes[id.src];
    var VoteAnswer(req, reply) := s.voteAnswers[id];
    var n' := HandleVoteReply(n, s.members, req, reply, s.now, r);
    var s' := WithNode(s, id.src, n').(voteAnswers := s.voteAnswers - {id});
    if n.role == Candidate && reply.term == req.term && reply.granted then
      var voters := s.past.counted[id.src] + {id.dst};
      var h := s.past.(counted := s.past.counted[id.src := voters]);
      s'.(past :=
        if WinsElection(n, s.members, req, reply) then Elect(h, id.src, n.term, voters, n.log, n'.log) else h)
    else s'
  }

  /** A round starts only when every call of the previous round has been answered or given up. */
  predicate HeartbeatEnabled(s: State, i: Addr) {
    && i in s.nodes && i in s.round && i in s.pending
    && s.nodes[i].role == Leader && s.pending[i] == {}
  }

  function DoHeartbeat(s: State, i: Addr): State
    requires i in s.nodes && i in s.round
  {
    var n := s.nodes[i];
    var round := s.round[i] + 1;
    WithNode(s, i, HeartbeatCallback(n, i, s.members, s.now)).(
      round := s.round[i := round],
      pending := s.pending[i := Peers(s, i)],
      appendCalls := s.appendCalls + NewAppendCalls(s, i, n, round))
  }

  predicate AppendEnabled(s: State, id: CallId, r: nat) {
    id in s.appendCalls && id.dst in s.nodes && ValidTimeout(r)
  }

  function Acknowledge(acks: map<At, nat>, who: Addr, term: nat, n: nat): map<At, nat> {
    var k := At(who, term);
    if k in acks && acks[k] >= n then acks else acks[k := n]
  }

  /** Records the outcome of an append call; an exception inside the handler stops the server. */
  function FinishAppend(s: State, id: CallId, out: AppendOutcome): State
    requires id in s.appendCalls && id.dst in s.nodes
  {
    var req := s.appendCalls[id];
    var s' := s.(appendCalls := s.appendCalls - {id});
    match out
    case AppendCancelled => s'
    case AppendFaulted(n, _) => WithNode(s', id.dst, n.(role := Dead))
    case AppendReplied(n, reply) =>
      WithNode(s', id.dst, n).(
        appendAnswers := s.appendAnswers[id := AppendAnswer(req, reply)],
        past :=
          if reply.success && req.prevIndex >= -1 then
            s.past.(acks := Acknowledge(s.past.acks, id.dst, req.term, req.prevIndex + 1 + |req.entries|))
          else s.past)
  }

  function DoAppend(s: State, id: CallId, r: nat): State
    requires id in s.appendCalls && id.dst in s.nodes
  {
    FinishAppend(s, id, HandleAppend(s.nodes[id.dst], s.appendCalls[id], s.now, r))
  }

  /** Only an answer to a call that is still open is delivered, in the term of its request. */
  predicate AppendReturnEnabled(s: State, id: CallId, r: nat) {
    && id in s.appendAnswers && id.src in s.nodes && ValidTimeout(r)
    && id.src in s.round && id.src in s.pending && id.src in s.past.leases
    && s.nodes[id.src].role != Dead
    && s.nodes[id.src].term == s.appendAnswers[id].req.term
    && id.num == s.round[id.src] && id.dst in s.pending[id.src]
  }

  function DoAppendReturn(s: State, id: CallId, r: nat): State
    requires id in s.appendAnswers && id.src in s.nodes && id.src in s.pending
  {
    var n := s.nodes[id.src];
    var AppendAnswer(req, reply) := s.appendAnswers[id];
    var n' := HandleAppendReply(n, id.src, s.members, id.dst, req, reply, s.now, r);
    WithNode(s, id.src, n').(
      appendAnswers := s.appendAnswers - {id},
      pending := s.pending[id.src := s.pending[id.src] - {id.dst}],
      past := if n'.role == Leader && n.renew && !n'.renew
              then s.past.(leases := s.past.leases[id.src := n'.responding]) else s.past)
  }

  predicate ClientEntryEnabled(s: State, i: Addr, op: Op) {
    i in s.nodes && s.nodes[i].role == Leader && (op.RegisterClient? || op.Data?)
  }

  function DoClientEntry(s: State, i: Addr, op: Op): State
    requires i in s.nodes
  {
    var n' := ClientAppend(s.nodes[i], op);
    WithNode(s, i, n').(
      past := s.past.(logs := s.past.logs[n'.term := n'.log],
                      acks := s.past.acks[At(i, n'.term) := |n'.log|]))
  }

  /**
   A client thread of a server that has led applies a committed entry to the state machine. That
   it also touches its session and caches the reply is left to the model of the client path: no
   result about the cluster speaks of the sessions of a server that has led.
   */
  predicate ClientApplyEnabled(s: State, i: Addr, index: nat) {
    && i in s.nodes && i in s.past.led && s.nodes[i].role != Dead
    && index <= s.nodes[i].commit && index < |s.nodes[i].log|
  }

  function DoClientApply(s: State, i: Addr, index: nat): State
    requires i in s.nodes && index < |s.nodes[i].log|
  {
    var n := s.nodes[i];
    match ApplyCommand(n.machine, index, n.log[index])
    case Done(m) => WithNode(s, i, n.(machine := m))
    case Duplicate(m) => WithNode(s, i, n.(machine := m, role := Dead))
  }

  predicate Enabled(s: State, step: Step) {
    match step
    case Tick(_) => true
    case Timeout(i, r) => TimeoutEnabled(s, i, r)
    case Vote(id, r) => VoteEnabled(s, id, r)
    case VoteReturn(id, r) => VoteReturnEnabled(s, id, r)
    case Heartbeat(i) => HeartbeatEnabled(s, i)
    case Append(id, r) => AppendEnabled(s, id, r)
    case AppendReturn(id, r) => AppendReturnEnabled(s, id, r)
    case Abandon(i, _) => i in s.pending
    case ClientEntry(i, op) => ClientEntryEnabled(s, i, op)
    case ClientApply(i, index) => ClientApplyEnabled(s, i, index)
    case ClientSkip(i) => i in s.nodes && i in s.past.led
    case Crash(i) => i in s.nodes
  }

  function Apply(s: State, step: Step): State
    requires Enabled(s, step)
  {
    match step
    case Tick(ms) => DoTick(s, ms)
    case Timeout(i, r) => DoTimeout(s, i, r)
    case Vote(id, r) => DoVote(s, id, r)
    case VoteReturn(id, r) => DoVoteReturn(s, id, r)
    case Heartbeat(i) => DoHeartbeat(s, i)
    case Append(id, r) => DoAppend(s, id, r)
    case AppendReturn(id, r) => DoAppendReturn(s, id, r)
    case Abandon(i, peer) => s.(pending := s.pending[i := s.pending[i] - {peer}])
    case ClientEntry(i, op) => DoClientEntry(s, i, op)
    case ClientApply(i, index) => DoClientApply(s, i, index)
    case ClientSkip(i) => WithNode(s, i, s.nodes[i].(machine := MachineSpec.Step(s.nodes[i].machine)))
    case Crash(i) => WithNode(s, i, s.nodes[i].(role := Dead))
  }

  ghost predicate Next(s: State, s': State) {
    exists step :: Enabled(s, step) && s' == Apply(s, step)
  }

  /** A finite run of the cluster. */
  ghost predicate Run(b: seq<State>) {
    && b != [] && Init(b[0])
    && forall k :: 0 <= k < |b| - 1 ==> Next(b[k], b[k + 1])
  }
}
