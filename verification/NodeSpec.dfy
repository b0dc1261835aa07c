/**
 One server of the cluster as a value, and each handler of the consensus module as a
 function from the server's state to its next state and the reply it sends.
 */
module NodeSpec {
  import opened Types
  import opened MachineSpec

  const ELECTION_TIMEOUT := 1000
  const ELECTION_JITTER := 150
  const LEADER_LEASE_TIMEOUT := 900

  datatype Role = Leader | Candidate | Follower | Dead

  /** The election timer: idle, or bound to a term and due at a time in milliseconds. */
  datatype Timer = Idle | Armed(term: nat, at: int)

  datatype Node = Node(
    term: nat,
    vote: Option<Addr>,
    role: Role,
    votes: nat,
    log: seq<Entry>,
    commit: int,
    next: map<Addr, int>,
    matched: map<Addr, int>,
    timer: Timer,
    timeout: nat,
    deadline: int,
    heartbeatAt: int,
    renew: bool,
    holder: bool,
    leaseUntil: int,
    responding: set<Addr>,
    machine: Machine)

  datatype VoteRequest = VoteRequest(term: nat, candidate: Addr, lastIndex: int, lastTerm: int)
  datatype VoteReply = VoteReply(term: nat, granted: bool)

  datatype AppendRequest = AppendRequest(
    term: nat,
    leader: Addr,
    prevIndex: int,
    prevTerm: int,
    entries: seq<Entry>,
    leaderCommit: int)
  datatype AppendReply = AppendReply(term: nat, success: bool)

  datatype Fault = OutOfRange | DuplicateSession

  datatype VoteOutcome = VoteReplied(node: Node, reply: VoteReply) | VoteCancelled

  datatype AppendOutcome =
    | AppendReplied(node: Node, reply: AppendReply)
    | AppendCancelled
    | AppendFaulted(node: Node, fault: Fault)

  predicate ValidTimeout(r: int) {
    ELECTION_TIMEOUT <= r <= ELECTION_TIMEOUT + ELECTION_JITTER
  }

  predicate Majority(n: int, members: set<Addr>) {
    n * 2 > |members|
  }

  function LastTerm(log: seq<Entry>): int {
    if log == [] then -1 else log[|log| - 1].term
  }

  function Lookup(m: map<Addr, int>, p: Addr): int {
    if p in m then m[p] else 0
  }

  // ---------------------------------------------------------------- role changes

  function ScheduleElection(n: Node, term: nat, now: int, r: nat): Node {
    n.(timer := Armed(term, now + r), timeout := r)
  }

  function ResetToFollower(n: Node, term: nat, now: int, r: nat): Node {
    ScheduleElection(
      n.(role := Follower, renew := false, holder := false, term := term, vote := None, votes := 0),
      term, now, r)
  }

  function PromoteToLeader(n: Node): Node {
    n.(role := Leader, votes := 0, timer := Idle, log := n.log + [Entry(n.term, NoOp)])
  }

  // ---------------------------------------------------------------- elections

  /** Whether the election timer that just fired starts an election. */
  predicate StartsElection(n: Node) {
    n.timer.Armed? && (n.role == Candidate || n.role == Follower) && n.term == n.timer.term
  }

  function ElectionCallback(n: Node, me: Addr, members: set<Addr>, now: int, r: nat): Node {
    if !StartsElection(n) then n.(timer := Idle)
    else
      var c := n.(timer := Idle, role := Candidate, term := n.term + 1, vote := Some(me), votes := 1);
      if |members| == 1 && me in members then PromoteToLeader(c)
      else ScheduleElection(c, c.term, now, r)
  }

  function BuildVoteRequest(n: Node, me: Addr): VoteRequest {
    VoteRequest(n.term, me, |n.log| - 1, LastTerm(n.log))
  }

  /** The voter's comparison of the candidate's last entry with its own. */
  predicate UpToDate(lastIndex: int, lastTerm: int, log: seq<Entry>) {
    || lastTerm > LastTerm(log)
    || (lastTerm == LastTerm(log) && lastIndex >= |log| - 1)
  }

  function HandleVote(n: Node, req: VoteRequest, now: int, r: nat): VoteOutcome {
    if n.role == Dead then VoteCancelled
    else if now <= n.deadline || n.role == Leader then VoteReplied(n, VoteReply(n.term, false))
    else
      var m := if req.term > n.term then ResetToFollower(n, req.term, now, r) else n;
      if && req.term == m.term
         && (m.vote == None || m.vote == Some(req.candidate))
         && UpToDate(req.lastIndex, req.lastTerm, m.log)
      then
        VoteReplied(ScheduleElection(m.(vote := Some(req.candidate)), req.term, now, r),
                    VoteReply(m.term, true))
      else VoteReplied(m, VoteReply(m.term, false))
  }

  /** Whether this reply gives the candidate the vote that wins the election. */
  predicate WinsElection(n: Node, members: set<Addr>, req: VoteRequest, reply: VoteReply) {
    n.role == Candidate && reply.term == req.term && reply.granted && Majority(n.votes + 1, members)
  }

  function HandleVoteReply(n: Node, members: set<Addr>, req: VoteRequest, reply: VoteReply,
                           now: int, r: nat): Node
  {
    if n.role != Candidate then n
    else if reply.term > req.term then ResetToFollower(n, reply.term, now, r)
    else if reply.term == req.term && reply.granted then
      var m := n.(votes := n.votes + 1);
      if Majority(m.votes, members) then PromoteToLeader(m) else m
    else n
  }

  // ---------------------------------------------------------------- replication, sending

  /** The heartbeat reads the log at `next - 1` and from `next` to the end for every peer. */
  predicate HeartbeatInRange(n: Node, me: Addr, members: set<Addr>) {
    forall p :: p in members && p != me ==> 0 <= Lookup(n.next, p) <= |n.log|
  }

  function BuildAppendRequest(n: Node, me: Addr, peer: Addr): AppendRequest {
    var next := Lookup(n.next, peer);
    AppendRequest(
      n.term, me, next - 1,
      if 0 <= next - 1 < |n.log| then n.log[next - 1].term else -1,
      if 0 <= next <= |n.log| then n.log[next..] else [],
      n.commit)
  }

  function HeartbeatCallback(n: Node, me: Addr, members: set<Addr>, now: int): Node {
    if n.role != Leader then n
    else
      var m := n.(heartbeatAt := now, renew := true, responding := {me});
      if |members| == 1 && me in members then UpdateCommitIndex(m, me, members) else m
  }

  // ---------------------------------------------------------------- commitment by the leader

  function MatchPeers(n: Node, me: Addr, members: set<Addr>, i: int): set<Addr> {
    {me} + (set p | p in members && Lookup(n.matched, p) >= i)
  }

  predicate Committable(n: Node, me: Addr, members: set<Addr>, i: int) {
    0 <= i < |n.log| && n.log[i].term == n.term && Majority(|MatchPeers(n, me, members, i)|, members)
  }

  /** The greatest committable index below `hi` and above the commit index, else the commit index. */
  function CommitTarget(n: Node, me: Addr, members: set<Addr>, hi: int): (c: int)
    ensures c == n.commit || (n.commit < c < hi && Committable(n, me, members, c))
    ensures forall i :: c < i < hi && n.commit < i ==> !Committable(n, me, members, i)
    decreases hi - n.commit
  {
    if hi <= n.commit + 1 then n.commit
    else if Committable(n, me, members, hi - 1) then hi - 1
    else CommitTarget(n, me, members, hi - 1)
  }

  /** The slice and the entries the commit loop reads exist. */
  predicate CommitInRange(n: Node) {
    -1 <= n.commit < |n.log| && -1 <= n.machine.applied
  }

  function UpdateCommitIndex(n: Node, me: Addr, members: set<Addr>): Node {
    n.(commit := CommitTarget(n, me, members, |n.log|))
  }

  // ---------------------------------------------------------------- replication, receiving

  /**
   The follower's compare, truncate and append loop: skip entries whose terms agree, cut the
   log at the first that does not, and append what is left.
   */
  function Merge(log: seq<Entry>, at: nat, entries: seq<Entry>): seq<Entry>
    requires at <= |log|
    decreases |entries|
  {
    if entries == [] then log
    else if at == |log| then log + entries
    else if log[at].term == entries[0].term then Merge(log, at + 1, entries[1..])
    else log[..at] + entries
  }

  function Rearm(n: Node, term: nat, now: int, r: nat): Node {
    ScheduleElection(n, term, now, r).(deadline := now + r)
  }

  predicate Matches(log: seq<Entry>, req: AppendRequest) {
    || req.prevIndex == -1
    || (0 <= req.prevIndex < |log| && req.prevTerm == log[req.prevIndex].term)
  }

  /** The follower's state once it accepts the request's term. */
  function Accept(n: Node, req: AppendRequest, now: int, r: nat): Node {
    var m := if req.term > n.term then ResetToFollower(n, req.term, now, r) else n;
    if m.role != Follower then ResetToFollower(m, req.term, now, r) else Rearm(m, req.term, now, r)
  }

  /** The committed entries that have not been applied yet. */
  function Backlog(log: seq<Entry>, applied: int, c: int): seq<Entry>
    requires applied < c ==> -1 <= applied && c < |log|
  {
    if applied < c then log[applied + 1..c + 1] else []
  }

  /** Advances the commit index and applies every entry not yet applied. */
  function CommitAndApply(n: Node, leaderCommit: int, now: int, r: nat, term: nat): AppendOutcome {
    var c := Min(leaderCommit, |n.log|);
    var m := n.(commit := c);
    if n.machine.applied < c && (c >= |n.log| || n.machine.applied < -1) then AppendFaulted(m, OutOfRange)
    else
      match ApplyAll(n.machine, n.commit, Backlog(n.log, n.machine.applied, c))
      case Done(x) => AppendReplied(Rearm(m.(machine := x), term, now, r), AppendReply(m.term, true))
      case Duplicate(x) => AppendFaulted(m.(machine := x), DuplicateSession)
  }

  function HandleAppend(n: Node, req: AppendRequest, now: int, r: nat): AppendOutcome {
    if n.role == Dead then AppendCancelled
    else if req.term < n.term then
      AppendReplied(Rearm(n, req.term, now, r), AppendReply(n.term, false))
    else
      var m := Accept(n, req, now, r);
      if req.prevIndex < -1 then AppendFaulted(m, OutOfRange)
      else if !Matches(m.log, req) then
        AppendReplied(Rearm(m, req.term, now, r), AppendReply(m.term, false))
      else
        var k := m.(log := Merge(m.log, req.prevIndex + 1, req.entries));
        if req.leaderCommit <= k.commit then
          AppendReplied(Rearm(k, req.term, now, r), AppendReply(k.term, true))
        else CommitAndApply(k, req.leaderCommit, now, r, req.term)
  }

  // ---------------------------------------------------------------- replication, replies

  function RenewLease(n: Node, peer: Addr, members: set<Addr>): Node {
    var m := n.(responding := n.responding + {peer});
    if m.renew && Majority(|m.responding|, members) then
      m.(leaseUntil := m.heartbeatAt + LEADER_LEASE_TIMEOUT, holder := true, renew := false)
    else m
  }

  function HandleAppendReply(n: Node, me: Addr, members: set<Addr>, peer: Addr,
                             req: AppendRequest, reply: AppendReply, now: int, r: nat): Node
  {
    var m := if reply.term > req.term then ResetToFollower(n, reply.term, now, r) else n;
    if m.role == Leader && reply.term == m.term then
      var next := Lookup(m.next, peer);
      if reply.success then
        var k := RenewLease(m, peer, members);
        UpdateCommitIndex(
          k.(next := k.next[peer := next + |req.entries|],
             matched := k.matched[peer := next + |req.entries| - 1]),
          me, members)
      else m.(next := m.next[peer := next - 1])
    else m
  }

  // ---------------------------------------------------------------- client writes

  function ClientAppend(n: Node, op: Op): Node {
    n.(log := n.log + [Entry(n.term, op)])
  }
}
