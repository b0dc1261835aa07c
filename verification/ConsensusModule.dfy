/**
 The consensus module as the source writes it: a server's state, updated in place by the
 handlers. Each handler is proved to do what `NodeSpec` says of it.
 */
module ConsensusModule {
  import opened Types
  import opened NodeSpec
  import opened MachineSpec
  import Cluster
  import CP = ClientPath
  import SC = SessionCache
  import SM = StateMachine

  // The module's fields, grouped by what they serve.
  datatype Metadata = Metadata(term: nat, vote: Addr)
  datatype Standing = Standing(term: nat, vote: Option<Addr>, role: Role, votes: nat)
  datatype Clock = Clock(timer: Timer, timeout: nat, deadline: int)
  datatype Tracking = Tracking(commit: int, next: map<Addr, int>, matched: map<Addr, int>)
  datatype Lease = Lease(heartbeatAt: int, renew: bool, holder: bool, until: int, responding: set<Addr>)

  /** How an append request ends: a reply, a refusal by a server that is down, or an exception. */
  datatype Answer = Replied(reply: AppendReply) | Cancelled | Failed(fault: Fault)

  /** The servers found to hold the entry at `i` once `visited` have been looked at. */
  ghost function Reached(matched: map<Addr, int>, me: Addr, visited: set<Addr>, i: int): set<Addr> {
    {me} + (set p | p in visited && Lookup(matched, p) >= i)
  }

  lemma ReachedGrows(matched: map<Addr, int>, me: Addr, visited: set<Addr>, i: int, p: Addr)
    ensures Reached(matched, me, visited + {p}, i) ==
      Reached(matched, me, visited, i) + if Lookup(matched, p) >= i then {p} else {}
  {
  }

  /** What an append request does to a server that follows its sender and whose log matches it. */
  ghost function Replicated(n: Node, req: AppendRequest, now: int, r: nat): AppendOutcome
    requires -1 <= req.prevIndex && Matches(n.log, req)
  {
    var k := n.(log := Merge(n.log, req.prevIndex + 1, req.entries));
    if req.leaderCommit <= k.commit then AppendReplied(Rearm(k, req.term, now, r), AppendReply(k.term, true))
    else CommitAndApply(k, req.leaderCommit, now, r, req.term)
  }

  /** What an append request does to a server that follows its sender. */
  ghost function Followed(n: Node, req: AppendRequest, now: int, r: nat): AppendOutcome {
    if req.prevIndex < -1 then AppendFaulted(n, OutOfRange)
    else if Matches(n.log, req) then Replicated(n, req, now, r)
    else AppendReplied(Rearm(n, req.term, now, r), AppendReply(n.term, false))
  }

  lemma HandleAppendIs(n: Node, req: AppendRequest, now: int, r: nat)
    requires n.role != Dead && req.term >= n.term
    ensures HandleAppend(n, req, now, r) == Followed(Accept(n, req, now, r), req, now, r)
  {
  }

  class ConsensusModule {
    const me: Addr
    const members: set<Addr>
    const configId: int
    const machine: SM.StateMachine
    var standing: Standing
    var clock: Clock
    var tracking: Tracking
    var lease: Lease
    var log: seq<Entry>

    ghost function View(): Node
      reads this, machine, machine.sessions
    {
      Node(standing.term, standing.vote, standing.role, standing.votes, log,
           tracking.commit, tracking.next, tracking.matched,
           clock.timer, clock.timeout, clock.deadline,
           lease.heartbeatAt, lease.renew, lease.holder, lease.until, lease.responding,
           machine.View())
    }

    ghost predicate Valid()
      reads machine, machine.sessions, machine.sessions.repr
    {
      machine.Valid()
    }

    /** A server as it starts, with the log, the term and the vote it finds; an empty vote is none. */
    constructor (me: Addr, members: set<Addr>, configId: int, log: seq<Entry>, metadata: Option<Metadata>, now: int)
      ensures Valid() && this.me == me && this.members == members && this.configId == configId
      ensures fresh(machine) && fresh(machine.sessions)
      ensures Cluster.FreshNode(View().(term := 0, vote := None), me, members, now, log) && standing.role == Candidate
      ensures standing.term == (if metadata == None then 0 else metadata.value.term)
      ensures standing.vote.Some? <==> metadata.Some? && metadata.value.vote != ""
      ensures standing.vote.Some? ==> standing.vote.value == metadata.value.vote
    {
      this.me, this.members, this.configId, this.log := me, members, configId, log;
      standing := match metadata
        case None => Standing(0, None, Candidate, 0)
        case Some(m) => Standing(m.term, if m.vote == "" then None else Some(m.vote), Candidate, 0);
      clock := Clock(Idle, ELECTION_TIMEOUT, now);
      tracking := Tracking(-1, map p | p in members && p != me :: 0, map p | p in members && p != me :: -1);
      lease := Lease(now, false, false, now, {});
      var sessions := new SC.ClientRequestLRUCache(SESSION_CAPACITY);
      machine := new SM.StateMachine(sessions);
    }

    // ---------------------------------------------------------------- role changes

    method ScheduleElection(t: nat, now: int, r: nat)
      modifies `clock
      ensures View() == NodeSpec.ScheduleElection(old(View()), t, now, r)
    {
      clock := clock.(timer := Armed(t, now + r), timeout := r);
    }

    method ResetToFollower(t: nat, now: int, r: nat)
      modifies `standing, `lease, `clock
      ensures View() == NodeSpec.ResetToFollower(old(View()), t, now, r)
    {
      standing := Standing(t, None, Follower, 0);
      lease := lease.(renew := false, holder := false);
      ScheduleElection(t, now, r);
    }

    method PromoteToLeader()
      modifies `standing, `clock, `log
      ensures View() == NodeSpec.PromoteToLeader(old(View()))
    {
      standing := standing.(role := Leader, votes := 0);
      clock := clock.(timer := Idle);
      log := log + [Entry(standing.term, NoOp)];
    }

    // ---------------------------------------------------------------- elections

    /** The server is not part of the configuration, and that configuration is committed. */
    ghost predicate Removed()
      reads `tracking
    {
      tracking.commit >= configId && me !in members
    }

    /**
     The election timer fires; the result says whether vote requests go out. A server that has
     been removed from the cluster only rearms its timer.
     */
    method ElectionCallback(now: int, r: nat) returns (requested: bool)
      modifies `clock, `standing, `log
      ensures View() ==
        if StartsElection(old(View())) && Removed() then NodeSpec.ScheduleElection(old(View()), standing.term, now, r)
        else NodeSpec.ElectionCallback(old(View()), me, members, now, r)
      ensures requested == (StartsElection(old(View())) && !Removed() && !(|members| == 1 && me in members))
    {
      var bound := clock.timer;
      clock := clock.(timer := Idle);
      if bound == Idle || (standing.role != Candidate && standing.role != Follower) {
        return false;
      }
      if standing.term != bound.term {
        return false;
      }
      if tracking.commit >= configId && me !in members {
        ScheduleElection(bound.term, now, r);
        return false;
      }
      standing := Standing(standing.term + 1, Some(me), Candidate, 1);
      if |members| == 1 && me in members {
        PromoteToLeader();
        return false;
      }
      ScheduleElection(standing.term, now, r);
      requested := true;
    }

    method ProcessRequestVoteClientRequest(req: VoteRequest, now: int, r: nat) returns (reply: Option<VoteReply>)
      modifies `clock, `standing, `lease
      ensures var out := HandleVote(old(View()), req, now, r);
        if out.VoteCancelled? then reply == None && View() == old(View())
        else reply == Some(out.reply) && View() == out.node
    {
      if standing.role == Dead {
        return None;
      }
      if now <= clock.deadline || standing.role == Leader {
        return Some(VoteReply(standing.term, false));
      }
      if req.term > standing.term {
        ResetToFollower(req.term, now, r);
      }
      var lastIndex, lastTerm := |log| - 1, LastTerm(log);
      var granted := false;
      if && req.term == standing.term
         && (standing.vote == None || standing.vote == Some(req.candidate))
         && (req.lastTerm > lastTerm || (req.lastTerm == lastTerm && req.lastIndex >= lastIndex))
      {
        granted := true;
        standing := standing.(vote := Some(req.candidate));
        ScheduleElection(req.term, now, r);
      }
      reply := Some(VoteReply(standing.term, granted));
    }

    method ProcessRequestVoteServerResponse(req: VoteRequest, reply: VoteReply, now: int, r: nat)
      modifies `clock, `standing, `lease, `log
      ensures View() == HandleVoteReply(old(View()), members, req, reply, now, r)
    {
      if standing.role != Candidate {
        return;
      }
      if reply.term > req.term {
        ResetToFollower(reply.term, now, r);
        return;
      }
      if reply.term == req.term && reply.granted {
        standing := standing.(votes := standing.votes + 1);
        if standing.votes * 2 > |members| {
          PromoteToLeader();
        }
      }
    }

    // ---------------------------------------------------------------- commitment by the leader

    /** The inner loop of `UpdateCommitIndex`: which servers hold the entry at `i`. */
    method CountMatches(i: int) returns (peers: set<Addr>)
      ensures peers == MatchPeers(View(), me, members, i)
    {
      peers := {me};
      var rest := members;
      while rest != {}
        invariant rest <= members && peers == Reached(tracking.matched, me, members - rest, i)
        decreases rest
      {
        var p :| p in rest;
        ReachedGrows(tracking.matched, me, members - rest, i, p);
        if Lookup(tracking.matched, p) >= i {
          peers := peers + {p};
        }
        assert members - (rest - {p}) == (members - rest) + {p};
        rest := rest - {p};
      }
      assert members - rest == members;
    }

    /** The loop that reads the committed entries not applied yet, or fails outside the log. */
    method ReadBacklog(target: int) returns (unapplied: Option<seq<Entry>>)
      ensures unapplied == None <==> machine.lastApplied < target && (target >= |log| || machine.lastApplied < -1)
      ensures unapplied.Some? ==> unapplied.value == Backlog(log, machine.lastApplied, target)
    {
      var read, found := machine.lastApplied, [];
      while read < target
        invariant machine.lastApplied <= read && (read <= target || read == machine.lastApplied)
        invariant read > machine.lastApplied ==> machine.lastApplied >= -1 && read < |log|
        invariant found == if read > machine.lastApplied then log[machine.lastApplied + 1..read + 1] else []
      {
        read := read + 1;
        if read < 0 || read >= |log| {
          return None;
        }
        found := found + [log[read]];
      }
      unapplied := Some(found);
    }

    /** The outer loop of `UpdateCommitIndex`: the last index that a majority holds, if any. */
    method FindTarget() returns (target: int)
      requires 0 <= tracking.commit + 1 <= |log|
      ensures target == CommitTarget(View(), me, members, |log|)
    {
      target := tracking.commit;
      for i := tracking.commit + 1 to |log|
        invariant target == CommitTarget(View(), me, members, i)
      {
        if log[i].term == standing.term {
          var peers := CountMatches(i);
          if |peers| * 2 > |members| {
            target := i;
          }
        }
      }
    }

    /** The leader's commit step; the result is false when it reads outside the log. */
    method UpdateCommitIndex() returns (ok: bool)
      modifies `tracking
      ensures ok ==> View() == NodeSpec.UpdateCommitIndex(old(View()), me, members)
      ensures CommitInRange(old(View())) ==> ok
    {
      var saved := tracking.commit;
      if saved + 1 > |log| || saved + 1 < 0 {
        return false;
      }
      var target := FindTarget();
      ok := true;
      if target != saved {
        tracking := tracking.(commit := target);
        var committed := ReadBacklog(target);
        ok := committed.Some?;
      }
    }

    // ---------------------------------------------------------------- replication, receiving

    /** The loop that skips entries the log already has and cuts the log where it disagrees. */
    method MergeEntries(insertAt: nat, entries: seq<Entry>)
      requires insertAt <= |log|
      modifies `log
      ensures log == Merge(old(log), insertAt, entries)
    {
      var at: nat, i: nat := insertAt, 0;
      while at < |log| && i < |entries|
        invariant at <= |log| && i <= |entries| && log == old(log)
        invariant Merge(log, at, entries[i..]) == Merge(old(log), insertAt, entries)
        decreases |entries| - i
      {
        assert entries[i..][1..] == entries[i + 1..];
        if log[at].term == entries[i].term {
          at, i := at + 1, i + 1;
        } else {
          log := log[..at];
          break;
        }
      }
      if i < |entries| {
        log := log + entries[i..];
      }
    }

    /** The loop that applies the entries it has read, under consecutive indices. */
    method ApplyEntries(index: int, entries: seq<Entry>) returns (ok: bool)
      requires Valid()
      modifies machine`store, machine`lastApplied, machine.sessions, machine.sessions.repr
      ensures Valid() && fresh(machine.sessions.repr - old(machine.sessions.repr))
      ensures ok == ApplyAll(old(machine.View()), index, entries).Done?
      ensures machine.View() == ApplyAll(old(machine.View()), index, entries).machine
    {
      ok := true;
      for i := 0 to |entries|
        invariant Valid() && fresh(machine.sessions.repr - old(machine.sessions.repr))
        invariant ApplyAll(machine.View(), index + i, entries[i..]) == ApplyAll(old(machine.View()), index, entries)
      {
        assert entries[i..][1..] == entries[i + 1..];
        ok := machine.ApplyCommand(index + i, entries[i]);
        if !ok {
          return;
        }
      }
    }

    /** Advances the commit index to the leader's and applies what that commits. */
    method CommitAndApply(leaderCommit: int, ghost t: nat, ghost now: int, ghost r: nat) returns (fault: Option<Fault>)
      requires Valid()
      modifies `tracking, machine`store, machine`lastApplied, machine.sessions, machine.sessions.repr
      ensures Valid() && fresh(machine.sessions.repr - old(machine.sessions.repr))
      ensures NodeSpec.CommitAndApply(old(View()), leaderCommit, now, r, t) ==
        if fault == None then AppendReplied(NodeSpec.Rearm(View(), t, now, r), AppendReply(standing.term, true))
        else AppendFaulted(View(), fault.value)
    {
      var saved := tracking.commit;
      var target := Min(leaderCommit, |log|);
      tracking := tracking.(commit := target);
      var unapplied := ReadBacklog(target);
      if unapplied == None {
        return Some(OutOfRange);
      }
      var ok := ApplyEntries(saved, unapplied.value);
      fault := if ok then None else Some(DuplicateSession);
    }

    method Rearm(t: nat, now: int, r: nat)
      modifies `clock
      ensures View() == NodeSpec.Rearm(old(View()), t, now, r)
    {
      ScheduleElection(t, now, r);
      clock := clock.(deadline := now + clock.timeout);
    }

    /** The request's term is accepted: the server follows and restarts its election timer. */
    method AcceptTerm(req: AppendRequest, now: int, r: nat)
      modifies `standing, `lease, `clock
      ensures View() == NodeSpec.Accept(old(View()), req, now, r)
    {
      if req.term > standing.term {
        ResetToFollower(req.term, now, r);
      }
      if standing.role != Follower {
        ResetToFollower(req.term, now, r);
      } else {
        Rearm(req.term, now, r);
      }
    }

    /** What a request that matches the log does to it, up to the last rearming of the timer. */
    method Replicate(req: AppendRequest, now: int, r: nat) returns (answer: Answer)
      requires Valid() && req.prevIndex >= -1 && Matches(log, req)
      modifies `log, `tracking, `clock, machine`store, machine`lastApplied, machine.sessions, machine.sessions.repr
      ensures Valid() && fresh(machine.sessions.repr - old(machine.sessions.repr))
      ensures Ends(answer, Replicated(old(View()), req, now, r))
    {
      MergeEntries(req.prevIndex + 1, req.entries);
      assert View() == old(View()).(log := Merge(old(log), req.prevIndex + 1, req.entries));
      if req.leaderCommit > tracking.commit {
        var fault := CommitAndApply(req.leaderCommit, req.term, now, r);
        if fault.Some? {
          return Failed(fault.value);
        }
      }
      Rearm(req.term, now, r);
      answer := Replied(AppendReply(standing.term, true));
    }

    /** The answer and the new state are those of an outcome. */
    ghost predicate Ends(answer: Answer, out: AppendOutcome)
      reads this, machine, machine.sessions
    {
      match out
      case AppendReplied(n, reply) => answer == Replied(reply) && View() == n
      case AppendCancelled => answer == Cancelled
      case AppendFaulted(n, fault) => answer == Failed(fault) && View() == n
    }

    /** The handling of a request whose term has been accepted. */
    method Follow(req: AppendRequest, now: int, r: nat) returns (answer: Answer)
      requires Valid()
      modifies `log, `tracking, `clock, machine`store, machine`lastApplied, machine.sessions, machine.sessions.repr
      ensures Valid() && fresh(machine.sessions.repr - old(machine.sessions.repr))
      ensures Ends(answer, Followed(old(View()), req, now, r))
    {
      if req.prevIndex < -1 {
        return Failed(OutOfRange);
      }
      if req.prevIndex == -1 || (req.prevIndex < |log| && req.prevTerm == log[req.prevIndex].term) {
        answer := Replicate(req, now, r);
      } else {
        Rearm(req.term, now, r);
        answer := Replied(AppendReply(standing.term, false));
      }
    }

    method ProcessAppendEntriesClientRequest(req: AppendRequest, now: int, r: nat) returns (answer: Answer)
      requires Valid()
      modifies this, machine`store, machine`lastApplied, machine.sessions, machine.sessions.repr
      ensures Valid() && fresh(machine.sessions.repr - old(machine.sessions.repr))
      ensures Ends(answer, HandleAppend(old(View()), req, now, r))
      ensures answer == Cancelled ==> View() == old(View())
    {
      if standing.role == Dead {
        return Cancelled;
      }
      if req.term < standing.term {
        Rearm(req.term, now, r);
        return Replied(AppendReply(standing.term, false));
      }
      HandleAppendIs(View(), req, now, r);
      AcceptTerm(req, now, r);
      answer := Follow(req, now, r);
    }

    // ---------------------------------------------------------------- replication, replies

    method RenewLease(peer: Addr)
      modifies `lease
      ensures View() == NodeSpec.RenewLease(old(View()), peer, members)
    {
      lease := lease.(responding := lease.responding + {peer});
      if lease.renew && |lease.responding| * 2 > |members| {
        lease := lease.(until := lease.heartbeatAt + LEADER_LEASE_TIMEOUT, holder := true, renew := false);
      }
    }

    /** A peer has accepted `count` more entries. */
    method RecordSuccess(peer: Addr, count: nat) returns (ok: bool)
      modifies `lease, `tracking
      ensures ok ==>
        var k := NodeSpec.RenewLease(old(View()), peer, members); var at := Lookup(k.next, peer) + count;
        var k' := k.(next := k.next[peer := at], matched := k.matched[peer := at - 1]);
        View() == NodeSpec.UpdateCommitIndex(k', me, members)
      ensures CommitInRange(old(View())) ==> ok
    {
      var at := Lookup(tracking.next, peer) + count;
      RenewLease(peer);
      tracking := tracking.(next := tracking.next[peer := at], matched := tracking.matched[peer := at - 1]);
      ok := UpdateCommitIndex();
    }

    /** The reply of a peer; the result is false when the commit loop reads outside the log. */
    method ProcessAppendEntriesServerResponse(req: AppendRequest, reply: AppendReply, peer: Addr, now: int, r: nat)
      returns (ok: bool)
      modifies this
      ensures ok ==> View() == HandleAppendReply(old(View()), me, members, peer, req, reply, now, r)
      ensures CommitInRange(old(View())) ==> ok
    {
      ok := true;
      if reply.term > req.term {
        ResetToFollower(reply.term, now, r);
      }
      if standing.role == Leader && reply.term == standing.term {
        if reply.success {
          ok := RecordSuccess(peer, |req.entries|);
        } else {
          tracking := tracking.(next := tracking.next[peer := Lookup(tracking.next, peer) - 1]);
        }
      }
    }

    // ---------------------------------------------------------------- replication, sending

    /** The requests are those of one heartbeat: one to every peer, built from its next index. */
    ghost predicate Sends(requests: map<Addr, AppendRequest>, n: Node) {
      && requests.Keys == members - {me}
      && (forall p :: p in requests ==> requests[p] == BuildAppendRequest(n, me, p))
    }

    /** The heartbeat's loop: one request per peer, or none when a read is outside the log. */
    method BuildRequests() returns (requests: Option<map<Addr, AppendRequest>>)
      ensures requests.Some? <==> HeartbeatInRange(View(), me, members)
      ensures requests.Some? ==> Sends(requests.value, View())
    {
      var built := map[];
      var rest := members - {me};
      while rest != {}
        invariant rest <= members - {me} && built.Keys == (members - {me}) - rest
        invariant forall p :: p in built ==> 0 <= Lookup(tracking.next, p) <= |log|
        invariant forall p :: p in built ==> built[p] == BuildAppendRequest(View(), me, p)
        decreases rest
      {
        var p :| p in rest;
        var at := Lookup(tracking.next, p);
        if at < 0 || at > |log| {
          return None;
        }
        var prevTerm := if at - 1 >= 0 then log[at - 1].term else -1;
        built := built[p := AppendRequest(standing.term, me, at - 1, prevTerm, log[at..], tracking.commit)];
        rest := rest - {p};
      }
      requests := Some(built);
    }

    /** A heartbeat: the requests it sends, and whether every read was inside the log. */
    method HeartbeatCallback(now: int) returns (requests: map<Addr, AppendRequest>, ok: bool)
      modifies `lease, `tracking
      ensures ok ==> View() == NodeSpec.HeartbeatCallback(old(View()), me, members, now)
      ensures HeartbeatInRange(old(View()), me, members) && CommitInRange(old(View())) ==> ok
      ensures ok && standing.role == Leader ==> Sends(requests, old(View()))
    {
      requests, ok := map[], true;
      if standing.role != Leader {
        return;
      }
      lease := lease.(heartbeatAt := now, renew := true, responding := {me});
      var built := BuildRequests();
      if built == None {
        return requests, false;
      }
      requests := built.value;
      if |members| == 1 && me in members {
        ok := UpdateCommitIndex();
      }
    }

    // ---------------------------------------------------------------- clients

    /** The first half of a client request: its entry goes into the leader's log. */
    method AppendForClient(op: Op) returns (index: Option<int>)
      modifies `log
      ensures index == if standing.role == Leader then Some(|old(log)|) else None
      ensures View() == if standing.role == Leader then ClientAppend(old(View()), op) else old(View())
    {
      if standing.role != Leader {
        return None;
      }
      index := Some(|log|);
      log := log + [Entry(standing.term, op)];
    }

    /** The second half of a registration, once its entry is committed or the term has changed. */
    method CompleteRegisterClient(savedTerm: nat, index: int) returns (result: Option<CP.Result>)
      requires Valid()
      modifies machine`store, machine`lastApplied, machine.sessions, machine.sessions.repr
      ensures Valid() && fresh(machine.sessions.repr - old(machine.sessions.repr))
      ensures standing.term != savedTerm ==> result == None && machine.View() == Step(old(machine.View()))
      ensures standing.term == savedTerm ==> result == Some(CP.ResultOf(old(machine.View()), index, CP.Opening))
      ensures standing.term == savedTerm ==> machine.View() == CP.Complete(old(machine.View()), index, CP.Opening)
    {
      if standing.term != savedTerm {
        machine.IncrementLastApplied();
        return None;
      }
      var ok := machine.ApplyCommand(index, Entry(savedTerm, RegisterClient));
      result := Some(if ok then CP.Opened else CP.Failed);
    }

    /** The second half of a write, once its entry is committed or the term has changed. */
    method CompleteClientRequest(savedTerm: nat, index: int, client: int, sequence: int, command: string)
      returns (result: Option<CP.Result>)
      requires Valid()
      modifies machine`store, machine`lastApplied, machine.sessions, machine.sessions.repr
      ensures Valid() && fresh(machine.sessions.repr - old(machine.sessions.repr))
      ensures standing.term != savedTerm ==> result == None && machine.View() == Step(old(machine.View()))
      ensures standing.term == savedTerm ==>
        var w, m := CP.Writing(client, sequence, command), old(machine.View());
        result == Some(CP.ResultOf(m, index, w)) && machine.View() == CP.Complete(m, index, w)
    {
      if standing.term != savedTerm {
        machine.IncrementLastApplied();
        return None;
      }
      result := machine.CompleteWrite(index, client, sequence, command);
    }
  }
}
