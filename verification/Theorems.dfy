/** What holds of every run of the cluster, in terms of the servers alone. */
module Theorems {
  import opened Types
  import opened NodeSpec
  import opened Cluster
  import opened Invariants
  import opened LogLemmas
  import opened LogProofs
  import opened ReplicationProofs
  import opened LeaseProofs
  import opened ReplayProofs
  import opened Steps
  import opened Safety

  ghost predicate Leads(s: State, i: Addr) {
    i in s.nodes && s.nodes[i].role == Leader
  }

  /** The server has been a leader in no state of the run up to `k`. */
  ghost predicate NeverLeads(b: seq<State>, k: nat, i: Addr) {
    k < |b| && forall m :: 0 <= m <= k ==> !Leads(b[m], i)
  }

  // ---------------------------------------------------------------- elections

  lemma OneWinner(a: State, b: State, p: Addr, q: Addr)
    requires Leaders(a) && Leaders(b) && Grows(a, b)
    requires Leads(a, p) && Leads(b, q) && a.nodes[p].term == b.nodes[q].term
    ensures p == q
  {
  }

  /** Election safety: over a whole run, a term never has two different leaders. */
  lemma ElectionSafety(b: seq<State>, j: nat, k: nat, p: Addr, q: Addr)
    requires Run(b) && j < |b| && k < |b|
    requires Leads(b[j], p) && Leads(b[k], q) && b[j].nodes[p].term == b[k].nodes[q].term
    ensures p == q
  {
    RunKeeps(b, j);
    RunKeeps(b, k);
    if j <= k {
      RunPermanent(b, j, k);
      OneWinner(b[j], b[k], p, q);
    } else {
      RunPermanent(b, k, j);
      OneWinner(b[k], b[j], q, p);
    }
  }

  /**
   A candidate's vote counter is the number of distinct members whose vote it has counted, and
   each of them cast its first vote of the term for the candidate, unless the term was won without it.
   */
  lemma VotesAreVoters(b: seq<State>, k: nat, c: Addr)
    requires Run(b) && k < |b| && c in b[k].nodes && b[k].nodes[c].role == Candidate && b[k].nodes[c].term >= 1
    ensures c in b[k].past.counted && b[k].past.counted[c] <= b[k].members
    ensures b[k].nodes[c].votes == |b[k].past.counted[c]|
    ensures forall v :: v in b[k].past.counted[c] ==> VoteFor(b[k], v, c, b[k].nodes[c].term)
  {
    RunKeeps(b, k);
    assert Running(b[k], c);
  }

  // ---------------------------------------------------------------- logs

  /** Log matching, even between logs of different moments of a run. */
  lemma LogMatching(b: seq<State>, j: nat, k: nat, p: Addr, q: Addr, i: nat)
    requires Run(b) && j <= k < |b| && p in b[j].nodes && q in b[k].nodes
    requires i < |b[j].nodes[p].log| && i < |b[k].nodes[q].log|
    requires b[j].nodes[p].log[i].term == b[k].nodes[q].log[i].term
    ensures Same(b[j].nodes[p].log, b[k].nodes[q].log, i + 1)
  {
    RunKeeps(b, j);
    RunKeeps(b, k);
    RunPermanent(b, j, k);
    GroundedGrows(b[j].past, b[k].past, b[j].nodes[p].log);
    LogsMatch(b[k].past.logs, b[j].nodes[p].log, b[k].nodes[q].log, i);
  }

  lemma CommitKept(a: State, b: State, p: Addr)
    requires Grows(a, b) && NodesSafe(a) && p in a.nodes
    ensures Safe(b, a.nodes[p].log, a.nodes[p].commit, a.nodes[p].term)
  {
    SafeGrows(a, b, a.nodes[p].log, a.nodes[p].log, a.nodes[p].commit, a.nodes[p].term, a.nodes[p].term);
  }

  lemma LeaderHasCommit(a: State, b: State, p: Addr, q: Addr)
    requires Grows(a, b) && NodesSafe(a) && p in a.nodes && Leads(b, q) && a.nodes[p].term <= b.nodes[q].term
    requires Leaders(b) && LeaderLogs(b) && Complete(b)
    ensures Same(a.nodes[p].log, b.nodes[q].log, a.nodes[p].commit + 1)
  {
    CommitKept(a, b, p);
    assert LeaderLog(b, b.nodes[q].term, q);
    CommitInLeader(b, a.nodes[p].log, a.nodes[p].commit, a.nodes[p].term, b.nodes[q].term);
  }

  /**
   Leader completeness: whatever a server has committed is in the log of every leader of that
   server's term or a later one, from then on.
   */
  lemma CommittedReachLeaders(b: seq<State>, j: nat, k: nat, p: Addr, q: Addr)
    requires Run(b) && j <= k < |b| && p in b[j].nodes && Leads(b[k], q)
    requires b[j].nodes[p].term <= b[k].nodes[q].term
    ensures Same(b[j].nodes[p].log, b[k].nodes[q].log, b[j].nodes[p].commit + 1)
  {
    RunKeeps(b, j);
    RunKeeps(b, k);
    InvComplete(b[k]);
    RunPermanent(b, j, k);
    LeaderHasCommit(b[j], b[k], p, q);
  }

  lemma CommitsAgree(a: State, b: State, p: Addr, q: Addr, i: nat)
    requires Grows(a, b) && NodesSafe(a) && NodesSafe(b) && Complete(b) && p in a.nodes && q in b.nodes
    requires i <= a.nodes[p].commit && i <= b.nodes[q].commit
    ensures i < |a.nodes[p].log| && i < |b.nodes[q].log| && a.nodes[p].log[i] == b.nodes[q].log[i]
  {
    CommitKept(a, b, p);
    var l, m := a.nodes[p], b.nodes[q];
    var t, x := SafeWitness(b, l.log, l.commit, l.term, i);
    var u, y := SafeWitness(b, m.log, m.commit, m.term, i);
    if t <= u {
      EntriesAgree(b, l.log, m.log, i, t, x, u);
    } else {
      EntriesAgree(b, m.log, l.log, i, u, y, t);
    }
  }

  /** State machine safety: no two servers ever commit different entries at an index. */
  lemma StateMachineSafety(b: seq<State>, j: nat, k: nat, p: Addr, q: Addr, i: nat)
    requires Run(b) && j <= k < |b| && p in b[j].nodes && q in b[k].nodes
    requires i <= b[j].nodes[p].commit && i <= b[k].nodes[q].commit
    ensures i < |b[j].nodes[p].log| && i < |b[k].nodes[q].log|
    ensures b[j].nodes[p].log[i] == b[k].nodes[q].log[i]
  {
    RunKeeps(b, j);
    RunKeeps(b, k);
    InvComplete(b[k]);
    RunPermanent(b, j, k);
    CommitsAgree(b[j], b[k], p, q, i);
  }

  /** Terms and commit indices never decrease, and no truncation reaches a committed entry. */
  lemma CommitsAreForever(b: seq<State>, j: nat, k: nat, p: Addr)
    requires Run(b) && j <= k < |b| && p in b[j].nodes
    ensures p in b[k].nodes && b[j].nodes[p].term <= b[k].nodes[p].term && b[j].nodes[p].commit <= b[k].nodes[p].commit
    ensures Same(b[j].nodes[p].log, b[k].nodes[p].log, b[j].nodes[p].commit + 1)
  {
    RunPermanent(b, j, k);
  }

  // ---------------------------------------------------------------- replication

  lemma PeerMatches(s: State, i: Addr, p: Addr)
    requires Leads(s, i) && p in s.members && p in s.nodes && p != i && s.nodes[p].term == s.nodes[i].term
    requires MatchSound(s) && NodesKeep(s) && Leaders(s) && LeaderLogs(s)
    ensures p in s.nodes[i].next && p in s.nodes[i].matched && s.nodes[i].next[p] == s.nodes[i].matched[p] + 1
    ensures Same(s.nodes[p].log, s.nodes[i].log, s.nodes[i].matched[p] + 1)
  {
    var n := s.nodes[i];
    assert Progress(s, i, p);
    assert LeaderLog(s, n.term, i);
    if n.next[p] > 0 {
      assert At(p, n.term) in s.past.acks;
      assert Kept(s.past, s.nodes[p].log, n.term, n.next[p], s.nodes[p].term);
    }
  }

  /**
   Match indices are sound: a peer still in the leader's term agrees with the leader up to the
   match index, which is always one below the next index.
   */
  lemma MatchIndexSound(b: seq<State>, k: nat, i: Addr, p: Addr)
    requires Run(b) && k < |b| && Leads(b[k], i) && p in b[k].members && p != i
    requires p in b[k].nodes && b[k].nodes[p].term == b[k].nodes[i].term
    ensures p in b[k].nodes[i].next && p in b[k].nodes[i].matched
    ensures b[k].nodes[i].next[p] == b[k].nodes[i].matched[p] + 1
    ensures Same(b[k].nodes[p].log, b[k].nodes[i].log, b[k].nodes[i].matched[p] + 1)
  {
    RunKeeps(b, k);
    PeerMatches(b[k], i, p);
  }

  lemma IsSlice(entries: seq<Entry>, leader: seq<Entry>, at: nat)
    requires at + |entries| <= |leader| && forall k :: 0 <= k < |entries| ==> entries[k] == leader[at + k]
    ensures entries == leader[at..at + |entries|]
  {
  }

  lemma {:induction false} MergeNothingNew(log: seq<Entry>, leader: seq<Entry>, at: nat, entries: seq<Entry>)
    requires at + |entries| <= |leader| && Same(log, leader, at + |entries|)
    requires entries == leader[at..at + |entries|]
    ensures Merge(log, at, entries) == log
    decreases |entries|
  {
    if entries != [] {
      assert entries[0] == leader[at];
      assert entries[1..] == leader[at + 1..at + |entries|];
      MergeNothingNew(log, leader, at + 1, entries[1..]);
    }
  }

  /** The receiver, still in the request's term, has already accepted all that the request carries. */
  ghost predicate AlreadyAccepted(s: State, id: CallId) {
    && id in s.appendCalls && id.dst in s.nodes && s.nodes[id.dst].term == s.appendCalls[id].term
    && At(id.dst, s.appendCalls[id].term) in s.past.acks
    && s.appendCalls[id].prevIndex + 1 + |s.appendCalls[id].entries| <= s.past.acks[At(id.dst, s.appendCalls[id].term)]
  }

  /** Merging the request into the log would leave the log as it is. */
  ghost predicate Harmless(log: seq<Entry>, req: AppendRequest) {
    Matches(log, req) && -1 <= req.prevIndex && Merge(log, req.prevIndex + 1, req.entries) == log
  }

  lemma AcceptedHarmless(s: State, id: CallId)
    requires CallsFit(s) && NodesKeep(s) && AckBounds(s) && AlreadyAccepted(s, id)
    ensures Harmless(s.nodes[id.dst].log, s.appendCalls[id])
  {
    var req := s.appendCalls[id];
    var log, leader, e := s.nodes[id.dst].log, s.past.logs[req.term], req.prevIndex + 1 + |req.entries|;
    assert Stretch(s.past, id, req);
    RequestMatches(s, id);
    assert Kept(s.past, log, req.term, e, s.nodes[id.dst].term);
    IsSlice(req.entries, leader, req.prevIndex + 1);
    MergeNothingNew(log, leader, req.prevIndex + 1, req.entries);
  }

  /** A late request whose entries a peer has already accepted in this term changes no log. */
  lemma LateRequestHarmless(b: seq<State>, k: nat, id: CallId)
    requires Run(b) && k < |b| && AlreadyAccepted(b[k], id)
    ensures Harmless(b[k].nodes[id.dst].log, b[k].appendCalls[id])
  {
    RunKeeps(b, k);
    AcceptedHarmless(b[k], id);
  }

  /** A log that holds an entry of the latest term it can hold is a prefix of that leader's log. */
  lemma OwnTermPrefix(logs: map<nat, seq<Entry>>, log: seq<Entry>, t: nat, k: nat)
    requires LogsGrounded(logs) && Grounded(logs, log) && TermsUpTo(log, t) && k < |log| && log[k].term == t
    ensures t in logs && Same(log, logs[t], |log|)
  {
    var last := |log| - 1;
    var u := log[last].term;
    assert Same(log, logs[u], last + 1) && TermsUpTo(logs[u], u);
    assert logs[u][k].term == t;
  }

  lemma {:induction false} MergeExtends(log: seq<Entry>, leader: seq<Entry>, at: nat, entries: seq<Entry>)
    requires at <= |log| && Same(log, leader, |log|)
    requires at + |entries| <= |leader| && entries == leader[at..at + |entries|]
    ensures Same(log, Merge(log, at, entries), |log|)
    decreases |entries|
  {
    if entries != [] && at < |log| {
      assert entries[0] == leader[at] == log[at];
      assert entries[1..] == leader[at + 1..at + |entries|];
      MergeExtends(log, leader, at + 1, entries[1..]);
    }
  }

  /** Merging the request into the log would keep the whole log. */
  ghost predicate KeepsLog(log: seq<Entry>, req: AppendRequest) {
    && Matches(log, req) && -1 <= req.prevIndex
    && Same(log, Merge(log, req.prevIndex + 1, req.entries), |log|)
  }

  /** The request is of the receiver's own term, in which the receiver has taken an entry before. */
  ghost predicate Late(s: State, id: CallId, k: nat) {
    && id in s.appendCalls && id.dst in s.nodes && s.nodes[id.dst].term == s.appendCalls[id].term
    && k < |s.nodes[id.dst].log| && s.nodes[id.dst].log[k].term == s.appendCalls[id].term
  }

  lemma StretchExtends(h: History, log: seq<Entry>, id: CallId, req: AppendRequest)
    requires Stretch(h, id, req) && Matches(log, req) && Same(log, h.logs[req.term], |log|)
    ensures KeepsLog(log, req)
  {
    IsSlice(req.entries, h.logs[req.term], req.prevIndex + 1);
    MergeExtends(log, h.logs[req.term], req.prevIndex + 1, req.entries);
  }

  lemma LateExtends(s: State, id: CallId, k: nat)
    requires Late(s, id, k) && CallsFit(s) && AckBounds(s) && NodesKeep(s) && LogsGrounded(s.past.logs) && NodeLogs(s)
    ensures KeepsLog(s.nodes[id.dst].log, s.appendCalls[id])
  {
    var log, req := s.nodes[id.dst].log, s.appendCalls[id];
    assert Stretch(s.past, id, req);
    RequestMatches(s, id);
    OwnTermPrefix(s.past.logs, log, req.term, k);
    StretchExtends(s.past, log, id, req);
  }

  /**
   A late request never shortens a log: once a peer has taken an entry from the leader of its
   term, every request of that leader still in flight, in whatever order, leaves all it has.
   */
  lemma LateRequestNeverShortens(b: seq<State>, m: nat, id: CallId, k: nat)
    requires Run(b) && m < |b| && Late(b[m], id, k)
    ensures KeepsLog(b[m].nodes[id.dst].log, b[m].appendCalls[id])
  {
    RunKeeps(b, m);
    LateExtends(b[m], id, k);
  }

  // ---------------------------------------------------------------- no exceptions

  lemma LeaderReads(s: State, i: Addr)
    requires Leads(s, i) && Shape(s) && Leaders(s) && LeaderLogs(s)
    requires AckBounds(s) && MatchSound(s) && NodesSafe(s) && Applied(s)
    ensures HeartbeatInRange(s.nodes[i], i, s.members) && CommitInRange(s.nodes[i])
  {
    var n := s.nodes[i];
    assert LeaderLog(s, n.term, i);
    assert Safe(s, n.log, n.commit, n.term);
    forall p | p in s.members && p != i ensures 0 <= Lookup(n.next, p) <= |n.log| {
      assert Progress(s, i, p);
    }
  }

  /** Every log position a leader reads for its heartbeats and its commit loop exists. */
  lemma LeaderReadsInRange(b: seq<State>, k: nat, i: Addr)
    requires Run(b) && k < |b| && Leads(b[k], i)
    ensures HeartbeatInRange(b[k].nodes[i], i, b[k].members) && CommitInRange(b[k].nodes[i])
  {
    RunKeeps(b, k);
    LeaderReads(b[k], i);
  }

  lemma FollowerReads(s: State, id: CallId, r: nat)
    requires AppendEnabled(s, id, r) && Complete(s)
    requires CallsFit(s) && CallsSafe(s) && AckInv(s) && LogInv(s) && ReplayInv(s) && NodesSafe(s)
    ensures var out := HandleAppend(s.nodes[id.dst], s.appendCalls[id], s.now, r);
      out.AppendFaulted? ==> out.fault == DuplicateSession && id.dst in s.past.led
  {
    var n, req := s.nodes[id.dst], s.appendCalls[id];
    if n.role != Dead && n.term <= req.term {
      assert Stretch(s.past, id, req);
      AppendReady(s, id, r);
      var out := HandleAppend(n, req, s.now, r);
      if out.AppendFaulted? && id.dst !in s.past.led {
        CommittedStays(s, id, out.node.log);
        TookReplay(n, out.node, req, s.now);
      }
    }
  }

  /** Merging a call in flight keeps the committed prefix of the receiver. */
  lemma CommittedStays(s: State, id: CallId, merged: seq<Entry>)
    requires id in s.appendCalls && id.dst in s.nodes && s.nodes[id.dst].term <= s.appendCalls[id].term
    requires CallsFit(s) && AckBounds(s) && NodesKeep(s) && LogsGrounded(s.past.logs) && NodeLogs(s)
    requires NodesSafe(s) && Complete(s)
    requires Matches(s.nodes[id.dst].log, s.appendCalls[id]) && -1 <= s.appendCalls[id].prevIndex
    requires merged == Merge(s.nodes[id.dst].log, s.appendCalls[id].prevIndex + 1, s.appendCalls[id].entries)
    ensures -1 <= s.nodes[id.dst].commit < |s.nodes[id.dst].log|
    ensures Same(s.nodes[id.dst].log, merged, s.nodes[id.dst].commit + 1)
  {
    var n, t := s.nodes[id.dst], s.appendCalls[id].term;
    assert Links(s, id, t) && Stretch(s.past, id, s.appendCalls[id]);
    assert Safe(s, n.log, n.commit, n.term);
    CommitInLeader(s, n.log, n.commit, n.term, t);
    RequestMerges(s, id);
  }

  /** Merging a request in flight into its receiver's log would keep every committed entry. */
  ghost predicate Spares(n: Node, req: AppendRequest) {
    && Matches(n.log, req) && -1 <= req.prevIndex
    && Same(n.log, Merge(n.log, req.prevIndex + 1, req.entries), n.commit + 1)
  }

  lemma RequestSpares(s: State, id: CallId)
    requires id in s.appendCalls && id.dst in s.nodes && s.nodes[id.dst].term <= s.appendCalls[id].term
    requires CallsFit(s) && AckBounds(s) && NodesKeep(s) && LogsGrounded(s.past.logs) && NodeLogs(s)
    requires NodesSafe(s) && Complete(s)
    ensures Spares(s.nodes[id.dst], s.appendCalls[id])
  {
    assert Stretch(s.past, id, s.appendCalls[id]);
    RequestMatches(s, id);
    CommittedStays(s, id, Merge(s.nodes[id.dst].log, s.appendCalls[id].prevIndex + 1, s.appendCalls[id].entries));
  }

  /** Whatever a request in flight truncates lies strictly above its receiver's commit index. */
  lemma TruncationSparesCommitted(b: seq<State>, k: nat, id: CallId)
    requires Run(b) && k < |b| && id in b[k].appendCalls && id.dst in b[k].nodes
    requires b[k].nodes[id.dst].term <= b[k].appendCalls[id].term
    ensures Spares(b[k].nodes[id.dst], b[k].appendCalls[id])
  {
    RunKeeps(b, k);
    InvComplete(b[k]);
    RequestSpares(b[k], id);
  }

  /** Every server's commit index is inside its log, so the clamp never yields the log's size. */
  lemma CommitInsideLog(b: seq<State>, k: nat, i: Addr)
    requires Run(b) && k < |b| && i in b[k].nodes
    ensures -1 <= b[k].nodes[i].commit < |b[k].nodes[i].log|
  {
    RunKeeps(b, k);
    assert Safe(b[k], b[k].nodes[i].log, b[k].nodes[i].commit, b[k].nodes[i].term);
  }

  /**
   No append request in flight makes its receiver read outside its log. The only exception the
   handler can raise is a duplicate session id, and only on a server that has led; when it does is
   the subject of `DuplicateSessions`.
   */
  lemma AppendReadsInRange(b: seq<State>, k: nat, id: CallId, r: nat)
    requires Run(b) && k < |b| && AppendEnabled(b[k], id, r)
    ensures var out := HandleAppend(b[k].nodes[id.dst], b[k].appendCalls[id], b[k].now, r);
      out.AppendFaulted? ==> out.fault == DuplicateSession && !NeverLeads(b, k, id.dst)
  {
    if NeverLeads(b, k, id.dst) {
      LedHaveLed(b, k, id.dst);
    }
    RunKeeps(b, k);
    InvComplete(b[k]);
    FollowerReads(b[k], id, r);
  }

  // ---------------------------------------------------------------- leases

  /**
   At most one lease is unexpired at a time, and until its deadline no later term has a leader,
   even when the holder has stopped. A holder that steps down gives its lease up.
   */
  lemma LeaseExclusive(b: seq<State>, k: nat, i: Addr, j: Addr)
    requires Run(b) && k < |b| && HoldsLease(b[k], i)
    ensures Leads(b[k], j) ==> b[k].nodes[j].term <= b[k].nodes[i].term
    ensures HoldsLease(b[k], j) ==> i == j
  {
    RunKeeps(b, k);
    if Leads(b[k], j) {
      NoLaterLeader(b[k], i, b[k].nodes[j].term);
    }
    if HoldsLease(b[k], j) {
      OneLease(b[k], i, j);
    }
  }

  // ---------------------------------------------------------------- replay

  /** The state machine has applied exactly the committed prefix of the log. */
  ghost predicate CaughtUp(n: Node) {
    && -1 <= n.commit < |n.log| && n.machine.applied == n.commit
    && n.machine == Replay(n.log[..n.commit + 1])
    && n.machine.store == StoreOf(n.log[..n.commit + 1])
  }

  lemma ReplayedStore(s: State, i: Addr)
    requires NodesSafe(s) && ReplayInv(s) && i in s.nodes && i !in s.past.led
    ensures CaughtUp(s.nodes[i])
  {
    assert Safe(s, s.nodes[i].log, s.nodes[i].commit, s.nodes[i].term);
    ReplayState(s.nodes[i].log[..s.nodes[i].commit + 1]);
  }

  /**
   A server that has never led has applied exactly its committed entries: its store is the fold
   of their data commands.
   */
  lemma FollowerReplay(b: seq<State>, k: nat, i: Addr)
    requires Run(b) && NeverLeads(b, k, i) && i in b[k].nodes
    ensures CaughtUp(b[k].nodes[i])
  {
    LedHaveLed(b, k, i);
    RunKeeps(b, k);
    ReplayedStore(b[k], i);
  }

  /** Two servers that have never led and committed equally far have the same state machine. */
  lemma EqualReplicas(b: seq<State>, j: nat, k: nat, p: Addr, q: Addr)
    requires Run(b) && j <= k < |b| && p in b[j].nodes && q in b[k].nodes
    requires NeverLeads(b, j, p) && NeverLeads(b, k, q) && b[j].nodes[p].commit == b[k].nodes[q].commit
    ensures b[j].nodes[p].machine == b[k].nodes[q].machine
  {
    FollowerReplay(b, j, p);
    FollowerReplay(b, k, q);
    var l, m, c := b[j].nodes[p].log, b[k].nodes[q].log, b[j].nodes[p].commit;
    forall i | 0 <= i < c + 1 ensures l[i] == m[i] {
      StateMachineSafety(b, j, k, p, q, i);
    }
    assert l[..c + 1] == m[..c + 1];
  }
}
