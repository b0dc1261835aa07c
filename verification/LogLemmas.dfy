/** Facts about logs that do not depend on how a step changes the cluster. */
module LogLemmas {
  import opened Types
  import opened NodeSpec
  import opened Cluster
  import opened Invariants
  import opened Quorum

  /** Log matching: logs that agree on a term at an index agree up to that index. */
  lemma LogsMatch(logs: map<nat, seq<Entry>>, l: seq<Entry>, m: seq<Entry>, k: nat)
    requires Grounded(logs, l) && Grounded(logs, m)
    requires k < |l| && k < |m| && l[k].term == m[k].term
    ensures Same(l, m, k + 1)
  {
  }

  lemma PrefixGrounded(logs: map<nat, seq<Entry>>, l: seq<Entry>, m: seq<Entry>)
    requires Grounded(logs, m) && Same(l, m, |l|)
    ensures Grounded(logs, l)
  {
  }

  /** What the follower's merge of a stretch of a leader log does to a grounded log. */
  lemma {:induction false} MergeFollows(logs: map<nat, seq<Entry>>, l: seq<Entry>, leader: seq<Entry>,
                                        at: nat, entries: seq<Entry>)
    requires Grounded(logs, l) && Grounded(logs, leader)
    requires at <= |l| && at + |entries| <= |leader|
    requires Same(l, leader, at) && entries == leader[at..at + |entries|]
    ensures var m := Merge(l, at, entries);
      && Same(m, leader, at + |entries|)
      && (m == l || |m| == at + |entries|)
      && forall n :: Same(l, leader, n) ==> Same(m, l, n)
    decreases |entries|
  {
    if entries != [] && at < |l| && l[at].term == entries[0].term {
      assert entries[0] == leader[at];
      LogsMatch(logs, l, leader, at);
      assert entries[1..] == leader[at + 1..at + |entries|];
      MergeFollows(logs, l, leader, at + 1, entries[1..]);
    }
  }

  /** A log that is ahead of one holding an entry of term `t` either holds it or was written later. */
  lemma AheadHolds(logs: map<nat, seq<Entry>>, c: seq<Entry>, v: seq<Entry>, t: nat, k: nat)
    requires LogsGrounded(logs) && Grounded(logs, c) && Grounded(logs, v)
    requires t in logs && k < |logs[t]| && logs[t][k].term == t
    requires Same(v, logs[t], k + 1) && LogAhead(c, v)
    ensures c != [] && (Same(c, logs[t], k + 1) || LastTerm(c) > t)
  {
  }

  ghost predicate CanElect(s: State) {
    && LogsGrounded(s.past.logs) && BallotLogs(s) && LeaderLogs(s) && Bases(s)
    && QuorumsStick(s) && WinnersAhead(s) && BallotsKeep(s)
  }

  /**
   Leader completeness: an entry committed in term `t` is in the log of the leader of every
   later term `u`.
   */
  lemma {:induction false} LeaderCompleteness(s: State, t: nat, k: nat, u: nat)
    requires CanElect(s)
    requires Committed(s, t, k) && u in s.past.elected && t < u
    ensures u in s.past.logs && Same(s.past.logs[u], s.past.logs[t], k + 1)
    decreases u
  {
    var e := s.past.elected[u];
    assert QuorumSticks(s, u, e);
    var w := MajoritiesMeet(Ackers(s, t, k), e.quorum, s.members);
    assert Sticks(s, u, e.leader, w);
    var v := s.past.ballots[At(w, u)].log;
    assert BallotKeeps(s.past, At(w, u), t, k + 1) by {
      assert BallotMatters(s, At(w, u)) && At(w, t) in s.past.acks;
    }
    if Overruled(s.past, t, k + 1, u - 1) {
      var x :| x in s.past.elected && x in s.past.logs && t < x <= u - 1
        && !Same(s.past.logs[x], s.past.logs[t], k + 1);
      LeaderCompleteness(s, t, k, x);
      assert false;
    }
    WinnerHolds(s, t, k, u, w);
  }

  lemma {:induction false} WinnerHolds(s: State, t: nat, k: nat, u: nat, w: Addr)
    requires CanElect(s)
    requires Committed(s, t, k) && u in s.past.elected && t < u && w in s.past.elected[u].quorum
    requires At(w, u) in s.past.ballots && Same(s.past.ballots[At(w, u)].log, s.past.logs[t], k + 1)
    ensures u in s.past.logs && Same(s.past.logs[u], s.past.logs[t], k + 1)
    decreases u, 0
  {
    var base := s.past.elected[u].base;
    var v := s.past.ballots[At(w, u)].log;
    assert Extends(base, s.past.logs[u], u);
    PrefixGrounded(s.past.logs, base, s.past.logs[u]);
    AheadHolds(s.past.logs, base, v, t, k);
    if !Same(base, s.past.logs[t], k + 1) {
      var x := base[|base| - 1].term;
      assert t < x < u;
      LeaderCompleteness(s, t, k, x);
    }
  }

  /** Every committed entry is in the log of every later leader. */
  ghost predicate Complete(s: State) {
    forall t: nat, k: nat, u: nat :: Committed(s, t, k) && u in s.past.elected && t < u ==>
      u in s.past.logs && Same(s.past.logs[u], s.past.logs[t], k + 1)
  }

  lemma AllComplete(s: State)
    requires CanElect(s)
    ensures Complete(s)
  {
    forall t: nat, k: nat, u: nat | Committed(s, t, k) && u in s.past.elected && t < u
      ensures u in s.past.logs && Same(s.past.logs[u], s.past.logs[t], k + 1)
    {
      LeaderCompleteness(s, t, k, u);
    }
  }
}
