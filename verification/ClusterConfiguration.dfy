/** The cluster's configurations as the log records them, and the quorum test over the current one. */
module ClusterConfiguration {
  import opened Types
  import opened OrderedMap
  import opened QuorumSpec

  // ---------------------------------------------------------------- the index of configurations

  /** An ordered map's insert leaves an entry that is already there. */
  function Insert(m: map<int, Config>, id: int, c: Config): map<int, Config> {
    if id in m then m else m[id := c]
  }

  /** Erasing from the upper bound of the removal index on keeps that index itself. */
  function Truncate(m: map<int, Config>, removal: int): map<int, Config> {
    map i | i in m && i <= removal :: m[i]
  }

  function ConfigOf(op: Op): Config
    requires op.Configuration?
  {
    Config(op.prev, op.next)
  }

  /** The index holds exactly the log's configuration entries. */
  ghost predicate Agrees(m: map<int, Config>, log: seq<Entry>) {
    && (forall i :: i in m <==> 0 <= i < |log| && log[i].op.Configuration?)
    && (forall i :: 0 <= i < |log| && log[i].op.Configuration? && i in m ==> m[i] == ConfigOf(log[i].op))
  }

  /** Appending keeps the index in agreement with the log. */
  lemma AppendAgrees(m: map<int, Config>, log: seq<Entry>, e: Entry)
    requires Agrees(m, log)
    ensures Agrees(if e.op.Configuration? then Insert(m, |log|, ConfigOf(e.op)) else m, log + [e])
  {
  }

  /**
   Truncating keeps the index in agreement exactly when the first removed entry is not a
   configuration: the index would keep that one.
   */
  lemma TruncateAgreesIff(m: map<int, Config>, log: seq<Entry>, k: nat)
    requires Agrees(m, log) && k < |log|
    ensures Agrees(Truncate(m, k), log[..k]) <==> !log[k].op.Configuration?
  {
    var t, short := Truncate(m, k), log[..k];
    if log[k].op.Configuration? {
      assert k in t && k >= |short|;
    } else {
      forall i ensures i in t <==> 0 <= i < |short| && short[i].op.Configuration? {
      }
      assert forall i :: i in t ==> t[i] == m[i];
    }
  }

  class ClusterConfiguration {
    var id: int
    var state: State
    var current: Config
    var addresses: set<Addr>
    var configurations: map<int, Config>

    constructor ()
      ensures id == -1 && state == Empty && current == Config([], []) && addresses == {} && configurations == map[]
    {
      id, state, current, addresses, configurations := -1, Empty, Config([], []), {}, map[];
    }

    /** The current configuration is the one with the greatest log index. */
    ghost predicate Settled()
      reads this
    {
      (exists i :: i in configurations) ==> IsLast(configurations, id) && Shows(configurations[id])
    }

    /** The state and the addresses are those of a configuration. */
    ghost predicate Shows(c: Config)
      reads this
    {
      && current == c && state == (if c.next == [] then Stable else Joint)
      && addresses == Members(c.prev) + Members(c.next)
    }

    method SetConfiguration(newId: int, c: Config)
      modifies this`id, this`state, this`current, this`addresses
      ensures id == newId && Shows(c)
    {
      state := if |c.next| == 0 then Stable else Joint;
      id := newId;
      current := c;
      addresses := {};
      for i := 0 to |c.prev|
        invariant id == newId && current == c && state == (if c.next == [] then Stable else Joint)
        invariant addresses == Members(c.prev[..i])
      {
        addresses := addresses + {c.prev[i]};
        assert c.prev[..i + 1] == c.prev[..i] + [c.prev[i]];
      }
      assert c.prev[..|c.prev|] == c.prev;
      for i := 0 to |c.next|
        invariant id == newId && current == c && state == (if c.next == [] then Stable else Joint)
        invariant addresses == Members(c.prev) + Members(c.next[..i])
      {
        addresses := addresses + {c.next[i]};
        assert c.next[..i + 1] == c.next[..i] + [c.next[i]];
      }
      assert c.next[..|c.next|] == c.next;
    }

    /**
     Records a configuration. The current one is again the last, unless the cluster was restored
     with this very index and nothing was recorded yet.
     */
    method InsertNewConfiguration(newId: int, c: Config)
      modifies this
      ensures configurations == Insert(old(configurations), newId, c)
      ensures old(Settled()) && ((exists i :: i in old(configurations)) || newId != old(id)) ==> Settled()
    {
      configurations := Insert(configurations, newId, c);
      assert newId in configurations;
      var last := LastKey(configurations);
      if id != last {
        SetConfiguration(last, configurations[last]);
      }
    }

    /**
     Drops the configurations above an index and falls back to the last one left. The result is
     false exactly when none is left, where the source reads past the end of an empty map.
     */
    method TruncateSuffix(removal: int) returns (ok: bool)
      modifies this
      ensures configurations == Truncate(old(configurations), removal)
      ensures ok <==> exists i :: i in old(configurations) && i <= removal
      ensures ok && old(Settled()) ==> Settled()
      ensures !ok ==> id == old(id) && state == old(state) && current == old(current) && addresses == old(addresses)
    {
      configurations := Truncate(configurations, removal);
      assert forall i :: i in old(configurations) && i <= removal ==> i in configurations;
      ok := exists i :: i in configurations;
      if !ok {
        return;
      }
      var last := LastKey(configurations);
      if id != last {
        SetConfiguration(last, configurations[last]);
      }
    }

    /** The counting loops of the quorum test. */
    method CheckQuorum(votes: set<Addr>) returns (ok: bool)
      ensures ok == Accepts(state, current, votes)
    {
      if state == Joint {
        var prevVotes, nextVotes := 0, 0;
        for i := 0 to |current.prev|
          invariant prevVotes == Count(current.prev[..i], votes)
        {
          assert current.prev[..i + 1][..i] == current.prev[..i];
          if current.prev[i] in votes {
            prevVotes := prevVotes + 1;
          }
        }
        assert current.prev[..|current.prev|] == current.prev;
        for i := 0 to |current.next|
          invariant nextVotes == Count(current.next[..i], votes)
        {
          assert current.next[..i + 1][..i] == current.next[..i];
          if current.next[i] in votes {
            nextVotes := nextVotes + 1;
          }
        }
        assert current.next[..|current.next|] == current.next;
        ok := prevVotes * 2 > |current.prev| && nextVotes * 2 > |current.next|;
      } else {
        ok := |votes| * 2 > |current.prev|;
      }
    }
  }
}
