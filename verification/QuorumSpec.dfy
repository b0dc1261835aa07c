/** Stable and joint configurations, and which sets of votes each accepts. */
module QuorumSpec {
  import opened Types

  datatype Config = Config(prev: seq<Addr>, next: seq<Addr>)
  datatype State = Empty | Sync | Joint | Stable

  /** How many of the listed servers voted; a server listed twice counts twice. */
  function Count(servers: seq<Addr>, votes: set<Addr>): (n: nat)
    ensures n <= |servers|
  {
    if servers == [] then 0
    else Count(servers[..|servers| - 1], votes) + if servers[|servers| - 1] in votes then 1 else 0
  }

  function Members(servers: seq<Addr>): set<Addr> {
    set a | a in servers
  }

  /** A joint configuration needs both majorities; any other only compares sizes. */
  predicate Accepts(state: State, c: Config, votes: set<Addr>) {
    if state == Joint then Count(c.prev, votes) * 2 > |c.prev| && Count(c.next, votes) * 2 > |c.next|
    else |votes| * 2 > |c.prev|
  }

  // ---------------------------------------------------------------- counting and sizes

  lemma {:induction false} CountDisjoint(servers: seq<Addr>, a: set<Addr>, b: set<Addr>)
    requires a * b == {}
    ensures Count(servers, a) + Count(servers, b) <= |servers|
  {
    if servers != [] {
      CountDisjoint(servers[..|servers| - 1], a, b);
      assert servers[|servers| - 1] !in a * b;
    }
  }

  lemma {:induction false} CountSplits(servers: seq<Addr>, a: set<Addr>, b: set<Addr>)
    requires a * b == {} && Members(servers) <= a + b
    ensures Count(servers, a) + Count(servers, b) == |servers|
  {
    if servers != [] {
      var before, last := servers[..|servers| - 1], servers[|servers| - 1];
      assert last in Members(servers);
      assert Members(before) <= Members(servers);
      CountSplits(before, a, b);
      assert last !in a * b;
    }
  }

  /** A set of members has at most as many servers as the counting loop finds. */
  lemma {:induction false} MembersCounted(servers: seq<Addr>, votes: set<Addr>)
    requires votes <= Members(servers)
    ensures |votes| <= Count(servers, votes)
  {
    if servers == [] {
      assert votes == {};
    } else {
      var before, last := servers[..|servers| - 1], servers[|servers| - 1];
      assert votes - {last} <= Members(before) by {
        assert servers == before + [last];
      }
      MembersCounted(before, votes - {last});
      CountGrows(before, votes - {last}, votes);
      assert last in votes ==> votes == (votes - {last}) + {last};
      assert last !in votes ==> votes == votes - {last};
    }
  }

  lemma {:induction false} CountGrows(servers: seq<Addr>, a: set<Addr>, b: set<Addr>)
    requires a <= b
    ensures Count(servers, a) <= Count(servers, b)
  {
    if servers != [] {
      CountGrows(servers[..|servers| - 1], a, b);
    }
  }

  /** With no address listed twice, the counting loop computes the size of an intersection. */
  lemma {:induction false} CountIsSize(servers: seq<Addr>, votes: set<Addr>)
    requires forall i, j :: 0 <= i < j < |servers| ==> servers[i] != servers[j]
    ensures Count(servers, votes) == |Members(servers) * votes|
  {
    if servers == [] {
      assert Members(servers) * votes == {};
    } else {
      var before, last := servers[..|servers| - 1], servers[|servers| - 1];
      CountIsSize(before, votes);
      assert last !in Members(before);
      var with := if last in votes then {last} else {};
      assert Members(servers) * votes == (Members(before) * votes) + with by {
        assert servers == before + [last];
      }
    }
  }

  // ---------------------------------------------------------------- quorums meet

  /** Sets that both find a majority of the listed servers share a server. */
  lemma CountsMeet(servers: seq<Addr>, a: set<Addr>, b: set<Addr>)
    requires Count(servers, a) * 2 > |servers| && Count(servers, b) * 2 >= |servers|
    ensures a * b != {}
  {
    if a * b == {} {
      CountDisjoint(servers, a, b);
    }
  }

  /** Two sets accepted by the same joint configuration share a server. */
  lemma JointMeetsJoint(c: Config, a: set<Addr>, b: set<Addr>)
    requires Accepts(Joint, c, a) && Accepts(Joint, c, b)
    ensures a * b != {}
  {
    CountsMeet(c.prev, a, b);
  }

  /** A joint quorum meets every stable quorum of members of the old configuration. */
  lemma JointMeetsOld(c: Config, before: Config, a: set<Addr>, b: set<Addr>)
    requires before.prev == c.prev && b <= Members(before.prev)
    requires Accepts(Joint, c, a) && Accepts(Stable, before, b)
    ensures a * b != {}
  {
    MembersCounted(c.prev, b);
    CountsMeet(c.prev, a, b);
  }

  /** A joint quorum meets every stable quorum of members of the new configuration. */
  lemma JointMeetsNew(c: Config, after: Config, a: set<Addr>, b: set<Addr>)
    requires after.prev == c.next && b <= Members(after.prev)
    requires Accepts(Joint, c, a) && Accepts(Stable, after, b)
    ensures a * b != {}
  {
    MembersCounted(c.next, b);
    CountsMeet(c.next, a, b);
  }

  ghost predicate MeetsEveryJoint(c: Config, b: set<Addr>) {
    forall a :: Accepts(Joint, c, a) ==> a * b != {}
  }

  /**
   Exactly which vote sets meet every joint quorum: those that hold at least half of one of the
   two lists. The size test of a stable configuration alone does not give that.
   */
  lemma MeetsEveryJointIff(c: Config, b: set<Addr>)
    ensures MeetsEveryJoint(c, b) <==> (Count(c.prev, b) * 2 >= |c.prev| || Count(c.next, b) * 2 >= |c.next|)
  {
    if Count(c.prev, b) * 2 >= |c.prev| || Count(c.next, b) * 2 >= |c.next| {
      forall a | Accepts(Joint, c, a) ensures a * b != {} {
        if Count(c.prev, b) * 2 >= |c.prev| {
          CountsMeet(c.prev, a, b);
        } else {
          CountsMeet(c.next, a, b);
        }
      }
    } else {
      var a := Members(c.prev) + Members(c.next) - b;
      CountSplits(c.prev, a, b);
      CountSplits(c.next, a, b);
      assert Accepts(Joint, c, a) && a * b == {};
    }
  }

  /** A stable quorum that counts a server outside the configuration can miss a joint quorum. */
  lemma OutsidersMiss()
    ensures var c, s := Config(["a"], ["a", "b"]), Config(["a"], []);
      Accepts(Stable, s, {"z"}) && Accepts(Joint, c, {"a", "b"}) && {"z"} * {"a", "b"} == {}
  {
  }
}
