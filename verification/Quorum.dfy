/** Majorities of a set of servers. */
module Quorum {
  import opened Types
  import opened NodeSpec

  lemma {:induction false} SubsetSize<T>(a: set<T>, b: set<T>)
    requires a <= b
    ensures |a| <= |b|
    decreases b
  {
    if x :| x in b {
      SubsetSize(a - {x}, b - {x});
    }
  }

  /** Two majorities of the same members share a server. */
  lemma MajoritiesMeet(a: set<Addr>, b: set<Addr>, members: set<Addr>) returns (w: Addr)
    requires a <= members && b <= members
    requires Majority(|a|, members) && Majority(|b|, members)
    ensures w in a && w in b
  {
    if a * b == {} {
      assert |a + b| == |a| + |b|;
      SubsetSize(a + b, members);
    }
    w :| w in a * b;
  }
}
