/**
 The session cache as a value: the live sessions ordered from the most to the least
 recently touched, and the replies cached for each of them.
 */
module SessionSpec {
  import opened Types

  datatype Reply = Reply(status: bool, response: string)

  datatype Sessions = Sessions(capacity: int, order: seq<int>, replies: map<int, map<int, Reply>>)

  ghost predicate Distinct<T>(s: seq<T>) {
    forall i, j :: 0 <= i < j < |s| ==> s[i] != s[j]
  }

  /** Every live session has exactly one place in the order, and there are never too many. */
  ghost predicate Valid(c: Sessions) {
    && Distinct(c.order)
    && (forall id :: id in c.order <==> id in c.replies)
    && |c.order| <= Max(c.capacity, 0)
  }

  function Empty(capacity: int): (c: Sessions)
    ensures Valid(c) && c.order == []
  {
    Sessions(capacity, [], map[])
  }

  function Without(order: seq<int>, id: int): (r: seq<int>)
    ensures id !in r
    ensures forall x :: x in r <==> x in order && x != id
    ensures |r| <= |order| && (id in order ==> |r| < |order|)
    ensures Distinct(order) ==> Distinct(r)
  {
    if order == [] then []
    else if order[0] == id then Without(order[1..], id)
    else
      var rest := Without(order[1..], id);
      assert order == [order[0]] + order[1..];
      assert Distinct(order) ==> Distinct(order[1..]) && order[0] !in order[1..];
      [order[0]] + rest
  }

  lemma {:induction false} WithoutAbsent(order: seq<int>, id: int)
    requires id !in order
    ensures Without(order, id) == order
  {
    if order != [] {
      WithoutAbsent(order[1..], id);
    }
  }

  /** In an order without repeats, leaving an id out is cutting its one place. */
  lemma {:induction false} WithoutCuts(order: seq<int>, k: nat)
    requires Distinct(order) && k < |order|
    ensures Without(order, order[k]) == order[..k] + order[k + 1..]
  {
    if k == 0 {
      WithoutAbsent(order[1..], order[0]);
    } else {
      WithoutCuts(order[1..], k - 1);
      assert order[..k] + order[k + 1..] == [order[0]] + (order[1..][..k - 1] + order[1..][k..]);
    }
  }

  /** Drops the least recently touched session when the cache is over its capacity. */
  function Evict(c: Sessions): Sessions {
    if |c.order| > c.capacity && c.order != [] then
      var last := c.order[|c.order| - 1];
      c.(order := c.order[..|c.order| - 1], replies := c.replies - {last})
    else c
  }

  /** Opens a session at the head of the order; the caller has checked that the id is new. */
  function Add(c: Sessions, id: int): Sessions {
    Evict(c.(order := [id] + c.order, replies := c.replies[id := map[]]))
  }

  /** Moves a live session to the head of the order. */
  function Touch(c: Sessions, id: int): Sessions {
    c.(order := [id] + Without(c.order, id))
  }

  /** Caches one reply, which also touches the session. */
  function Cache(c: Sessions, id: int, sequence: int, reply: Reply): Sessions
    requires id in c.replies
  {
    Touch(c.(replies := c.replies[id := c.replies[id][sequence := reply]]), id)
  }
}
