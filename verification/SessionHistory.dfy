/**
 Whole histories of calls on the session cache: its order is always the order of the last
 touches, so that what it evicts is the session touched longest ago.
 */
module SessionHistory {
  import opened Types
  import opened SessionSpec

  datatype Call =
    | Create(id: int)
    | Find(id: int, sequence: int)
    | Store(id: int, sequence: int, reply: Reply)

  /** Whether the call reaches a session, which puts that session at the head. */
  predicate Touches(c: Sessions, call: Call) {
    match call
    case Create(id) => id !in c.replies
    case Find(id, sequence) => id in c.replies && sequence in c.replies[id]
    case Store(id, _, _) => id in c.replies
  }

  function Perform(c: Sessions, call: Call): Sessions {
    if !Touches(c, call) then c
    else
      match call
      case Create(id) => Add(c, id)
      case Find(id, _) => Touch(c, id)
      case Store(id, sequence, reply) => Cache(c, id, sequence, reply)
  }

  function Play(c: Sessions, calls: seq<Call>): Sessions {
    if calls == [] then c else Perform(Play(c, calls[..|calls| - 1]), calls[|calls| - 1])
  }

  /** The sessions touched by the calls, oldest first. */
  function History(c: Sessions, calls: seq<Call>): seq<int> {
    if calls == [] then []
    else
      var before, call := calls[..|calls| - 1], calls[|calls| - 1];
      History(c, before) + if Touches(Play(c, before), call) then [call.id] else []
  }

  /** The position of the last touch of a session, or -1. */
  function LastTouch(h: seq<int>, id: int): (t: int)
    ensures -1 <= t < |h|
    ensures t >= 0 ==> h[t] == id
    ensures forall j :: t < j < |h| ==> h[j] != id
  {
    if h == [] then -1
    else if h[|h| - 1] == id then |h| - 1
    else LastTouch(h[..|h| - 1], id)
  }

  /** The order runs from the latest to the earliest last touch. */
  ghost predicate ByRecency(order: seq<int>, h: seq<int>) {
    && (forall i :: 0 <= i < |order| ==> LastTouch(h, order[i]) >= 0)
    && (forall i, j :: 0 <= i < j < |order| ==> LastTouch(h, order[i]) > LastTouch(h, order[j]))
  }

  lemma HeadIsLatest(order: seq<int>, h: seq<int>, id: int)
    requires ByRecency(order, h) && id !in order
    ensures ByRecency([id] + order, h + [id])
  {
  }

  lemma {:induction false} WithoutByRecency(order: seq<int>, h: seq<int>, id: int)
    requires ByRecency(order, h)
    ensures ByRecency(Without(order, id), h)
  {
    if order != [] {
      var rest := order[1..];
      WithoutByRecency(rest, h, id);
      forall x | x in Without(rest, id) ensures LastTouch(h, order[0]) > LastTouch(h, x) {
        assert x in rest;
      }
    }
  }

  lemma TouchKeeps(c: Sessions, h: seq<int>, id: int)
    requires Valid(c) && ByRecency(c.order, h) && id in c.replies
    ensures Valid(Touch(c, id)) && ByRecency(Touch(c, id).order, h + [id])
  {
    WithoutByRecency(c.order, h, id);
    HeadIsLatest(Without(c.order, id), h, id);
  }

  lemma EvictKeeps(c: Sessions, h: seq<int>)
    requires Distinct(c.order) && (forall id :: id in c.order <==> id in c.replies)
    requires |c.order| <= Max(c.capacity, 0) + 1 && ByRecency(c.order, h)
    ensures Valid(Evict(c)) && ByRecency(Evict(c).order, h)
  {
  }

  lemma AddKeeps(c: Sessions, h: seq<int>, id: int)
    requires Valid(c) && ByRecency(c.order, h) && id !in c.replies
    ensures Valid(Add(c, id)) && ByRecency(Add(c, id).order, h + [id])
  {
    HeadIsLatest(c.order, h, id);
    EvictKeeps(c.(order := [id] + c.order, replies := c.replies[id := map[]]), h + [id]);
  }

  lemma PerformKeeps(c: Sessions, h: seq<int>, call: Call)
    requires Valid(c) && ByRecency(c.order, h)
    ensures Valid(Perform(c, call))
    ensures ByRecency(Perform(c, call).order, h + if Touches(c, call) then [call.id] else [])
  {
    if !Touches(c, call) {
      assert h + [] == h;
    } else {
      match call
      case Create(id) => AddKeeps(c, h, id);
      case Find(id, _) => TouchKeeps(c, h, id);
      case Store(id, sequence, reply) =>
        TouchKeeps(c.(replies := c.replies[id := c.replies[id][sequence := reply]]), h, id);
    }
  }

  /**
   After any calls the cache is within its capacity and ordered by last touches. A session's
   place therefore depends on nothing but when it was last touched.
   */
  lemma {:induction false} CacheIsLru(capacity: int, calls: seq<Call>)
    ensures Valid(Play(Empty(capacity), calls))
    ensures ByRecency(Play(Empty(capacity), calls).order, History(Empty(capacity), calls))
  {
    if calls != [] {
      var before := calls[..|calls| - 1];
      CacheIsLru(capacity, before);
      PerformKeeps(Play(Empty(capacity), before), History(Empty(capacity), before), calls[|calls| - 1]);
    }
  }

  /**
   Opening a session in a full cache loses exactly one session, the one whose last touch is the
   earliest; in a cache with room it loses none. A cache without capacity loses the new session.
   */
  lemma EvictsLeastRecent(c: Sessions, h: seq<int>, id: int) returns (victim: int)
    requires Valid(c) && ByRecency(c.order, h) && id !in c.replies
    ensures |c.order| < c.capacity ==> Add(c, id).replies == c.replies[id := map[]]
    ensures |c.order| >= c.capacity ==>
      && victim in c.replies[id := map[]]
      && Add(c, id).replies == c.replies[id := map[]] - {victim}
      && forall w :: w in c.replies[id := map[]] && w != victim ==> LastTouch(h + [id], victim) < LastTouch(h + [id], w)
  {
    HeadIsLatest(c.order, h, id);
    var all := [id] + c.order;
    victim := all[|all| - 1];
    forall w | w in c.replies[id := map[]] && w != victim ensures LastTouch(h + [id], victim) < LastTouch(h + [id], w) {
      assert w in all;
    }
  }
}
