/**
 The session cache as the source builds it: a doubly linked list between two sentinels, from
 the most to the least recently touched session, and a map from session ids to its nodes.
 */
module SessionCache {
  import opened Types
  import opened Quorum
  import S = SessionSpec

  class LruNode {
    const id: int
    var val: map<int, S.Reply>
    var prev: LruNode?
    var next: LruNode?

    constructor (id: int)
      ensures this.id == id && val == map[] && prev == null && next == null
    {
      this.id := id;
      val, prev, next := map[], null, null;
    }
  }

  /** Neighbours point at each other, and no node occurs twice. */
  ghost predicate Chain(nodes: seq<LruNode>)
    reads nodes`prev, nodes`next
  {
    && S.Distinct(nodes)
    && (forall i :: 0 <= i < |nodes| - 1 ==> nodes[i].next == nodes[i + 1])
    && (forall i :: 0 < i < |nodes| ==> nodes[i].prev == nodes[i - 1])
  }

  function Ids(nodes: seq<LruNode>): (r: seq<int>)
    ensures |r| == |nodes| && forall i :: 0 <= i < |r| ==> r[i] == nodes[i].id
  {
    seq(|nodes|, i requires 0 <= i < |nodes| => nodes[i].id)
  }

  /** The sequence without its element at `k`. */
  ghost function Cut<T>(s: seq<T>, k: nat): (r: seq<T>)
    requires k < |s|
    ensures |r| == |s| - 1
    ensures forall i :: 0 <= i < |r| ==> r[i] == if i < k then s[i] else s[i + 1]
  {
    s[..k] + s[k + 1..]
  }

  lemma CutDistinct<T>(s: seq<T>, k: nat)
    requires k < |s| && S.Distinct(s)
    ensures S.Distinct(Cut(s, k)) && s[k] !in Cut(s, k)
    ensures forall x :: x in Cut(s, k) ==> x in s
  {
  }

  lemma CutInner<T>(s: seq<T>, k: nat)
    requires 0 < k < |s| - 1
    ensures Cut(s, k)[1..|s| - 2] == Cut(s[1..|s| - 1], k - 1)
    ensures k == |s| - 2 ==> Cut(s, k)[1..|s| - 2] == s[1..|s| - 1][..k - 1]
  {
  }

  /** The sequence with an element put after its first one. */
  ghost function Second<T>(s: seq<T>, x: T): (r: seq<T>)
    requires |s| > 0
    ensures |r| == |s| + 1 && r[0] == s[0] && r[1] == x
    ensures forall i :: 1 < i < |r| ==> r[i] == s[i - 1]
  {
    [s[0], x] + s[1..]
  }

  lemma SecondDistinct<T>(s: seq<T>, x: T)
    requires |s| > 0 && S.Distinct(s) && x !in s
    ensures S.Distinct(Second(s, x))
    ensures forall y :: y in Second(s, x) <==> y in s || y == x
  {
  }

  /** The map holds exactly these nodes, each under its own id. */
  ghost predicate Indexes(cache: map<int, LruNode>, nodes: seq<LruNode>) {
    && |cache| == |nodes|
    && (forall i :: 0 <= i < |nodes| ==> nodes[i].id in cache && cache[nodes[i].id] == nodes[i])
  }

  lemma IdsDistinct(cache: map<int, LruNode>, nodes: seq<LruNode>)
    requires Indexes(cache, nodes) && S.Distinct(nodes)
    ensures S.Distinct(Ids(nodes))
  {
  }

  lemma {:induction false} DistinctSize(s: seq<int>)
    requires S.Distinct(s)
    ensures |(set x | x in s)| == |s|
  {
    if s != [] {
      var rest := s[1..];
      DistinctSize(rest);
      assert s[0] !in rest;
      assert (set x | x in s) == {s[0]} + (set x | x in rest);
    }
  }

  /** Counting shows that the map holds nothing but the listed nodes. */
  lemma IndexesExactly(cache: map<int, LruNode>, nodes: seq<LruNode>)
    requires Indexes(cache, nodes) && S.Distinct(nodes)
    ensures forall id :: id in Ids(nodes) <==> id in cache
  {
    var ids := Ids(nodes);
    IdsDistinct(cache, nodes);
    DistinctSize(ids);
    var listed := set x | x in ids;
    assert listed <= cache.Keys && |listed| == |cache.Keys|;
    SubsetSize(cache.Keys - listed, cache.Keys);
    assert cache.Keys == listed + (cache.Keys - listed);
    assert cache.Keys - listed == {};
  }

  lemma IndexesPushed(cache: map<int, LruNode>, nodes: seq<LruNode>, n: LruNode)
    requires Indexes(cache, nodes) && n.id !in cache
    ensures Indexes(cache[n.id := n], [n] + nodes) && Ids([n] + nodes) == [n.id] + Ids(nodes)
  {
  }

  lemma IndexesDropped(cache: map<int, LruNode>, nodes: seq<LruNode>)
    requires Indexes(cache, nodes) && S.Distinct(nodes) && nodes != []
    ensures var last := |nodes| - 1; Indexes(cache - {nodes[last].id}, nodes[..last])
    ensures Ids(nodes[..|nodes| - 1]) == Ids(nodes)[..|nodes| - 1]
  {
  }

  lemma IndexesMoved(cache: map<int, LruNode>, nodes: seq<LruNode>, k: nat)
    requires Indexes(cache, nodes) && S.Distinct(nodes) && k < |nodes|
    ensures Indexes(cache, [nodes[k]] + Cut(nodes, k))
    ensures Ids([nodes[k]] + Cut(nodes, k)) == [nodes[k].id] + S.Without(Ids(nodes), nodes[k].id)
  {
    IdsDistinct(cache, nodes);
    var ids := Ids(nodes);
    S.WithoutCuts(ids, k);
    assert Ids([nodes[k]] + Cut(nodes, k)) == [ids[k]] + (ids[..k] + ids[k + 1..]);
  }

  class ClientRequestLRUCache {
    const capacity: int
    var size: int
    var cache: map<int, LruNode>
    const head: LruNode
    const tail: LruNode
    ghost var spine: seq<LruNode>
    ghost var repr: set<LruNode>
    ghost var view: S.Sessions

    /** From sentinel to sentinel the nodes are properly linked; `size` counts those between. */
    ghost predicate Linked()
      reads this`size, this`spine, this`repr, repr`prev, repr`next
    {
      && |spine| == size + 2 && size >= 0 && spine[0] == head && spine[size + 1] == tail
      && (forall i :: 0 <= i < |spine| ==> spine[i] in repr)
      && Chain(spine)
    }

    ghost function Inner(): seq<LruNode>
      requires |spine| >= 2
      reads this`spine
    {
      spine[1..|spine| - 1]
    }

    /** Every mapped node has the key's id and stores the replies of that session. */
    ghost predicate Holds(replies: map<int, map<int, S.Reply>>)
      reads this`cache, this`repr, repr`val
    {
      && (forall k :: k in cache <==> k in replies)
      && (forall k :: k in cache ==> cache[k] in repr && cache[k].id == k)
      && (forall k :: k in cache && k in replies ==> cache[k].val == replies[k])
    }

    /** The abstract order and replies are those of the nodes. */
    ghost predicate Shows(v: S.Sessions, nodes: seq<LruNode>)
      reads this`cache, this`repr, repr`val
    {
      v.capacity == capacity && v.order == Ids(nodes) && Holds(v.replies)
    }

    ghost predicate Valid()
      reads this, repr
    {
      Linked() && Indexes(cache, Inner()) && size <= Max(capacity, 0) && Shows(view, Inner())
    }

    constructor (capacity: int)
      ensures Valid() && view == S.Empty(capacity)
      ensures fresh(repr)
    {
      this.capacity := capacity;
      size, cache := 0, map[];
      var h := new LruNode(-1);
      var t := new LruNode(-1);
      head, tail := h, t;
      spine, repr, view := [h, t], {h, t}, S.Empty(capacity);
      new;
      head.next := tail;
      tail.prev := head;
    }

    /** Takes an inner node out of the list; it stays in the map. */
    method Unlink(curr: LruNode, ghost k: nat)
      requires Linked() && 0 < k <= size && spine[k] == curr
      modifies this`size, this`spine, repr`prev, repr`next
      ensures Linked() && size == old(size) - 1 && Inner() == Cut(old(Inner()), k - 1) && curr !in spine
    {
      CutDistinct(spine, k);
      CutInner(spine, k);
      assert spine[k].prev == spine[k - 1] && spine[k].next == spine[k + 1];
      curr.prev.next := curr.next;
      curr.next.prev := curr.prev;
      curr.prev := null;
      curr.next := null;
      spine := Cut(spine, k);
      size := size - 1;
    }

    /** The linking half of `EraseTail`. */
    method UnlinkTail() returns (node: LruNode)
      requires Linked() && size > 0
      modifies this`size, this`spine, repr`prev, repr`next
      ensures Linked() && size == old(size) - 1
      ensures node == old(Inner())[size] && Inner() == old(Inner())[..size]
    {
      CutDistinct(spine, size);
      CutInner(spine, size);
      assert spine[size + 1].prev == spine[size] && spine[size].prev == spine[size - 1];
      node := tail.prev;
      tail.prev.prev.next := tail;
      tail.prev := tail.prev.prev;
      node.next := null;
      node.prev := null;
      spine := Cut(spine, size);
      size := size - 1;
    }

    /** Forgets the least recently touched session. */
    method EraseTail()
      requires Linked() && size > 0 && size > capacity && Indexes(cache, Inner()) && Shows(view, Inner())
      modifies this`size, this`spine, this`cache, this`view, repr`prev, repr`next
      ensures Linked() && size == old(size) - 1 && Indexes(cache, Inner()) && Shows(view, Inner())
      ensures view == S.Evict(old(view))
    {
      IndexesDropped(cache, Inner());
      var node := UnlinkTail();
      cache := cache - {node.id};
      view := S.Evict(view);
    }

    /** The linking half of `PushHead`. */
    method LinkHead(curr: LruNode)
      requires Linked() && curr !in spine && curr in repr
      modifies this`size, this`spine, repr`prev, repr`next
      ensures Linked() && size == old(size) + 1 && Inner() == [curr] + old(Inner())
    {
      SecondDistinct(spine, curr);
      if size == 0 {
        head.next := curr;
        tail.prev := curr;
        curr.prev := head;
        curr.next := tail;
      } else {
        assert spine[0].next == spine[1];
        curr.next := head.next;
        curr.prev := head;
        head.next.prev := curr;
        head.next := curr;
      }
      size := size + 1;
      spine := Second(spine, curr);
    }

    /** Puts a node at the head, then drops the last one if the list is over capacity. */
    method PushHead(curr: LruNode)
      requires Linked() && curr !in spine && curr in repr
      requires Indexes(cache, [curr] + Inner()) && Shows(view, [curr] + Inner())
      modifies this`size, this`spine, this`cache, this`view, repr`prev, repr`next
      ensures Linked() && Indexes(cache, Inner()) && Shows(view, Inner()) && view == S.Evict(old(view))
      ensures size == if old(size) < capacity then old(size) + 1 else old(size)
    {
      LinkHead(curr);
      if size > capacity {
        EraseTail();
      }
    }

    /** Puts a new node into the map, ready to be pushed. */
    method AddToMap(node: LruNode)
      requires Valid() && node.id !in cache && node !in repr && node.val == map[]
      modifies `cache, `repr, `view
      ensures Linked() && node !in spine && repr == old(repr) + {node} && Indexes(cache, [node] + Inner())
      ensures view == old(view).(order := [node.id] + old(view).order, replies := old(view).replies[node.id := map[]])
      ensures Shows(view, [node] + Inner())
    {
      IndexesPushed(cache, Inner(), node);
      repr := repr + {node};
      cache := cache[node.id := node];
      view := view.(order := [node.id] + view.order, replies := view.replies[node.id := map[]]);
    }

    method CreateNode(id: int) returns (ok: bool)
      requires Valid()
      modifies this, repr
      ensures Valid() && fresh(repr - old(repr))
      ensures ok == (id !in old(view).replies)
      ensures view == if ok then S.Add(old(view), id) else old(view)
    {
      if id in cache {
        return false;
      }
      var node := new LruNode(id);
      AddToMap(node);
      PushHead(node);
      ok := true;
    }

    /** Touching a session moves its node to the front of the nodes. */
    lemma Touched(curr: LruNode, k: nat)
      requires Valid() && 0 < k <= size && spine[k] == curr
      ensures Indexes(cache, [curr] + Cut(Inner(), k - 1))
      ensures Shows(S.Touch(view, curr.id), [curr] + Cut(Inner(), k - 1))
    {
      assert Inner()[k - 1] == curr;
      IndexesMoved(cache, Inner(), k - 1);
    }

    /** Takes a listed node out and makes it the first of the abstract order, ready to be pushed. */
    method Detach(curr: LruNode, ghost k: nat)
      requires Valid() && 0 < k <= size && spine[k] == curr
      modifies this`size, this`spine, this`view, repr`prev, repr`next
      ensures Linked() && size == old(size) - 1 && curr !in spine && curr in repr
      ensures Indexes(cache, [curr] + Inner()) && Shows(view, [curr] + Inner()) && view == S.Touch(old(view), curr.id)
    {
      Touched(curr, k);
      view := S.Touch(view, curr.id);
      Unlink(curr, k);
    }

    /** Moves a listed node to the head. */
    method MoveToHead(curr: LruNode, ghost k: nat)
      requires Valid() && 0 < k <= size && spine[k] == curr
      modifies this`size, this`spine, this`cache, this`view, repr`prev, repr`next
      ensures Valid() && view == S.Touch(old(view), curr.id)
    {
      Detach(curr, k);
      PushHead(curr);
    }

    /** The cached reply for a sequence number; finding it touches the session. */
    method NodeValue(id: int, sequence: int) returns (r: Option<S.Reply>)
      requires Valid()
      modifies this, repr
      ensures Valid() && repr == old(repr)
      ensures r.Some? == (id in old(view).replies && sequence in old(view).replies[id])
      ensures r.Some? ==> r.value == old(view).replies[id][sequence]
      ensures view == if r.Some? then S.Touch(old(view), id) else old(view)
    {
      if id !in cache {
        return None;
      }
      var curr := cache[id];
      if sequence !in curr.val {
        return None;
      }
      ghost var k := Position(id);
      MoveToHead(curr, k);
      r := Some(curr.val[sequence]);
    }

    /** Caches a reply under a live session, which touches the session. */
    method UpdateNode(id: int, sequence: int, reply: S.Reply) returns (ok: bool)
      requires Valid()
      modifies this, repr
      ensures Valid() && repr == old(repr)
      ensures ok == (id in old(view).replies)
      ensures view == if ok then S.Cache(old(view), id, sequence, reply) else old(view)
    {
      if id !in cache {
        return false;
      }
      var curr := cache[id];
      ghost var k := Position(id);
      curr.val := curr.val[sequence := reply];
      view := view.(replies := view.replies[id := view.replies[id][sequence := reply]]);
      MoveToHead(curr, k);
      ok := true;
    }

    method NodeExists(id: int) returns (found: bool)
      requires Valid()
      ensures found == (id in view.replies)
    {
      found := id in cache;
    }

    /** Where a mapped node stands in the list. */
    lemma Position(id: int) returns (k: nat)
      requires Valid() && id in cache
      ensures 0 < k <= size && spine[k] == cache[id]
    {
      assert S.Distinct(Inner());
      IndexesExactly(cache, Inner());
      var i :| 0 <= i < |Inner()| && Ids(Inner())[i] == id;
      k := i + 1;
    }

    /** The abstract cache is well formed: ordered without repeats and within its capacity. */
    lemma ViewValid()
      requires Valid()
      ensures S.Valid(view)
    {
      assert S.Distinct(Inner());
      IdsDistinct(cache, Inner());
      IndexesExactly(cache, Inner());
    }
  }
}
