/**
 The one exception that an append request can raise: a server that has led replays entries which its
 client threads have applied already, and meets a session id that is still in use.
 */
module DuplicateSessions {
  import opened Types
  import opened SessionSpec
  import opened MachineSpec
  import opened NodeSpec

  /** The session is still live after `r` more have been opened: each moves it one place back. */
  ghost predicate Lives(c: Sessions, id: int, r: nat) {
    exists p :: 0 <= p < |c.order| && c.order[p] == id && p + r < c.capacity
  }

  lemma AddLives(c: Sessions, id: int, x: int, r: nat)
    requires Valid(c) && id !in c.replies && x != id
    ensures Lives(Add(c, id), x, r) <==> Lives(c, x, r + 1)
  {
    var order := Add(c, id).order;
    if Lives(Add(c, id), x, r) {
      var p :| 0 <= p < |order| && order[p] == x && p + r < c.capacity;
      assert c.order[p - 1] == x;
    }
    if Lives(c, x, r + 1) {
      var p :| 0 <= p < |c.order| && c.order[p] == x && p + (r + 1) < c.capacity;
      assert order[p + 1] == x;
    }
  }

  /** How many of the entries open a session. */
  function Openings(entries: seq<Entry>): nat {
    if entries == [] then 0
    else (if entries[0].op == RegisterClient then 1 else 0) + Openings(entries[1..])
  }

  /** The entry opens a session under an index whose session is live, and still is when its turn comes. */
  ghost predicate Hits(c: Sessions, index: int, entries: seq<Entry>, j: int) {
    0 <= j < |entries| && entries[j].op == RegisterClient && Lives(c, index + j, Openings(entries[..j]))
  }

  /** An order without repeats loses exactly its last id when it is cut there. */
  lemma CutsLast(order: seq<int>, x: int)
    requires Distinct(order) && order != []
    ensures var n := |order| - 1; x in order[..n] <==> x in order && x != order[n]
  {
    var n := |order| - 1;
    assert order == order[..n] + [order[n]];
  }

  lemma AddValid(c: Sessions, id: int)
    requires Valid(c) && id !in c.replies
    ensures Valid(Add(c, id))
  {
    var order, c' := [id] + c.order, Add(c, id);
    assert Distinct(order);
    forall x ensures x in c'.order <==> x in c'.replies {
      CutsLast(order, x);
    }
  }

  /** The sessions after one entry, unless it hits a live one. */
  function Next(c: Sessions, index: int, e: Entry): Sessions {
    if e.op == RegisterClient then Add(c, index) else c
  }

  /** What the first entry leaves of a hit further on. */
  lemma HitsAfter(c: Sessions, index: int, entries: seq<Entry>, j: int)
    requires Valid(c) && 0 < j && entries != [] && (entries[0].op == RegisterClient ==> index !in c.replies)
    ensures Hits(Next(c, index, entries[0]), index + 1, entries[1..], j - 1) <==> Hits(c, index, entries, j)
  {
    if j < |entries| {
      assert entries[..j][1..] == entries[1..][..j - 1];
      if entries[0].op == RegisterClient {
        AddLives(c, index, index + j, Openings(entries[1..][..j - 1]));
      }
    }
  }

  /** Some entry hits a live session. */
  ghost predicate AnyHits(c: Sessions, index: int, entries: seq<Entry>) {
    exists j :: Hits(c, index, entries, j)
  }

  lemma AnyHitsAfter(c: Sessions, index: int, entries: seq<Entry>)
    requires Valid(c) && entries != [] && (entries[0].op == RegisterClient ==> index !in c.replies)
    ensures AnyHits(Next(c, index, entries[0]), index + 1, entries[1..]) <==> AnyHits(c, index, entries)
  {
    var c', index', rest := Next(c, index, entries[0]), index + 1, entries[1..];
    if AnyHits(c', index', rest) {
      var j :| Hits(c', index', rest, j);
      HitsAfter(c, index, entries, j + 1);
    }
    if AnyHits(c, index, entries) {
      var j :| Hits(c, index, entries, j);
      HitsAfter(c, index, entries, j);
    }
  }

  /** Applying entries raises the exception if and only if one of them hits a live session. */
  lemma {:induction false} DuplicateIff(m: Machine, index: int, entries: seq<Entry>)
    requires Valid(m.sessions)
    ensures ApplyAll(m, index, entries).Duplicate? <==> AnyHits(m.sessions, index, entries)
    decreases |entries|
  {
    var c := m.sessions;
    if entries == [] {
      assert !AnyHits(c, index, entries);
    } else if entries[0].op == RegisterClient && index in c.replies {
      var p :| 0 <= p < |c.order| && c.order[p] == index;
      assert Hits(c, index, entries, 0);
    } else {
      var m' := ApplyCommand(m, index, entries[0]).machine;
      if entries[0].op == RegisterClient {
        AddValid(c, index);
      }
      DuplicateIff(m', index + 1, entries[1..]);
      AnyHitsAfter(c, index, entries);
    }
  }

  /** The request gets as far as applying what it commits, and everything it reads exists. */
  ghost predicate Applies(n: Node, req: AppendRequest) {
    && n.role != Dead && n.term <= req.term && -1 <= req.prevIndex && Matches(n.log, req) && n.commit < req.leaderCommit
    && var log := Merge(n.log, req.prevIndex + 1, req.entries);
      n.machine.applied < Min(req.leaderCommit, |log|) ==> req.leaderCommit < |log| && -1 <= n.machine.applied
  }

  /** What it applies: all it commits that the server does not count as applied. */
  ghost function Applied(n: Node, req: AppendRequest): seq<Entry>
    requires Applies(n, req)
  {
    var log := Merge(n.log, req.prevIndex + 1, req.entries);
    Backlog(log, n.machine.applied, Min(req.leaderCommit, |log|))
  }

  /** The outcome is the exception of a session id already in use. */
  predicate Duplicates(out: AppendOutcome) {
    out.AppendFaulted? && out.fault == DuplicateSession
  }

  lemma CommitDuplicates(n: Node, leaderCommit: int, now: int, r: nat, term: nat, entries: seq<Entry>)
    requires var c := Min(leaderCommit, |n.log|);
      && (n.machine.applied < c ==> c < |n.log| && -1 <= n.machine.applied)
      && entries == Backlog(n.log, n.machine.applied, c)
    ensures Duplicates(CommitAndApply(n, leaderCommit, now, r, term))
      <==> ApplyAll(n.machine, n.commit, entries).Duplicate?
  {
  }

  /** The server that has taken the request's entries, before it commits any. */
  function Merged(n: Node, req: AppendRequest, now: int, r: nat): Node
    requires -1 <= req.prevIndex && Matches(n.log, req)
  {
    Accept(n, req, now, r).(log := Merge(n.log, req.prevIndex + 1, req.entries))
  }

  lemma HandleCommits(n: Node, req: AppendRequest, now: int, r: nat)
    requires n.role != Dead && n.term <= req.term && -1 <= req.prevIndex && Matches(n.log, req)
    requires n.commit < req.leaderCommit
    ensures HandleAppend(n, req, now, r) == CommitAndApply(Merged(n, req, now, r), req.leaderCommit, now, r, req.term)
    ensures Merged(n, req, now, r).commit == n.commit && Merged(n, req, now, r).machine == n.machine
  {
  }

  lemma HandleApplies(n: Node, req: AppendRequest, now: int, r: nat)
    requires Applies(n, req)
    ensures Duplicates(HandleAppend(n, req, now, r)) <==> ApplyAll(n.machine, n.commit, Applied(n, req)).Duplicate?
  {
    HandleCommits(n, req, now, r);
    CommitDuplicates(Merged(n, req, now, r), req.leaderCommit, now, r, req.term, Applied(n, req));
  }

  lemma HandleSpares(n: Node, req: AppendRequest, now: int, r: nat)
    requires !Applies(n, req)
    ensures !Duplicates(HandleAppend(n, req, now, r))
  {
  }

  /**
   An append request raises the exception if and only if one of the entries it applies opens a session
   under an index whose session is live. The first of them is applied under the old commit index,
   whatever its own index is.
   */
  lemma DuplicateFaultIff(n: Node, req: AppendRequest, now: int, r: nat)
    requires Valid(n.machine.sessions)
    ensures Duplicates(HandleAppend(n, req, now, r))
      <==> Applies(n, req) && AnyHits(n.machine.sessions, n.commit, Applied(n, req))
  {
    if Applies(n, req) {
      HandleApplies(n, req, now, r);
      DuplicateIff(n.machine, n.commit, Applied(n, req));
    } else {
      HandleSpares(n, req, now, r);
    }
  }

  /**
   It does happen. A leader of term 1 has committed its no-op and the entry of a client, and its client
   thread has opened the session, which it counts as the first entry applied. The no-op of the
   next leader makes it apply that entry again.
   */
  lemma DuplicateHappens(n: Node, req: AppendRequest, now: int, r: nat)
    requires n.role == Leader && n.term == 1 && n.log == [Entry(1, NoOp), Entry(1, RegisterClient)] && n.commit == 1
    requires n.machine == ApplyCommand(INITIAL, 1, Entry(1, RegisterClient)).machine
    requires req.term == 2 && req.prevIndex == 1 && req.prevTerm == 1
    requires req.entries == [Entry(2, NoOp)] && req.leaderCommit == 2
    ensures Duplicates(HandleAppend(n, req, now, r))
  {
    AddValid(INITIAL.sessions, 1);
    assert n.machine.sessions.order == [1] && n.machine.applied == 0;
    assert Merge(n.log, 2, req.entries) == n.log + req.entries;
    assert Applied(n, req) == [Entry(1, RegisterClient), Entry(2, NoOp)];
    assert n.machine.sessions.order[0] == 1 + 0;
    assert Hits(n.machine.sessions, 1, Applied(n, req), 0);
    DuplicateFaultIff(n, req, now, r);
  }
}
