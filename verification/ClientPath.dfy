/**
 The client path of one leader tenure. A request appends its entry and waits; requests whose
 entries are committed complete in any order, and the session cache suppresses repeats.
 */
module ClientPath {
  import opened Types
  import opened SessionSpec
  import opened MachineSpec

  /** What a waiting request will do: open a session, or write under a session's sequence number. */
  datatype Waiting = Opening | Writing(client: int, sequence: int, command: string)

  datatype Result = Opened | Applied(reply: Reply) | Repeated(reply: Reply) | Expired | Failed

  /** A write is identified by its client and its sequence number. */
  datatype Write = Write(client: int, sequence: int)

  /**
   A tenure: the log's size, the waiting requests by the index of their entry, and the machine.
   The last two fields are history: the sessions that ever were open, and the writes applied with
   their replies.
   */
  datatype Tenure = Tenure(
    size: nat,
    waiting: map<int, Waiting>,
    machine: Machine,
    used: set<int>,
    done: map<Write, Reply>)

  const SUCCESS := "SUCCESS"

  // ---------------------------------------------------------------- completions

  predicate Live(m: Machine, client: int) {
    client in m.sessions.replies
  }

  predicate IsCached(m: Machine, client: int, sequence: int) {
    Live(m, client) && sequence in m.sessions.replies[client]
  }

  function ResultOf(m: Machine, index: int, w: Waiting): Result {
    match w
    case Opening => if Live(m, index) then Failed else Opened
    case Writing(client, sequence, _) =>
      if !Live(m, client) then Expired
      else if IsCached(m, client, sequence) then Repeated(m.sessions.replies[client][sequence])
      else Applied(Reply(true, SUCCESS))
  }

  /** The machine once a committed request completes. */
  function Complete(m: Machine, index: int, w: Waiting): Machine {
    match w
    case Opening => ApplyCommand(m, index, Entry(0, RegisterClient)).machine
    case Writing(client, sequence, command) =>
      if !Live(m, client) then Step(m)
      else if IsCached(m, client, sequence) then Step(m.(sessions := Touch(m.sessions, client)))
      else
        var applied := ApplyCommand(m, index, Entry(0, Data(command))).machine;
        applied.(sessions := Cache(applied.sessions, client, sequence, Reply(true, SUCCESS)))
  }

  // ---------------------------------------------------------------- steps

  function Submit(t: Tenure, w: Waiting): Tenure {
    t.(size := t.size + 1, waiting := t.waiting[t.size := w])
  }

  function Finish(t: Tenure, index: int): Tenure
    requires index in t.waiting
  {
    var w := t.waiting[index];
    t.(waiting := t.waiting - {index},
       machine := Complete(t.machine, index, w),
       used := if w == Opening then t.used + {index} else t.used,
       done := if w.Writing? && ResultOf(t.machine, index, w).Applied?
               then t.done[Write(w.client, w.sequence) := ResultOf(t.machine, index, w).reply]
               else t.done)
  }

  ghost predicate Begins(t: Tenure) {
    && t.waiting == map[] && t.done == map[]
    && (forall id :: id in t.machine.sessions.replies <==> id in t.used)
    && (forall id :: id in t.used ==> id < t.size)
  }

  ghost predicate Next(t: Tenure, t': Tenure) {
    || (exists w :: t' == Submit(t, w))
    || (exists index :: index in t.waiting && t' == Finish(t, index))
  }

  ghost predicate StepAt(b: seq<Tenure>, k: int) {
    0 <= k < |b| - 1 && Next(b[k], b[k + 1])
  }

  ghost predicate Run(b: seq<Tenure>) {
    && |b| > 0 && Begins(b[0])
    && (forall k :: 0 <= k < |b| - 1 ==> StepAt(b, k))
  }

  // ---------------------------------------------------------------- what every step keeps

  /** Session ids are indices the log has handed out; one still to be opened has never been used. */
  ghost predicate Fresh(t: Tenure) {
    && (forall id :: Live(t.machine, id) ==> id in t.used)
    && (forall id :: id in t.used ==> id < t.size)
    && (forall i :: i in t.waiting ==> i < t.size && (t.waiting[i] == Opening ==> i !in t.used))
  }

  /** A write that was applied is still cached, as long as its session lives. */
  ghost predicate Remembers(t: Tenure) {
    forall w :: w in t.done ==>
      && w.client in t.used
      && (Live(t.machine, w.client) ==>
            IsCached(t.machine, w.client, w.sequence) && t.machine.sessions.replies[w.client][w.sequence] == t.done[w])
  }

  ghost predicate Inv(t: Tenure) {
    Fresh(t) && Remembers(t)
  }

  /** Completing a request brings no session to life but the one it opens. */
  lemma CompleteOpens(m: Machine, index: int, w: Waiting, c: int)
    requires Live(Complete(m, index, w), c)
    ensures Live(m, c) || (w == Opening && c == index)
  {
  }

  lemma FinishFresh(t: Tenure, index: int)
    requires Fresh(t) && index in t.waiting
    ensures Fresh(Finish(t, index))
  {
  }

  lemma FinishRemembers(t: Tenure, index: int)
    requires Inv(t) && index in t.waiting
    ensures Remembers(Finish(t, index))
  {
  }

  lemma NextKeeps(t: Tenure, t': Tenure)
    requires Inv(t) && Next(t, t')
    ensures Inv(t')
  {
    if w :| t' == Submit(t, w) {
    } else {
      var index :| index in t.waiting && t' == Finish(t, index);
      FinishFresh(t, index);
      FinishRemembers(t, index);
    }
  }

  lemma {:induction false} RunKeeps(b: seq<Tenure>, k: nat)
    requires Run(b) && k < |b|
    ensures Inv(b[k])
  {
    if k > 0 {
      RunKeeps(b, k - 1);
      assert StepAt(b, k - 1);
      NextKeeps(b[k - 1], b[k]);
    }
  }

  // ---------------------------------------------------------------- what clients see

  /** What is done or used stays so. */
  ghost predicate Extends(t: Tenure, t': Tenure) {
    && t.used <= t'.used
    && (forall d :: d in t.done ==> d in t'.done && t'.done[d] == t.done[d])
    && (forall id :: id in t.used && !Live(t.machine, id) ==> !Live(t'.machine, id))
  }

  lemma NextExtends(t: Tenure, t': Tenure)
    requires Inv(t) && Next(t, t')
    ensures Extends(t, t')
  {
    if w :| t' == Submit(t, w) {
    } else {
      var index :| index in t.waiting && t' == Finish(t, index);
      forall id | id in t.used && Live(t'.machine, id) ensures Live(t.machine, id) {
        CompleteOpens(t.machine, index, t.waiting[index], id);
      }
    }
  }

  lemma ExtendsOn(a: Tenure, b: Tenure, c: Tenure)
    requires Extends(a, b) && Extends(b, c)
    ensures Extends(a, c)
  {
  }

  lemma {:induction false} RunExtends(b: seq<Tenure>, j: nat, k: nat)
    requires Run(b) && j <= k < |b|
    ensures Extends(b[j], b[k])
  {
    if j < k {
      RunExtends(b, j, k - 1);
      RunKeeps(b, k - 1);
      assert StepAt(b, k - 1);
      NextExtends(b[k - 1], b[k]);
      ExtendsOn(b[j], b[k - 1], b[k]);
    }
  }

  /**
   At most once: after a write has been applied, every later request with the same client and
   sequence number leaves the store alone and gets the first reply, or learns that its session
   has expired.
   */
  lemma AtMostOnce(b: seq<Tenure>, j: nat, k: nat, index: int)
    requires Run(b) && j <= k < |b| && index in b[k].waiting && b[k].waiting[index].Writing?
    requires Write(b[k].waiting[index].client, b[k].waiting[index].sequence) in b[j].done
    ensures var w := b[k].waiting[index]; var r := ResultOf(b[k].machine, index, w);
      && Finish(b[k], index).machine.store == b[k].machine.store
      && (r == Repeated(b[j].done[Write(w.client, w.sequence)]) || r == Expired)
  {
    RunKeeps(b, k);
    RunExtends(b, j, k);
  }

  /** An applied write has an effect, is remembered, and its client is told of success. */
  lemma FirstTimeApplies(b: seq<Tenure>, k: nat, index: int)
    requires Run(b) && k < |b| && index in b[k].waiting && b[k].waiting[index].Writing?
    requires ResultOf(b[k].machine, index, b[k].waiting[index]).Applied?
    ensures var w := b[k].waiting[index]; var t := Finish(b[k], index);
      && Write(w.client, w.sequence) !in b[k].done && Write(w.client, w.sequence) in t.done
      && t.machine.store == b[k].machine.store[KeyOf(w.command) := ValueOf(w.command)]
  {
    RunKeeps(b, k);
  }

  /** An evicted client id never comes back. */
  lemma EvictedStaysOut(b: seq<Tenure>, j: nat, k: nat, id: int)
    requires Run(b) && j <= k < |b| && id in b[j].used && !Live(b[j].machine, id)
    ensures !Live(b[k].machine, id)
  {
    RunExtends(b, j, k);
  }

  /** Opening a session never meets an id that is in use, so the leader raises no exception. */
  lemma OpeningSucceeds(b: seq<Tenure>, k: nat, index: int)
    requires Run(b) && k < |b| && index in b[k].waiting && b[k].waiting[index] == Opening
    ensures ResultOf(b[k].machine, index, Opening) == Opened
  {
    RunKeeps(b, k);
  }
}
