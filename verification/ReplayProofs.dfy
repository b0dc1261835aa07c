/** Followers replay the committed prefix of the log. */
module ReplayProofs {
  import opened Types
  import opened MachineSpec
  import opened Invariants

  /** The key-value pairs written by the data entries of a log, in order. */
  function StoreOf(l: seq<Entry>): map<string, string> {
    if l == [] then map[]
    else
      var m := StoreOf(l[..|l| - 1]);
      match l[|l| - 1].op
      case Data(command) => m[KeyOf(command) := ValueOf(command)]
      case NoOp => m
      case RegisterClient => m
      case Configuration(_, _) => m
  }

  /** Replaying counts every entry, folds the data commands and only opens sessions below its length. */
  lemma {:induction false} ReplayState(l: seq<Entry>)
    ensures Replay(l).applied == |l| - 1
    ensures Replay(l).store == StoreOf(l)
    ensures forall id :: id in Replay(l).sessions.replies ==> -1 <= id < |l| - 1
  {
    if l != [] {
      ReplayState(l[..|l| - 1]);
    }
  }

  /** A session id used by the replay is never in use already. */
  lemma ReplayFresh(l: seq<Entry>, e: Entry)
    ensures ApplyCommand(Replay(l), |l| - 1, e).Done?
    ensures ApplyCommand(Replay(l), |l| - 1, e).machine == Replay(l + [e])
  {
    ReplayState(l);
    assert (l + [e])[..|l|] == l;
  }

  /** Applying further entries continues the replay, without an exception. */
  lemma {:induction false} ReplayContinues(l: seq<Entry>, entries: seq<Entry>)
    ensures ApplyAll(Replay(l), |l| - 1, entries) == Done(Replay(l + entries))
    decreases |entries|
  {
    if entries == [] {
      assert l + entries == l;
    } else {
      ReplayFresh(l, entries[0]);
      ReplayContinues(l + [entries[0]], entries[1..]);
      assert l + [entries[0]] + entries[1..] == l + entries;
    }
  }
}
