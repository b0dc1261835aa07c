/** The replicated state machine as a value: a key-value store and the session cache. */
module MachineSpec {
  import opened Types
  import opened SessionSpec

  const SESSION_CAPACITY := 1000

  datatype Machine = Machine(applied: int, store: map<string, string>, sessions: Sessions)

  /** `Done` carries the new state; `Duplicate` is the exception of a session id already in use. */
  datatype Outcome = Done(machine: Machine) | Duplicate(machine: Machine)

  const INITIAL: Machine := Machine(-1, map[], Empty(SESSION_CAPACITY))

  /** The position of the first colon, or -1, as the narrowed result of the string search. */
  function FindColon(s: string): (p: int)
    ensures -1 <= p < |s|
    ensures p == -1 ==> ':' !in s
    ensures p >= 0 ==> s[p] == ':' && ':' !in s[..p]
  {
    if s == "" then -1
    else if s[0] == ':' then 0
    else
      var rest := FindColon(s[1..]);
      assert s == [s[0]] + s[1..];
      if rest == -1 then -1
      else
        assert s[..rest + 1] == [s[0]] + s[1..][..rest];
        rest + 1
  }

  /** A command without a colon is its own key and its own value. */
  function KeyOf(command: string): string {
    var p := FindColon(command);
    if p == -1 then command else command[..p]
  }

  function ValueOf(command: string): string {
    var p := FindColon(command);
    command[p + 1..]
  }

  /** A command is its key, the first colon and its value; without a colon it is both of them. */
  lemma CommandSplits(command: string)
    ensures ':' !in KeyOf(command)
    ensures if ':' in command then command == KeyOf(command) + ":" + ValueOf(command)
            else KeyOf(command) == command && ValueOf(command) == command
  {
    var p := FindColon(command);
    if p >= 0 {
      assert command == command[..p] + [command[p]] + command[p + 1..];
    }
  }

  function Step(m: Machine): Machine {
    m.(applied := m.applied + 1)
  }

  function ApplyCommand(m: Machine, index: int, entry: Entry): Outcome {
    match entry.op
    case NoOp => Done(Step(m))
    case Configuration(_, _) => Done(Step(m))
    case RegisterClient =>
      if index in m.sessions.replies then Duplicate(m)
      else Done(Step(m.(sessions := Add(m.sessions, index))))
    case Data(command) =>
      Done(Step(m.(store := m.store[KeyOf(command) := ValueOf(command)])))
  }

  /** Applies entries in order under consecutive indices, stopping at the first exception. */
  function ApplyAll(m: Machine, index: int, entries: seq<Entry>): Outcome
    decreases |entries|
  {
    if entries == [] then Done(m)
    else
      match ApplyCommand(m, index, entries[0])
      case Duplicate(m') => Duplicate(m')
      case Done(m') => ApplyAll(m', index + 1, entries[1..])
  }
}
