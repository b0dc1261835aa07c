/** The replicated state machine: a key-value store, the session cache and how far it has applied. */
module StateMachine {
  import opened Types
  import opened SessionCache
  import M = MachineSpec
  import CP = ClientPath

  class StateMachine {
    var lastApplied: int
    var store: map<string, string>
    const sessions: ClientRequestLRUCache

    ghost predicate Valid()
      reads this, sessions, sessions.repr
    {
      sessions.Valid()
    }

    ghost function View(): M.Machine
      reads this, sessions
    {
      M.Machine(lastApplied, store, sessions.view)
    }

    constructor (sessions: ClientRequestLRUCache)
      requires sessions.Valid()
      ensures Valid() && this.sessions == sessions && View() == M.Machine(-1, map[], sessions.view)
    {
      lastApplied, store, this.sessions := -1, map[], sessions;
    }

    method IncrementLastApplied()
      requires Valid()
      modifies this`lastApplied
      ensures Valid() && View() == M.Step(old(View()))
    {
      lastApplied := lastApplied + 1;
    }

    /** Writes a data command, `key:value`, to the store. */
    method Write(command: string)
      requires Valid()
      modifies this`store
      ensures Valid() && View() == old(View()).(store := old(store)[M.KeyOf(command) := M.ValueOf(command)])
    {
      var split := M.FindColon(command);
      var key := if split == -1 then command else command[..split];
      store := store[key := command[split + 1..]];
    }

    /** Opens a session; the result is false when the session cache raises an exception. */
    method Register(index: int) returns (ok: bool)
      requires Valid()
      modifies sessions, sessions.repr
      ensures Valid() && fresh(sessions.repr - old(sessions.repr))
      ensures ok == (index !in old(View()).sessions.replies)
      ensures View() == if ok then old(View()).(sessions := S.Add(old(View()).sessions, index)) else old(View())
    {
      ok := sessions.CreateNode(index);
    }

    /** Applies one entry; the result is false when opening the session raises an exception. */
    method ApplyCommand(index: int, entry: Entry) returns (ok: bool)
      requires Valid()
      modifies this`store, this`lastApplied, sessions, sessions.repr
      ensures Valid() && fresh(sessions.repr - old(sessions.repr))
      ensures ok == M.ApplyCommand(old(View()), index, entry).Done?
      ensures View() == M.ApplyCommand(old(View()), index, entry).machine
    {
      ok := true;
      if entry.op.RegisterClient? {
        ok := Register(index);
        if !ok {
          return;
        }
      } else if entry.op.Data? {
        Write(entry.op.command);
      }
      IncrementLastApplied();
    }

    /** Applies a write, unless its session has expired or its reply is cached. */
    method CompleteWrite(index: int, client: int, sequence: int, command: string) returns (result: Option<CP.Result>)
      requires Valid()
      modifies this`store, this`lastApplied, sessions, sessions.repr
      ensures Valid() && fresh(sessions.repr - old(sessions.repr))
      ensures result == Some(CP.ResultOf(old(View()), index, CP.Writing(client, sequence, command)))
      ensures View() == CP.Complete(old(View()), index, CP.Writing(client, sequence, command))
    {
      var live := sessions.NodeExists(client);
      if !live {
        IncrementLastApplied();
        return Some(CP.Expired);
      }
      var cached := sessions.NodeValue(client, sequence);
      if cached.Some? {
        IncrementLastApplied();
        return Some(CP.Repeated(cached.value));
      }
      var reply := S.Reply(true, CP.SUCCESS);
      var ok := ApplyCommand(index, Entry(0, Data(command)));
      ok := sessions.UpdateNode(client, sequence, reply);
      result := Some(CP.Applied(reply));
    }
  }
}
