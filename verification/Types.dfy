/** Values shared by every part of the model: addresses, log entries and optional values. */
module Types {

  /** Servers are known by their network address. */
  type Addr = string

  datatype Option<+T> = None | Some(value: T)

  /** What a log entry carries, one constructor per operation code. */
  datatype Op =
    | NoOp
    | Configuration(prev: seq<Addr>, next: seq<Addr>)
    | RegisterClient
    | Data(command: string)

  datatype Entry = Entry(term: nat, op: Op)

  function Max(a: int, b: int): int {
    if a < b then b else a
  }

  function Min(a: int, b: int): int {
    if a < b then a else b
  }
}
