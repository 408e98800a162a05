/** Values shared by every layer: commands, log entries, RPC payloads. */
module Types {
  type NodeId = nat
  type Bytes = seq<bv8>

  datatype Option<+T> = None | Some(value: T) {
    predicate IsFailure() { None? }

    function PropagateFailure<U>(): Option<U>
      requires None?
    {
      None
    }

    function Extract(): T
      requires Some?
    {
      value
    }
  }

  // OpType is one byte; the wire may carry any value, so the model keeps the byte.
  const PUT: bv8 := 1
  const DELETE: bv8 := 2
  const NOOP: bv8 := 3

  datatype Command = Command(op: bv8, key: Bytes, value: Bytes)

  const NoopCommand := Command(NOOP, [], [])

  /** A log record as the protocol sees it; `index` is 1-based. */
  datatype Entry = Entry(term: nat, index: nat, cmd: Command)

  datatype VoteReq = VoteReq(term: nat, candidate: NodeId, lastIndex: nat, lastTerm: nat)
  datatype VoteResp = VoteResp(term: nat, granted: bool)
  datatype AppendReq = AppendReq(term: nat, leader: NodeId, prevIndex: nat, prevTerm: nat,
                                 leaderCommit: nat, entries: seq<Entry>)
  datatype AppendResp = AppendResp(term: nat, success: bool)

  function Min(a: nat, b: nat): nat { if a <= b then a else b }
  function Max(a: nat, b: nat): nat { if a >= b then a else b }
}
