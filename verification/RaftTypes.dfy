/** Entries, messages and durable values of the Raft core. */
module RaftTypes {
  import opened Bytes
  import opened Masks

  datatype Option<+T> = None | Some(value: T)

  /** Node identifiers; the source panics outside 1..64. */
  type NodeId = i: nat | 0 < i <= 64 witness 1

  /** Entry kinds and operations are one byte on the wire, so unknown codes exist. */
  const KIND_NORMAL: nat := 0
  const KIND_JOINT: nat := 1
  const KIND_FINAL: nat := 2
  const KIND_NOOP: nat := 3

  const OP_LEGACY: nat := 0
  const OP_PUT: nat := 1
  const OP_DELETE: nat := 2

  datatype Entry = Entry(
    term: nat,
    command: nat,
    kind: nat,
    oldVoters: Mask,
    newVoters: Mask,
    operation: nat,
    clientId: nat,
    requestId: nat,
    key: nat,
    value: nat)

  /** An entry of which only the term is known: the log's first slot. */
  function Sentinel(term: nat): Entry {
    Entry(term, 0, KIND_NORMAL, 0, 0, OP_LEGACY, 0, 0, 0, 0)
  }

  function NoopEntry(term: nat): Entry {
    Sentinel(term).(kind := KIND_NOOP)
  }

  /** A log always holds its base slot. */
  type Log = l: seq<Entry> | |l| > 0 witness [Sentinel(0)]

  datatype HardState = HardState(term: nat, votedFor: nat, commit: nat)

  datatype Snapshot = Snapshot(lastIndex: nat, lastTerm: nat, state: seq<byte>, oldVoters: Mask, newVoters: Mask)

  const NO_SNAPSHOT := Snapshot(0, 0, [], 0, 0)

  datatype Message =
    | PreVote(from: NodeId, to: NodeId, term: nat, logIndex: nat, logTerm: nat)
    | PreVoteResponse(from: NodeId, to: NodeId, term: nat, reject: bool)
    | RequestVote(from: NodeId, to: NodeId, term: nat, logIndex: nat, logTerm: nat)
    | RequestVoteResponse(from: NodeId, to: NodeId, term: nat, reject: bool)
    | Append(from: NodeId, to: NodeId, term: nat, logIndex: nat, logTerm: nat,
             entry: Option<Entry>, commit: nat, context: nat)
    | AppendResponse(from: NodeId, to: NodeId, term: nat, reject: bool, matched: nat, context: nat)
    | TimeoutNow(from: NodeId, to: NodeId, term: nat)
    | InstallSnapshot(from: NodeId, to: NodeId, term: nat, snapshot: Snapshot)
    | InstallSnapshotResponse(from: NodeId, to: NodeId, term: nat, reject: bool, matched: nat)

  function Max(a: nat, b: nat): nat { if a < b then b else a }
  function Min(a: nat, b: nat): nat { if a < b then a else b }
}
