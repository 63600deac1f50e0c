/** The values the Raft core exchanges and persists (pkg/raft/types.go). */
module Types {

  /** A cluster member's identifier. 0 plays the part of the empty NodeID. */
  type NodeId = nat

  const NO_NODE: NodeId := 0

  newtype byte = x: int | 0 <= x < 256

  type Bytes = seq<byte>

  datatype Option<+T> = None | Some(value: T)

  datatype Entry = Entry(term: nat, index: nat, data: Bytes)

  datatype Role = Follower | Candidate | Leader

  /** The wire messages; the internal tick is a step of its own (Cluster.Step). */
  datatype Message =
    | RequestVote(term: nat, from: NodeId, to: NodeId, lastIndex: nat, lastTerm: nat)
    | RequestVoteResponse(term: nat, from: NodeId, to: NodeId, granted: bool)
    | AppendEntries(term: nat, from: NodeId, to: NodeId, prevIndex: nat, prevTerm: nat,
                    entries: seq<Entry>, leaderCommit: nat)
    | AppendEntriesResp(term: nat, from: NodeId, to: NodeId, success: bool, matchIndex: nat)

  /** The durable slice of the Raft state. */
  datatype HardState = HardState(term: nat, votedFor: NodeId, commit: nat)

  /** An outbound message and the step-down epoch it was queued under. */
  datatype Pending = Pending(epoch: nat, msg: Message)
}
