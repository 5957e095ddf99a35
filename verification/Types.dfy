/** The values that a node stores and the messages that it exchanges. */
module RaftTypes {

  /** A node identifier. An absent vote (the empty string in the source) is `None`. */
  type NodeId = nat

  datatype Option<+T> = None | Some(value: T)

  datatype Role = Follower | Candidate | Leader

  /** A decoded command, or bytes that the decoder rejects. */
  datatype Command = SetCommand(key: string, value: string) | Malformed(raw: seq<int>)

  datatype Entry = Entry(index: nat, term: nat, command: Command)

  /** The encoded key-value image of a snapshot: nothing, a decodable image, or bytes that do not decode. */
  datatype SnapshotData = NoData | Image(values: map<string, string>) | Corrupt

  datatype Snapshot = Snapshot(lastIndex: nat, lastTerm: nat, data: SnapshotData)

  datatype VoteRequest = VoteRequest(term: nat, candidate: NodeId, lastIndex: nat, lastTerm: nat)
  datatype VoteResponse = VoteResponse(term: nat, granted: bool)

  datatype AppendRequest = AppendRequest(
    term: nat, leader: NodeId, prevIndex: nat, prevTerm: nat, entries: seq<Entry>, leaderCommit: nat)
  datatype AppendResponse = AppendResponse(term: nat, success: bool, matchIndex: nat)

  datatype InstallRequest = InstallRequest(
    term: nat, leader: NodeId, lastIndex: nat, lastTerm: nat, data: SnapshotData)
  datatype InstallResponse = InstallResponse(term: nat)

  /** A message on the network. A response travels with the local variables of the call that waits for it. */
  datatype Message =
    | VoteCall(src: NodeId, dst: NodeId, vote: VoteRequest)
    | VoteAnswer(src: NodeId, dst: NodeId, reqTerm: nat, voted: VoteResponse)
    | AppendCall(src: NodeId, dst: NodeId, append: AppendRequest)
    | AppendAnswer(src: NodeId, dst: NodeId, reqTerm: nat, lastSent: nat, appended: AppendResponse)
    | InstallCall(src: NodeId, dst: NodeId, install: InstallRequest)
    | InstallAnswer(src: NodeId, dst: NodeId, reqTerm: nat, lastIncluded: nat, installed: InstallResponse)

  function Min(a: nat, b: nat): nat { if a < b then a else b }

  function Max(a: nat, b: nat): nat { if a > b then a else b }

  /** Reading a Go map: a missing key reads as zero. */
  function Get(m: map<NodeId, nat>, k: NodeId): nat { if k in m then m[k] else 0 }

  /** A Go map after a loop has set the entry of every peer. */
  function SetAll(m: map<NodeId, nat>, peers: seq<NodeId>, v: nat): map<NodeId, nat> {
    m + (map p | p in peers :: v)
  }
}
