/** The values that Raft nodes store and exchange. */
module RaftTypes {
  import opened Ops

  datatype Entry = Entry(command: Command, term: nat)

  /** The entry every log starts with when nothing has been compacted. */
  const DUMMY := Entry(Blank, 0)

  datatype VoteArgs = VoteArgs(term: nat, candidateId: nat, lastLogIndex: nat, lastLogTerm: nat)

  datatype VoteReply = VoteReply(term: nat, granted: bool)

  datatype AppendArgs = AppendArgs(
    term: nat, leaderId: nat, prevIndex: nat, prevTerm: nat, entries: seq<Entry>, leaderCommit: nat)

  datatype AppendReply = AppendReply(term: nat, success: bool, conflictIndex: nat, conflictTerm: int)

  /** What a client learns when it hands a command to a node; both numbers are -1 off the leader. */
  datatype StartReply = StartReply(index: int, term: int, isLeader: bool)

  /** One element of the stream handed to the state machine. */
  datatype ApplyMsg = ApplyMsg(index: nat, term: nat, command: Command)

  datatype Role = Leader | Candidate | Follower

  /** A number in a saved record, with the name it is written under. */
  datatype Field = Field(name: string, value: int)

  /** What the persister holds: nothing yet, or the last saved record. */
  datatype Disk = NoState | Saved(term: nat, vote: Field, entries: seq<Entry>)

  /** The number read from a record by a name, or -1 if it was written under another. */
  function ReadField(field: Field, name: string): int {
    if field.name == name then field.value else -1
  }

  /** The fields of one Raft node, its persister and the stream it has pushed to its apply channel. */
  datatype Node = Node(
    id: nat, peers: nat,
    votedFor: int, votesGranted: nat, currentTerm: nat,
    commitIndex: nat, lastApplied: nat,
    baseIndex: nat, baseTerm: nat,
    role: Role,
    log: seq<Entry>, nextIndex: seq<nat>, matchIndex: seq<nat>,
    disk: Disk, applied: seq<ApplyMsg>)

  function Min(a: nat, b: nat): nat { if a < b then a else b }

  function Max(a: nat, b: nat): nat { if a < b then b else a }
}
