/** The handlers of one Raft node as pure steps: what each handler leaves in the node's fields and replies. */
module RaftNode {
  import opened Ops
  import opened RaftTypes

  /** What every handler keeps, whatever it receives. */
  predicate NodeOk(n: Node) {
    && |n.log| >= 1
    && n.id < n.peers == |n.nextIndex| == |n.matchIndex|
    && n.baseIndex <= n.lastApplied
    && n.commitIndex <= n.lastApplied
  }

  /** A handler never changes who the node is or what it has compacted. */
  predicate SameIdentity(n: Node, n': Node) {
    n'.id == n.id && n'.peers == n.peers && n'.baseIndex == n.baseIndex && n'.baseTerm == n.baseTerm
  }

  function LastIndex(n: Node): nat
    requires |n.log| >= 1
  {
    n.baseIndex + |n.log| - 1
  }

  function LastTerm(log: seq<Entry>): nat
    requires |log| >= 1
  {
    log[|log| - 1].term
  }

  // ---------------------------------------------------------------- persistence

  function Persist(n: Node): Node
    requires |n.log| >= 1
  {
    n.(disk := Saved(n.currentTerm, Field("VotedFor", n.votedFor), n.log[1..]))
  }

  /** A node that starts on the given persister. */
  function Boot(id: nat, peers: nat, disk: Disk): (n: Node)
    requires id < peers
    ensures NodeOk(n)
  {
    var zeros := seq(peers, _ => 0);
    match disk
    case NoState =>
      Node(id, peers, -1, 0, 0, 0, 0, 0, 0, Follower, [DUMMY], zeros, zeros, disk, [])
    case Saved(term, vote, entries) =>
      Node(id, peers, ReadField(vote, "VotedFor"), 0, term, 0, 0, 0, 0, Follower, [DUMMY] + entries, zeros, zeros,
        disk, [])
  }

  // ---------------------------------------------------------------- elections

  function StepDown(n: Node, term: nat): Node
    requires |n.log| >= 1
  {
    Persist(n.(currentTerm := term, votedFor := -1, role := Follower))
  }

  /** When the election timer fires: followers always stand, candidates only while short of a majority. */
  predicate MayStand(n: Node) {
    n.role == Follower || (n.role == Candidate && n.votesGranted <= n.peers / 2)
  }

  function StartElection(n: Node): (n': Node)
    requires NodeOk(n)
    ensures NodeOk(n') && SameIdentity(n, n')
  {
    Persist(n.(role := Candidate, currentTerm := n.currentTerm + 1, votedFor := n.id, votesGranted := 1))
  }

  function VoteRequest(n: Node): VoteArgs
    requires |n.log| >= 1
  {
    VoteArgs(n.currentTerm, n.id, LastIndex(n), LastTerm(n.log))
  }

  predicate UpToDate(args: VoteArgs, n: Node)
    requires |n.log| >= 1
  {
    || args.lastLogTerm > LastTerm(n.log)
    || (args.lastLogTerm == LastTerm(n.log) && args.lastLogIndex >= LastIndex(n))
  }

  function OnVoteRequest(n: Node, args: VoteArgs): (r: (Node, VoteReply))
    requires NodeOk(n)
    ensures NodeOk(r.0) && SameIdentity(n, r.0)
  {
    if n.currentTerm > args.term then
      (n, VoteReply(n.currentTerm, false))
    else
      var m := if n.currentTerm < args.term then StepDown(n, args.term) else n;
      if (m.votedFor == -1 || m.votedFor == args.candidateId) && UpToDate(args, m) then
        (Persist(m.(votedFor := args.candidateId)), VoteReply(n.currentTerm, true))
      else
        (Persist(m), VoteReply(n.currentTerm, false))
  }

  /** The reply handler looks at its own role only: it does not compare the reply with the current term. */
  function OnVoteReply(n: Node, reply: VoteReply): (n': Node)
    requires NodeOk(n)
    ensures NodeOk(n') && SameIdentity(n, n')
  {
    if n.role != Candidate then n
    else if reply.granted then n.(votesGranted := n.votesGranted + 1)
    else if reply.term > n.currentTerm then StepDown(n, reply.term)
    else n
  }

  predicate HasMajority(n: Node) {
    n.role == Candidate && n.votesGranted > n.peers / 2
  }

  function BecomeLeader(n: Node): (n': Node)
    requires NodeOk(n)
    ensures NodeOk(n') && SameIdentity(n, n')
  {
    n.(role := Leader,
       nextIndex := seq(n.peers, _ => LastIndex(n) + 1),
       matchIndex := seq(n.peers, _ => 0))
  }

  // ---------------------------------------------------------------- replication, leader side

  function Start(n: Node, command: Command): (r: (Node, StartReply))
    requires NodeOk(n)
    ensures NodeOk(r.0) && SameIdentity(n, r.0)
  {
    if n.role != Leader then
      (n, StartReply(-1, -1, false))
    else
      var n' := Persist(n.(log := n.log + [Entry(command, n.currentTerm)]));
      (n', StartReply(LastIndex(n'), n.currentTerm, true))
  }

  /** The leader's bookkeeping for a peer points into the log it holds. */
  predicate CanBuild(n: Node, peer: nat)
    requires NodeOk(n) && peer < n.peers
  {
    n.baseIndex < n.nextIndex[peer] <= LastIndex(n) + 1
  }

  /** The request broadcast to a peer: everything from its next index on. */
  function AppendFor(n: Node, peer: nat): AppendArgs
    requires NodeOk(n) && peer < n.peers && CanBuild(n, peer)
  {
    var rel := n.nextIndex[peer] - n.baseIndex;
    AppendArgs(n.currentTerm, n.id, n.nextIndex[peer] - 1, n.log[rel - 1].term, n.log[rel..], n.commitIndex)
  }

  /** The peers, other than this node, known to hold the log up to an index. */
  function Replicas(n: Node, index: nat): set<nat>
    requires NodeOk(n)
  {
    set i | 0 <= i < n.peers && i != n.id && n.matchIndex[i] >= index
  }

  predicate Committable(n: Node, index: nat)
    requires NodeOk(n)
  {
    && n.baseIndex <= index <= LastIndex(n)
    && 1 + |Replicas(n, index)| > n.peers / 2
    && n.log[index - n.baseIndex].term == n.currentTerm
  }

  /** The highest committable index in (commitIndex, from], or the commit index if there is none. */
  function ScanCommit(n: Node, from: nat): (index: nat)
    requires NodeOk(n)
    ensures index == n.commitIndex || (n.commitIndex < index <= from && Committable(n, index))
    ensures forall k :: Max(index, n.commitIndex) < k <= from ==> !Committable(n, k)
  {
    if from <= n.commitIndex then n.commitIndex
    else if Committable(n, from) then from
    else ScanCommit(n, from - 1)
  }

  function Messages(log: seq<Entry>, base: nat, from: nat, upTo: nat): (msgs: seq<ApplyMsg>)
    requires base <= from <= upTo < base + |log|
    ensures |msgs| == upTo - from
    ensures forall k :: 0 <= k < |msgs| ==>
      msgs[k] == ApplyMsg(from + 1 + k, log[from + 1 + k - base].term, log[from + 1 + k - base].command)
  {
    seq(upTo - from, k requires 0 <= k < upTo - from =>
      ApplyMsg(from + 1 + k, log[from + 1 + k - base].term, log[from + 1 + k - base].command))
  }

  /** Push everything between lastApplied and commitIndex. */
  function ApplyCommitted(n: Node): (n': Node)
    requires |n.log| >= 1 && n.baseIndex <= n.lastApplied
    requires n.commitIndex <= Max(n.lastApplied, LastIndex(n))
  {
    if n.commitIndex > n.lastApplied then
      n.(lastApplied := n.commitIndex,
         applied := n.applied + Messages(n.log, n.baseIndex, n.lastApplied, n.commitIndex))
    else n
  }

  /** The leader once it has taken a success into account. */
  function Matched(n: Node, peer: nat, args: AppendArgs): Node
    requires NodeOk(n) && peer < n.peers
  {
    var matched := Max(n.matchIndex[peer], args.prevIndex + |args.entries|);
    n.(matchIndex := n.matchIndex[peer := matched], nextIndex := n.nextIndex[peer := matched + 1])
  }

  function OnAppendReply(n: Node, peer: nat, args: AppendArgs, reply: AppendReply): (n': Node)
    requires NodeOk(n) && peer < n.peers
    ensures NodeOk(n') && SameIdentity(n, n')
  {
    if n.role != Leader || n.currentTerm != args.term then n
    else if reply.term > n.currentTerm then StepDown(n, reply.term)
    else if reply.success then
      var m := Matched(n, peer, args);
      ApplyCommitted(m.(commitIndex := ScanCommit(m, LastIndex(m))))
    else if reply.conflictIndex > 0 then
      n.(nextIndex := n.nextIndex[peer := reply.conflictIndex])
    else if n.nextIndex[peer] > n.baseIndex + 1 then
      n.(nextIndex := n.nextIndex[peer := n.nextIndex[peer] - 1])
    else n
  }

  // ---------------------------------------------------------------- replication, follower side

  /** The first index, at most rel, from which every entry up to rel has the given term. */
  function WalkBack(log: seq<Entry>, rel: nat, term: nat): (first: nat)
    requires rel < |log|
    ensures first <= rel
    ensures forall k :: first <= k < rel ==> log[k].term == term
    ensures first > 0 ==> log[first - 1].term != term
  {
    if rel > 0 && log[rel - 1].term == term then WalkBack(log, rel - 1, term) else rel
  }

  /** How many of the new entries lie over entries the log already has. */
  function Overlap(log: seq<Entry>, at: nat, entries: seq<Entry>): nat
    requires at <= |log|
  {
    Min(|log| - at, |entries|)
  }

  /** The position of the first new entry, from i on, whose term differs from the entry it lies over. */
  function FirstConflict(log: seq<Entry>, at: nat, entries: seq<Entry>, i: nat): (c: nat)
    requires at <= |log| && i <= Overlap(log, at, entries)
    ensures i <= c <= Overlap(log, at, entries)
    ensures c < Overlap(log, at, entries) ==> log[at + c].term != entries[c].term
    ensures forall k :: i <= k < c ==> log[at + k].term == entries[k].term
    decreases Overlap(log, at, entries) - i
  {
    if i == Overlap(log, at, entries) || log[at + i].term != entries[i].term then i
    else FirstConflict(log, at, entries, i + 1)
  }

  /** How many of the first upTo new entries repeat the command they lie over. */
  function SameCommands(log: seq<Entry>, at: nat, entries: seq<Entry>, upTo: nat): (count: nat)
    requires at <= |log| && upTo <= Overlap(log, at, entries)
    ensures count <= upTo
  {
    if upTo == 0 then 0
    else
      var before := SameCommands(log, at, entries, upTo - 1);
      if log[at + upTo - 1].command == entries[upTo - 1].command then before + 1 else before
  }

  /** What the follower's mark, resize and push_back loops leave in the log. */
  function MergeEntries(log: seq<Entry>, at: nat, entries: seq<Entry>): (merged: seq<Entry>)
    requires at <= |log|
  {
    var overlap := Overlap(log, at, entries);
    var conflict := FirstConflict(log, at, entries, 0);
    if conflict < overlap then log[..at + conflict] + entries[conflict..]
    else log + entries[SameCommands(log, at, entries, overlap)..]
  }

  lemma MergeCovers(log: seq<Entry>, at: nat, entries: seq<Entry>)
    requires at <= |log|
    ensures |MergeEntries(log, at, entries)| >= at + |entries|
  {}

  /** The node once it has seen the request's term. */
  function Recognise(n: Node, term: nat): (n': Node)
    requires NodeOk(n)
    ensures NodeOk(n') && SameIdentity(n, n')
  {
    if n.currentTerm < term then StepDown(n, term)
    else if n.role == Candidate then n.(role := Follower)
    else n
  }

  predicate Consistent(n: Node, args: AppendArgs) {
    && n.baseIndex <= args.prevIndex < n.baseIndex + |n.log|
    && n.log[args.prevIndex - n.baseIndex].term == args.prevTerm
  }

  /** The log takes over the request's entries, and is saved. */
  function TakeEntries(n: Node, args: AppendArgs): (n': Node)
    requires NodeOk(n) && Consistent(n, args)
    ensures NodeOk(n') && LastIndex(n') >= args.prevIndex + |args.entries|
  {
    var at := args.prevIndex - n.baseIndex + 1;
    MergeCovers(n.log, at, args.entries);
    Persist(n.(log := MergeEntries(n.log, at, args.entries)))
  }

  function FollowCommit(n: Node, args: AppendArgs): Node {
    if args.leaderCommit > n.commitIndex
    then n.(commitIndex := Min(args.leaderCommit, args.prevIndex + |args.entries|))
    else n
  }

  function Accept(n: Node, args: AppendArgs): (n': Node)
    requires NodeOk(n) && Consistent(n, args)
    ensures NodeOk(n') && SameIdentity(n, n')
  {
    ApplyCommitted(FollowCommit(TakeEntries(n, args), args))
  }

  function RejectHint(n: Node, args: AppendArgs): (nat, int)
    requires NodeOk(n) && !Consistent(n, args)
  {
    if args.prevIndex < n.baseIndex then (0, 0)
    else if args.prevIndex - n.baseIndex >= |n.log| then (LastIndex(n), -1)
    else
      var rel := args.prevIndex - n.baseIndex;
      (n.baseIndex + WalkBack(n.log, rel, n.log[rel].term), n.log[rel].term)
  }

  function OnAppend(n: Node, args: AppendArgs): (r: (Node, AppendReply))
    requires NodeOk(n)
    ensures NodeOk(r.0) && SameIdentity(n, r.0)
  {
    if n.currentTerm > args.term then
      (n, AppendReply(n.currentTerm, false, 0, 0))
    else
      var m := Recognise(n, args.term);
      if Consistent(m, args) then
        (Accept(m, args), AppendReply(n.currentTerm, true, 0, 0))
      else
        var hint := RejectHint(m, args);
        (m, AppendReply(n.currentTerm, false, hint.0, hint.1))
  }

  // ---------------------------------------------------------------- compaction

  /** Does a snapshot at this index change anything? */
  predicate Compactable(n: Node, index: nat) {
    n.baseIndex < index < n.baseIndex + |n.log|
  }

  /** The log is cut behind a dummy entry with the term at the index. The record saved here writes the vote under
      another name than the one a restart reads. */
  function Compact(n: Node, index: nat): (n': Node)
    requires NodeOk(n)
    ensures index <= n.lastApplied ==> NodeOk(n')
  {
    if !Compactable(n, index) then n
    else
      var rel := index - n.baseIndex;
      n.(baseIndex := index, baseTerm := n.log[rel].term,
         log := [Entry(Blank, n.log[rel].term)] + n.log[rel + 1..],
         disk := Saved(n.currentTerm, Field("Voted", n.votedFor), n.log[rel + 1..]))
  }
}
