/** The inductive invariant of the cluster, in five groups: who has voted for whom and won, which logs there are, what
    can still be committed by a term, what is committed, and what a node finds on its disk when it comes back. */
module Invariant {
  import opened RaftTypes
  import opened RaftNode
  import opened LogMerge
  import opened Cluster

  // ---------------------------------------------------------------- quorums

  ghost predicate IsQuorum(q: set<nat>, n: nat) {
    (forall v :: v in q ==> v < n) && |q| > n / 2
  }

  // ---------------------------------------------------------------- elections

  ghost predicate VoteOk(c: State, b: Ballot)
    requires b in c.hist.votes
  {
    && b.node < |c.nodes| && c.hist.votes[b] < |c.nodes|
    && b.term <= c.nodes[b.node].currentTerm
    && b.term <= c.nodes[c.hist.votes[b]].currentTerm
    && (b.term == c.nodes[b.node].currentTerm ==> c.nodes[b.node].votedFor == c.hist.votes[b])
  }

  ghost predicate VotesOk(c: State) {
    forall b :: b in c.hist.votes ==> VoteOk(c, b)
  }

  ghost predicate Voted(h: History, v: nat, term: nat, candidate: nat) {
    Ballot(v, term) in h.votes && h.votes[Ballot(v, term)] == candidate
  }

  ghost predicate CandidacyOk(c: State, i: nat)
    requires i < |c.nodes| && |c.hist.tally| == |c.nodes|
  {
    c.nodes[i].role == Candidate ==>
      && c.nodes[i].currentTerm >= 1
      && c.nodes[i].votesGranted == |c.hist.tally[i]|
      && forall v :: v in c.hist.tally[i] ==> v < |c.nodes| && Voted(c.hist, v, c.nodes[i].currentTerm, i)
  }

  ghost predicate CallOk(c: State, k: Call)
    requires |c.hist.tally| == |c.nodes|
  {
    k.candidate < |c.nodes| ==>
      && 1 <= k.term <= c.nodes[k.candidate].currentTerm
      && (k.term == c.nodes[k.candidate].currentTerm && c.nodes[k.candidate].role == Candidate
          ==> k.voter !in c.hist.tally[k.candidate])
  }

  ghost predicate ElectionOk(c: State, term: nat)
    requires term in c.hist.elected
  {
    var e := c.hist.elected[term];
    && term >= 1
    && e.leader < |c.nodes|
    && c.nodes[e.leader].currentTerm >= term
    && (c.nodes[e.leader].currentTerm == term ==> c.nodes[e.leader].role != Candidate)
    && IsQuorum(e.voters, |c.nodes|)
    && forall v :: v in e.voters ==> Voted(c.hist, v, term, e.leader)
  }

  ghost predicate BallotOk(c: State, ballot: VoteArgs) {
    ballot.candidateId < |c.nodes| ==>
      var n := c.nodes[ballot.candidateId];
      && ballot.term <= n.currentTerm
      && (ballot.term == n.currentTerm && n.role == Candidate && |n.log| >= 1 ==>
            ballot.lastLogIndex == |n.log| - 1 && ballot.lastLogTerm == LastTerm(n.log))
  }

  ghost predicate ElectionMessageOk(c: State, m: Message) {
    && (m.VoteReq? ==> BallotOk(c, m.ballot) && m.ballot.candidateId < |c.nodes|)
    && (m.VoteResp? && m.vote.granted ==> Voted(c.hist, m.from, m.ballot.term, m.ballot.candidateId))
  }

  ghost predicate ElectionNetOk(c: State) {
    forall m :: m in c.net ==> ElectionMessageOk(c, m)
  }

  ghost predicate ElectionInv(c: State)
    requires WellFormed(c)
  {
    && VotesOk(c)
    && (forall i :: 0 <= i < |c.nodes| ==> CandidacyOk(c, i))
    && (forall k :: k in c.calls ==> CallOk(c, k))
    && (forall t :: t in c.hist.elected ==> ElectionOk(c, t))
    && (forall i :: 0 <= i < |c.nodes| && c.nodes[i].role == Leader ==>
          c.nodes[i].currentTerm in c.hist.elected && c.hist.elected[c.nodes[i].currentTerm].leader == i)
    && ElectionNetOk(c)
  }

  // ---------------------------------------------------------------- logs

  /** The log up to its entry i is what the leader of that entry's term had. */
  ghost predicate Anchored(log: seq<Entry>, i: nat, tl: map<nat, seq<Entry>>)
    requires i < |log|
  {
    log[i].term >= 1 && log[i].term in tl && Agree(log, tl[log[i].term], i)
  }

  ghost predicate Sorted(log: seq<Entry>) {
    forall i, j :: 0 <= i <= j < |log| ==> log[i].term <= log[j].term
  }

  ghost predicate LogOk(log: seq<Entry>, tl: map<nat, seq<Entry>>) {
    && |log| >= 1 && log[0] == DUMMY
    && Sorted(log)
    && forall i :: 1 <= i < |log| ==> Anchored(log, i, tl)
  }

  ghost predicate TermLogOk(c: State, t: nat)
    requires t in c.hist.termLog
  {
    && t >= 1 && t in c.hist.elected
    && LogOk(c.hist.termLog[t], c.hist.termLog)
    && LastTerm(c.hist.termLog[t]) <= t
    && 1 <= c.hist.elected[t].length <= |c.hist.termLog[t]|
  }

  /** A request is a slice of its leader's log, up to that log's end when it was sent. */
  ghost predicate ArgsOk(h: History, args: AppendArgs) {
    && args.term in h.termLog && args.term in h.elected
    && args.leaderId == h.elected[args.term].leader
    && args.prevIndex + |args.entries| < |h.termLog[args.term]|
    && h.termLog[args.term][args.prevIndex].term == args.prevTerm
    && (forall k :: 0 <= k < |args.entries| ==> args.entries[k] == h.termLog[args.term][args.prevIndex + 1 + k])
    && args.leaderCommit <= args.prevIndex + |args.entries|
  }

  ghost predicate Acked(h: History, v: nat, t: nat, k: nat) {
    Ballot(v, t) in h.acks && h.acks[Ballot(v, t)] >= k
  }

  ghost predicate AckOk(c: State, b: Ballot)
    requires b in c.hist.acks
  {
    && b.node < |c.nodes|
    && b.term in c.hist.termLog
    && b.term <= c.nodes[b.node].currentTerm
    && c.hist.acks[b] < |c.hist.termLog[b.term]|
    && (b.term == c.nodes[b.node].currentTerm ==>
          Agree(c.hist.termLog[b.term], c.nodes[b.node].log, c.hist.acks[b]))
  }

  ghost predicate LogMessageOk(h: History, m: Message) {
    && (m.AppendReq? ==> ArgsOk(h, m.args) && m.to != m.args.leaderId)
    && (m.AppendResp? ==>
          && ArgsOk(h, m.args)
          && (m.reply.success ==> Acked(h, m.from, m.args.term, m.args.prevIndex + |m.args.entries|))
          && (!m.reply.success ==> m.reply.conflictIndex <= m.args.prevIndex))
  }

  /** The leader's log is its term's log, and its bookkeeping points into it and rests on acknowledgements. */
  ghost predicate LeaderOk(c: State, i: nat)
    requires WellFormed(c) && i < |c.nodes|
  {
    var n := c.nodes[i];
    n.role == Leader ==>
      && n.currentTerm in c.hist.termLog && c.hist.termLog[n.currentTerm] == n.log
      && Ballot(i, n.currentTerm) in c.hist.acks && c.hist.acks[Ballot(i, n.currentTerm)] == |n.log| - 1
      && forall j :: 0 <= j < |c.nodes| ==>
           && 1 <= n.nextIndex[j] <= |n.log|
           && n.matchIndex[j] < |n.log|
           && (j != i && n.matchIndex[j] > 0 ==> Acked(c.hist, j, n.currentTerm, n.matchIndex[j]))
  }

  ghost predicate LogInv(c: State)
    requires WellFormed(c)
  {
    && c.hist.termLog.Keys == c.hist.elected.Keys
    && (forall t :: t in c.hist.termLog ==> TermLogOk(c, t))
    && (forall i :: 0 <= i < |c.nodes| ==>
          LogOk(c.nodes[i].log, c.hist.termLog) && LastTerm(c.nodes[i].log) <= c.nodes[i].currentTerm)
    && (forall i :: 0 <= i < |c.nodes| ==> LeaderOk(c, i))
    && (forall b :: b in c.hist.acks ==> AckOk(c, b))
    && (forall m :: m in c.net ==> LogMessageOk(c.hist, m))
  }

  // ---------------------------------------------------------------- safety

  /** Entry k of term t's log was created in term t. */
  ghost predicate Own(h: History, t: nat, k: nat) {
    t in h.termLog && 1 <= k < |h.termLog[t]| && h.termLog[t][k].term == t
  }

  /** A quorum has moved past term t without acknowledging k there: (t, k) can no longer be committed. */
  ghost predicate Blocks(c: State, q: set<nat>, t: nat, k: nat) {
    && IsQuorum(q, |c.nodes|)
    && forall v :: v in q ==> c.nodes[v].currentTerm > t && !Acked(c.hist, v, t, k)
  }

  ghost predicate Dead(c: State, t: nat, k: nat) {
    exists q :: Blocks(c, q, t, k)
  }

  /** The log holds term t's log up to k, or (t, k) is dead. */
  ghost predicate Kept(c: State, log: seq<Entry>, t: nat, k: nat)
    requires t in c.hist.termLog
  {
    Agree(c.hist.termLog[t], log, k) || Dead(c, t, k)
  }

  ghost predicate AcksKept(c: State) {
    forall v: nat, t: nat, k: nat :: v < |c.nodes| && Own(c.hist, t, k) && Acked(c.hist, v, t, k) ==>
      Kept(c, c.nodes[v].log, t, k)
  }

  /** A candidate's log keeps whatever its voters had acknowledged in earlier terms. */
  ghost predicate VotersKept(c: State) {
    forall v: nat, i: nat, t: nat, k: nat ::
      && v < |c.nodes| && i < |c.nodes| && c.nodes[i].role == Candidate
      && Voted(c.hist, v, c.nodes[i].currentTerm, i) && t < c.nodes[i].currentTerm
      && Own(c.hist, t, k) && Acked(c.hist, v, t, k)
      ==> Kept(c, c.nodes[i].log, t, k)
  }

  /** The log a leader was elected with keeps whatever earlier terms can still commit. */
  ghost predicate LeadersKept(c: State) {
    forall t: nat, t': nat, k: nat :: t < t' && t' in c.hist.termLog && t' in c.hist.elected && Own(c.hist, t, k)
      ==> Dead(c, t, k)
          || (k < c.hist.elected[t'].length && Agree(c.hist.termLog[t], c.hist.termLog[t'], k))
  }

  ghost predicate SafetyInv(c: State) {
    AcksKept(c) && VotersKept(c) && LeadersKept(c)
  }

  // ---------------------------------------------------------------- commitment

  /** A quorum acknowledged entry k of term t, an entry of that term. */
  ghost predicate Committed(c: State, t: nat, k: nat) {
    Own(c.hist, t, k) && exists q :: IsQuorum(q, |c.nodes|) && Backs(c, q, t, k)
  }

  ghost predicate Backs(c: State, q: set<nat>, t: nat, k: nat) {
    forall v :: v in q ==> Acked(c.hist, v, t, k)
  }

  /** The log up to index is part of what was committed in some term up to the given one. */
  ghost predicate Chosen(c: State, log: seq<Entry>, index: nat, term: nat) {
    index == 0 || exists t, k :: ChosenBy(c, log, index, term, t, k)
  }

  ghost predicate ChosenBy(c: State, log: seq<Entry>, index: nat, term: nat, t: nat, k: nat) {
    Committed(c, t, k) && t <= term && index <= k && Agree(c.hist.termLog[t], log, index)
  }

  ghost predicate NodeCommitOk(c: State, i: nat)
    requires WellFormed(c) && i < |c.nodes|
  {
    var n := c.nodes[i];
    && n.commitIndex == n.lastApplied == |n.applied|
    && n.commitIndex < |n.log|
    && (forall p :: 0 <= p < |n.applied| ==>
          n.applied[p] == ApplyMsg(p + 1, n.log[p + 1].term, n.log[p + 1].command))
    && Chosen(c, n.log, n.commitIndex, n.currentTerm)
  }

  ghost predicate CommitNetOk(c: State) {
    forall m :: m in c.net && m.AppendReq? && m.args.term in c.hist.termLog ==>
      Chosen(c, c.hist.termLog[m.args.term], m.args.leaderCommit, m.args.term)
  }

  ghost predicate CommitInv(c: State)
    requires WellFormed(c)
  {
    && (forall i :: 0 <= i < |c.nodes| ==> NodeCommitOk(c, i))
    && CommitNetOk(c)
  }

  // ---------------------------------------------------------------- durability

  /** Starting on the node's persister gives back its term, vote and log. */
  ghost predicate Durable(n: Node)
    requires n.id < n.peers
  {
    var b := Boot(n.id, n.peers, n.disk);
    b.currentTerm == n.currentTerm && b.votedFor == n.votedFor && b.log == n.log
  }

  ghost predicate DiskInv(c: State)
    requires WellFormed(c)
  {
    forall i :: 0 <= i < |c.nodes| ==> Durable(c.nodes[i])
  }

  ghost predicate Inv(c: State) {
    WellFormed(c) && ElectionInv(c) && LogInv(c) && SafetyInv(c) && CommitInv(c) && DiskInv(c)
  }
}
