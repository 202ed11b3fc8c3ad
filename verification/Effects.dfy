/** What each handler does for those who wait for it: nothing is withheld without a reason. */
module Effects {
  import opened Ops
  import opened RaftTypes
  import opened RaftNode

  // ---------------------------------------------------------------- votes

  /** The candidate's last entry is of a later term than the voter's, or of the same term and no lower index. */
  predicate AtLeast(term: nat, index: nat, n: Node)
    requires |n.log| >= 1
  {
    var last := n.log[|n.log| - 1].term;
    term > last || (term == last && index >= n.baseIndex + |n.log| - 1)
  }

  /** A vote is granted exactly if the ballot's term is not over, the vote of that term is still free or already the
      candidate's, and the candidate's log is not behind. The answer carries the term the voter was in. */
  lemma VoteAnswer(n: Node, args: VoteArgs)
    requires NodeOk(n)
    ensures var (n', reply) := OnVoteRequest(n, args);
      && reply.term == n.currentTerm
      && (reply.granted <==>
            && args.term >= n.currentTerm
            && (args.term > n.currentTerm || n.votedFor == -1 || n.votedFor == args.candidateId)
            && AtLeast(args.lastLogTerm, args.lastLogIndex, n))
      && n'.currentTerm == Max(n.currentTerm, args.term)
      && n'.votedFor == (if reply.granted then args.candidateId as int
                         else if args.term > n.currentTerm then -1 else n.votedFor)
      && n'.role == (if args.term > n.currentTerm then Follower else n.role)
      && n'.log == n.log && n'.commitIndex == n.commitIndex && n'.applied == n.applied
  {}

  /** What a node that stands is and asks for. */
  lemma StandsWith(n: Node)
    requires NodeOk(n)
    ensures var n' := StartElection(n);
      && n'.role == Candidate && n'.currentTerm == n.currentTerm + 1 && n'.votedFor == n.id && n'.votesGranted == 1
      && n'.log == n.log
      && VoteRequest(n') == VoteArgs(n.currentTerm + 1, n.id, n.baseIndex + |n.log| - 1, n.log[|n.log| - 1].term)
  {}

  /** Of any two nodes one has a log the other votes for. */
  lemma BallotsCompare(a: Node, b: Node)
    requires NodeOk(a) && NodeOk(b)
    ensures UpToDate(VoteRequest(a), b) || UpToDate(VoteRequest(b), a)
  {}

  /** A vote, or a refusal from a later term, reaches a candidate and nobody else. */
  lemma VoteReplyEffect(n: Node, reply: VoteReply)
    requires NodeOk(n)
    ensures var n' := OnVoteReply(n, reply);
      && (n.role != Candidate ==> n' == n)
      && (n.role == Candidate && reply.granted ==> n' == n.(votesGranted := n.votesGranted + 1))
      && (n.role == Candidate && !reply.granted && reply.term > n.currentTerm ==>
            n'.role == Follower && n'.currentTerm == reply.term && n'.votedFor == -1 && n'.log == n.log)
      && (n.role == Candidate && !reply.granted && reply.term <= n.currentTerm ==> n' == n)
  {}

  /** A candidate that asks a node of a later term is refused, and by the refusal becomes a follower of that term. */
  lemma StaleCandidateStepsDown(candidate: Node, voter: Node)
    requires NodeOk(candidate) && NodeOk(voter) && candidate.role == Candidate
    requires voter.currentTerm > candidate.currentTerm
    ensures var reply := OnVoteRequest(voter, VoteRequest(candidate)).1;
      var after := OnVoteReply(candidate, reply);
      !reply.granted && after.role == Follower && after.currentTerm == voter.currentTerm
  {}

  /** A new leader starts from the end of its own log and knows of nobody's. */
  lemma LeadsWith(n: Node)
    requires NodeOk(n)
    ensures var n' := BecomeLeader(n);
      && n'.role == Leader && n'.currentTerm == n.currentTerm && n'.log == n.log
      && forall p :: 0 <= p < n.peers ==> n'.nextIndex[p] == n.baseIndex + |n.log| && n'.matchIndex[p] == 0
  {}

  // ---------------------------------------------------------------- requests and their answers

  /** A request tells the follower everything the leader has from the next index on, what comes before it, and how far
      the leader has committed. */
  lemma RequestTells(n: Node, peer: nat)
    requires NodeOk(n) && peer < n.peers && CanBuild(n, peer)
    ensures var args := AppendFor(n, peer);
      && args.term == n.currentTerm && args.leaderId == n.id && args.leaderCommit == n.commitIndex
      && args.prevIndex + 1 == n.nextIndex[peer] && args.prevIndex + |args.entries| == n.baseIndex + |n.log| - 1
      && n.log[args.prevIndex - n.baseIndex].term == args.prevTerm
      && forall k :: 0 <= k < |args.entries| ==> args.entries[k] == n.log[args.prevIndex + 1 + k - n.baseIndex]
  {}

  /** The index is the first, from the compacted one on, since which the log has had the same term up to prev. */
  ghost predicate FirstOfTerm(n: Node, first: nat, prev: nat)
    requires n.baseIndex <= prev < n.baseIndex + |n.log|
  {
    && n.baseIndex <= first <= prev
    && (forall i :: first - n.baseIndex <= i <= prev - n.baseIndex ==>
          n.log[i].term == n.log[prev - n.baseIndex].term)
    && (first > n.baseIndex ==> n.log[first - 1 - n.baseIndex].term != n.log[prev - n.baseIndex].term)
  }

  /** A request is accepted exactly if its term is not over and the log has the entry it builds on; a refusal says where
      to go on. The answer carries the term the follower was in. */
  lemma AppendAnswer(n: Node, args: AppendArgs)
    requires NodeOk(n)
    ensures var (n', reply) := OnAppend(n, args);
      var last := n.baseIndex + |n.log| - 1;
      && reply.term == n.currentTerm
      && (reply.success <==>
            args.term >= n.currentTerm && n.baseIndex <= args.prevIndex <= last
            && n.log[args.prevIndex - n.baseIndex].term == args.prevTerm)
      && (args.term >= n.currentTerm && args.prevIndex > last ==>
            reply.conflictIndex == last && reply.conflictTerm == -1)
      && (args.term >= n.currentTerm && n.baseIndex <= args.prevIndex <= last && !reply.success ==>
            reply.conflictTerm == n.log[args.prevIndex - n.baseIndex].term
            && FirstOfTerm(n, reply.conflictIndex, args.prevIndex))
      && (!reply.success && (args.term < n.currentTerm || args.prevIndex < n.baseIndex) ==> reply.conflictIndex == 0)
  {
    var m := Recognise(n, args.term);
    assert m.log == n.log && m.baseIndex == n.baseIndex;
  }

  /** A follower that accepts commits, and applies, as far as the leader has and the request reaches. */
  lemma AcceptFollows(n: Node, args: AppendArgs)
    requires NodeOk(n) && OnAppend(n, args).1.success
    ensures var n' := OnAppend(n, args).0;
      && n'.commitIndex >= Min(args.leaderCommit, args.prevIndex + |args.entries|)
      && n'.lastApplied >= n'.commitIndex
      && (args.leaderCommit <= n.commitIndex ==> n'.commitIndex == n.commitIndex)
  {}

  /** Whoever takes a request of its own term or a later one is in that term afterwards, and stands for nothing. */
  lemma AppendRecognises(n: Node, args: AppendArgs)
    requires NodeOk(n)
    ensures var n' := OnAppend(n, args).0;
      && (args.term < n.currentTerm ==> n' == n)
      && (args.term >= n.currentTerm ==> n'.currentTerm == args.term && n'.role != Candidate)
      && (args.term > n.currentTerm ==> n'.role == Follower && n'.votedFor == -1)
      && (args.term == n.currentTerm ==> n'.votedFor == n.votedFor)
  {}

  // ---------------------------------------------------------------- replies to the leader

  /** The nodes that hold the leader's log up to an index as far as the leader knows, itself included. */
  ghost function Holders(n: Node, k: nat): set<nat>
    requires n.peers == |n.matchIndex|
  {
    (set j | 0 <= j < n.peers && n.matchIndex[j] >= k) + {n.id}
  }

  /** A success counts everything the request carried, for the peer that answered and for no other. */
  lemma SuccessCounts(n: Node, peer: nat, args: AppendArgs, reply: AppendReply)
    requires NodeOk(n) && peer < n.peers
    requires n.role == Leader && n.currentTerm == args.term && reply.term <= n.currentTerm && reply.success
    ensures var n' := OnAppendReply(n, peer, args, reply);
      && n'.matchIndex[peer] >= args.prevIndex + |args.entries| && n'.matchIndex[peer] >= n.matchIndex[peer]
      && (n'.matchIndex[peer] == n.matchIndex[peer] || n'.matchIndex[peer] == args.prevIndex + |args.entries|)
      && n'.nextIndex[peer] == n'.matchIndex[peer] + 1
      && (forall j :: 0 <= j < n.peers && j != peer ==>
            n'.matchIndex[j] == n.matchIndex[j] && n'.nextIndex[j] == n.nextIndex[j])
      && n'.role == Leader && n'.currentTerm == n.currentTerm && n'.log == n.log && n'.commitIndex >= n.commitIndex
  {}

  /** After a success nothing of the leader's term that a majority holds is left uncommitted. */
  lemma SuccessCommits(n: Node, peer: nat, args: AppendArgs, reply: AppendReply, k: nat)
    requires NodeOk(n) && peer < n.peers
    requires n.role == Leader && n.currentTerm == args.term && reply.term <= n.currentTerm && reply.success
    requires n.baseIndex <= k < n.baseIndex + |n.log| && n.log[k - n.baseIndex].term == n.currentTerm
    requires 2 * |Holders(OnAppendReply(n, peer, args, reply), k)| > n.peers
    ensures OnAppendReply(n, peer, args, reply).commitIndex >= k
    ensures OnAppendReply(n, peer, args, reply).lastApplied >= k
  {
    var m := Matched(n, peer, args);
    assert Holders(m, k) == Replicas(m, k) + {m.id};
    assert |Replicas(m, k) + {m.id}| == |Replicas(m, k)| + 1;
    assert Committable(m, k);
  }

  /** A refusal sends the leader where the hint says, or one back; a later term makes it a follower of that term. */
  lemma RefusalEffect(n: Node, peer: nat, args: AppendArgs, reply: AppendReply)
    requires NodeOk(n) && peer < n.peers && n.role == Leader && n.currentTerm == args.term
    ensures var n' := OnAppendReply(n, peer, args, reply);
      && (reply.term > n.currentTerm ==>
            n'.role == Follower && n'.currentTerm == reply.term && n'.votedFor == -1 && n'.log == n.log)
      && (reply.term <= n.currentTerm && !reply.success ==>
            && n'.role == Leader && n'.log == n.log && n'.matchIndex == n.matchIndex
            && n'.commitIndex == n.commitIndex
            && (forall j :: 0 <= j < n.peers && j != peer ==> n'.nextIndex[j] == n.nextIndex[j])
            && (reply.conflictIndex > 0 ==> n'.nextIndex[peer] == reply.conflictIndex)
            && (reply.conflictIndex == 0 && n.nextIndex[peer] > n.baseIndex + 1 ==>
                  n'.nextIndex[peer] + 1 == n.nextIndex[peer])
            && (reply.conflictIndex == 0 && n.nextIndex[peer] <= n.baseIndex + 1 ==> n' == n))
  {}

  /** A leader that asks a node of a later term is refused, and by the refusal becomes a follower of that term. */
  lemma StaleLeaderStepsDown(leader: Node, f: Node, peer: nat)
    requires NodeOk(leader) && NodeOk(f) && leader.role == Leader && peer < leader.peers && CanBuild(leader, peer)
    requires f.currentTerm > leader.currentTerm
    ensures var args := AppendFor(leader, peer);
      var (f', reply) := OnAppend(f, args);
      var after := OnAppendReply(leader, peer, args, reply);
      f' == f && !reply.success && after.role == Follower && after.currentTerm == f.currentTerm
  {}

  // ---------------------------------------------------------------- commands

  /** A leader says where it has put the command, and there it is, saved. */
  lemma StartTells(n: Node, command: Command)
    requires NodeOk(n)
    ensures var (n', reply) := Start(n, command);
      && (reply.isLeader <==> n.role == Leader)
      && (n.role != Leader ==> n' == n && reply.index == reply.term == -1)
      && (n.role == Leader ==>
            && |n'.log| == |n.log| + 1 && n'.log[..|n.log|] == n.log && n'.log[|n.log|] == Entry(command, n.currentTerm)
            && reply.index == n.baseIndex + |n.log| && reply.term == n.currentTerm
            && n'.disk.Saved? && n'.disk.entries == n'.log[1..])
  {}
}
