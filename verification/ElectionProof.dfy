/** Every step keeps the election part of the invariant: a node votes once per term, and a winner has the votes of a
    majority, so a term has at most one. */
module ElectionProof {
  import opened RaftTypes
  import opened RaftNode
  import opened Cluster
  import opened Invariant

  lemma {:induction false} RangeCardinality(s: set<nat>, n: nat)
    requires forall v :: v in s ==> v < n
    ensures |s| <= n
  {
    if n > 0 {
      RangeCardinality(s - {n - 1}, n - 1);
      assert s <= (s - {n - 1}) + {n - 1};
    } else {
      assert s == {};
    }
  }

  lemma QuorumsMeet(a: set<nat>, b: set<nat>, n: nat) returns (v: nat)
    requires IsQuorum(a, n) && IsQuorum(b, n)
    ensures v in a && v in b && v < n
  {
    RangeCardinality(a + b, n);
    assert |a + b| + |a * b| == |a| + |b|;
    v :| v in a * b;
  }

  // ---------------------------------------------------------------- the ways a step touches an election

  /** The nodes other than i are untouched. */
  ghost predicate OnlyNode(c: State, c': State, i: nat) {
    && WellFormed(c) && WellFormed(c') && i < |c.nodes| == |c'.nodes|
    && forall j :: 0 <= j < |c.nodes| && j != i ==> c'.nodes[j] == c.nodes[j]
  }

  /** A step of one node that takes no part in an election: terms rise, votes stay, no one stands or wins. */
  ghost predicate Calm(n: Node, n': Node) {
    && n'.currentTerm >= n.currentTerm
    && (n'.currentTerm == n.currentTerm ==> n'.votedFor == n.votedFor)
    && (n'.role == Candidate ==>
          && n.role == Candidate && n'.currentTerm == n.currentTerm
          && n'.votesGranted == n.votesGranted && n'.log == n.log)
    && (n'.role == Leader ==> n.role == Leader && n'.currentTerm == n.currentTerm)
  }

  /** What Calm promises about votes, and about ballots already sent. */
  ghost predicate VotesQuiet(c: State, c': State, i: nat) {
    && OnlyNode(c, c', i) && c'.hist.votes == c.hist.votes
    && var n, n' := c.nodes[i], c'.nodes[i];
    && n'.currentTerm >= n.currentTerm
    && (n'.currentTerm == n.currentTerm ==> n'.votedFor == n.votedFor)
    && (n'.role == Candidate ==> n.role == Candidate && n'.currentTerm == n.currentTerm && n'.log == n.log)
    && forall m :: m in c'.net && m !in c.net ==> !m.VoteReq? && (m.VoteResp? ==> !m.vote.granted)
  }

  lemma VotesStay(c: State, c': State, i: nat)
    requires VotesQuiet(c, c', i) && VotesOk(c) && ElectionNetOk(c)
    ensures VotesOk(c') && ElectionNetOk(c')
  {
    forall b | b in c'.hist.votes ensures VoteOk(c', b) { assert VoteOk(c, b); }
    forall m | m in c'.net ensures ElectionMessageOk(c', m) { assert m in c.net ==> ElectionMessageOk(c, m); }
  }

  /** Winners stay winners while votes stay and nobody takes up a candidacy of a term it has won. */
  lemma WinnersStay(c: State, c': State, i: nat)
    requires OnlyNode(c, c', i) && c'.hist.elected == c.hist.elected
    requires forall t :: t in c.hist.elected ==> ElectionOk(c, t)
    requires forall v: nat, t: nat, x: nat :: Voted(c.hist, v, t, x) ==> Voted(c'.hist, v, t, x)
    requires var n, n' := c.nodes[i], c'.nodes[i];
      n'.currentTerm >= n.currentTerm
        && (n'.currentTerm == n.currentTerm && n'.role == Candidate ==> n.role == Candidate)
    ensures forall t :: t in c'.hist.elected ==> ElectionOk(c', t)
  {
    forall t | t in c'.hist.elected ensures ElectionOk(c', t) { assert ElectionOk(c, t); }
  }

  ghost predicate CalmStep(c: State, c': State, i: nat) {
    && OnlyNode(c, c', i) && Calm(c.nodes[i], c'.nodes[i])
    && c'.hist.votes == c.hist.votes && c'.hist.tally == c.hist.tally && c'.hist.elected == c.hist.elected
    && c'.calls <= c.calls
    && forall m :: m in c'.net && m !in c.net ==> !m.VoteReq? && (m.VoteResp? ==> !m.vote.granted)
  }

  lemma ElectionCalm(c: State, c': State, i: nat)
    requires CalmStep(c, c', i) && ElectionInv(c)
    ensures ElectionInv(c')
  {
    VotesStay(c, c', i);
    forall j | 0 <= j < |c'.nodes| ensures CandidacyOk(c', j) { assert CandidacyOk(c, j); }
    forall k | k in c'.calls ensures CallOk(c', k) { assert CallOk(c, k); }
    WinnersStay(c, c', i);
  }

  /** Node i votes for itself in a term it has never been in. */
  ghost predicate StandStep(c: State, c': State, i: nat) {
    && OnlyNode(c, c', i)
    && var n, n' := c.nodes[i], c'.nodes[i];
    && n'.currentTerm == n.currentTerm + 1 && n'.role == Candidate && n'.votedFor == i
    && n'.votesGranted == 1 && n'.log == n.log
    && c'.hist == c.hist.(votes := c.hist.votes[Ballot(i, n'.currentTerm) := i], tally := c.hist.tally[i := {i}])
    && (forall k :: k in c'.calls && k !in c.calls ==> k.candidate == i && k.term == n'.currentTerm && k.voter != i)
    && (forall m :: m in c'.net && m !in c.net ==> m.VoteReq? && m.ballot == VoteRequest(n'))
  }

  lemma ElectionStand(c: State, c': State, i: nat)
    requires StandStep(c, c', i) && ElectionInv(c)
    ensures ElectionInv(c')
  {
    StandVotes(c, c', i);
    StandNet(c, c', i);
    forall j | 0 <= j < |c'.nodes| ensures CandidacyOk(c', j) { assert CandidacyOk(c, j); }
    forall k | k in c'.calls ensures CallOk(c', k) { assert k in c.calls ==> CallOk(c, k); }
    WinnersStay(c, c', i);
  }

  lemma StandVotes(c: State, c': State, i: nat)
    requires StandStep(c, c', i) && VotesOk(c)
    ensures VotesOk(c')
    ensures forall v: nat, t: nat, x: nat :: Voted(c.hist, v, t, x) ==> Voted(c'.hist, v, t, x)
  {
    var b0 := Ballot(i, c'.nodes[i].currentTerm);
    assert b0 in c.hist.votes ==> VoteOk(c, b0);
    forall b | b in c'.hist.votes ensures VoteOk(c', b) { assert b in c.hist.votes ==> VoteOk(c, b); }
  }

  lemma StandNet(c: State, c': State, i: nat)
    requires StandStep(c, c', i) && VotesOk(c) && ElectionNetOk(c)
    ensures ElectionNetOk(c')
  {
    StandVotes(c, c', i);
    forall m | m in c'.net ensures ElectionMessageOk(c', m) { assert m in c.net ==> ElectionMessageOk(c, m); }
  }

  /** Node i grants its vote of a term it reaches or is in. */
  ghost predicate GrantStep(c: State, c': State, i: nat, ballot: VoteArgs) {
    && OnlyNode(c, c', i)
    && var n, n' := c.nodes[i], c'.nodes[i];
    && n.currentTerm <= n'.currentTerm == ballot.term && n'.votedFor == ballot.candidateId < |c.nodes|
    && (n.currentTerm == ballot.term ==>
          (n.votedFor == -1 || n.votedFor == ballot.candidateId)
          && n'.role == n.role && n'.votesGranted == n.votesGranted && n'.log == n.log)
    && (n.currentTerm < ballot.term ==> n'.role == Follower)
    && c'.calls == c.calls
    && c'.hist == c.hist.(votes := c.hist.votes[Ballot(i, ballot.term) := ballot.candidateId])
    && (forall m :: m in c'.net && m !in c.net ==> m.VoteResp? && m.from == i && m.ballot == ballot)
  }

  lemma ElectionGrant(c: State, c': State, i: nat, ballot: VoteArgs)
    requires GrantStep(c, c', i, ballot) && ElectionInv(c) && BallotOk(c, ballot)
    ensures ElectionInv(c')
  {
    GrantVotes(c, c', i, ballot);
    forall j | 0 <= j < |c'.nodes| ensures CandidacyOk(c', j) { assert CandidacyOk(c, j); }
    forall k | k in c'.calls ensures CallOk(c', k) { assert CallOk(c, k); }
    WinnersStay(c, c', i);
  }

  lemma GrantVotes(c: State, c': State, i: nat, ballot: VoteArgs)
    requires GrantStep(c, c', i, ballot) && VotesOk(c) && ElectionNetOk(c) && BallotOk(c, ballot)
    ensures VotesOk(c') && ElectionNetOk(c')
    ensures forall v: nat, t: nat, x: nat :: Voted(c.hist, v, t, x) ==> Voted(c'.hist, v, t, x)
  {
    GrantRecords(c, c', i, ballot);
    forall m | m in c'.net ensures ElectionMessageOk(c', m) { GrantMessage(c, c', i, ballot, m); }
  }

  /** The vote granted is the first of the node in that term, or the same again. */
  lemma GrantRecords(c: State, c': State, i: nat, ballot: VoteArgs)
    requires GrantStep(c, c', i, ballot) && VotesOk(c) && BallotOk(c, ballot)
    ensures Ballot(i, ballot.term) in c.hist.votes ==> c.hist.votes[Ballot(i, ballot.term)] == ballot.candidateId
    ensures VotesOk(c')
    ensures forall v: nat, t: nat, x: nat :: Voted(c.hist, v, t, x) ==> Voted(c'.hist, v, t, x)
  {
    var b0 := Ballot(i, ballot.term);
    assert b0 in c.hist.votes ==> VoteOk(c, b0);
    forall b | b in c'.hist.votes ensures VoteOk(c', b) { assert b != b0 ==> VoteOk(c, b); }
  }

  lemma GrantMessage(c: State, c': State, i: nat, ballot: VoteArgs, m: Message)
    requires GrantStep(c, c', i, ballot) && BallotOk(c, ballot) && m in c'.net
    requires m in c.net ==> ElectionMessageOk(c, m)
    requires Ballot(i, ballot.term) in c.hist.votes ==> c.hist.votes[Ballot(i, ballot.term)] == ballot.candidateId
    ensures ElectionMessageOk(c', m)
  {}

  /** Candidate i counts the vote of a node it had an outstanding call to. */
  ghost predicate CountStep(c: State, c': State, i: nat, voter: nat) {
    && OnlyNode(c, c', i)
    && var n, n' := c.nodes[i], c'.nodes[i];
    && n.role == Candidate && n' == n.(votesGranted := n.votesGranted + 1)
    && Call(i, n.currentTerm, voter) in c.calls && voter < |c.nodes| && Voted(c.hist, voter, n.currentTerm, i)
    && c'.calls == c.calls - {Call(i, n.currentTerm, voter)}
    && c'.hist == c.hist.(tally := c.hist.tally[i := c.hist.tally[i] + {voter}])
    && c'.net == c.net
  }

  lemma ElectionCount(c: State, c': State, i: nat, voter: nat)
    requires CountStep(c, c', i, voter) && ElectionInv(c)
    ensures ElectionInv(c')
  {
    VotesStay(c, c', i);
    CountTally(c, c', i, voter);
    WinnersStay(c, c', i);
  }

  lemma CountTally(c: State, c': State, i: nat, voter: nat)
    requires CountStep(c, c', i, voter)
    requires (forall j :: 0 <= j < |c.nodes| ==> CandidacyOk(c, j)) && forall k :: k in c.calls ==> CallOk(c, k)
    ensures (forall j :: 0 <= j < |c'.nodes| ==> CandidacyOk(c', j)) && forall k :: k in c'.calls ==> CallOk(c', k)
  {
    assert CallOk(c, Call(i, c.nodes[i].currentTerm, voter));
    forall j | 0 <= j < |c'.nodes| ensures CandidacyOk(c', j) { assert CandidacyOk(c, j); }
    forall k | k in c'.calls ensures CallOk(c', k) { assert CallOk(c, k); }
  }

  /** Two majorities of one term voted for the same node. */
  lemma OneWinner(c: State, t: nat, a: set<nat>, x: nat, b: set<nat>, y: nat)
    requires IsQuorum(a, |c.nodes|) && IsQuorum(b, |c.nodes|)
    requires forall v :: v in a ==> Voted(c.hist, v, t, x)
    requires forall v :: v in b ==> Voted(c.hist, v, t, y)
    ensures x == y
  {
    var v := QuorumsMeet(a, b, |c.nodes|);
  }

  /** No one has won the term of a candidate that holds a majority. */
  lemma FreshTerm(c: State, i: nat)
    requires WellFormed(c) && ElectionInv(c) && i < |c.nodes| && HasMajority(c.nodes[i])
    ensures c.nodes[i].currentTerm !in c.hist.elected
    ensures IsQuorum(c.hist.tally[i], |c.nodes|)
  {
    assert CandidacyOk(c, i);
    var t := c.nodes[i].currentTerm;
    if t in c.hist.elected {
      assert ElectionOk(c, t);
      OneWinner(c, t, c.hist.tally[i], i, c.hist.elected[t].voters, c.hist.elected[t].leader);
      assert false;
    }
  }

  /** A candidate with a majority becomes the leader of its term. */
  ghost predicate WinStep(c: State, c': State, i: nat) {
    && OnlyNode(c, c', i) && HasMajority(c.nodes[i])
    && var n, n' := c.nodes[i], c'.nodes[i];
    && n' == BecomeLeader(n)
    && c'.calls == c.calls && c'.net == c.net
    && c'.hist == c.hist.(
         elected := c.hist.elected[n.currentTerm := Election(i, c.hist.tally[i], |n.log|)],
         termLog := c.hist.termLog[n.currentTerm := n.log],
         acks := c.hist.acks[Ballot(i, n.currentTerm) := |n.log| - 1])
  }

  lemma ElectionWin(c: State, c': State, i: nat)
    requires WinStep(c, c', i) && ElectionInv(c)
    ensures ElectionInv(c')
  {
    assert CandidacyOk(c, i);
    FreshTerm(c, i);
    VotesStay(c, c', i);
    forall j | 0 <= j < |c'.nodes| ensures CandidacyOk(c', j) { assert CandidacyOk(c, j); }
    forall k | k in c'.calls ensures CallOk(c', k) { assert CallOk(c, k); }
    forall t | t in c'.hist.elected ensures ElectionOk(c', t) {
      if t == c.nodes[i].currentTerm { assert CandidacyOk(c, i); } else { assert ElectionOk(c, t); }
    }
  }
}
