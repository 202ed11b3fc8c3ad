/** The invariant holds initially and every handler keeps it. Each handler has one lemma on what it does to the cluster,
    which unfolds the step and knows nothing of the invariant, and one that draws the invariant from this alone; runs
    follow by induction. */
module StepProof {
  import opened Ops
  import opened RaftTypes
  import opened RaftNode
  import opened LogMerge
  import opened Cluster
  import opened Invariant
  import opened ElectionProof
  import opened LogProof
  import opened SafetyProof
  import opened CommitProof

  lemma InitInv(n: nat)
    ensures Inv(Init(n))
  {}

  // ---------------------------------------------------------------- durability

  lemma PersistDurable(n: Node)
    requires |n.log| >= 1 && n.log[0] == DUMMY && n.id < n.peers
    ensures Durable(Persist(n))
  {
    assert [DUMMY] + n.log[1..] == n.log;
  }

  /** History only grows, and nobody acknowledges anything in a term it has left. */
  ghost predicate Forward(c: State, c': State) {
    && Growing(c, c') && Onward(c, c')
    && forall t :: t in c.hist.elected ==> t in c'.hist.elected && c'.hist.elected[t] == c.hist.elected[t]
  }

  lemma QuietForward(c: State, c': State, i: nat)
    requires QuietStep(c, c', i)
    ensures Forward(c, c')
  {}

  lemma WinForward(c: State, c': State, i: nat)
    requires WinStep(c, c', i) && LogInv(c) && ElectionInv(c)
    ensures Forward(c, c')
  {
    WinFacts(c, c', i);
    WinExtends(c, c', i);
  }

  lemma AdoptForward(c: State, c': State, i: nat, args: AppendArgs)
    requires AdoptStep(c, c', i, args)
    ensures Forward(c, c')
  {
    AdoptOnward(c, c', i, args);
    AckedConfirmed(c.hist, c'.hist, Ballot(i, args.term), args.prevIndex + |args.entries|);
  }

  lemma GrowForward(c: State, c': State, i: nat)
    requires GrowStep(c, c', i) && LeaderOk(c, i)
    ensures Forward(c, c')
  {
    GrowFacts(c, c', i);
    GrowExtends(c, c', i);
  }

  lemma DiskFrame(c: State, c': State, i: nat)
    requires OnlyNode(c, c', i) && DiskInv(c) && Durable(c'.nodes[i])
    ensures DiskInv(c')
  {}

  // ---------------------------------------------------------------- steps that change no log

  ghost predicate SameCommit(n: Node, n': Node) {
    n'.commitIndex == n.commitIndex && n'.lastApplied == n.lastApplied && n'.applied == n.applied
  }

  ghost predicate NewMessagesOk(c: State, c': State) {
    forall m :: m in c'.net && m !in c.net ==>
      && LogMessageOk(c.hist, m)
      && (m.AppendReq? ==> Chosen(c, c.hist.termLog[m.args.term], m.args.leaderCommit, m.args.term))
  }

  lemma QuietCommit(c: State, c': State, i: nat)
    requires QuietStep(c, c', i) && LogInv(c) && CommitInv(c) && NodeCommitOk(c', i) && NewMessagesOk(c, c')
    ensures CommitInv(c')
  {
    forall m | m in c.net && m.AppendReq? ensures m.args.term in c.hist.termLog { assert LogMessageOk(c.hist, m); }
    forall m | m in c'.net && m !in c.net && m.AppendReq? && m.args.term in c'.hist.termLog
      ensures Chosen(c', c'.hist.termLog[m.args.term], m.args.leaderCommit, m.args.term)
    {
      var log := c.hist.termLog[m.args.term];
      ChosenInLog(c, log, m.args.leaderCommit, m.args.term);
      ChosenStays(c, c', log, log, m.args.leaderCommit, m.args.term, m.args.term);
    }
    CommitFrame(c, c', i);
  }

  /** Neither the log nor anything that rests on it changes, and nobody becomes a leader. */
  ghost predicate NodeQuiet(n: Node, n': Node) {
    && n'.log == n.log && SameCommit(n, n') && n'.currentTerm >= n.currentTerm
    && n'.nextIndex == n.nextIndex && n'.matchIndex == n.matchIndex
    && (n'.role == Leader ==> n.role == Leader && n'.currentTerm == n.currentTerm)
  }

  /** A step that leaves all logs alone: everything but the election part follows. */
  ghost predicate QuietChange(c: State, c': State, i: nat) {
    && QuietStep(c, c', i) && NodeQuiet(c.nodes[i], c'.nodes[i])
    && Durable(c'.nodes[i]) && NewMessagesOk(c, c')
  }

  lemma QuietNode(c: State, c': State, i: nat)
    requires QuietChange(c, c', i) && LeaderOk(c, i) && NodeCommitOk(c, i)
    ensures LeaderOk(c', i) && NodeCommitOk(c', i)
  {
    NodeCommitStays(c, c', i);
  }

  lemma QuietRest(c: State, c': State, i: nat)
    requires WellFormed(c) && LogInv(c) && CommitInv(c) && DiskInv(c) && QuietChange(c, c', i)
    ensures LogInv(c') && CommitInv(c') && DiskInv(c')
  {
    assert LeaderOk(c, i) && NodeCommitOk(c, i);
    QuietNode(c, c', i);
    LogQuiet(c, c', i);
    QuietCommit(c, c', i);
    DiskFrame(c, c', i);
  }

  /** Steps of a node that keep all logs but may change what it tracks, commits and applies. */
  lemma TrackInv(c: State, c': State, i: nat)
    requires Inv(c) && QuietStep(c, c', i) && CalmStep(c, c', i) && c'.net == c.net
    requires LeaderOk(c', i) && NodeCommitOk(c', i) && Durable(c'.nodes[i])
    ensures Inv(c') && Forward(c, c')
  {
    QuietForward(c, c', i);
    ElectionCalm(c, c', i);
    SafetyQuiet(c, c', i);
    LogQuiet(c, c', i);
    QuietCommit(c, c', i);
    DiskFrame(c, c', i);
  }

  lemma QuietInv(c: State, c': State, i: nat)
    requires Inv(c) && QuietChange(c, c', i) && CalmStep(c, c', i)
    ensures Inv(c') && Forward(c, c')
  {
    QuietForward(c, c', i);
    ElectionCalm(c, c', i);
    SafetyQuiet(c, c', i);
    QuietRest(c, c', i);
  }

  // ---------------------------------------------------------------- elections

  lemma TimeoutShape(c: State, i: nat)
    requires WellFormed(c) && i < |c.nodes| && c.nodes[i].log[0] == DUMMY
    ensures StandStep(c, DoTimeout(c, i), i) && QuietChange(c, DoTimeout(c, i), i)
  {
    var n := c.nodes[i];
    PersistDurable(n.(role := Candidate, currentTerm := n.currentTerm + 1, votedFor := n.id, votesGranted := 1));
  }

  lemma StandInv(c: State, c': State, i: nat)
    requires Inv(c) && StandStep(c, c', i) && QuietChange(c, c', i)
    ensures Inv(c') && Forward(c, c')
  {
    var term := c'.nodes[i].currentTerm;
    QuietForward(c, c', i);
    ElectionStand(c, c', i);
    SelfVoteJustified(c, i, term);
    forall v: nat | Voted(c'.hist, v, term, i) ensures v == i {
      assert v != i ==> VoteOk(c, Ballot(v, term));
    }
    SafetyVote(c, c', i, i, i, term);
    QuietRest(c, c', i);
  }

  lemma VoteReqNode(n: Node, ballot: VoteArgs)
    requires NodeOk(n) && n.log[0] == DUMMY && Durable(n)
    ensures var r := OnVoteRequest(n, ballot);
      && NodeQuiet(n, r.0) && Durable(r.0)
      && (!r.1.granted ==> Calm(n, r.0))
      && (r.1.granted ==>
            && n.currentTerm <= r.0.currentTerm == ballot.term && r.0.votedFor == ballot.candidateId
            && UpToDate(ballot, n)
            && (n.currentTerm == ballot.term ==>
                  (n.votedFor == -1 || n.votedFor == ballot.candidateId)
                  && r.0.role == n.role && r.0.votesGranted == n.votesGranted)
            && (n.currentTerm < ballot.term ==> r.0.role == Follower))
  {
    var m := if n.currentTerm < ballot.term then StepDown(n, ballot.term) else n;
    PersistDurable(m);
    PersistDurable(m.(votedFor := ballot.candidateId));
  }

  lemma VoteReqShape(c: State, m: Message)
    requires WellFormed(c) && Enabled(c, TakeVoteReq(m)) && m.ballot.candidateId < |c.nodes|
    requires c.nodes[m.to].log[0] == DUMMY && Durable(c.nodes[m.to])
    ensures var c' := DoVoteReq(c, m.to, m.ballot);
      && QuietChange(c, c', m.to)
      && if OnVoteRequest(c.nodes[m.to], m.ballot).1.granted
         then GrantStep(c, c', m.to, m.ballot) && UpToDate(m.ballot, c.nodes[m.to])
         else CalmStep(c, c', m.to)
  {
    VoteReqNode(c.nodes[m.to], m.ballot);
  }

  lemma GrantInv(c: State, c': State, i: nat, ballot: VoteArgs)
    requires Inv(c) && QuietChange(c, c', i) && GrantStep(c, c', i, ballot) && BallotOk(c, ballot)
    requires UpToDate(ballot, c.nodes[i])
    ensures Inv(c') && Forward(c, c')
  {
    var j := ballot.candidateId;
    if c'.nodes[j].role == Candidate && c'.nodes[j].currentTerm == ballot.term {
      GrantJustified(c, i, j, ballot.term);
    }
    QuietForward(c, c', i);
    SafetyVote(c, c', i, i, j, ballot.term);
    ElectionGrant(c, c', i, ballot);
    QuietRest(c, c', i);
  }

  lemma VoteRespShape(c: State, m: Message)
    requires WellFormed(c) && Enabled(c, TakeVoteResp(m)) && Timely(c, TakeVoteResp(m))
    requires var n := c.nodes[m.ballot.candidateId]; n.log[0] == DUMMY && Durable(n)
    requires m.vote.granted ==> Voted(c.hist, m.from, m.ballot.term, m.ballot.candidateId)
    ensures var i, c' := m.ballot.candidateId, DoVoteResp(c, m.from, m.ballot, m.vote);
      && QuietChange(c, c', i)
      && if c.nodes[i].role == Candidate && m.vote.granted then CountStep(c, c', i, m.from) else CalmStep(c, c', i)
  {
    PersistDurable(c.nodes[m.ballot.candidateId].(currentTerm := m.vote.term, votedFor := -1, role := Follower));
  }

  lemma CountInv(c: State, c': State, i: nat, voter: nat)
    requires Inv(c) && QuietChange(c, c', i) && CountStep(c, c', i, voter)
    ensures Inv(c') && Forward(c, c')
  {
    QuietForward(c, c', i);
    ElectionCount(c, c', i, voter);
    SafetyQuiet(c, c', i);
    QuietRest(c, c', i);
  }

  lemma WinCommit(c: State, c': State, i: nat)
    requires WinStep(c, c', i) && LogInv(c) && ElectionInv(c) && CommitInv(c)
    ensures CommitInv(c')
  {
    WinExtends(c, c', i);
    assert NodeCommitOk(c, i);
    NodeCommitStays(c, c', i);
    forall m | m in c.net && m.AppendReq? ensures m.args.term in c.hist.termLog { assert LogMessageOk(c.hist, m); }
    CommitFrame(c, c', i);
  }

  lemma WinInv(c: State, c': State, i: nat)
    requires Inv(c) && WinStep(c, c', i)
    ensures Inv(c') && Forward(c, c')
  {
    ElectionWin(c, c', i);
    LogWin(c, c', i);
    SafetyWin(c, c', i);
    WinCommit(c, c', i);
    WinForward(c, c', i);
    assert Durable(c.nodes[i]);
    DiskFrame(c, c', i);
  }

  // ---------------------------------------------------------------- replication, leader side

  lemma SendArgsOk(c: State, i: nat, peer: nat)
    requires WellFormed(c) && Enabled(c, SendAppend(i, peer)) && LeaderOk(c, i) && NodeCommitOk(c, i)
    requires c.nodes[i].currentTerm in c.hist.elected && c.hist.elected[c.nodes[i].currentTerm].leader == i
    ensures var args := AppendFor(c.nodes[i], peer);
      ArgsOk(c.hist, args) && Chosen(c, c.hist.termLog[args.term], args.leaderCommit, args.term)
  {}

  lemma SendAppendShape(c: State, i: nat, peer: nat)
    requires WellFormed(c) && Enabled(c, SendAppend(i, peer)) && Durable(c.nodes[i])
    requires var args := AppendFor(c.nodes[i], peer);
      ArgsOk(c.hist, args) && Chosen(c, c.hist.termLog[args.term], args.leaderCommit, args.term)
    ensures var c' := DoSendAppend(c, i, peer); QuietChange(c, c', i) && CalmStep(c, c', i)
  {}

  // ---------------------------------------------------------------- replication, follower side

  lemma RejectNode(n: Node, args: AppendArgs)
    requires NodeOk(n) && n.baseIndex == 0 && n.log[0] == DUMMY && Durable(n)
    requires !OnAppend(n, args).1.success
    ensures var r := OnAppend(n, args);
      NodeQuiet(n, r.0) && Durable(r.0) && Calm(n, r.0) && r.1.conflictIndex <= args.prevIndex
  {
    PersistDurable(n.(currentTerm := args.term, votedFor := -1, role := Follower));
  }

  lemma RejectShape(c: State, m: Message)
    requires WellFormed(c) && Enabled(c, TakeAppend(m)) && LogMessageOk(c.hist, m)
    requires c.nodes[m.to].log[0] == DUMMY && Durable(c.nodes[m.to])
    requires !OnAppend(c.nodes[m.to], m.args).1.success
    ensures var c' := DoAppend(c, m.to, m.args); QuietChange(c, c', m.to) && CalmStep(c, c', m.to)
  {
    RejectNode(c.nodes[m.to], m.args);
  }

  /** What a node is after it accepted a request. */
  ghost predicate Accepted(n: Node, n': Node, args: AppendArgs)
    requires |n.log| >= 1
  {
    && n.currentTerm <= args.term == n'.currentTerm
    && (n.role != Leader || n.currentTerm < args.term ==> n'.role == Follower)
    && (n'.currentTerm == n.currentTerm ==> n'.votedFor == n.votedFor)
    && args.prevIndex < |n.log| && n.log[args.prevIndex].term == args.prevTerm
    && n'.log == MergeEntries(n.log, args.prevIndex + 1, args.entries)
    && SavedLog(n') && CommitFollows(n, n', args)
  }

  ghost predicate CommitFollows(n: Node, n': Node, args: AppendArgs) {
    && n'.commitIndex == (if args.leaderCommit > n.commitIndex
                          then Min(args.leaderCommit, args.prevIndex + |args.entries|) else n.commitIndex)
    && (n.lastApplied == n.commitIndex <= n'.commitIndex < |n'.log| ==>
          && n'.lastApplied == n'.commitIndex
          && n'.applied == n.applied + Messages(n'.log, 0, n.commitIndex, n'.commitIndex))
  }

  lemma AcceptNode(n: Node, args: AppendArgs)
    requires NodeOk(n) && n.baseIndex == 0 && OnAppend(n, args).1.success
    ensures Accepted(n, OnAppend(n, args).0, args)
  {
    var m := Recognise(n, args.term);
    AcceptCommits(m, args);
    assert SameCommit(n, m) && m.log == n.log;
  }

  lemma AcceptCommits(m: Node, args: AppendArgs)
    requires NodeOk(m) && m.baseIndex == 0 && Consistent(m, args)
    ensures CommitFollows(m, Accept(m, args), args)
  {
    MergeCovers(m.log, args.prevIndex + 1, args.entries);
  }

  lemma AcceptAdopts(c: State, log: seq<Entry>, args: AppendArgs, log': seq<Entry>)
    requires ArgsOk(c.hist, args) && LogOk(log, c.hist.termLog) && LogOk(c.hist.termLog[args.term], c.hist.termLog)
    requires args.prevIndex < |log| && log[args.prevIndex].term == args.prevTerm
    requires log' == MergeEntries(log, args.prevIndex + 1, args.entries)
    ensures Adopted(log', log, c.hist.termLog[args.term], args.prevIndex + |args.entries|)
  {
    MergeAdopts(log, c.hist.termLog[args.term], args.prevIndex, args.entries, c.hist.termLog);
  }

  lemma AcceptShape(c: State, m: Message)
    requires WellFormed(c) && Enabled(c, TakeAppend(m)) && ArgsOk(c.hist, m.args)
    requires OnAppend(c.nodes[m.to], m.args).1.success
    requires c.nodes[m.to].role == Leader ==> c.nodes[m.to].currentTerm < m.args.term
    requires Adopted(OnAppend(c.nodes[m.to], m.args).0.log, c.nodes[m.to].log, c.hist.termLog[m.args.term],
                     m.args.prevIndex + |m.args.entries|)
    ensures var c' := DoAppend(c, m.to, m.args);
      && AdoptStep(c, c', m.to, m.args) && CalmStep(c, c', m.to)
      && SavedLog(c'.nodes[m.to]) && CommitFollows(c.nodes[m.to], c'.nodes[m.to], m.args)
  {
    AcceptNode(c.nodes[m.to], m.args);
    AcceptMessages(c, m);
  }

  lemma AcceptMessages(c: State, m: Message)
    requires WellFormed(c) && Enabled(c, TakeAppend(m)) && OnAppend(c.nodes[m.to], m.args).1.success
    ensures var c' := DoAppend(c, m.to, m.args);
      && OnlyNode(c, c', m.to) && c'.nodes[m.to] == OnAppend(c.nodes[m.to], m.args).0
      && c'.calls == c.calls
      && c'.hist == c.hist.(acks := Confirmed(c.hist.acks, Ballot(m.to, m.args.term),
        m.args.prevIndex + |m.args.entries|))
      && forall x :: x in c'.net && x !in c.net ==>
        x.AppendResp? && x.from == m.to && x.args == m.args && x.reply.success
  {}

  lemma AcceptInv(c: State, c': State, m: Message)
    requires Inv(c) && m in c.net && m.AppendReq?
    requires AdoptStep(c, c', m.to, m.args) && CalmStep(c, c', m.to)
    requires SavedLog(c'.nodes[m.to]) && CommitFollows(c.nodes[m.to], c'.nodes[m.to], m.args)
    ensures Inv(c') && Forward(c, c')
  {
    ElectionCalm(c, c', m.to);
    LogAdopt(c, c', m.to, m.args);
    SafetyAdopt(c, c', m.to, m.args);
    assert NodeCommitOk(c, m.to);
    AdoptKeepsCommitted(c, c', m.to, m.args);
    AcceptCommit(c, c', m);
    SavedDurable(c'.nodes[m.to]);
    DiskFrame(c, c', m.to);
    AdoptForward(c, c', m.to, m.args);
  }

  ghost predicate SavedLog(n: Node) {
    |n.log| >= 1 && n.disk == Saved(n.currentTerm, Field("VotedFor", n.votedFor), n.log[1..])
  }

  lemma SavedDurable(n: Node)
    requires SavedLog(n) && n.log[0] == DUMMY && n.id < n.peers
    ensures Durable(n)
  {
    assert [DUMMY] + n.log[1..] == n.log;
  }

  lemma AcceptCommit(c: State, c': State, m: Message)
    requires m in c.net && m.AppendReq?
    requires AdoptStep(c, c', m.to, m.args) && CommitFollows(c.nodes[m.to], c'.nodes[m.to], m.args)
    requires CommitInv(c) && forall x :: x in c.net ==> LogMessageOk(c.hist, x)
    requires Agree(c.nodes[m.to].log, c'.nodes[m.to].log, c.nodes[m.to].commitIndex)
    ensures CommitInv(c')
  {
    var i, args := m.to, m.args;
    assert NodeCommitOk(c, i);
    AckedConfirmed(c.hist, c'.hist, Ballot(i, args.term), args.prevIndex + |args.entries|);
    AcceptNodeCommit(c, c', i, args);
    AcceptFrame(c, c', i, args);
  }

  lemma AcceptFrame(c: State, c': State, i: nat, args: AppendArgs)
    requires AdoptStep(c, c', i, args) && Growing(c, c') && CommitInv(c) && NodeCommitOk(c', i)
    requires forall x :: x in c.net ==> LogMessageOk(c.hist, x)
    ensures CommitInv(c')
  {
    forall x | x in c.net && x.AppendReq? ensures x.args.term in c.hist.termLog { assert LogMessageOk(c.hist, x); }
    CommitFrame(c, c', i);
  }

  /** The follower commits no further than its leader had, on a log that agrees with the leader's. */
  lemma AcceptNodeCommit(c: State, c': State, i: nat, args: AppendArgs)
    requires AdoptStep(c, c', i, args) && CommitFollows(c.nodes[i], c'.nodes[i], args)
    requires Growing(c, c') && NodeCommitOk(c, i) && Agree(c.nodes[i].log, c'.nodes[i].log, c.nodes[i].commitIndex)
    requires Chosen(c, c.hist.termLog[args.term], args.leaderCommit, args.term)
    ensures NodeCommitOk(c', i)
  {
    var n, n' := c.nodes[i], c'.nodes[i];
    AdoptAgrees(c, c', i, args);
    if args.leaderCommit > n.commitIndex {
      ChosenStays(c, c', c.hist.termLog[args.term], n'.log, args.leaderCommit, args.term, args.term);
    } else {
      ChosenStays(c, c', n.log, n'.log, n.commitIndex, n.currentTerm, n'.currentTerm);
    }
    NodeCommitRaised(c, c', i);
  }

  // ---------------------------------------------------------------- replies to the leader

  lemma MatchedOk(c: State, c': State, i: nat, peer: nat, args: AppendArgs)
    requires WellFormed(c) && OnlyNode(c, c', i) && LeaderOk(c, i) && c.nodes[i].role == Leader && c'.hist == c.hist
    requires peer < |c.nodes| && args.prevIndex + |args.entries| < |c.nodes[i].log|
    requires Acked(c.hist, peer, c.nodes[i].currentTerm, args.prevIndex + |args.entries|)
    requires var m, n' := Matched(c.nodes[i], peer, args), c'.nodes[i];
      && n'.log == m.log && n'.currentTerm == m.currentTerm && n'.role == Leader
      && n'.matchIndex == m.matchIndex && n'.nextIndex == m.nextIndex
    ensures LeaderOk(c', i)
  {}

  lemma CommitScanned(c: State, c': State, i: nat, m: Node)
    requires QuietStep(c, c', i) && LogInv(c) && NodeCommitOk(c, i) && c.nodes[i].role == Leader
    requires NodeOk(m) && m.id == i && m.peers == |c.nodes| && m.baseIndex == 0
    requires m.log == c.nodes[i].log && m.currentTerm == c.nodes[i].currentTerm && SameCommit(c.nodes[i], m)
    requires forall j :: 0 <= j < m.peers && j != i && m.matchIndex[j] > 0 ==>
      Acked(c.hist, j, m.currentTerm, m.matchIndex[j])
    requires var n' := c'.nodes[i]; var index := ScanCommit(m, |m.log| - 1);
      && n'.currentTerm == m.currentTerm && n'.commitIndex == n'.lastApplied == index
      && n'.applied == m.applied + Messages(m.log, 0, m.commitIndex, index)
    ensures NodeCommitOk(c', i)
  {
    var index := ScanCommit(m, |m.log| - 1);
    assert LeaderOk(c, i);
    if index > m.commitIndex {
      ScanFindsCommitted(c, i, m, index);
      assert ChosenBy(c, m.log, index, m.currentTerm, m.currentTerm, index);
    }
    ChosenStays(c, c', m.log, m.log, index, m.currentTerm, m.currentTerm);
    NodeCommitRaised(c, c', i);
  }

  /** What the leader is after a success. */
  ghost predicate Advanced(n: Node, n': Node, m: Node)
    requires NodeOk(m)
  {
    && n'.log == n.log && n'.disk == n.disk && n'.role == n.role && n'.currentTerm == n.currentTerm
    && n'.votedFor == n.votedFor
    && n'.matchIndex == m.matchIndex && n'.nextIndex == m.nextIndex
    && var index := ScanCommit(m, |m.log| - 1);
    && n'.commitIndex == n'.lastApplied == index
    && m.commitIndex <= index < |m.log|
    && n'.applied == m.applied + Messages(m.log, 0, m.commitIndex, index)
  }

  lemma SuccessNode(n: Node, peer: nat, args: AppendArgs, reply: AppendReply)
    requires NodeOk(n) && peer < n.peers && n.baseIndex == 0
    requires n.role == Leader && n.currentTerm == args.term && reply.term <= n.currentTerm && reply.success
    requires n.lastApplied == n.commitIndex < |n.log|
    ensures NodeOk(Matched(n, peer, args))
    ensures Advanced(n, OnAppendReply(n, peer, args, reply), Matched(n, peer, args))
  {}

  lemma SuccessTracks(c: State, c': State, i: nat, peer: nat, args: AppendArgs)
    requires QuietStep(c, c', i) && c'.hist == c.hist && LogInv(c) && NodeCommitOk(c, i)
    requires c.nodes[i].role == Leader && peer < |c.nodes| && args.prevIndex + |args.entries| < |c.nodes[i].log|
    requires Acked(c.hist, peer, c.nodes[i].currentTerm, args.prevIndex + |args.entries|)
    requires NodeOk(Matched(c.nodes[i], peer, args))
      && Advanced(c.nodes[i], c'.nodes[i], Matched(c.nodes[i], peer, args))
    ensures LeaderOk(c', i) && NodeCommitOk(c', i)
  {
    assert LeaderOk(c, i);
    MatchedOk(c, c', i, peer, args);
    CommitScanned(c, c', i, Matched(c.nodes[i], peer, args));
  }

  lemma SuccessInv(c: State, c': State, i: nat, peer: nat, args: AppendArgs)
    requires Inv(c) && QuietStep(c, c', i) && CalmStep(c, c', i) && c'.net == c.net && c'.hist == c.hist
    requires c.nodes[i].role == Leader && peer < |c.nodes| && args.prevIndex + |args.entries| < |c.nodes[i].log|
    requires Acked(c.hist, peer, c.nodes[i].currentTerm, args.prevIndex + |args.entries|)
    requires NodeOk(Matched(c.nodes[i], peer, args))
      && Advanced(c.nodes[i], c'.nodes[i], Matched(c.nodes[i], peer, args))
    ensures Inv(c') && Forward(c, c')
  {
    assert NodeCommitOk(c, i) && Durable(c.nodes[i]);
    SuccessTracks(c, c', i, peer, args);
    TrackInv(c, c', i);
  }

  lemma SuccessShape(c: State, m: Message)
    requires WellFormed(c) && Enabled(c, TakeAppendResp(m)) && m.reply.success
    requires var n := c.nodes[m.args.leaderId];
      && n.role == Leader && n.currentTerm == m.args.term && m.reply.term <= n.currentTerm
      && n.lastApplied == n.commitIndex < |n.log|
    ensures var i, c' := m.args.leaderId, DoAppendResp(c, m.from, m.args, m.reply);
      && QuietStep(c, c', i) && CalmStep(c, c', i) && c'.net == c.net && c'.hist == c.hist
      && NodeOk(Matched(c.nodes[i], m.from, m.args))
      && Advanced(c.nodes[i], c'.nodes[i], Matched(c.nodes[i], m.from, m.args))
  {
    SuccessNode(c.nodes[m.args.leaderId], m.from, m.args, m.reply);
  }

  /** A rejection moves the peer's next index, and keeps it inside the leader's log. */
  lemma RejectionShape(c: State, m: Message)
    requires WellFormed(c) && Enabled(c, TakeAppendResp(m)) && !m.reply.success
    requires LogMessageOk(c.hist, m) && LeaderOk(c, m.args.leaderId) && Durable(c.nodes[m.args.leaderId])
    requires var n := c.nodes[m.args.leaderId];
      n.role == Leader && n.currentTerm == m.args.term && m.reply.term <= n.currentTerm
    ensures var i, c' := m.args.leaderId, DoAppendResp(c, m.from, m.args, m.reply);
      && QuietStep(c, c', i) && CalmStep(c, c', i) && c'.net == c.net && SameCommit(c.nodes[i], c'.nodes[i])
      && LeaderOk(c', i) && Durable(c'.nodes[i])
  {}

  lemma RejectionInv(c: State, c': State, i: nat)
    requires Inv(c) && QuietStep(c, c', i) && CalmStep(c, c', i) && c'.net == c.net
    requires SameCommit(c.nodes[i], c'.nodes[i]) && LeaderOk(c', i) && Durable(c'.nodes[i])
    ensures Inv(c') && Forward(c, c')
  {
    assert NodeCommitOk(c, i);
    NodeCommitStays(c, c', i);
    TrackInv(c, c', i);
  }

  lemma IgnoredShape(c: State, m: Message)
    requires WellFormed(c) && Enabled(c, TakeAppendResp(m))
    requires var n := c.nodes[m.args.leaderId];
      && n.log[0] == DUMMY && Durable(n)
      && (n.role != Leader || n.currentTerm != m.args.term || m.reply.term > n.currentTerm)
    ensures var c' := DoAppendResp(c, m.from, m.args, m.reply);
      QuietChange(c, c', m.args.leaderId) && CalmStep(c, c', m.args.leaderId)
  {
    PersistDurable(c.nodes[m.args.leaderId].(currentTerm := m.reply.term, votedFor := -1, role := Follower));
  }

  // ---------------------------------------------------------------- clients and restarts

  lemma SubmitShape(c: State, i: nat, command: Command)
    requires WellFormed(c) && i < |c.nodes| && Durable(c.nodes[i]) && c.nodes[i].log[0] == DUMMY
    ensures var c' := DoSubmit(c, i, command);
      && CalmStep(c, c', i) && Durable(c'.nodes[i]) && SameCommit(c.nodes[i], c'.nodes[i])
      && if c.nodes[i].role == Leader then GrowStep(c, c', i) else QuietChange(c, c', i)
  {
    var n := c.nodes[i];
    PersistDurable(n.(log := n.log + [Entry(command, n.currentTerm)]));
  }

  lemma OneLeader(c: State, i: nat)
    requires WellFormed(c) && ElectionInv(c) && i < |c.nodes| && c.nodes[i].role == Leader
    ensures OnlyLeader(c, i)
  {}

  lemma GrowCommit(c: State, c': State, i: nat)
    requires GrowStep(c, c', i) && LogInv(c) && CommitInv(c) && SameCommit(c.nodes[i], c'.nodes[i])
    ensures CommitInv(c')
  {
    assert NodeCommitOk(c, i) && LeaderOk(c, i);
    GrowExtends(c, c', i);
    NodeCommitStays(c, c', i);
    forall m | m in c.net && m.AppendReq? ensures m.args.term in c.hist.termLog { assert LogMessageOk(c.hist, m); }
    CommitFrame(c, c', i);
  }

  lemma GrowInv(c: State, c': State, i: nat)
    requires Inv(c) && GrowStep(c, c', i) && CalmStep(c, c', i)
    requires Durable(c'.nodes[i]) && SameCommit(c.nodes[i], c'.nodes[i])
    ensures Inv(c') && Forward(c, c')
  {
    ElectionCalm(c, c', i);
    OneLeader(c, i);
    LogGrow(c, c', i);
    SafetyGrow(c, c', i);
    GrowCommit(c, c', i);
    DiskFrame(c, c', i);
    assert LeaderOk(c, i);
    GrowForward(c, c', i);
  }

  lemma RestartInv(c: State, i: nat)
    requires Inv(c) && i < |c.nodes|
    ensures Inv(DoRestart(c, i)) && Forward(c, DoRestart(c, i))
  {
    assert Durable(c.nodes[i]);
    TrackInv(c, DoRestart(c, i), i);
  }

  // ---------------------------------------------------------------- any step

  lemma TimeoutInv(c: State, i: nat)
    requires Inv(c) && i < |c.nodes|
    ensures Inv(DoTimeout(c, i)) && Forward(c, DoTimeout(c, i))
  {
    TimeoutShape(c, i);
    StandInv(c, DoTimeout(c, i), i);
  }

  lemma TakeVoteReqInv(c: State, m: Message)
    requires Inv(c) && Enabled(c, TakeVoteReq(m))
    ensures Inv(DoVoteReq(c, m.to, m.ballot)) && Forward(c, DoVoteReq(c, m.to, m.ballot))
  {
    assert ElectionMessageOk(c, m) && Durable(c.nodes[m.to]);
    VoteReqShape(c, m);
    if OnVoteRequest(c.nodes[m.to], m.ballot).1.granted {
      GrantInv(c, DoVoteReq(c, m.to, m.ballot), m.to, m.ballot);
    } else {
      QuietInv(c, DoVoteReq(c, m.to, m.ballot), m.to);
    }
  }

  lemma TakeVoteRespInv(c: State, m: Message)
    requires Inv(c) && Enabled(c, TakeVoteResp(m)) && Timely(c, TakeVoteResp(m))
    ensures Inv(DoVoteResp(c, m.from, m.ballot, m.vote)) && Forward(c, DoVoteResp(c, m.from, m.ballot, m.vote))
  {
    var i := m.ballot.candidateId;
    assert ElectionMessageOk(c, m) && Durable(c.nodes[i]);
    VoteRespShape(c, m);
    if c.nodes[i].role == Candidate && m.vote.granted {
      CountInv(c, DoVoteResp(c, m.from, m.ballot, m.vote), i, m.from);
    } else {
      QuietInv(c, DoVoteResp(c, m.from, m.ballot, m.vote), i);
    }
  }

  lemma ElectionStepInv(c: State, s: Step)
    requires Inv(c) && Enabled(c, s) && Timely(c, s)
    requires s.Timeout? || s.TakeVoteReq? || s.TakeVoteResp? || s.Promote?
    ensures Inv(Do(c, s)) && Forward(c, Do(c, s))
  {
    match s
    case Timeout(i) => TimeoutInv(c, i);
    case TakeVoteReq(m) => TakeVoteReqInv(c, m);
    case TakeVoteResp(m) => TakeVoteRespInv(c, m);
    case Promote(i) => WinInv(c, DoPromote(c, i), i);
  }

  lemma AcceptedLog(c: State, n: Node, args: AppendArgs)
    requires NodeOk(n) && n.baseIndex == 0 && OnAppend(n, args).1.success && ArgsOk(c.hist, args)
    requires LogOk(n.log, c.hist.termLog) && LogOk(c.hist.termLog[args.term], c.hist.termLog)
    ensures Adopted(OnAppend(n, args).0.log, n.log, c.hist.termLog[args.term], args.prevIndex + |args.entries|)
  {
    var n' := OnAppend(n, args).0;
    AcceptNode(n, args);
    AcceptAdopts(c, n.log, args, n'.log);
  }

  lemma AcceptedShape(c: State, m: Message)
    requires WellFormed(c) && Enabled(c, TakeAppend(m)) && ArgsOk(c.hist, m.args)
    requires OnAppend(c.nodes[m.to], m.args).1.success
    requires LogOk(c.nodes[m.to].log, c.hist.termLog) && LogOk(c.hist.termLog[m.args.term], c.hist.termLog)
    requires c.nodes[m.to].role == Leader ==> c.nodes[m.to].currentTerm != m.args.term
    ensures var c' := DoAppend(c, m.to, m.args);
      && AdoptStep(c, c', m.to, m.args) && CalmStep(c, c', m.to)
      && SavedLog(c'.nodes[m.to]) && CommitFollows(c.nodes[m.to], c'.nodes[m.to], m.args)
  {
    AcceptedLog(c, c.nodes[m.to], m.args);
    AcceptShape(c, m);
  }

  lemma TakeAppendInv(c: State, m: Message)
    requires Inv(c) && Enabled(c, TakeAppend(m))
    ensures Inv(DoAppend(c, m.to, m.args)) && Forward(c, DoAppend(c, m.to, m.args))
  {
    assert LogMessageOk(c.hist, m) && TermLogOk(c, m.args.term);
    assert c.nodes[m.to].role == Leader ==> c.nodes[m.to].currentTerm != m.args.term;
    if OnAppend(c.nodes[m.to], m.args).1.success {
      AcceptedShape(c, m);
      AcceptInv(c, DoAppend(c, m.to, m.args), m);
    } else {
      assert Durable(c.nodes[m.to]);
      RejectShape(c, m);
      QuietInv(c, DoAppend(c, m.to, m.args), m.to);
    }
  }

  lemma TakeAppendRespInv(c: State, m: Message)
    requires Inv(c) && Enabled(c, TakeAppendResp(m))
    ensures Inv(DoAppendResp(c, m.from, m.args, m.reply)) && Forward(c, DoAppendResp(c, m.from, m.args, m.reply))
  {
    var i := m.args.leaderId;
    var n, c' := c.nodes[i], DoAppendResp(c, m.from, m.args, m.reply);
    assert LogMessageOk(c.hist, m) && LeaderOk(c, i) && NodeCommitOk(c, i) && Durable(n);
    if n.role != Leader || n.currentTerm != m.args.term || m.reply.term > n.currentTerm {
      IgnoredShape(c, m);
      QuietInv(c, c', i);
    } else if m.reply.success {
      SuccessShape(c, m);
      SuccessInv(c, c', i, m.from, m.args);
    } else {
      RejectionShape(c, m);
      RejectionInv(c, c', i);
    }
  }

  lemma SendAppendInv(c: State, i: nat, peer: nat)
    requires Inv(c) && Enabled(c, SendAppend(i, peer))
    ensures Inv(DoSendAppend(c, i, peer)) && Forward(c, DoSendAppend(c, i, peer))
  {
    assert LeaderOk(c, i) && NodeCommitOk(c, i) && Durable(c.nodes[i]);
    SendArgsOk(c, i, peer);
    SendAppendShape(c, i, peer);
    QuietInv(c, DoSendAppend(c, i, peer), i);
  }

  lemma SubmitInv(c: State, i: nat, command: Command)
    requires Inv(c) && i < |c.nodes|
    ensures Inv(DoSubmit(c, i, command)) && Forward(c, DoSubmit(c, i, command))
  {
    assert Durable(c.nodes[i]);
    SubmitShape(c, i, command);
    if c.nodes[i].role == Leader {
      GrowInv(c, DoSubmit(c, i, command), i);
    } else {
      QuietInv(c, DoSubmit(c, i, command), i);
    }
  }

  lemma StepInv(c: State, s: Step)
    requires Inv(c) && Enabled(c, s) && Timely(c, s)
    ensures Inv(Do(c, s)) && Forward(c, Do(c, s))
  {
    match s
    case SendAppend(i, peer) => SendAppendInv(c, i, peer);
    case TakeAppend(m) => TakeAppendInv(c, m);
    case TakeAppendResp(m) => TakeAppendRespInv(c, m);
    case Submit(i, command) => SubmitInv(c, i, command);
    case Restart(i) => RestartInv(c, i);
    case _ => ElectionStepInv(c, s);
  }

  lemma {:induction false} RunInv(n: nat, run: seq<State>, k: nat)
    requires IsRun(n, run) && k < |run|
    ensures Inv(run[k]) && |run[k].nodes| == n
  {
    if k == 0 {
      InitInv(n);
    } else {
      RunInv(n, run, k - 1);
      var s := RunStep(n, run, k - 1);
    }
  }

  lemma RunStep(n: nat, run: seq<State>, k: nat) returns (s: Step)
    requires IsRun(n, run) && k + 1 < |run| && Inv(run[k])
    ensures Enabled(run[k], s) && Timely(run[k], s) && run[k + 1] == Do(run[k], s)
    ensures Inv(run[k + 1]) && Forward(run[k], run[k + 1])
  {
    assert Next(run[k], run[k + 1]);
    s :| Enabled(run[k], s) && Timely(run[k], s) && run[k + 1] == Do(run[k], s);
    StepInv(run[k], s);
  }

  lemma ForwardRefl(c: State)
    ensures Forward(c, c)
  {}

  lemma ForwardTrans(a: State, b: State, c: State)
    requires Forward(a, b) && Forward(b, c)
    ensures Forward(a, c)
  {}

  lemma {:induction false} ChainForward(run: seq<State>, a: nat, b: nat)
    requires a <= b < |run| && forall j, k :: 0 <= j && k == j + 1 && k < |run| ==> Forward(run[j], run[k])
    ensures Forward(run[a], run[b])
  {
    if a == b {
      ForwardRefl(run[a]);
    } else {
      ChainForward(run, a, b - 1);
      ForwardTrans(run[a], run[b - 1], run[b]);
    }
  }

  lemma RunForward(n: nat, run: seq<State>, a: nat, b: nat)
    requires IsRun(n, run) && a <= b < |run|
    ensures Forward(run[a], run[b])
  {
    forall j, k | 0 <= j && k == j + 1 && k < |run| ensures Forward(run[j], run[k]) { NextForward(n, run, j); }
    ChainForward(run, a, b);
  }

  lemma NextForward(n: nat, run: seq<State>, k: nat)
    requires IsRun(n, run) && k + 1 < |run|
    ensures Forward(run[k], run[k + 1])
  {
    RunInv(n, run, k);
    var s := RunStep(n, run, k);
  }
}
