/** The safety of the cluster, over every run. Two moments lie in either order, unless a <= b is required. */
module RaftSafety {
  import opened Ops
  import opened RaftTypes
  import opened RaftNode
  import opened LogMerge
  import opened Cluster
  import opened Invariant
  import opened LogProof
  import opened CommitProof
  import opened StepProof

  // ---------------------------------------------------------------- what the invariant says along a run

  lemma RunNode(n: nat, run: seq<State>, a: nat, i: nat)
    requires IsRun(n, run) && a < |run| && i < |run[a].nodes|
    ensures WellFormed(run[a]) && |run[a].nodes| == n
    ensures LogOk(run[a].nodes[i].log, run[a].hist.termLog)
    ensures LeaderOk(run[a], i) && NodeCommitOk(run[a], i)
    ensures run[a].nodes[i].role == Leader ==> run[a].nodes[i].currentTerm in run[a].hist.elected
  {
    RunInv(n, run, a);
  }

  lemma RunTermLog(n: nat, run: seq<State>, a: nat, t: nat)
    requires IsRun(n, run) && a < |run| && t in run[a].hist.termLog
    ensures TermLogOk(run[a], t)
  {
    RunInv(n, run, a);
  }

  lemma RunMessage(n: nat, run: seq<State>, a: nat, m: Message)
    requires IsRun(n, run) && a < |run| && m in run[a].net
    ensures LogMessageOk(run[a].hist, m)
  {
    RunInv(n, run, a);
  }

  lemma RunAck(n: nat, run: seq<State>, a: nat, b: Ballot)
    requires IsRun(n, run) && a < |run| && b in run[a].hist.acks
    ensures AckOk(run[a], b)
  {
    RunInv(n, run, a);
  }

  lemma RunLeadersKept(n: nat, run: seq<State>, a: nat)
    requires IsRun(n, run) && a < |run|
    ensures LeadersKept(run[a])
  {
    RunInv(n, run, a);
  }

  // ---------------------------------------------------------------- elections

  /** Election safety: at most one node is ever the leader of a term. */
  lemma ElectionSafety(n: nat, run: seq<State>, a: nat, b: nat, i: nat, j: nat)
    requires IsRun(n, run) && a < |run| && b < |run| && i < |run[a].nodes| && j < |run[b].nodes|
    requires run[a].nodes[i].role == Leader && run[b].nodes[j].role == Leader
    requires run[a].nodes[i].currentTerm == run[b].nodes[j].currentTerm
    ensures i == j
  {
    RunInv(n, run, a);
    RunInv(n, run, b);
    if a <= b { RunForward(n, run, a, b); } else { RunForward(n, run, b, a); }
  }

  /** A candidate's counter is the number of distinct nodes that gave it their vote of its term, also of those that
      have moved on. */
  lemma VotesCounted(n: nat, run: seq<State>, a: nat, i: nat) returns (voters: set<nat>)
    requires IsRun(n, run) && a < |run| && i < |run[a].nodes| && run[a].nodes[i].role == Candidate
    ensures |voters| == run[a].nodes[i].votesGranted && n == |run[a].nodes|
    ensures forall v :: v in voters ==>
      && v < n && Voted(run[a].hist, v, run[a].nodes[i].currentTerm, i)
      && run[a].nodes[v].currentTerm >= run[a].nodes[i].currentTerm
      && (run[a].nodes[v].currentTerm == run[a].nodes[i].currentTerm ==> run[a].nodes[v].votedFor == i)
  {
    RunInv(n, run, a);
    voters := run[a].hist.tally[i];
    assert CandidacyOk(run[a], i);
    forall v | v in voters
      ensures v < n && run[a].nodes[v].currentTerm >= run[a].nodes[i].currentTerm
      ensures run[a].nodes[v].currentTerm == run[a].nodes[i].currentTerm ==> run[a].nodes[v].votedFor == i
    {
      assert VoteOk(run[a], Ballot(v, run[a].nodes[i].currentTerm));
    }
  }

  // ---------------------------------------------------------------- logs

  lemma LogAnchoredLater(n: nat, run: seq<State>, a: nat, b: nat, i: nat)
    requires IsRun(n, run) && a <= b < |run| && i < |run[a].nodes|
    ensures LogOk(run[a].nodes[i].log, run[b].hist.termLog)
  {
    RunNode(n, run, a, i);
    RunForward(n, run, a, b);
    LogOkExtends(run[a].nodes[i].log, run[a].hist.termLog, run[b].hist.termLog);
  }

  /** Log matching: entries with the same index and term end identical prefixes, in any two logs at any two moments. */
  lemma LogMatching(n: nat, run: seq<State>, a: nat, b: nat, i: nat, j: nat, k: nat)
    requires IsRun(n, run) && a < |run| && b < |run| && i < |run[a].nodes| && j < |run[b].nodes|
    requires k < |run[a].nodes[i].log| && k < |run[b].nodes[j].log|
    requires run[a].nodes[i].log[k].term == run[b].nodes[j].log[k].term
    ensures Agree(run[a].nodes[i].log, run[b].nodes[j].log, k)
  {
    var late := if a <= b then b else a;
    LogAnchoredLater(n, run, a, late, i);
    LogAnchoredLater(n, run, b, late, j);
    SameTermAgree(run[a].nodes[i].log, run[b].nodes[j].log, k, run[late].hist.termLog);
  }

  /** A request carries a slice of a log that matches every node's log: where it names an index and term that a node
      has, at any moment, the two agree on the entry and on all the request's entries before it. */
  lemma RequestMatching(n: nat, run: seq<State>, a: nat, b: nat, i: nat, m: Message, k: nat)
    requires IsRun(n, run) && a < |run| && b < |run| && i < |run[a].nodes| && m in run[b].net && m.AppendReq?
    requires k < |m.args.entries| && m.args.prevIndex + 1 + k < |run[a].nodes[i].log|
    requires run[a].nodes[i].log[m.args.prevIndex + 1 + k].term == m.args.entries[k].term
    ensures run[a].nodes[i].log[m.args.prevIndex].term == m.args.prevTerm
    ensures forall x :: 0 <= x <= k ==> run[a].nodes[i].log[m.args.prevIndex + 1 + x] == m.args.entries[x]
  {
    var late := if a <= b then b else a;
    RunMessage(n, run, b, m);
    RunForward(n, run, b, late);
    LogAnchoredLater(n, run, a, late, i);
    RunTermLog(n, run, late, m.args.term);
    var tl := run[late].hist.termLog;
    SameTermAgree(run[a].nodes[i].log, tl[m.args.term], m.args.prevIndex + 1 + k, tl);
  }

  // ---------------------------------------------------------------- commitment

  lemma CommitLater(n: nat, run: seq<State>, a: nat, b: nat, i: nat)
    requires IsRun(n, run) && a <= b < |run| && i < |run[a].nodes|
    ensures Chosen(run[b], run[a].nodes[i].log, run[a].nodes[i].commitIndex, run[a].nodes[i].currentTerm)
  {
    RunNode(n, run, a, i);
    RunForward(n, run, a, b);
    var x := run[a].nodes[i];
    ChosenStays(run[a], run[b], x.log, x.log, x.commitIndex, x.currentTerm, x.currentTerm);
  }

  /** What two nodes have committed, at any two moments, is the same as far as both go. */
  lemma CommitsAgree(n: nat, run: seq<State>, a: nat, b: nat, i: nat, j: nat)
    requires IsRun(n, run) && a <= b < |run| && i < |run[a].nodes| && j < |run[b].nodes|
    ensures Agree(run[a].nodes[i].log, run[b].nodes[j].log,
      Min(run[a].nodes[i].commitIndex, run[b].nodes[j].commitIndex))
  {
    RunInv(n, run, b);
    CommitLater(n, run, a, b, i);
    CommitLater(n, run, b, b, j);
    LogAnchoredLater(n, run, a, b, i);
    var x, y := run[a].nodes[i], run[b].nodes[j];
    ChosenAgree(run[b], x.log, x.commitIndex, x.currentTerm, y.log, y.commitIndex, y.currentTerm);
  }

  /** State machine safety: two nodes never push different messages at the same place of their apply streams. */
  lemma StateMachineSafety(n: nat, run: seq<State>, a: nat, b: nat, i: nat, j: nat, p: nat)
    requires IsRun(n, run) && a < |run| && b < |run| && i < |run[a].nodes| && j < |run[b].nodes|
    requires p < |run[a].nodes[i].applied| && p < |run[b].nodes[j].applied|
    ensures run[a].nodes[i].applied[p] == run[b].nodes[j].applied[p]
  {
    RunNode(n, run, a, i);
    RunNode(n, run, b, j);
    if a <= b { CommitsAgree(n, run, a, b, i, j); } else { CommitsAgree(n, run, b, a, j, i); }
  }

  /** Leader completeness: what a node has committed is in the log of every leader of every term later than the
      node's. */
  lemma LeaderCompleteness(n: nat, run: seq<State>, a: nat, b: nat, i: nat, j: nat)
    requires IsRun(n, run) && a < |run| && b < |run| && i < |run[a].nodes| && j < |run[b].nodes|
    requires run[b].nodes[j].role == Leader && run[a].nodes[i].currentTerm < run[b].nodes[j].currentTerm
    ensures Agree(run[a].nodes[i].log, run[b].nodes[j].log, run[a].nodes[i].commitIndex)
  {
    RunNode(n, run, a, i);
    RunNode(n, run, b, j);
    if run[a].nodes[i].commitIndex > 0 {
      if a <= b { CompleteLater(n, run, a, b, i, j); } else { CompleteEarlier(n, run, b, a, i, j); }
    }
  }

  lemma CompleteLater(n: nat, run: seq<State>, a: nat, b: nat, i: nat, j: nat)
    requires IsRun(n, run) && a <= b < |run| && i < |run[a].nodes| && j < |run[b].nodes|
    requires run[b].nodes[j].role == Leader && run[a].nodes[i].commitIndex > 0
    requires run[a].nodes[i].currentTerm < run[b].nodes[j].currentTerm
    ensures Agree(run[a].nodes[i].log, run[b].nodes[j].log, run[a].nodes[i].commitIndex)
  {
    CommitLater(n, run, a, b, i);
    RunNode(n, run, b, j);
    RunLeadersKept(n, run, b);
    var x := run[a].nodes[i];
    var t: nat, k: nat :| ChosenBy(run[b], x.log, x.commitIndex, x.currentTerm, t, k);
    CommittedKept(run[b], t, k, run[b].nodes[j].currentTerm);
  }

  /** The commit came after the later leader's election: it was in that leader's log from the start. */
  lemma CompleteEarlier(n: nat, run: seq<State>, b: nat, a: nat, i: nat, j: nat)
    requires IsRun(n, run) && b <= a < |run| && i < |run[a].nodes| && j < |run[b].nodes|
    requires run[b].nodes[j].role == Leader && run[a].nodes[i].commitIndex > 0
    requires run[a].nodes[i].currentTerm < run[b].nodes[j].currentTerm
    ensures Agree(run[a].nodes[i].log, run[b].nodes[j].log, run[a].nodes[i].commitIndex)
  {
    RunForward(n, run, b, a);
    CommitLater(n, run, a, a, i);
    RunNode(n, run, b, j);
    RunLeadersKept(n, run, a);
    var x, term := run[a].nodes[i], run[b].nodes[j].currentTerm;
    RunTermLog(n, run, b, term);
    var t: nat, k: nat :| ChosenBy(run[a], x.log, x.commitIndex, x.currentTerm, t, k);
    CommittedAlive(run[a], t, k);
    assert k < run[a].hist.elected[term].length && Agree(run[a].hist.termLog[t], run[a].hist.termLog[term], k);
  }

  // ---------------------------------------------------------------- bookkeeping

  /** Match-index soundness: a follower in the leader's term holds the leader's log up to the leader's match index. */
  lemma MatchIndexSound(n: nat, run: seq<State>, a: nat, i: nat, j: nat)
    requires IsRun(n, run) && a < |run| && i < |run[a].nodes| && j < |run[a].nodes| && i != j
    requires run[a].nodes[i].role == Leader && run[a].nodes[j].currentTerm == run[a].nodes[i].currentTerm
    ensures j < |run[a].nodes[i].matchIndex|
    ensures Agree(run[a].nodes[i].log, run[a].nodes[j].log, run[a].nodes[i].matchIndex[j])
  {
    RunNode(n, run, a, i);
    RunNode(n, run, a, j);
    if run[a].nodes[i].matchIndex[j] > 0 {
      RunAck(n, run, a, Ballot(j, run[a].nodes[i].currentTerm));
    }
  }

  lemma CommittableQuorum(n: Node, index: nat)
    requires NodeOk(n) && Committable(n, index)
    ensures IsQuorum(Replicas(n, index) + {n.id}, n.peers)
  {
    assert |Replicas(n, index) + {n.id}| == |Replicas(n, index)| + 1;
  }

  /** Whenever a reply lets a leader commit, a majority that includes it holds its log up to the new commit index,
      whatever term each of those nodes is in by now. */
  lemma CommitOnMajority(n: nat, run: seq<State>, a: nat, m: Message) returns (q: set<nat>)
    requires IsRun(n, run) && a < |run| && WellFormed(run[a]) && Enabled(run[a], TakeAppendResp(m))
    requires var i, c' := m.args.leaderId, DoAppendResp(run[a], m.from, m.args, m.reply);
      c'.nodes[i].commitIndex > run[a].nodes[i].commitIndex
    ensures IsQuorum(q, n) && m.args.leaderId in q && n == |run[a].nodes|
    ensures var leader := DoAppendResp(run[a], m.from, m.args, m.reply).nodes[m.args.leaderId];
      forall v :: v in q ==> Agree(leader.log, run[a].nodes[v].log, leader.commitIndex)
  {
    var i := m.args.leaderId;
    var before, leader := run[a].nodes[i], DoAppendResp(run[a], m.from, m.args, m.reply).nodes[i];
    RunNode(n, run, a, i);
    RunMessage(n, run, a, m);
    SuccessNode(before, m.from, m.args, m.reply);
    RunInv(n, run, a);
    q := ScannedQuorum(run[a], i, Matched(before, m.from, m.args), leader.commitIndex);
  }

  /** The quorum behind a committable index holds the leader's log up to it: what it acknowledged cannot be dead. */
  lemma ScannedQuorum(c: State, i: nat, n: Node, index: nat) returns (q: set<nat>)
    requires WellFormed(c) && LogInv(c) && AcksKept(c) && i < |c.nodes| && c.nodes[i].role == Leader
    requires NodeOk(n) && n.id == i && n.peers == |c.nodes| && n.baseIndex == 0
    requires n.log == c.nodes[i].log && n.currentTerm == c.nodes[i].currentTerm
    requires forall j :: 0 <= j < n.peers && j != i && n.matchIndex[j] > 0 ==>
      Acked(c.hist, j, n.currentTerm, n.matchIndex[j])
    requires index > 0 && Committable(n, index)
    ensures IsQuorum(q, |c.nodes|) && i in q
    ensures forall v :: v in q ==> Agree(n.log, c.nodes[v].log, index)
  {
    assert LeaderOk(c, i);
    ScanFindsCommitted(c, i, n, index);
    CommittedAlive(c, n.currentTerm, index);
    q := Replicas(n, index) + {i};
    CommittableQuorum(n, index);
    forall v | v in q ensures Agree(n.log, c.nodes[v].log, index) {
      assert Acked(c.hist, v, n.currentTerm, index);
      assert Kept(c, c.nodes[v].log, n.currentTerm, index);
    }
  }

  // ---------------------------------------------------------------- fresh entries

  /** No log has an entry of a leader's term at the index where the leader appends next. */
  lemma NextIsFree(c: State, i: nat, log: seq<Entry>)
    requires WellFormed(c) && i < |c.nodes| && c.nodes[i].role == Leader && LeaderOk(c, i) && LogOk(log, c.hist.termLog)
    ensures |c.nodes[i].log| < |log| ==> log[|c.nodes[i].log|].term != c.nodes[i].currentTerm
  {
    if |c.nodes[i].log| < |log| { assert Anchored(log, |c.nodes[i].log|, c.hist.termLog); }
  }

  /** Freshness: an entry that a leader appends, if it is ever committed, comes after everything that any node has
      ever committed by then, and whoever applies it has applied all that before. The append is at moment m, the
      earlier commit at moment a, and the entry is found committed at moment b. */
  lemma EntriesAreFresh(n: nat, run: seq<State>, a: nat, m: nat, b: nat, i: nat, j: nat, x: nat)
    requires IsRun(n, run) && a <= m < |run| && b < |run|
    requires i < |run[m].nodes| && j < |run[a].nodes| && x < |run[b].nodes|
    requires run[m].nodes[i].role == Leader
    requires var q := |run[m].nodes[i].log|;
      && run[b].nodes[x].commitIndex >= q && q < |run[b].nodes[x].log|
      && run[b].nodes[x].log[q].term == run[m].nodes[i].currentTerm
    ensures run[a].nodes[j].commitIndex < |run[m].nodes[i].log| <= |run[b].nodes[x].applied|
    ensures run[a].nodes[j].applied <= run[b].nodes[x].applied[..|run[m].nodes[i].log| - 1]
  {
    var q := |run[m].nodes[i].log|;
    RunNode(n, run, m, i);
    RunNode(n, run, a, j);
    RunNode(n, run, b, x);
    LogAnchoredLater(n, run, a, m, j);
    NextIsFree(run[m], i, run[a].nodes[j].log);
    if run[a].nodes[j].commitIndex >= q { StateMachineSafety(n, run, a, b, j, x, q - 1); }
    forall p | 0 <= p < |run[a].nodes[j].applied| ensures run[a].nodes[j].applied[p] == run[b].nodes[x].applied[p] {
      StateMachineSafety(n, run, a, b, j, x, p);
    }
  }

  /** Index invariants: the dummy entry stays, leaders can always build a request to every peer, nothing is applied
      beyond the log, and the apply stream counts 1, 2, 3 and so on. */
  lemma IndexInvariants(n: nat, run: seq<State>, a: nat, i: nat)
    requires IsRun(n, run) && a < |run| && i < |run[a].nodes|
    ensures WellFormed(run[a]) && |run[a].nodes| == n && run[a].nodes[i].log[0] == DUMMY
    ensures var x := run[a].nodes[i];
      && x.commitIndex == x.lastApplied == |x.applied| <= LastIndex(x)
      && (forall p :: 0 <= p < |x.applied| ==> x.applied[p].index == p + 1)
      && (x.role == Leader ==> forall j :: 0 <= j < n ==> CanBuild(x, j) && x.matchIndex[j] <= LastIndex(x))
  {
    RunNode(n, run, a, i);
  }

  ghost predicate CommitGrows(n: Node, n': Node) {
    n'.commitIndex >= n.commitIndex && n.applied <= n'.applied
  }

  lemma AppendGrows(n: Node, args: AppendArgs)
    requires NodeOk(n) && args.leaderCommit <= args.prevIndex + |args.entries|
    ensures CommitGrows(n, OnAppend(n, args).0)
  {
    if n.currentTerm <= args.term {
      var m := Recognise(n, args.term);
      assert m.commitIndex == n.commitIndex && m.applied == n.applied;
      if Consistent(m, args) { MergeCovers(m.log, args.prevIndex - m.baseIndex + 1, args.entries); }
    }
  }

  lemma OtherHandlersGrow(n: Node, peer: nat, ballot: VoteArgs, vote: VoteReply, command: Command)
    requires NodeOk(n) && peer < n.peers
    ensures CommitGrows(n, StartElection(n)) && CommitGrows(n, OnVoteRequest(n, ballot).0)
    ensures CommitGrows(n, OnVoteReply(n, vote)) && CommitGrows(n, BecomeLeader(n))
      && CommitGrows(n, Start(n, command).0)
  {}

  lemma ReplyGrows(n: Node, peer: nat, args: AppendArgs, reply: AppendReply)
    requires NodeOk(n) && peer < n.peers
    ensures CommitGrows(n, OnAppendReply(n, peer, args, reply))
  {}

  lemma StepGrows(c: State, s: Step, i: nat)
    requires WellFormed(c) && Enabled(c, s) && i < |c.nodes| && !s.Restart?
    requires s.TakeAppend? ==> s.m.args.leaderCommit <= s.m.args.prevIndex + |s.m.args.entries|
    ensures CommitGrows(c.nodes[i], Do(c, s).nodes[i])
  {
    var n := c.nodes[i];
    match s
    case Timeout(_) => OtherHandlersGrow(n, i, VoteArgs(0, 0, 0, 0), VoteReply(0, false), Blank);
    case TakeVoteReq(m) => OtherHandlersGrow(n, i, m.ballot, VoteReply(0, false), Blank);
    case TakeVoteResp(m) => OtherHandlersGrow(n, i, m.ballot, m.vote, Blank);
    case Promote(_) => OtherHandlersGrow(n, i, VoteArgs(0, 0, 0, 0), VoteReply(0, false), Blank);
    case SendAppend(_, _) =>
    case TakeAppend(m) => AppendGrows(n, m.args);
    case TakeAppendResp(m) => ReplyGrows(n, m.from, m.args, m.reply);
    case Submit(_, command) => OtherHandlersGrow(n, i, VoteArgs(0, 0, 0, 0), VoteReply(0, false), command);
  }

  /** A node's commit index never falls and its apply stream only grows, except that a restart begins both anew. */
  lemma CommitMonotone(n: nat, run: seq<State>, a: nat, i: nat)
    requires IsRun(n, run) && a + 1 < |run| && i < |run[a].nodes|
    ensures WellFormed(run[a]) && i < |run[a + 1].nodes|
    ensures run[a + 1] == DoRestart(run[a], i)
      || (run[a + 1].nodes[i].commitIndex >= run[a].nodes[i].commitIndex
          && run[a].nodes[i].applied <= run[a + 1].nodes[i].applied)
  {
    assert Next(run[a], run[a + 1]);
    var s :| Enabled(run[a], s) && Timely(run[a], s) && run[a + 1] == Do(run[a], s);
    if s.TakeAppend? { RunMessage(n, run, a, s.m); }
    if !s.Restart? { StepGrows(run[a], s, i); }
  }

  // ---------------------------------------------------------------- durability

  /** Durability: at every step boundary, starting on a node's persister restores its term, vote and log. */
  lemma Durability(n: nat, run: seq<State>, a: nat, i: nat)
    requires IsRun(n, run) && a < |run| && i < n
    ensures |run[a].nodes| == n
    ensures var x, b := run[a].nodes[i], Boot(i, n, run[a].nodes[i].disk);
      b.currentTerm == x.currentTerm && b.votedFor == x.votedFor && b.log == x.log
  {
    RunInv(n, run, a);
    assert Durable(run[a].nodes[i]);
  }
}
