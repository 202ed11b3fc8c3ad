/** Every step keeps the commitment part of the invariant: what a node has applied was committed by a quorum. */
module CommitProof {
  import opened RaftTypes
  import opened RaftNode
  import opened LogMerge
  import opened Cluster
  import opened Invariant
  import opened ElectionProof
  import opened LogProof

  // ---------------------------------------------------------------- what is committed stays committed

  ghost predicate Growing(c: State, c': State) {
    && |c'.nodes| == |c.nodes|
    && Extends(c.hist.termLog, c'.hist.termLog)
    && forall v: nat, t: nat, k: nat :: Acked(c.hist, v, t, k) ==> Acked(c'.hist, v, t, k)
  }

  lemma CommittedStays(c: State, c': State, t: nat, k: nat)
    requires Growing(c, c') && Committed(c, t, k)
    ensures Committed(c', t, k)
  {
    var q :| IsQuorum(q, |c.nodes|) && Backs(c, q, t, k);
    assert Backs(c', q, t, k);
  }

  lemma ChosenStays(c: State, c': State, log: seq<Entry>, log': seq<Entry>, index: nat, term: nat, term': nat)
    requires Growing(c, c') && Chosen(c, log, index, term) && term <= term'
    requires index > 0 ==> Agree(log, log', index)
    ensures Chosen(c', log', index, term')
  {
    if index > 0 {
      var t, k :| ChosenBy(c, log, index, term, t, k);
      CommittedStays(c, c', t, k);
      assert ChosenBy(c', log', index, term', t, k);
    }
  }

  /** A quorum of acknowledgements and a quorum that blocks exclude one another. */
  lemma CommittedAlive(c: State, t: nat, k: nat)
    requires Committed(c, t, k)
    ensures !Dead(c, t, k)
  {
    var a :| IsQuorum(a, |c.nodes|) && Backs(c, a, t, k);
    forall b ensures !Blocks(c, b, t, k) {
      if Blocks(c, b, t, k) {
        var v := QuorumsMeet(a, b, |c.nodes|);
        assert false;
      }
    }
  }

  /** What a term committed is in the log of that term and of every later one. */
  lemma CommittedKept(c: State, t: nat, k: nat, t': nat)
    requires Committed(c, t, k) && LeadersKept(c) && t <= t' && t' in c.hist.termLog && t' in c.hist.elected
    ensures Agree(c.hist.termLog[t], c.hist.termLog[t'], k)
  {
    CommittedAlive(c, t, k);
  }

  /** Any two committed prefixes are the same as far as both go. */
  lemma ChosenAgree(c: State, a: seq<Entry>, i: nat, ta: nat, b: seq<Entry>, j: nat, tb: nat)
    requires WellFormed(c) && LogInv(c) && LeadersKept(c)
    requires LogOk(a, c.hist.termLog) && LogOk(b, c.hist.termLog)
    requires Chosen(c, a, i, ta) && Chosen(c, b, j, tb)
    ensures Agree(a, b, Min(i, j))
  {
    if i > 0 && j > 0 {
      var t, k :| ChosenBy(c, a, i, ta, t, k);
      var t', k' :| ChosenBy(c, b, j, tb, t', k');
      if t <= t' { CommittedKept(c, t, k, t'); } else { CommittedKept(c, t', k', t); }
    }
  }

  // ---------------------------------------------------------------- frames

  lemma CommitFrame(c: State, c': State, i: nat)
    requires OnlyNode(c, c', i) && Growing(c, c') && CommitInv(c)
    requires NodeCommitOk(c', i)
    requires forall m :: m in c'.net && m !in c.net && m.AppendReq? && m.args.term in c'.hist.termLog ==>
      Chosen(c', c'.hist.termLog[m.args.term], m.args.leaderCommit, m.args.term)
    requires forall m :: m in c.net && m.AppendReq? ==> m.args.term in c.hist.termLog
    ensures CommitInv(c')
  {
    forall j | 0 <= j < |c'.nodes| ensures NodeCommitOk(c', j) {
      if j != i { NodeCommitStays(c, c', j); }
    }
    forall m | m in c'.net && m.AppendReq? && m.args.term in c'.hist.termLog
      ensures Chosen(c', c'.hist.termLog[m.args.term], m.args.leaderCommit, m.args.term)
    {
      if m in c.net {
        var log := c.hist.termLog[m.args.term];
        ChosenInLog(c, log, m.args.leaderCommit, m.args.term);
        ChosenStays(c, c', log, c'.hist.termLog[m.args.term], m.args.leaderCommit, m.args.term, m.args.term);
      }
    }
  }

  lemma ChosenInLog(c: State, log: seq<Entry>, index: nat, term: nat)
    requires Chosen(c, log, index, term)
    ensures index > 0 ==> index < |log|
  {}

  /** A node that keeps its commit index and its log up to there stays in order. */
  lemma NodeCommitStays(c: State, c': State, i: nat)
    requires WellFormed(c) && WellFormed(c') && Growing(c, c') && i < |c.nodes| && NodeCommitOk(c, i)
    requires c'.nodes[i].currentTerm >= c.nodes[i].currentTerm
    requires c'.nodes[i].commitIndex == c.nodes[i].commitIndex && c'.nodes[i].lastApplied == c.nodes[i].lastApplied
    requires c'.nodes[i].applied == c.nodes[i].applied
    requires Agree(c.nodes[i].log, c'.nodes[i].log, c.nodes[i].commitIndex)
    ensures NodeCommitOk(c', i)
  {
    ChosenStays(c, c', c.nodes[i].log, c'.nodes[i].log, c.nodes[i].commitIndex,
                c.nodes[i].currentTerm, c'.nodes[i].currentTerm);
  }

  // ---------------------------------------------------------------- the steps that commit

  /** A node that raises its commit index to something chosen, and pushes what lies between. */
  lemma NodeCommitRaised(c: State, c': State, i: nat)
    requires WellFormed(c) && WellFormed(c') && Growing(c, c') && i < |c.nodes| && NodeCommitOk(c, i)
    requires var n, n' := c.nodes[i], c'.nodes[i];
      && n'.commitIndex >= n.commitIndex && n'.commitIndex < |n'.log|
      && Agree(n.log, n'.log, n.commitIndex)
      && Chosen(c', n'.log, n'.commitIndex, n'.currentTerm)
      && n'.lastApplied == n'.commitIndex
      && n'.applied == n.applied + Messages(n'.log, 0, n.commitIndex, n'.commitIndex)
    ensures NodeCommitOk(c', i)
  {}

  /** Following a leader keeps the node's committed prefix. */
  lemma AdoptKeepsCommitted(c: State, c': State, i: nat, args: AppendArgs)
    requires AdoptStep(c, c', i, args) && LogInv(c) && LeadersKept(c) && NodeCommitOk(c, i)
    ensures Agree(c.nodes[i].log, c'.nodes[i].log, c.nodes[i].commitIndex)
  {
    var n := c.nodes[i];
    var full := c.hist.termLog[args.term];
    assert TermLogOk(c, args.term);
    if n.commitIndex > 0 {
      var t, k :| ChosenBy(c, n.log, n.commitIndex, n.currentTerm, t, k);
      CommittedKept(c, t, k, args.term);
      AdoptedKeeps(c'.nodes[i].log, n.log, full, args.prevIndex + |args.entries|, c.hist.termLog[t], n.commitIndex);
    }
  }

  lemma AdoptAgrees(c: State, c': State, i: nat, args: AppendArgs)
    requires AdoptStep(c, c', i, args)
    ensures Agree(c.hist.termLog[args.term], c'.nodes[i].log, args.prevIndex + |args.entries|)
  {}

  /** What the leader's scan finds is acknowledged by a quorum. */
  lemma ScanFindsCommitted(c: State, i: nat, n: Node, index: nat)
    requires WellFormed(c) && LogInv(c) && i < |c.nodes| && c.nodes[i].role == Leader
    requires NodeOk(n) && n.id == i && n.peers == |c.nodes| && n.baseIndex == 0
    requires n.log == c.nodes[i].log && n.currentTerm == c.nodes[i].currentTerm
    requires forall j :: 0 <= j < n.peers && j != i && n.matchIndex[j] > 0 ==>
      Acked(c.hist, j, n.currentTerm, n.matchIndex[j])
    requires index > 0 && Committable(n, index)
    ensures Committed(c, n.currentTerm, index)
  {
    assert LeaderOk(c, i);
    var q := Replicas(n, index) + {i};
    assert i !in Replicas(n, index) && |q| == |Replicas(n, index)| + 1;
    assert IsQuorum(q, |c.nodes|);
    forall v | v in q ensures Acked(c.hist, v, n.currentTerm, index) {}
    assert Backs(c, q, n.currentTerm, index);
  }
}
