/** Progress: from every reachable state any majority can, on its own, commit a command and apply it. */
module Progress {
  import opened Ops
  import opened RaftTypes
  import opened RaftNode
  import opened LogMerge
  import opened Cluster
  import opened Invariant
  import opened ElectionProof
  import opened RaftSafety
  import opened Backtracking
  import opened Effects
  import opened Elections

  // ---------------------------------------------------------------- replicating to one member

  /** A request, its answer and the leader's reaction, as three steps. */
  lemma ExchangeSteps(c: State, i: nat, p: nat) returns (c1: State, c2: State, c3: State)
    requires WellFormed(c) && i < |c.nodes| && p < |c.nodes| && p != i && CanSend(c.nodes[i], c.nodes[p], p)
    ensures Next(c, c1) && Next(c1, c2) && Next(c2, c3) && WellFormed(c3)
    ensures c1.nodes == c.nodes && OnlyNode(c1, c2, p) && OnlyNode(c2, c3, i)
    ensures c3.nodes[i] == Round(c.nodes[i], c.nodes[p], p).0 && c3.nodes[p] == Round(c.nodes[i], c.nodes[p], p).1
  {
    var args := AppendFor(c.nodes[i], p);
    var reply := OnAppend(c.nodes[p], args).1;
    SendDoes(c, i, p);
    c1 := DoSendAppend(c, i, p);
    AppendDoes(c1, p, args);
    c2 := DoAppend(c1, p, args);
    ReplyDoes(c2, p, args, reply);
    c3 := DoAppendResp(c2, p, args, reply);
  }

  lemma Exchange(n: nat, run: seq<State>, group: set<nat>, i: nat, p: nat) returns (run': seq<State>)
    requires IsRun(n, run) && Leads(Last(run), group, i) && p in group && p != i
    requires CanSend(Last(run).nodes[i], Last(run).nodes[p], p)
    ensures GoesOn(n, run, run', group) && WellFormed(Last(run'))
    ensures Untouched(Last(run), Last(run'), {i, p})
    ensures Last(run').nodes[i] == Round(Last(run).nodes[i], Last(run).nodes[p], p).0
    ensures Last(run').nodes[p] == Round(Last(run).nodes[i], Last(run).nodes[p], p).1
  {
    var c1, c2, c3 := ExchangeSteps(Last(run), i, p);
    var run2 := GoTwice(n, run, c1, c2, group);
    run' := Go(n, run2, c3, group);
    GoesOnTrans(n, run, run2, run', group);
  }

  lemma RunPair(n: nat, run: seq<State>, group: set<nat>, i: nat, p: nat)
    requires IsRun(n, run) && Leads(Last(run), group, i) && p in group && p != i
    ensures Pair(Last(run).nodes[i], Last(run).nodes[p], p)
  {
    var a := |run| - 1;
    RunNode(n, run, a, i);
    RunNode(n, run, a, p);
    forall k | 0 <= k < |run[a].nodes[i].log| && k < |run[a].nodes[p].log|
        && run[a].nodes[i].log[k].term == run[a].nodes[p].log[k].term
      ensures Agree(run[a].nodes[i].log, run[a].nodes[p].log, k)
    {
      LogMatching(n, run, a, a, i, p, k);
    }
  }

  /** What replicating to p leaves: the leader and its log as they were, p in the leader's term, and p's match index at
      the end of the log; the leader knows no less of the others. */
  ghost predicate Replicated(c: State, c': State, group: set<nat>, i: nat, p: nat)
    requires Leads(c, group, i) && p < |c.nodes|
  {
    && Leads(c', group, i) && |c'.nodes| == |c.nodes| && Untouched(c, c', {i, p})
    && var n, n' := c.nodes[i], c'.nodes[i];
    && n'.log == n.log && n'.currentTerm == n.currentTerm
    && n'.matchIndex[p] >= LastIndex(n)
    && c'.nodes[p].currentTerm == n.currentTerm
    && (forall j :: 0 <= j < |c.nodes| && j != p ==> n'.matchIndex[j] == n.matchIndex[j])
    && NothingLeft(n')
  }

  /** No entry of the leader's term that a majority holds, as far as the leader knows, is left uncommitted. */
  ghost predicate NothingLeft(n: Node)
    requires n.peers == |n.matchIndex|
  {
    forall k: nat :: k < |n.log| && n.log[k].term == n.currentTerm && 2 * |Holders(n, k)| > n.peers ==>
      n.commitIndex >= k
  }

  /** An accepted request leaves the follower in the leader's term and the leader with all of its log counted. */
  lemma AcceptedRound(ld: Node, f: Node, p: nat)
    requires Pair(ld, f, p) && Round(ld, f, p).2
    ensures var (ld', f', _) := Round(ld, f, p);
      && ld'.role == Leader && ld'.log == ld.log && ld'.currentTerm == ld.currentTerm == f'.currentTerm
      && ld'.matchIndex[p] >= LastIndex(ld)
      && (forall j :: 0 <= j < ld.peers && j != p ==> ld'.matchIndex[j] == ld.matchIndex[j])
  {
    var args := AppendFor(ld, p);
    AppendAnswer(f, args);
    AppendRecognises(f, args);
    RequestTells(ld, p);
    SuccessCounts(ld, p, args, OnAppend(f, args).1);
  }

  lemma AcceptedCommits(ld: Node, f: Node, p: nat)
    requires Pair(ld, f, p) && Round(ld, f, p).2
    ensures NothingLeft(Round(ld, f, p).0)
  {
    var args := AppendFor(ld, p);
    var reply := OnAppend(f, args).1;
    AppendAnswer(f, args);
    SuccessCounts(ld, p, args, reply);
    var ld' := OnAppendReply(ld, p, args, reply);
    forall k: nat | k < |ld'.log| && ld'.log[k].term == ld'.currentTerm && 2 * |Holders(ld', k)| > ld'.peers
      ensures ld'.commitIndex >= k
    {
      SuccessCommits(ld, p, args, reply, k);
    }
  }

  lemma AcceptedReplicates(n: nat, run: seq<State>, group: set<nat>, i: nat, p: nat) returns (run': seq<State>)
    requires IsRun(n, run) && Leads(Last(run), group, i) && p in group && p != i
    requires Pair(Last(run).nodes[i], Last(run).nodes[p], p)
    requires Round(Last(run).nodes[i], Last(run).nodes[p], p).2
    ensures GoesOn(n, run, run', group) && Replicated(Last(run), Last(run'), group, i, p)
  {
    run' := Exchange(n, run, group, i, p);
    RoundReplicates(Last(run), Last(run'), group, i, p);
  }

  lemma RoundReplicates(c: State, c': State, group: set<nat>, i: nat, p: nat)
    requires Leads(c, group, i) && p in group && p != i
    requires Pair(c.nodes[i], c.nodes[p], p) && Round(c.nodes[i], c.nodes[p], p).2
    requires WellFormed(c') && Untouched(c, c', {i, p})
    requires c'.nodes[i] == Round(c.nodes[i], c.nodes[p], p).0 && c'.nodes[p] == Round(c.nodes[i], c.nodes[p], p).1
    ensures Replicated(c, c', group, i, p)
  {
    AcceptedRound(c.nodes[i], c.nodes[p], p);
    AcceptedCommits(c.nodes[i], c.nodes[p], p);
    StillLeads(c, c', group, i, p);
  }

  lemma StillLeads(c: State, c': State, group: set<nat>, i: nat, p: nat)
    requires Leads(c, group, i) && WellFormed(c') && p < |c.nodes| && Untouched(c, c', {i, p})
    requires c'.nodes[i].role == Leader && c'.nodes[p].currentTerm <= c'.nodes[i].currentTerm == c.nodes[i].currentTerm
    ensures Leads(c', group, i)
  {}

  /** Sending until the follower accepts. */
  lemma {:induction false} Replicate(n: nat, run: seq<State>, group: set<nat>, i: nat, p: nat)
    returns (run': seq<State>)
    requires IsRun(n, run) && Leads(Last(run), group, i) && p in group && p != i
    ensures GoesOn(n, run, run', group) && Replicated(Last(run), Last(run'), group, i, p)
    decreases if p < |Last(run).nodes[i].nextIndex| then Last(run).nodes[i].nextIndex[p] else 0
  {
    var c := Last(run);
    RunPair(n, run, group, i, p);
    if Round(c.nodes[i], c.nodes[p], p).2 {
      run' := AcceptedReplicates(n, run, group, i, p);
    } else {
      RefusalMovesBack(c.nodes[i], c.nodes[p], p);
      RefusalEffect(c.nodes[i], p, AppendFor(c.nodes[i], p), OnAppend(c.nodes[p], AppendFor(c.nodes[i], p)).1);
      var run1 := Exchange(n, run, group, i, p);
      AppendRecognises(c.nodes[p], AppendFor(c.nodes[i], p));
      run' := Replicate(n, run1, group, i, p);
      GoesOnTrans(n, run, run1, run', group);
    }
  }

  // ---------------------------------------------------------------- replicating to all

  /** The same for several members; if there is one, whatever of the leader's term a majority holds is committed. */
  ghost predicate Spread(c: State, c': State, group: set<nat>, i: nat, done: set<nat>)
    requires Leads(c, group, i)
  {
    && Leads(c', group, i) && |c'.nodes| == |c.nodes| && Untouched(c, c', done + {i})
    && var n, n' := c.nodes[i], c'.nodes[i];
    && n'.log == n.log && n'.currentTerm == n.currentTerm
    && (forall p :: p in done ==>
          p < |c.nodes| && n'.matchIndex[p] >= LastIndex(n) && c'.nodes[p].currentTerm == n.currentTerm)
    && (done != {} ==> NothingLeft(n'))
  }

  lemma SpreadMore(c: State, c1: State, c2: State, group: set<nat>, i: nat, done: set<nat>, p: nat)
    requires Leads(c, group, i) && Spread(c, c1, group, i, done) && p in group && p != i && p !in done
    requires done <= group - {i} && p < |c1.nodes| && Replicated(c1, c2, group, i, p)
    ensures Spread(c, c2, group, i, done + {p})
  {}

  lemma SpreadNone(n: nat, run: seq<State>, group: set<nat>, i: nat, none: set<nat>)
    requires IsRun(n, run) && Leads(Last(run), group, i) && none == {}
    ensures GoesOn(n, run, run, group) && Spread(Last(run), Last(run), group, i, none)
  {
    GoesOnRefl(n, run, group);
  }

  lemma SpreadOne(
    n: nat, run: seq<State>, run1: seq<State>, group: set<nat>, i: nat, done: set<nat>, p: nat, all: set<nat>)
    returns (run': seq<State>)
    requires GoesOn(n, run, run1, group) && Leads(Last(run), group, i) && Spread(Last(run), Last(run1), group, i, done)
    requires done <= group - {i} && p in group && p != i && p !in done && all == done + {p}
    ensures GoesOn(n, run, run', group) && Spread(Last(run), Last(run'), group, i, all)
  {
    run' := Replicate(n, run1, group, i, p);
    SpreadMore(Last(run), Last(run1), Last(run'), group, i, done, p);
    GoesOnTrans(n, run, run1, run', group);
  }

  lemma {:induction false} SpreadTo(n: nat, run: seq<State>, group: set<nat>, i: nat, todo: set<nat>)
    returns (run': seq<State>)
    requires IsRun(n, run) && Leads(Last(run), group, i) && todo <= group - {i}
    ensures GoesOn(n, run, run', group) && Spread(Last(run), Last(run'), group, i, todo)
    decreases |todo|
  {
    if todo == {} {
      SpreadNone(n, run, group, i, todo);
      run' := run;
    } else {
      var p :| p in todo;
      var run1 := SpreadTo(n, run, group, i, todo - {p});
      run' := SpreadOne(n, run, run1, group, i, todo - {p}, p, todo);
    }
  }

  /** Once all of a majority hold the log, its last entry is committed if it is of the leader's term. */
  lemma MajorityCounts(c: State, group: set<nat>, i: nat)
    requires WellFormed(c) && i in group && IsQuorum(group, |c.nodes|)
    requires forall p :: p in group && p != i ==> c.nodes[i].matchIndex[p] >= LastIndex(c.nodes[i])
    ensures 2 * |Holders(c.nodes[i], LastIndex(c.nodes[i]))| > |c.nodes|
  {
    var holders := Holders(c.nodes[i], LastIndex(c.nodes[i]));
    assert group <= holders;
    SubsetSize(group, holders);
  }

  lemma SubsetSize(a: set<nat>, b: set<nat>)
    requires a <= b
    ensures |a| <= |b|
  {
    assert b == a + (b - a);
  }

  // ---------------------------------------------------------------- telling the followers

  /** A member that holds the leader's log commits as far as the leader has, by one more request. */
  lemma Tell(n: nat, run: seq<State>, group: set<nat>, i: nat, p: nat) returns (run': seq<State>)
    requires IsRun(n, run) && Leads(Last(run), group, i) && p in group && p != i
    requires Last(run).nodes[p].currentTerm == Last(run).nodes[i].currentTerm
    requires Last(run).nodes[i].matchIndex[p] >= LastIndex(Last(run).nodes[i])
    ensures GoesOn(n, run, run', group) && WellFormed(Last(run')) && Untouched(Last(run), Last(run'), {p})
    ensures Last(run').nodes[p].commitIndex >= Last(run).nodes[i].commitIndex
    ensures Last(run').nodes[p].currentTerm == Last(run).nodes[p].currentTerm
  {
    var c, a := Last(run), |run| - 1;
    RunNode(n, run, a, i);
    MatchIndexSound(n, run, a, i, p);
    var args := AppendFor(c.nodes[i], p);
    RequestTells(c.nodes[i], p);
    AppendAnswer(c.nodes[p], args);
    AppendRecognises(c.nodes[p], args);
    AcceptFollows(c.nodes[p], args);
    SendDoes(c, i, p);
    var c1 := DoSendAppend(c, i, p);
    var run1 := Go(n, run, c1, group);
    AppendDoes(c1, p, args);
    run' := Go(n, run1, DoAppend(c1, p, args), group);
    GoesOnTrans(n, run, run1, run', group);
  }

  lemma {:induction false} TellAll(n: nat, run: seq<State>, group: set<nat>, i: nat, todo: set<nat>)
    returns (run': seq<State>)
    requires IsRun(n, run) && Leads(Last(run), group, i) && todo <= group - {i}
    requires forall p :: p in todo ==>
      && Last(run).nodes[p].currentTerm == Last(run).nodes[i].currentTerm
      && p < |Last(run).nodes[i].matchIndex| && Last(run).nodes[i].matchIndex[p] >= LastIndex(Last(run).nodes[i])
    ensures GoesOn(n, run, run', group) && Untouched(Last(run), Last(run'), todo)
    ensures WellFormed(Last(run'))
    ensures forall p :: p in todo ==> Last(run').nodes[p].commitIndex >= Last(run).nodes[i].commitIndex
    decreases |todo|
  {
    if todo == {} {
      GoesOnRefl(n, run, group);
      run' := run;
    } else {
      var p :| p in todo;
      var run1 := Tell(n, run, group, i, p);
      run' := TellAll(n, run1, group, i, todo - {p});
      GoesOnTrans(n, run, run1, run', group);
    }
  }

  // ---------------------------------------------------------------- the whole way

  /** Handing the leader a command. */
  lemma Hand(n: nat, run: seq<State>, group: set<nat>, i: nat, command: Command) returns (run': seq<State>)
    requires IsRun(n, run) && Leads(Last(run), group, i)
    ensures GoesOn(n, run, run', group) && Leads(Last(run'), group, i)
    ensures var ld, ld' := Last(run).nodes[i], Last(run').nodes[i];
      |ld'.log| == |ld.log| + 1 && ld'.log[|ld.log|] == Entry(command, ld'.currentTerm)
  {
    var c := Last(run);
    SubmitDoes(c, i, command);
    StartTells(c.nodes[i], command);
    run' := Go(n, run, DoSubmit(c, i, command), group);
  }

  /** The leader gets its last entry, of its own term, committed. */
  lemma CommitLast(n: nat, run: seq<State>, group: set<nat>, i: nat) returns (run': seq<State>)
    requires IsRun(n, run) && Leads(Last(run), group, i) && IsQuorum(group, n) && n >= 2
    requires LastTerm(Last(run).nodes[i].log) == Last(run).nodes[i].currentTerm
    ensures GoesOn(n, run, run', group) && Spread(Last(run), Last(run'), group, i, group - {i})
    ensures Last(run').nodes[i].commitIndex >= LastIndex(Last(run).nodes[i])
  {
    RunNode(n, run, |run| - 1, i);
    run' := SpreadTo(n, run, group, i, group - {i});
    SpreadCommits(Last(run), Last(run'), group, i);
  }

  lemma SpreadCommits(c: State, c': State, group: set<nat>, i: nat)
    requires Leads(c, group, i) && Spread(c, c', group, i, group - {i}) && IsQuorum(group, |c.nodes|) && |c.nodes| >= 2
    requires LastTerm(c.nodes[i].log) == c.nodes[i].currentTerm
    ensures c'.nodes[i].commitIndex >= LastIndex(c.nodes[i])
  {
    assert |group - {i}| == |group| - 1;
    MajorityCounts(c', group, i);
  }

  /** Progress: any majority of two nodes or more can, with nobody else taking a step, get a command committed, at some
      index, and applied by all its members. */
  lemma CanProgress(n: nat, run: seq<State>, group: set<nat>, command: Command)
    returns (run': seq<State>, index: nat)
    requires IsRun(n, run) && IsQuorum(group, n) && n >= 2
    ensures GoesOn(n, run, run', group) && |Last(run').nodes| == n && index >= 1
    ensures forall p :: p in group ==>
      && |Last(run').nodes[p].applied| >= index
      && Last(run').nodes[p].applied[index - 1].index == index
      && Last(run').nodes[p].applied[index - 1].command == command
  {
    var run1, i := Elect(n, run, group);
    var run2 := Hand(n, run1, group, i, command);
    var run3 := CommitLast(n, run2, group, i);
    run' := TellAll(n, run3, group, i, group - {i});
    GoesOnTrans(n, run, run1, run2, group);
    GoesOnTrans(n, run, run2, run3, group);
    GoesOnTrans(n, run, run3, run', group);
    index := LastIndex(Last(run2).nodes[i]);
    AllApplied(n, run', group, i, index, command);
  }

  lemma AllApplied(n: nat, run: seq<State>, group: set<nat>, i: nat, index: nat, command: Command)
    requires IsRun(n, run) && WellFormed(Last(run)) && Members(Last(run), group) && i in group && index >= 1
    requires forall p :: p in group ==> Last(run).nodes[p].commitIndex >= index
    requires index < |Last(run).nodes[i].log| && Last(run).nodes[i].log[index].command == command
    ensures |Last(run).nodes| == n
    ensures forall p :: p in group ==>
      && |Last(run).nodes[p].applied| >= index
      && Last(run).nodes[p].applied[index - 1].index == index
      && Last(run).nodes[p].applied[index - 1].command == command
  {
    var a := |run| - 1;
    RunNode(n, run, a, i);
    forall p | p in group
      ensures |run[a].nodes[p].applied| >= index
      ensures run[a].nodes[p].applied[index - 1].index == index
      ensures run[a].nodes[p].applied[index - 1].command == command
    {
      RunNode(n, run, a, p);
      StateMachineSafety(n, run, a, a, i, p, index - 1);
    }
  }

  // ---------------------------------------------------------------- a cluster of one

  /** A node that is alone never commits anything: the commit index is looked at only when a reply comes. */
  lemma {:induction false} AloneCommitsNothing(run: seq<State>, a: nat)
    requires IsRun(1, run) && a < |run|
    ensures |run[a].nodes| == 1 && run[a].net == {} && run[a].nodes[0].commitIndex == 0
  {
    if a > 0 {
      AloneCommitsNothing(run, a - 1);
      assert Next(run[a - 1], run[a]);
      var s :| Enabled(run[a - 1], s) && Timely(run[a - 1], s) && run[a] == Do(run[a - 1], s);
      AloneStays(run[a - 1], s);
    }
  }

  lemma AloneStays(c: State, s: Step)
    requires WellFormed(c) && |c.nodes| == 1 && c.net == {} && c.nodes[0].commitIndex == 0 && Enabled(c, s)
    ensures var c' := Do(c, s); c'.net == {} && c'.nodes[0].commitIndex == 0
  {}
}
