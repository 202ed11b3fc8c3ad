/** Elections: from every reachable state any majority can, on its own, come to have a leader. */
module Elections {
  import opened Ops
  import opened RaftTypes
  import opened RaftNode
  import opened Cluster
  import opened Invariant
  import opened ElectionProof
  import opened StepProof
  import opened Effects

  // ---------------------------------------------------------------- extending a run

  /** The run goes on, and of all nodes only members of the group change. */
  ghost predicate GoesOn(n: nat, run: seq<State>, run': seq<State>, group: set<nat>) {
    && IsRun(n, run) && IsRun(n, run') && |run| <= |run'| && run'[..|run|] == run
    && Untouched(Last(run), Last(run'), group)
  }

  ghost predicate Untouched(c: State, c': State, group: set<nat>) {
    |c.nodes| == |c'.nodes| && forall j :: 0 <= j < |c.nodes| && j !in group ==> c'.nodes[j] == c.nodes[j]
  }

  ghost function Last(run: seq<State>): State
    requires |run| > 0
  {
    run[|run| - 1]
  }

  lemma GoesOnTrans(n: nat, a: seq<State>, b: seq<State>, c: seq<State>, group: set<nat>)
    requires GoesOn(n, a, b, group) && GoesOn(n, b, c, group)
    ensures GoesOn(n, a, c, group)
  {
    assert c[..|a|] == c[..|b|][..|a|];
  }

  lemma GoesOnRefl(n: nat, run: seq<State>, group: set<nat>)
    requires IsRun(n, run)
    ensures GoesOn(n, run, run, group)
  {}

  /** One more step. */
  lemma Go(n: nat, run: seq<State>, c': State, group: set<nat>) returns (run': seq<State>)
    requires IsRun(n, run) && Next(Last(run), c') && Untouched(Last(run), c', group)
    ensures GoesOn(n, run, run', group) && Last(run') == c' && |run'| == |run| + 1
  {
    run' := run + [c'];
    assert run'[..|run|] == run;
  }

  lemma GoTwice(n: nat, run: seq<State>, c1: State, c2: State, group: set<nat>) returns (run': seq<State>)
    requires IsRun(n, run) && Next(Last(run), c1) && Next(c1, c2)
    requires Untouched(Last(run), c1, group) && Untouched(c1, c2, group)
    ensures GoesOn(n, run, run', group) && Last(run') == c2
  {
    var run1 := Go(n, run, c1, group);
    run' := Go(n, run1, c2, group);
    GoesOnTrans(n, run, run1, run', group);
  }

  // ---------------------------------------------------------------- what the single steps do

  lemma TimeoutDoes(c: State, i: nat)
    requires WellFormed(c) && i < |c.nodes| && MayStand(c.nodes[i])
    ensures var c' := DoTimeout(c, i);
      && Next(c, c') && OnlyNode(c, c', i) && c'.nodes[i] == StartElection(c.nodes[i])
      && forall p :: 0 <= p < |c.nodes| && p != i ==>
           VoteReq(p, VoteRequest(c'.nodes[i])) in c'.net && Call(i, c'.nodes[i].currentTerm, p) in c'.calls
  {
    assert Enabled(c, Timeout(i)) && Timely(c, Timeout(i)) && DoTimeout(c, i) == Do(c, Timeout(i));
  }

  lemma VoteReqDoes(c: State, to: nat, ballot: VoteArgs)
    requires WellFormed(c) && to < |c.nodes| && VoteReq(to, ballot) in c.net
    ensures var c' := DoVoteReq(c, to, ballot);
      && Next(c, c') && OnlyNode(c, c', to) && c'.nodes[to] == OnVoteRequest(c.nodes[to], ballot).0
      && c.net <= c'.net && c'.calls == c.calls
      && VoteResp(to, ballot, OnVoteRequest(c.nodes[to], ballot).1) in c'.net
  {
    var s := TakeVoteReq(VoteReq(to, ballot));
    assert Enabled(c, s) && Timely(c, s) && DoVoteReq(c, to, ballot) == Do(c, s);
  }

  lemma VoteRespDoes(c: State, from: nat, ballot: VoteArgs, vote: VoteReply)
    requires WellFormed(c) && from < |c.nodes| && ballot.candidateId < |c.nodes|
    requires VoteResp(from, ballot, vote) in c.net && Call(ballot.candidateId, ballot.term, from) in c.calls
    requires c.nodes[ballot.candidateId].currentTerm == ballot.term
    ensures var i, c' := ballot.candidateId, DoVoteResp(c, from, ballot, vote);
      && Next(c, c') && OnlyNode(c, c', i) && c'.nodes[i] == OnVoteReply(c.nodes[i], vote)
      && c'.net == c.net && c'.calls == c.calls - {Call(i, ballot.term, from)}
  {
    var s := TakeVoteResp(VoteResp(from, ballot, vote));
    assert Enabled(c, s) && Timely(c, s) && DoVoteResp(c, from, ballot, vote) == Do(c, s);
  }

  lemma PromoteDoes(c: State, i: nat)
    requires WellFormed(c) && i < |c.nodes| && HasMajority(c.nodes[i])
    ensures var c' := DoPromote(c, i);
      Next(c, c') && OnlyNode(c, c', i) && c'.nodes[i] == BecomeLeader(c.nodes[i])
  {
    assert Enabled(c, Promote(i)) && Timely(c, Promote(i)) && DoPromote(c, i) == Do(c, Promote(i));
  }

  lemma SubmitDoes(c: State, i: nat, command: Command)
    requires WellFormed(c) && i < |c.nodes|
    ensures var c' := DoSubmit(c, i, command);
      Next(c, c') && OnlyNode(c, c', i) && c'.nodes[i] == Start(c.nodes[i], command).0
  {
    var s := Submit(i, command);
    assert Enabled(c, s) && Timely(c, s) && DoSubmit(c, i, command) == Do(c, s);
  }

  lemma SendDoes(c: State, i: nat, peer: nat)
    requires WellFormed(c) && i < |c.nodes| && peer < |c.nodes| && peer != i
    requires c.nodes[i].role == Leader && CanBuild(c.nodes[i], peer)
    ensures var c' := DoSendAppend(c, i, peer);
      Next(c, c') && WellFormed(c') && c'.nodes == c.nodes && AppendReq(peer, AppendFor(c.nodes[i], peer)) in c'.net
  {
    var s := SendAppend(i, peer);
    assert Enabled(c, s) && Timely(c, s) && DoSendAppend(c, i, peer) == Do(c, s);
  }

  lemma AppendDoes(c: State, to: nat, args: AppendArgs)
    requires WellFormed(c) && to < |c.nodes| && AppendReq(to, args) in c.net
    ensures var c' := DoAppend(c, to, args);
      && Next(c, c') && OnlyNode(c, c', to) && c'.nodes[to] == OnAppend(c.nodes[to], args).0
      && AppendResp(to, args, OnAppend(c.nodes[to], args).1) in c'.net
  {
    var s := TakeAppend(AppendReq(to, args));
    assert Enabled(c, s) && Timely(c, s) && DoAppend(c, to, args) == Do(c, s);
  }

  lemma ReplyDoes(c: State, from: nat, args: AppendArgs, reply: AppendReply)
    requires WellFormed(c) && from < |c.nodes| && args.leaderId < |c.nodes| && AppendResp(from, args, reply) in c.net
    ensures var i, c' := args.leaderId, DoAppendResp(c, from, args, reply);
      Next(c, c') && OnlyNode(c, c', i) && c'.nodes[i] == OnAppendReply(c.nodes[i], from, args, reply)
  {
    var s := TakeAppendResp(AppendResp(from, args, reply));
    assert Enabled(c, s) && Timely(c, s) && DoAppendResp(c, from, args, reply) == Do(c, s);
  }

  // ---------------------------------------------------------------- choosing a candidate

  ghost predicate Members(c: State, group: set<nat>) {
    forall p :: p in group ==> p < |c.nodes|
  }

  /** Everybody in the group votes for this member's log. */
  ghost predicate Best(c: State, group: set<nat>, i: nat)
    requires WellFormed(c) && Members(c, group)
  {
    i in group && forall p :: p in group ==> UpToDate(VoteRequest(c.nodes[i]), c.nodes[p])
  }

  lemma {:induction false} BestExists(c: State, group: set<nat>) returns (i: nat)
    requires WellFormed(c) && Members(c, group) && group != {}
    ensures Best(c, group, i)
    decreases |group|
  {
    var first :| first in group;
    i := first;
    var rest := group - {first};
    assert forall p :: p in group ==> p == first || p in rest;
    if rest != {} {
      var j := BestExists(c, rest);
      BallotsCompare(c.nodes[first], c.nodes[j]);
      if UpToDate(VoteRequest(c.nodes[j]), c.nodes[first]) {
        i := j;
      } else {
        forall p | p in rest ensures UpToDate(VoteRequest(c.nodes[first]), c.nodes[p]) {
          assert UpToDate(VoteRequest(c.nodes[j]), c.nodes[p]);
        }
      }
    }
  }

  ghost predicate Newest(c: State, group: set<nat>, i: nat)
    requires Members(c, group)
  {
    i in group && forall p :: p in group ==> c.nodes[p].currentTerm <= c.nodes[i].currentTerm
  }

  lemma {:induction false} NewestExists(c: State, group: set<nat>) returns (i: nat)
    requires Members(c, group) && group != {}
    ensures Newest(c, group, i)
    decreases |group|
  {
    var first :| first in group;
    i := first;
    var rest := group - {first};
    assert forall p :: p in group ==> p == first || p in rest;
    if rest != {} {
      var j := NewestExists(c, rest);
      if c.nodes[j].currentTerm >= c.nodes[first].currentTerm { i := j; }
    }
  }

  /** Electability: every majority, and indeed every group, has a member whose ballot of a term new to the others they
      all grant. */
  lemma Electable(n: nat, run: seq<State>, a: nat, group: set<nat>) returns (i: nat)
    requires IsRun(n, run) && a < |run| && group != {} && forall p :: p in group ==> p < n
    ensures i in group && WellFormed(run[a]) && |run[a].nodes| == n
    ensures forall p: nat, term: nat :: p in group && term > run[a].nodes[p].currentTerm ==>
      OnVoteRequest(run[a].nodes[p], VoteRequest(run[a].nodes[i]).(term := term)).1.granted
  {
    RunInv(n, run, a);
    i := BestExists(run[a], group);
    forall p: nat, term: nat | p in group && term > run[a].nodes[p].currentTerm
      ensures OnVoteRequest(run[a].nodes[p], VoteRequest(run[a].nodes[i]).(term := term)).1.granted
    {
      assert UpToDate(VoteRequest(run[a].nodes[i]), run[a].nodes[p]);
      VoteAnswer(run[a].nodes[p], VoteRequest(run[a].nodes[i]).(term := term));
    }
  }

  // ---------------------------------------------------------------- electing it

  /** i stands; the members of todo have not been asked yet and will vote for it; the others in the group have. */
  ghost predicate Polling(c: State, group: set<nat>, i: nat, todo: set<nat>) {
    && WellFormed(c) && Members(c, group) && i in group && todo <= group - {i}
    && var n := c.nodes[i];
    && n.role == Candidate && n.votesGranted + |todo| == |group|
    && (forall p :: p in group ==> c.nodes[p].currentTerm <= n.currentTerm)
    && forall p :: p in todo ==> Willing(c, i, p)
  }

  ghost predicate Willing(c: State, i: nat, p: nat)
    requires WellFormed(c) && i < |c.nodes| && p < |c.nodes|
  {
    var n, ballot := c.nodes[i], VoteRequest(c.nodes[i]);
    && c.nodes[p].currentTerm < n.currentTerm && UpToDate(ballot, c.nodes[p])
    && VoteReq(p, ballot) in c.net && Call(i, n.currentTerm, p) in c.calls
  }

  /** A willing node is asked, votes, and is counted. */
  lemma PollOne(n: nat, run: seq<State>, group: set<nat>, i: nat, todo: set<nat>, p: nat) returns (run': seq<State>)
    requires IsRun(n, run) && Polling(Last(run), group, i, todo) && p in todo
    ensures GoesOn(n, run, run', group) && Polling(Last(run'), group, i, todo - {p})
  {
    var c := Last(run);
    var ballot := VoteRequest(c.nodes[i]);
    assert Willing(c, i, p);
    VoteReqDoes(c, p, ballot);
    VoteAnswer(c.nodes[p], ballot);
    var c1, vote := DoVoteReq(c, p, ballot), OnVoteRequest(c.nodes[p], ballot).1;
    VoteRespDoes(c1, p, ballot, vote);
    VoteReplyEffect(c1.nodes[i], vote);
    var c2 := DoVoteResp(c1, p, ballot, vote);
    run' := GoTwice(n, run, c1, c2, group);
    PollGoesOn(c, c1, c2, group, i, todo, p);
  }

  lemma PollGoesOn(c: State, c1: State, c2: State, group: set<nat>, i: nat, todo: set<nat>, p: nat)
    requires Polling(c, group, i, todo) && p in todo
    requires OnlyNode(c, c1, p) && OnlyNode(c1, c2, i)
    requires c1.nodes[p].currentTerm <= c.nodes[i].currentTerm
    requires c2.nodes[i] == c.nodes[i].(votesGranted := c.nodes[i].votesGranted + 1)
    requires c.net <= c1.net == c2.net && c1.calls == c.calls
    requires c2.calls == c1.calls - {Call(i, c.nodes[i].currentTerm, p)}
    ensures Polling(c2, group, i, todo - {p})
  {
    assert |todo - {p}| == |todo| - 1;
    forall q | q in todo - {p} ensures Willing(c2, i, q) { assert Willing(c, i, q); }
  }

  lemma {:induction false} Poll(n: nat, run: seq<State>, group: set<nat>, i: nat, todo: set<nat>)
    returns (run': seq<State>)
    requires IsRun(n, run) && Polling(Last(run), group, i, todo)
    ensures GoesOn(n, run, run', group) && Polling(Last(run'), group, i, {})
    decreases |todo|
  {
    if todo == {} {
      run' := run;
    } else {
      var p :| p in todo;
      var run1 := PollOne(n, run, group, i, todo, p);
      run' := Poll(n, run1, group, i, todo - {p});
      GoesOnTrans(n, run, run1, run', group);
    }
  }

  /** i leads the group: nobody in it is in a later term. */
  ghost predicate Leads(c: State, group: set<nat>, i: nat) {
    WellFormed(c) && Members(c, group) && Newest(c, group, i) && c.nodes[i].role == Leader
  }

  lemma Promotion(n: nat, run: seq<State>, group: set<nat>, i: nat) returns (run': seq<State>)
    requires IsRun(n, run) && WellFormed(Last(run)) && Members(Last(run), group)
    requires Newest(Last(run), group, i) && HasMajority(Last(run).nodes[i])
    ensures GoesOn(n, run, run', group) && Leads(Last(run'), group, i)
  {
    PromoteDoes(Last(run), i);
    run' := Go(n, run, DoPromote(Last(run), i), group);
  }

  /** Standing starts a poll, if the node has the best log and a term no lower than the others'. */
  lemma StandPolls(n: nat, run: seq<State>, group: set<nat>, i: nat) returns (run': seq<State>)
    requires IsRun(n, run) && WellFormed(Last(run)) && Members(Last(run), group)
    requires Best(Last(run), group, i) && Newest(Last(run), group, i) && MayStand(Last(run).nodes[i])
    ensures GoesOn(n, run, run', group) && Polling(Last(run'), group, i, group - {i})
  {
    var c := Last(run);
    TimeoutDoes(c, i);
    StandsWith(c.nodes[i]);
    var c' := DoTimeout(c, i);
    run' := Go(n, run, c', group);
    assert |group - {i}| == |group| - 1;
    forall p | p in group - {i} ensures Willing(c', i, p) { assert UpToDate(VoteRequest(c.nodes[i]), c.nodes[p]); }
  }

  /** The newest member stands and thereby brings the best one to its term, as a follower. */
  lemma SummonSteps(c: State, group: set<nat>, v: nat, i: nat) returns (c1: State, c2: State)
    requires WellFormed(c) && Members(c, group)
    requires Best(c, group, i) && Newest(c, group, v) && MayStand(c.nodes[v]) && v != i
    ensures Next(c, c1) && Next(c1, c2) && OnlyNode(c, c1, v) && OnlyNode(c1, c2, i)
    ensures c2.nodes[v].currentTerm == c.nodes[v].currentTerm + 1 == c2.nodes[i].currentTerm
    ensures c2.nodes[i].role == Follower && c2.nodes[v].log == c.nodes[v].log && c2.nodes[i].log == c.nodes[i].log
  {
    TimeoutDoes(c, v);
    StandsWith(c.nodes[v]);
    c1 := DoTimeout(c, v);
    var ballot := VoteRequest(c1.nodes[v]);
    VoteReqDoes(c1, i, ballot);
    VoteAnswer(c1.nodes[i], ballot);
    c2 := DoVoteReq(c1, i, ballot);
  }

  lemma Summon(n: nat, run: seq<State>, group: set<nat>, v: nat, i: nat) returns (run': seq<State>)
    requires IsRun(n, run) && WellFormed(Last(run)) && Members(Last(run), group)
    requires Best(Last(run), group, i) && Newest(Last(run), group, v) && MayStand(Last(run).nodes[v]) && v != i
    ensures GoesOn(n, run, run', group) && WellFormed(Last(run')) && Members(Last(run'), group)
    ensures Best(Last(run'), group, i) && Newest(Last(run'), group, i) && MayStand(Last(run').nodes[i])
  {
    var c1, c2 := SummonSteps(Last(run), group, v, i);
    run' := GoTwice(n, run, c1, c2, group);
    SameLogsBest(Last(run), c2, group, i);
  }

  lemma SameLogsBest(c: State, c': State, group: set<nat>, i: nat)
    requires WellFormed(c) && WellFormed(c') && Members(c, group) && Members(c', group) && Best(c, group, i)
    requires |c.nodes| == |c'.nodes| && forall p :: p in group ==> c'.nodes[p].log == c.nodes[p].log
    ensures Best(c', group, i)
  {
    forall p | p in group ensures UpToDate(VoteRequest(c'.nodes[i]), c'.nodes[p]) {
      assert UpToDate(VoteRequest(c.nodes[i]), c.nodes[p]);
    }
  }

  /** A majority can elect one of its members. */
  lemma Elect(n: nat, run: seq<State>, group: set<nat>) returns (run': seq<State>, i: nat)
    requires IsRun(n, run) && IsQuorum(group, n)
    ensures GoesOn(n, run, run', group) && Leads(Last(run'), group, i)
  {
    var c := Last(run);
    RunInv(n, run, |run| - 1);
    var v := NewestExists(c, group);
    if c.nodes[v].role == Leader {
      GoesOnRefl(n, run, group);
      run', i := run, v;
    } else if HasMajority(c.nodes[v]) {
      run' := Promotion(n, run, group, v);
      i := v;
    } else {
      i := BestExists(c, group);
      var run1 := run;
      GoesOnRefl(n, run, group);
      if i != v { run1 := Summon(n, run, group, v, i); }
      var run2 := StandPolls(n, run1, group, i);
      var run3 := Poll(n, run2, group, i, group - {i});
      run' := Promotion(n, run3, group, i);
      GoesOnTrans(n, run, run1, run2, group);
      GoesOnTrans(n, run, run2, run3, group);
      GoesOnTrans(n, run, run3, run', group);
    }
  }
}
