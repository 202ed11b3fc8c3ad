/** Why the cluster's runs assume timely votes: the reply handler compares no terms, and no weaker check would do. */
module StaleVotes {
  import opened RaftTypes
  import opened Cluster
  import opened Invariant
  import opened StepProof
  import opened RaftSafety

  /** A check on a granted reply before it is counted: its term and the candidate's current term. */
  type Guard = (nat, nat) -> bool

  ghost predicate Passes(c: State, s: Step, guard: Guard)
    requires WellFormed(c) && Enabled(c, s)
  {
    s.TakeVoteResp? && s.m.vote.granted ==> guard(s.m.ballot.term, c.nodes[s.m.ballot.candidateId].currentTerm)
  }

  ghost predicate GuardedNext(c: State, c': State, guard: Guard) {
    WellFormed(c) && exists s :: Enabled(c, s) && Passes(c, s, guard) && c' == Do(c, s)
  }

  /** A run without the timing assumption, in which the handler counts what the guard lets through. The handler as it
      is has the guard that is always true. */
  ghost predicate IsGuardedRun(n: nat, run: seq<State>, guard: Guard) {
    && |run| > 0
    && run[0] == Init(n)
    && forall j, k :: 0 <= j && k == j + 1 && k < |run| ==> GuardedNext(run[j], run[k], guard)
  }

  ghost predicate OneLeaderPerTerm(run: seq<State>) {
    forall a, b, i, j ::
      && 0 <= a < |run| && 0 <= b < |run| && 0 <= i < |run[a].nodes| && 0 <= j < |run[b].nodes|
      && run[a].nodes[i].role == Leader && run[b].nodes[j].role == Leader
      && run[a].nodes[i].currentTerm == run[b].nodes[j].currentTerm
      ==> i == j
  }

  // ---------------------------------------------------------------- a guard that refuses every earlier term

  ghost predicate RefusesStale(guard: Guard) {
    forall t: nat, t': nat :: 1 <= t < t' ==> !guard(t, t')
  }

  lemma GuardedTimely(c: State, s: Step, guard: Guard)
    requires RefusesStale(guard) && Inv(c) && Enabled(c, s) && Passes(c, s, guard)
    ensures Timely(c, s)
  {
    if s.TakeVoteResp? && s.m.vote.granted {
      assert CallOk(c, Call(s.m.ballot.candidateId, s.m.ballot.term, s.m.from));
    }
  }

  /** c follows what the run has reached so far, by a step the guard lets through. */
  lemma GuardedExtends(n: nat, run: seq<State>, c: State, guard: Guard)
    requires RefusesStale(guard) && IsRun(n, run) && GuardedNext(run[|run| - 1], c, guard)
    ensures IsRun(n, run + [c])
  {
    RunInv(n, run, |run| - 1);
    GuardedIsTimely(run[|run| - 1], c, guard);
    RunExtends(n, run, c);
  }

  lemma {:induction false} GuardedIsRun(n: nat, run: seq<State>, guard: Guard, k: nat)
    requires RefusesStale(guard) && IsGuardedRun(n, run, guard) && k < |run|
    ensures IsRun(n, run[..k + 1])
  {
    if k > 0 {
      GuardedIsRun(n, run, guard, k - 1);
      assert GuardedNext(run[..k][k - 1], run[k], guard);
      GuardedExtends(n, run[..k], run[k], guard);
      assert run[..k] + [run[k]] == run[..k + 1];
    }
  }

  lemma GuardedIsTimely(c: State, c': State, guard: Guard)
    requires RefusesStale(guard) && Inv(c) && GuardedNext(c, c', guard)
    ensures Next(c, c')
  {
    var s :| Enabled(c, s) && Passes(c, s, guard) && c' == Do(c, s);
    GuardedTimely(c, s, guard);
  }

  lemma RunExtends(n: nat, run: seq<State>, c: State)
    requires IsRun(n, run) && Next(run[|run| - 1], c)
    ensures IsRun(n, run + [c])
  {}

  lemma GuardedSafe(n: nat, run: seq<State>, guard: Guard)
    requires RefusesStale(guard) && IsGuardedRun(n, run, guard)
    ensures OneLeaderPerTerm(run)
  {
    GuardedIsRun(n, run, guard, |run| - 1);
    assert run[..|run|] == run;
    forall a, b, i, j |
      && 0 <= a < |run| && 0 <= b < |run| && 0 <= i < |run[a].nodes| && 0 <= j < |run[b].nodes|
      && run[a].nodes[i].role == Leader && run[b].nodes[j].role == Leader
      && run[a].nodes[i].currentTerm == run[b].nodes[j].currentTerm
      ensures i == j
    {
      ElectionSafety(n, run, a, b, i, j);
    }
  }

  // ---------------------------------------------------------------- a guard that lets one earlier term through

  /** A node of three with an empty log. */
  ghost predicate Is(n: Node, role: Role, term: nat, votedFor: int, votes: nat) {
    n.role == role && n.currentTerm == term && n.votedFor == votedFor && n.votesGranted == votes
    && n.peers == 3 && n.log == [DUMMY] && n.baseIndex == 0
  }

  /** The other nodes stay, and so does everything sent or still awaited, but for the calls answered. */
  ghost predicate Around(c: State, c': State, i: nat, answered: set<Call>) {
    && WellFormed(c) && WellFormed(c') && |c.nodes| == |c'.nodes| == 3 && i < 3
    && (forall j :: 0 <= j < 3 && j != i ==> c'.nodes[j] == c.nodes[j])
    && c.net <= c'.net && c.calls - answered <= c'.calls
  }

  /** What a node sends out when it stands with an empty log, and what it then waits for. */
  ghost predicate Asked(c: State, i: nat, term: nat, p: nat) {
    VoteReq(p, VoteArgs(term, i, 0, 0)) in c.net && Call(i, term, p) in c.calls
  }

  lemma Stand(c: State, guard: Guard, i: nat, role: Role, term: nat, votedFor: int, votes: nat, p: nat)
    requires WellFormed(c) && |c.nodes| == 3 && i < 3 && Is(c.nodes[i], role, term, votedFor, votes)
    requires role == Follower || (role == Candidate && votes == 1)
    requires p < 3 && p != i
    ensures var c' := DoTimeout(c, i);
      && GuardedNext(c, c', guard) && Around(c, c', i, {})
      && Is(c'.nodes[i], Candidate, term + 1, i, 1) && Asked(c', i, term + 1, p)
  {
    assert Enabled(c, Timeout(i)) && Passes(c, Timeout(i), guard) && DoTimeout(c, i) == Do(c, Timeout(i));
    StandAsks(c, i, p);
  }

  lemma StandAsks(c: State, i: nat, p: nat)
    requires WellFormed(c) && i < |c.nodes| && p < |c.nodes| && p != i
    requires c.nodes[i].log == [DUMMY] && c.nodes[i].baseIndex == 0
    ensures Asked(DoTimeout(c, i), i, c.nodes[i].currentTerm + 1, p)
  {}

  lemma Ask(c: State, guard: Guard, to: nat, ballot: VoteArgs, votedFor: int, votes: nat, term: nat)
    requires WellFormed(c) && |c.nodes| == 3 && to < 3 && VoteReq(to, ballot) in c.net
    requires Is(c.nodes[to], Follower, term, votedFor, votes) && term < ballot.term
    ensures var c' := DoVoteReq(c, to, ballot);
      && GuardedNext(c, c', guard) && Around(c, c', to, {})
      && Is(c'.nodes[to], Follower, ballot.term, ballot.candidateId, votes)
      && VoteResp(to, ballot, VoteReply(term, true)) in c'.net
  {
    var s := TakeVoteReq(VoteReq(to, ballot));
    assert Enabled(c, s) && Passes(c, s, guard) && DoVoteReq(c, to, ballot) == Do(c, s);
  }

  lemma Receive(c: State, guard: Guard, m: Message, term: nat, votes: nat)
    requires WellFormed(c) && |c.nodes| == 3 && m.VoteResp? && m in c.net && m.from < 3 && m.ballot.candidateId < 3
    requires Call(m.ballot.candidateId, m.ballot.term, m.from) in c.calls && m.vote.granted
    requires Is(c.nodes[m.ballot.candidateId], Candidate, term, m.ballot.candidateId, votes)
    requires guard(m.ballot.term, term)
    ensures var i, c' := m.ballot.candidateId, DoVoteResp(c, m.from, m.ballot, m.vote);
      && GuardedNext(c, c', guard) && Around(c, c', i, {Call(i, m.ballot.term, m.from)})
      && Is(c'.nodes[i], Candidate, term, i, votes + 1)
  {
    var s := TakeVoteResp(m);
    assert Enabled(c, s) && Passes(c, s, guard) && DoVoteResp(c, m.from, m.ballot, m.vote) == Do(c, s);
  }

  lemma Win(c: State, guard: Guard, i: nat, term: nat)
    requires WellFormed(c) && |c.nodes| == 3 && i < 3 && Is(c.nodes[i], Candidate, term, i, 2)
    ensures var c' := DoPromote(c, i);
      GuardedNext(c, c', guard) && Around(c, c', i, {}) && Is(c'.nodes[i], Leader, term, i, 2)
  {
    assert Enabled(c, Promote(i)) && Passes(c, Promote(i), guard) && DoPromote(c, i) == Do(c, Promote(i));
  }

  /** c is where some run of three nodes has got to. */
  ghost predicate Reached(c: State, guard: Guard, run: seq<State>) {
    IsGuardedRun(3, run, guard) && c == run[|run| - 1] && WellFormed(c) && |c.nodes| == 3
  }

  lemma Extend(run: seq<State>, guard: Guard, c: State, c': State) returns (run': seq<State>)
    requires Reached(c, guard, run) && GuardedNext(c, c', guard) && WellFormed(c') && |c'.nodes| == 3
    ensures Reached(c', guard, run')
  {
    run' := run + [c'];
  }

  lemma AroundTrans(a: State, b: State, c: State, i: nat)
    requires Around(a, b, i, {}) && Around(b, c, i, {})
    ensures Around(a, c, i, {})
  {}

  /** A node stands again and again, unanswered, until it has reached a term. */
  lemma {:induction false} Climb(
    run: seq<State>, c: State, guard: Guard, i: nat, role: Role, term: nat, votedFor: int, votes: nat, target: nat,
      p: nat)
    returns (run': seq<State>, c': State)
    requires Reached(c, guard, run) && i < 3 && Is(c.nodes[i], role, term, votedFor, votes) && term < target
    requires role == Follower || (role == Candidate && votes == 1)
    requires p < 3 && p != i
    ensures Reached(c', guard, run') && Around(c, c', i, {})
    ensures Is(c'.nodes[i], Candidate, target, i, 1) && Asked(c', i, target, p)
    decreases target - term
  {
    Stand(c, guard, i, role, term, votedFor, votes, p);
    c' := DoTimeout(c, i);
    run' := Extend(run, guard, c, c');
    if term + 1 < target {
      var c1 := c';
      run', c' := Climb(run', c1, guard, i, Candidate, term + 1, i, 1, target, p);
      AroundTrans(c, c1, c', i);
    }
  }

  lemma {:induction false} StartsAs(i: nat)
    requires i < 3
    ensures Is(Init(3).nodes[i], Follower, 0, -1, 0) && WellFormed(Init(3))
  {}

  /** Node 1 votes for node 0 in term t; the reply is delayed; nodes 0 and 2 stand until they reach term t'. */
  lemma TwoCandidates(guard: Guard, t: nat, t': nat) returns (run: seq<State>, c: State)
    requires 1 <= t < t'
    ensures Reached(c, guard, run)
    ensures Is(c.nodes[0], Candidate, t', 0, 1) && Is(c.nodes[1], Follower, t, 0, 0)
      && Is(c.nodes[2], Candidate, t', 2, 1)
    ensures VoteResp(1, VoteArgs(t, 0, 0, 0), VoteReply(0, true)) in c.net && Call(0, t, 1) in c.calls
    ensures Asked(c, 2, t', 1)
  {
    var c0, ballot := Init(3), VoteArgs(t, 0, 0, 0);
    StartsAs(0);
    StartsAs(1);
    StartsAs(2);
    var c1: State, c3: State;
    run, c1 := Climb([c0], c0, guard, 0, Follower, 0, -1, 0, t, 1);
    Ask(c1, guard, 1, ballot, -1, 0, 0);
    var c2 := DoVoteReq(c1, 1, ballot);
    run := Extend(run, guard, c1, c2);
    run, c3 := Climb(run, c2, guard, 0, Candidate, t, 0, 1, t', 1);
    run, c := Climb(run, c3, guard, 2, Follower, 0, -1, 0, t', 1);
  }

  /** One vote of term t, counted in term t', makes two leaders of term t'. */
  lemma StaleVoteElectsTwo(guard: Guard, t: nat, t': nat) returns (run: seq<State>, c: State)
    requires 1 <= t < t' && guard(t, t') && guard(t', t')
    ensures IsGuardedRun(3, run, guard) && c == run[|run| - 1] && |c.nodes| == 3
    ensures c.nodes[0].role == Leader && c.nodes[2].role == Leader
    ensures c.nodes[0].currentTerm == c.nodes[2].currentTerm == t'
  {
    var c5: State;
    run, c5 := TwoCandidates(guard, t, t');
    var stale, timely := VoteArgs(t, 0, 0, 0), VoteArgs(t', 2, 0, 0);
    Ask(c5, guard, 1, timely, 0, 0, t);
    var c6 := DoVoteReq(c5, 1, timely);
    run := Extend(run, guard, c5, c6);
    Receive(c6, guard, VoteResp(1, timely, VoteReply(t, true)), t', 1);
    var c7 := DoVoteResp(c6, 1, timely, VoteReply(t, true));
    run := Extend(run, guard, c6, c7);
    Win(c7, guard, 2, t');
    var c8 := DoPromote(c7, 2);
    run := Extend(run, guard, c7, c8);
    Receive(c8, guard, VoteResp(1, stale, VoteReply(0, true)), t', 1);
    var c9 := DoVoteResp(c8, 1, stale, VoteReply(0, true));
    run := Extend(run, guard, c8, c9);
    Win(c9, guard, 0, t');
    c := DoPromote(c9, 0);
    run := Extend(run, guard, c9, c);
  }

  /** A guard that counts timely votes makes elections safe exactly if it lets through no vote of an earlier term. */
  lemma GuardIsExact(guard: Guard)
    requires forall t: nat :: guard(t, t)
    ensures (forall n: nat, run: seq<State> :: IsGuardedRun(n, run, guard) ==> OneLeaderPerTerm(run))
        <==> RefusesStale(guard)
  {
    if RefusesStale(guard) {
      forall n: nat, run: seq<State> | IsGuardedRun(n, run, guard) ensures OneLeaderPerTerm(run) {
        GuardedSafe(n, run, guard);
      }
    } else {
      var t: nat, t': nat :| 1 <= t < t' && guard(t, t');
      var run, c := StaleVoteElectsTwo(guard, t, t');
      assert run[|run| - 1] == c && !OneLeaderPerTerm(run);
    }
  }
}
