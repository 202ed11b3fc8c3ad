/** Integrity: every entry of every log was once handed to a leader, which appended it at that index. */
module Integrity {
  import opened Ops
  import opened RaftTypes
  import opened RaftNode
  import opened LogMerge
  import opened Cluster
  import opened Invariant
  import opened ElectionProof
  import opened LogProof
  import opened StepProof
  import opened RaftSafety

  /** At moment m of the run node l, the leader of the entry's term, is handed its command and appends it at index k. */
  ghost predicate Submitted(run: seq<State>, m: nat, l: nat, k: nat, e: Entry) {
    && m + 1 < |run| && WellFormed(run[m]) && l < |run[m].nodes|
    && run[m].nodes[l].role == Leader && run[m].nodes[l].currentTerm == e.term && |run[m].nodes[l].log| == k
    && run[m + 1] == DoSubmit(run[m], l, e.command)
  }

  ghost predicate SubmittedBefore(run: seq<State>, a: nat, k: nat, e: Entry) {
    exists m: nat, l: nat :: m < a && Submitted(run, m, l, k, e)
  }

  /** An entry of its own term is as it was a step ago, or it has just been submitted. */
  ghost predicate OwnedOrNew(c: State, c': State, s: Step, t: nat, k: nat)
    requires Own(c'.hist, t, k) && WellFormed(c)
  {
    || (Own(c.hist, t, k) && c.hist.termLog[t][k] == c'.hist.termLog[t][k])
    || (s.Submit? && s.i < |c.nodes| && c.nodes[s.i].role == Leader && c.nodes[s.i].currentTerm == t
        && |c.nodes[s.i].log| == k && c'.hist.termLog[t][k] == Entry(s.command, t))
  }

  lemma OthersLeaveTermLogs(c: State, s: Step)
    requires WellFormed(c) && Enabled(c, s) && !s.Submit? && !s.Promote?
    ensures Do(c, s).hist.termLog == c.hist.termLog
  {}

  lemma SubmitOwns(c: State, i: nat, command: Command, t: nat, k: nat)
    requires WellFormed(c) && i < |c.nodes| && LeaderOk(c, i) && Own(DoSubmit(c, i, command).hist, t, k)
    ensures OwnedOrNew(c, DoSubmit(c, i, command), Submit(i, command), t, k)
  {}

  /** A new leader's log has no entry of the new term yet. */
  lemma PromoteOwns(c: State, i: nat, t: nat, k: nat)
    requires WellFormed(c) && ElectionInv(c) && LogInv(c) && i < |c.nodes| && HasMajority(c.nodes[i])
    requires Own(DoPromote(c, i).hist, t, k)
    ensures Own(c.hist, t, k) && c.hist.termLog[t][k] == DoPromote(c, i).hist.termLog[t][k]
  {
    FreshTerm(c, i);
    assert k < |c.nodes[i].log| ==> Anchored(c.nodes[i].log, k, c.hist.termLog);
  }

  lemma StepOwns(c: State, s: Step, t: nat, k: nat)
    requires Inv(c) && Enabled(c, s) && Own(Do(c, s).hist, t, k)
    ensures OwnedOrNew(c, Do(c, s), s, t, k)
  {
    if s.Submit? {
      assert LeaderOk(c, s.i);
      SubmitOwns(c, s.i, s.command, t, k);
    } else if s.Promote? {
      PromoteOwns(c, s.i, t, k);
    } else {
      OthersLeaveTermLogs(c, s);
    }
  }

  lemma RunOwns(n: nat, run: seq<State>, a: nat, t: nat, k: nat)
    requires IsRun(n, run) && a + 1 < |run| && Own(run[a + 1].hist, t, k)
    ensures (Own(run[a].hist, t, k) && run[a].hist.termLog[t][k] == run[a + 1].hist.termLog[t][k])
      || SubmittedBefore(run, a + 1, k, run[a + 1].hist.termLog[t][k])
  {
    RunInv(n, run, a);
    var s := RunStep(n, run, a);
    StepOwns(run[a], s, t, k);
    if s.Submit? && s.i < |run[a].nodes| && run[a].nodes[s.i].role == Leader && |run[a].nodes[s.i].log| == k
      && run[a + 1].hist.termLog[t][k] == Entry(s.command, run[a].nodes[s.i].currentTerm)
    {
      assert Submitted(run, a, s.i, k, run[a + 1].hist.termLog[t][k]);
    }
  }

  lemma {:induction false} OwnSubmitted(n: nat, run: seq<State>, a: nat, t: nat, k: nat)
    requires IsRun(n, run) && a < |run| && Own(run[a].hist, t, k)
    ensures SubmittedBefore(run, a, k, run[a].hist.termLog[t][k])
  {
    if a > 0 {
      var e := run[a].hist.termLog[t][k];
      RunOwns(n, run, a - 1, t, k);
      if Own(run[a - 1].hist, t, k) && run[a - 1].hist.termLog[t][k] == e {
        OwnSubmitted(n, run, a - 1, t, k);
        var m: nat, l: nat :| m < a - 1 && Submitted(run, m, l, k, e);
        assert m < a && Submitted(run, m, l, k, e);
      }
    }
  }

  /** Integrity: an entry of any log, the dummy aside, was submitted before, to a leader of its term, and appended there
      at the same index. */
  lemma EntrySubmitted(n: nat, run: seq<State>, a: nat, i: nat, k: nat)
    requires IsRun(n, run) && a < |run| && i < |run[a].nodes| && 1 <= k < |run[a].nodes[i].log|
    ensures SubmittedBefore(run, a, k, run[a].nodes[i].log[k])
  {
    RunNode(n, run, a, i);
    assert Anchored(run[a].nodes[i].log, k, run[a].hist.termLog);
    OwnSubmitted(n, run, a, run[a].nodes[i].log[k].term, k);
  }
}
