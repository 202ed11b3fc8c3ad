/** How a leader finds the point from which a follower's log differs, and when it never does. */
module Backtracking {
  import opened RaftTypes
  import opened RaftNode
  import opened Compaction
  import opened LogMerge
  import opened LogProof
  import opened StepProof

  /** Log matching between two logs. */
  ghost predicate Matches(a: seq<Entry>, b: seq<Entry>) {
    forall k :: 0 <= k < |a| && k < |b| && a[k].term == b[k].term ==> Agree(a, b, k)
  }

  /** A leader and a follower it can reach: nothing compacted, logs that match, the follower not ahead in terms. */
  ghost predicate Pair(ld: Node, f: Node, peer: nat) {
    && NodeOk(ld) && NodeOk(f) && ld.baseIndex == f.baseIndex == 0
    && ld.role == Leader && peer < ld.peers && CanBuild(ld, peer)
    && f.currentTerm <= ld.currentTerm
    && ld.log[0] == f.log[0] && Matches(ld.log, f.log)
  }

  /** A leader that can build a request for a follower that is not ahead of it in terms. */
  ghost predicate CanSend(ld: Node, f: Node, peer: nat) {
    && NodeOk(ld) && NodeOk(f) && ld.role == Leader && peer < ld.peers && CanBuild(ld, peer)
    && f.currentTerm <= ld.currentTerm
  }

  /** One request, and the leader's reaction to the reply. */
  ghost function Round(ld: Node, f: Node, peer: nat): (Node, Node, bool)
    requires CanSend(ld, f, peer)
  {
    var args := AppendFor(ld, peer);
    var (f', reply) := OnAppend(f, args);
    (OnAppendReply(ld, peer, args, reply), f', reply.success)
  }

  lemma RefusalMovesBack(ld: Node, f: Node, peer: nat)
    requires Pair(ld, f, peer) && !Round(ld, f, peer).2
    ensures var (ld', f', _) := Round(ld, f, peer);
      Pair(ld', f', peer) && ld'.nextIndex[peer] < ld.nextIndex[peer] && ld'.log == ld.log && f'.log == f.log
  {
    var args := AppendFor(ld, peer);
    var m := Recognise(f, args.term);
    assert m.log == f.log && !Consistent(m, args);
    assert RejectHint(m, args).0 <= args.prevIndex;
  }

  lemma SuccessHoldsLog(ld: Node, f: Node, peer: nat)
    requires Pair(ld, f, peer) && Round(ld, f, peer).2
    ensures ld.log <= Round(ld, f, peer).1.log
  {
    AcceptNode(f, AppendFor(ld, peer));
    SuffixTaken(ld.log, f.log, ld.nextIndex[peer] - 1);
  }

  lemma SuffixTaken(full: seq<Entry>, log: seq<Entry>, prev: nat)
    requires Matches(full, log) && prev < |full| && prev < |log| && full[prev].term == log[prev].term
    ensures full <= MergeEntries(log, prev + 1, full[prev + 1..])
  {
    var at, entries := prev + 1, full[prev + 1..];
    forall i | 0 <= i < FirstConflict(log, at, entries, 0) ensures log[at + i].command == entries[i].command {
      assert log[at + i].term == entries[i].term && entries[i] == full[at + i];
    }
    MergeIsSplice(log, at, entries);
    SpliceAdopts(log, full, prev, entries);
    assert full[..|full| - 1 + 1] == full;
  }

  /** Send until the follower accepts; the count of rounds comes with the result. */
  ghost function CatchUp(ld: Node, f: Node, peer: nat): (r: (Node, Node, nat))
    requires Pair(ld, f, peer)
    decreases ld.nextIndex[peer]
  {
    var (ld', f', accepted) := Round(ld, f, peer);
    if accepted then (ld', f', 1)
    else
      RefusalMovesBack(ld, f, peer);
      var (ld'', f'', rounds) := CatchUp(ld', f', peer);
      (ld'', f'', rounds + 1)
  }

  /** Back-tracking converges: within as many rounds as the next index, the follower's log starts with the leader's. */
  lemma {:induction false} CatchUpConverges(ld: Node, f: Node, peer: nat)
    requires Pair(ld, f, peer)
    ensures CatchUp(ld, f, peer).2 <= ld.nextIndex[peer]
    ensures ld.log <= CatchUp(ld, f, peer).1.log
    decreases ld.nextIndex[peer]
  {
    var (ld', f', accepted) := Round(ld, f, peer);
    if accepted {
      SuccessHoldsLog(ld, f, peer);
    } else {
      RefusalMovesBack(ld, f, peer);
      CatchUpConverges(ld', f', peer);
    }
  }

  /** The next index at which the follower accepts. */
  ghost function CatchUpPoint(ld: Node, f: Node, peer: nat): (point: nat)
    requires Pair(ld, f, peer)
    ensures 1 <= point <= ld.nextIndex[peer]
    decreases ld.nextIndex[peer]
  {
    var (ld', f', accepted) := Round(ld, f, peer);
    if accepted then ld.nextIndex[peer]
    else
      RefusalMovesBack(ld, f, peer);
      CatchUpPoint(ld', f', peer)
  }

  // ---------------------------------------------------------------- a leader with a compacted log

  /** How sending to a follower ends: it accepts, it is sent back to what the leader has compacted, or a round changes
      nothing any more. */
  datatype Ending = Caught | NeedsSnapshot | Stalled

  lemma RefusalRound(ld: Node, f: Node, peer: nat)
    requires CanSend(ld, f, peer) && !Round(ld, f, peer).2
    ensures var (ld', f', _) := Round(ld, f, peer);
      && NodeOk(ld') && NodeOk(f') && ld'.role == Leader && ld'.currentTerm == ld.currentTerm >= f'.currentTerm
      && ld'.peers == ld.peers && ld'.baseIndex == ld.baseIndex && ld'.log == ld.log
      && ld'.nextIndex[peer] <= ld.nextIndex[peer]
  {
    var args := AppendFor(ld, peer);
    var m := Recognise(f, args.term);
    HintBefore(m, args);
  }

  lemma HintBefore(m: Node, args: AppendArgs)
    requires NodeOk(m)
    ensures !Consistent(m, args) ==> RejectHint(m, args).0 <= args.prevIndex
  {}

  ghost function Chase(ld: Node, f: Node, peer: nat): (Ending, Node, Node)
    requires CanSend(ld, f, peer)
    decreases ld.nextIndex[peer]
  {
    var (ld', f', accepted) := Round(ld, f, peer);
    if accepted then (Caught, ld', f')
    else
      RefusalRound(ld, f, peer);
      if ld'.nextIndex[peer] <= ld.baseIndex then (NeedsSnapshot, ld', f')
      else if ld'.nextIndex[peer] == ld.nextIndex[peer] then (Stalled, ld', f')
      else Chase(ld', f', peer)
  }

  /** A log of real entries behind the dummy. */
  ghost predicate Plain(log: seq<Entry>) {
    |log| >= 1 && log[0] == DUMMY && forall k :: 1 <= k < |log| ==> log[k].term >= 1
  }

  /** A refusal carries no hint exactly if the follower's log is empty. */
  lemma NoHintIffEmpty(m: Node, args: AppendArgs)
    requires NodeOk(m) && m.baseIndex == 0 && Plain(m.log) && !Consistent(m, args) && args.prevIndex >= 1
    ensures RejectHint(m, args).0 == 0 <==> |m.log| == 1
  {
    if args.prevIndex < |m.log| {
      assert m.log[0].term != m.log[args.prevIndex].term;
    }
  }

  /** A compacted leader asks what the full leader asks, so it is answered alike. */
  lemma SameRound(full: Node, ld: Node, f: Node, peer: nat)
    requires Pair(full, f, peer) && Compacted(full, ld) && CanBuild(ld, peer)
    ensures CanSend(ld, f, peer) && AppendFor(ld, peer) == AppendFor(full, peer)
    ensures Round(ld, f, peer).1 == Round(full, f, peer).1 && Round(ld, f, peer).2 == Round(full, f, peer).2
  {
    RequestUnaffected(full, ld, peer);
  }

  /** The leader cannot go back: nothing changes from now on. */
  lemma StallsForGood(ld: Node, f: Node, peer: nat)
    requires CanSend(ld, f, peer) && f.baseIndex == 0 && Plain(f.log) && |f.log| == 1
    requires ld.baseIndex >= 1 && ld.nextIndex[peer] == ld.baseIndex + 1
    ensures var f' := Recognise(f, ld.currentTerm);
      && Round(ld, f, peer) == (ld, f', false)
      && CanSend(ld, f', peer) && Round(ld, f', peer) == (ld, f', false)
  {}

  /** What a refusal does to the pair, when the full leader goes back by it. */
  lemma RefusedRound(full: Node, ld: Node, f: Node, peer: nat)
    requires Pair(full, f, peer) && Compacted(full, ld) && CanBuild(ld, peer) && ld.baseIndex <= ld.commitIndex
    requires Plain(f.log) && !Round(full, f, peer).2
    ensures CanSend(ld, f, peer)
    ensures var full', ld', f' := Round(full, f, peer).0, Round(ld, f, peer).0, Round(full, f, peer).1;
      && Pair(full', f', peer) && full'.nextIndex[peer] < full.nextIndex[peer] && f'.log == f.log
      && if ld.baseIndex >= 1 && |f.log| == 1 && ld.nextIndex[peer] == ld.baseIndex + 1
         then ld' == ld
         else Compacted(full', ld') && ld'.commitIndex == ld.commitIndex && ld'.baseIndex == ld.baseIndex
              && (|f.log| == 1 ==> ld'.nextIndex[peer] > ld.baseIndex)
  {
    SameRound(full, ld, f, peer);
    RefusalMovesBack(full, f, peer);
    var args := AppendFor(full, peer);
    var m, reply := Recognise(f, args.term), OnAppend(f, args).1;
    assert m.log == f.log && m.baseIndex == 0 && !Consistent(m, args);
    assert args.prevIndex >= 1;
    NoHintIffEmpty(m, args);
    ReplyUnaffected(full, ld, peer, args, reply);
  }

  /** How catching up from a compacted leader ends, in terms of the full leader and of the follower's log. */
  ghost predicate EndsAs(full: Node, ld: Node, f: Node, peer: nat)
    requires Pair(full, f, peer) && CanSend(ld, f, peer)
  {
    var (ending, ld', f') := Chase(ld, f, peer);
    && (ending == Caught <==> CatchUpPoint(full, f, peer) > ld.baseIndex)
    && (ending == Caught ==> full.log <= f'.log)
    && (ending == Stalled <==> ld.baseIndex >= 1 && |f.log| == 1)
    && (ending == Stalled ==> CanSend(ld', f', peer) && Round(ld', f', peer) == (ld', f', false))
  }

  lemma AcceptedEnds(full: Node, ld: Node, f: Node, peer: nat)
    requires Pair(full, f, peer) && Compacted(full, ld) && CanBuild(ld, peer) && Round(full, f, peer).2
    ensures CanSend(ld, f, peer) && EndsAs(full, ld, f, peer)
  {
    SameRound(full, ld, f, peer);
    SuccessHoldsLog(full, f, peer);
    AcceptedReaches(full, f, peer);
  }

  lemma AcceptedReaches(ld: Node, f: Node, peer: nat)
    requires Pair(ld, f, peer) && Round(ld, f, peer).2
    ensures ld.nextIndex[peer] <= |f.log|
  {
    AcceptNode(f, AppendFor(ld, peer));
  }

  lemma StalledEnds(full: Node, ld: Node, f: Node, peer: nat)
    requires Pair(full, f, peer) && Compacted(full, ld) && CanBuild(ld, peer) && ld.baseIndex <= ld.commitIndex
    requires Plain(f.log) && |f.log| == 1 && ld.baseIndex >= 1 && ld.nextIndex[peer] == ld.baseIndex + 1
    requires !Round(full, f, peer).2
    ensures CanSend(ld, f, peer) && EndsAs(full, ld, f, peer)
  {
    RefusedRound(full, ld, f, peer);
    StallsForGood(ld, f, peer);
  }

  /** Unless that was the stalling point, a refusal sends the leader into its compacted part, or the rest decides. */
  lemma RefusedEnds(full: Node, ld: Node, f: Node, peer: nat)
    requires Pair(full, f, peer) && Compacted(full, ld) && CanBuild(ld, peer) && ld.baseIndex <= ld.commitIndex
    requires Plain(f.log) && !(|f.log| == 1 && ld.baseIndex >= 1 && ld.nextIndex[peer] == ld.baseIndex + 1)
    requires !Round(full, f, peer).2 && CanSend(ld, f, peer)
    requires var full', ld', f' := Round(full, f, peer).0, Round(ld, f, peer).0, Round(full, f, peer).1;
      ld'.nextIndex[peer] > ld.baseIndex ==>
        Pair(full', f', peer) && CanSend(ld', f', peer) && EndsAs(full', ld', f', peer)
    ensures EndsAs(full, ld, f, peer)
  {
    SameRound(full, ld, f, peer);
    RefusedRound(full, ld, f, peer);
    RefusalRound(ld, f, peer);
  }

  /** Catching up from a compacted leader goes as from the full one while it can. It ends with the follower holding all
      of the full log exactly if the full leader would be accepted above the compacted index; and it stalls for good,
      with no snapshot asked for, exactly if the leader has compacted anything and the follower's log is empty. */
  lemma {:induction false} ChaseIsExact(full: Node, ld: Node, f: Node, peer: nat)
    requires Pair(full, f, peer) && Compacted(full, ld) && CanBuild(ld, peer) && ld.baseIndex <= ld.commitIndex
    requires Plain(f.log)
    ensures CanSend(ld, f, peer) && EndsAs(full, ld, f, peer)
    decreases full.nextIndex[peer]
  {
    if Round(full, f, peer).2 {
      AcceptedEnds(full, ld, f, peer);
    } else {
      RefusedRound(full, ld, f, peer);
      if ld.baseIndex >= 1 && |f.log| == 1 && ld.nextIndex[peer] == ld.baseIndex + 1 {
        StalledEnds(full, ld, f, peer);
      } else {
        var full', ld', f' := Round(full, f, peer).0, Round(ld, f, peer).0, Round(full, f, peer).1;
        if ld'.nextIndex[peer] > ld.baseIndex { ChaseIsExact(full', ld', f', peer); }
        RefusedEnds(full, ld, f, peer);
      }
    }
  }
}
