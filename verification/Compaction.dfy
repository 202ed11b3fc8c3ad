/** Compacting the log is a data refinement: the node goes on as if it still had all of it. */
module Compaction {
  import opened Ops
  import opened RaftTypes
  import opened RaftNode

  /** comp is full with a longer part of its log forgotten; the records on disk may differ. */
  ghost predicate Compacted(full: Node, comp: Node) {
    NodeOk(full) && NodeOk(comp) && Twin(full, comp)
  }

  ghost predicate Twin(full: Node, comp: Node) {
    && full.baseIndex <= comp.baseIndex < full.baseIndex + |full.log|
    && comp.log == Forget(full.log, comp.baseIndex - full.baseIndex)
    && comp == full.(baseIndex := comp.baseIndex, baseTerm := comp.baseTerm, log := comp.log, disk := comp.disk)
  }

  ghost function Forget(log: seq<Entry>, d: nat): seq<Entry>
    requires d < |log|
  {
    [Entry(Blank, log[d].term)] + log[d + 1..]
  }

  // ---------------------------------------------------------------- snapshots

  /** A snapshot cuts the log at its index, if the index is in the log above the last cut, and else does nothing. */
  lemma SnapshotCuts(n: Node, index: nat)
    requires NodeOk(n)
    ensures var c := Compact(n, index);
      if n.baseIndex < index <= LastIndex(n)
      then c.baseIndex == index && c.baseTerm == n.log[index - n.baseIndex].term == c.log[0].term
           && |c.log| == LastIndex(n) - index + 1
      else c == n
  {}

  /** A snapshot keeps the view: the last index and term, the term at every index from its own on, and every entry
      above it. A snapshot of something applied also leaves the node in order. */
  lemma SnapshotKeepsView(full: Node, comp: Node, index: nat, k: nat)
    requires Compacted(full, comp)
    requires Compact(comp, index).baseIndex <= k <= LastIndex(comp)
    ensures var c := Compact(comp, index);
      && Twin(full, c) && (index <= comp.lastApplied ==> Compacted(full, c))
      && LastIndex(c) == LastIndex(full) && LastTerm(c.log) == LastTerm(full.log)
      && c.log[k - c.baseIndex].term == full.log[k - full.baseIndex].term
      && (k > c.baseIndex ==> c.log[k - c.baseIndex] == full.log[k - full.baseIndex])
  {
    CompactMore(full, comp, index);
    SameEnd(full, Compact(comp, index));
    SameEntry(full, Compact(comp, index), k);
  }

  lemma CompactMore(full: Node, comp: Node, index: nat)
    requires Compacted(full, comp)
    ensures Twin(full, Compact(comp, index)) && LastIndex(Compact(comp, index)) == LastIndex(comp)
  {
    if Compactable(comp, index) {
      var d, e := comp.baseIndex - full.baseIndex, index - comp.baseIndex;
      assert comp.log[e + 1..] == full.log[d + e + 1..];
    }
  }

  lemma SameEntry(full: Node, comp: Node, k: nat)
    requires Twin(full, comp) && comp.baseIndex <= k <= LastIndex(comp)
    ensures k - full.baseIndex < |full.log|
    ensures comp.log[k - comp.baseIndex].term == full.log[k - full.baseIndex].term
    ensures k > comp.baseIndex ==> comp.log[k - comp.baseIndex] == full.log[k - full.baseIndex]
  {}

  /** The record a snapshot saves gives back the vote exactly if there was none. */
  lemma SnapshotForgetsVote(n: Node, index: nat)
    requires NodeOk(n) && Compactable(n, index)
    ensures Boot(n.id, n.peers, Compact(n, index).disk).votedFor == n.votedFor <==> n.votedFor == -1
    ensures Boot(n.id, n.peers, Persist(n).disk).votedFor == n.votedFor
  {}

  /** The rest of the record does come back: the term, and the entries above the index, behind a fresh dummy. */
  lemma SnapshotRecord(n: Node, index: nat)
    requires NodeOk(n) && Compactable(n, index)
    ensures var b := Boot(n.id, n.peers, Compact(n, index).disk);
      && b.currentTerm == n.currentTerm && |b.log| == |n.log| - (index - n.baseIndex) && b.log[0] == DUMMY
      && forall k :: 1 <= k < |b.log| ==> b.log[k] == n.log[k + (index - n.baseIndex)]
  {}

  /** What follows: a node that has granted its vote grants another candidate of the same term its vote too, once it
      has made a snapshot and restarted; without the snapshot it does not. */
  lemma SnapshotVotesTwice(n: Node, first: VoteArgs, second: VoteArgs, index: nat)
    requires NodeOk(n) && OnVoteRequest(n, first).1.granted && first.candidateId != second.candidateId
    requires first.term == second.term && UpToDate(second, n)
    requires Compactable(n, index)
    ensures var voted := OnVoteRequest(n, first).0;
      && OnVoteRequest(Boot(n.id, n.peers, Compact(voted, index).disk), second).1.granted
      && !OnVoteRequest(Boot(n.id, n.peers, voted.disk), second).1.granted
  {
    var voted := OnVoteRequest(n, first).0;
    RestartVotes(voted, second, index);
    assert voted.disk == Persist(voted).disk;
  }

  lemma RestartVotes(n: Node, ballot: VoteArgs, index: nat)
    requires NodeOk(n) && Compactable(n, index) && ballot.term == n.currentTerm && UpToDate(ballot, n)
    ensures OnVoteRequest(Boot(n.id, n.peers, Compact(n, index).disk), ballot).1.granted
  {
    var m := Boot(n.id, n.peers, Compact(n, index).disk);
    assert LastTerm(m.log) <= LastTerm(n.log) && LastIndex(m) <= LastIndex(n);
  }

  // ---------------------------------------------------------------- handlers

  lemma VoteRequestUnaffected(full: Node, comp: Node, ballot: VoteArgs)
    requires Compacted(full, comp)
    ensures OnVoteRequest(full, ballot).1 == OnVoteRequest(comp, ballot).1
    ensures Compacted(OnVoteRequest(full, ballot).0, OnVoteRequest(comp, ballot).0)
    ensures VoteRequest(full) == VoteRequest(comp)
  {
    SameEnd(full, comp);
    if full.currentTerm <= ballot.term {
      var f := if full.currentTerm < ballot.term then StepDown(full, ballot.term) else full;
      var c := if comp.currentTerm < ballot.term then StepDown(comp, ballot.term) else comp;
      TwinVotes(f, c, ballot);
    }
  }

  lemma TwinVotes(full: Node, comp: Node, ballot: VoteArgs)
    requires Compacted(full, comp)
    ensures UpToDate(ballot, full) <==> UpToDate(ballot, comp)
    ensures Compacted(Persist(full), Persist(comp))
    ensures Compacted(Persist(full.(votedFor := ballot.candidateId)), Persist(comp.(votedFor := ballot.candidateId)))
  {
    SameEnd(full, comp);
  }

  lemma SameEnd(full: Node, comp: Node)
    requires Twin(full, comp)
    ensures LastIndex(full) == LastIndex(comp) && LastTerm(full.log) == LastTerm(comp.log)
  {}

  lemma StartUnaffected(full: Node, comp: Node, command: Command)
    requires Compacted(full, comp)
    ensures Start(full, command).1 == Start(comp, command).1
    ensures Compacted(Start(full, command).0, Start(comp, command).0)
  {
    if full.role == Leader {
      var e := Entry(command, full.currentTerm);
      assert Forget(full.log + [e], comp.baseIndex - full.baseIndex) == comp.log + [e];
    }
  }

  lemma {:induction false} ConflictShift(log: seq<Entry>, d: nat, at: nat, entries: seq<Entry>, i: nat)
    requires d < |log| && 1 <= at && at + d <= |log| && i <= Overlap(log, at + d, entries)
    ensures Overlap(Forget(log, d), at, entries) == Overlap(log, at + d, entries)
    ensures FirstConflict(Forget(log, d), at, entries, i) == FirstConflict(log, at + d, entries, i)
    decreases Overlap(log, at + d, entries) - i
  {
    if i < Overlap(log, at + d, entries) {
      assert Forget(log, d)[at + i] == log[at + d + i];
      if log[at + d + i].term == entries[i].term { ConflictShift(log, d, at, entries, i + 1); }
    }
  }

  lemma {:induction false} CountShift(log: seq<Entry>, d: nat, at: nat, entries: seq<Entry>, upTo: nat)
    requires d < |log| && 1 <= at && at + d <= |log| && upTo <= Overlap(log, at + d, entries)
    ensures SameCommands(Forget(log, d), at, entries, upTo) == SameCommands(log, at + d, entries, upTo)
  {
    if upTo > 0 {
      CountShift(log, d, at, entries, upTo - 1);
      assert Forget(log, d)[at + upTo - 1] == log[at + d + upTo - 1];
    }
  }

  lemma ForgetCut(log: seq<Entry>, d: nat, cut: nat, tail: seq<Entry>)
    requires d < cut <= |log|
    ensures Forget(log[..cut] + tail, d) == Forget(log, d)[..cut - d] + tail
  {}

  lemma ForgetAppend(log: seq<Entry>, d: nat, tail: seq<Entry>)
    requires d < |log|
    ensures Forget(log + tail, d) == Forget(log, d) + tail
  {}

  ghost predicate SameFindings(log: seq<Entry>, whole: nat, short: seq<Entry>, at: nat, entries: seq<Entry>)
    requires at <= |short| && whole <= |log|
  {
    && Overlap(short, at, entries) == Overlap(log, whole, entries)
    && FirstConflict(short, at, entries, 0) == FirstConflict(log, whole, entries, 0)
    && SameCommands(short, at, entries, Overlap(short, at, entries))
       == SameCommands(log, whole, entries, Overlap(log, whole, entries))
  }

  lemma MergeCut(log: seq<Entry>, at: nat, entries: seq<Entry>, c: nat)
    requires at <= |log| && c == FirstConflict(log, at, entries, 0) < Overlap(log, at, entries)
    ensures at + c < |log| && MergeEntries(log, at, entries) == log[..at + c] + entries[c..]
  {}

  lemma MergeShiftCut(log: seq<Entry>, d: nat, at: nat, whole: nat, entries: seq<Entry>)
    requires d < |log| && 1 <= at && whole == at + d <= |log| && SameFindings(log, whole, Forget(log, d), at, entries)
    requires FirstConflict(log, whole, entries, 0) < Overlap(log, whole, entries)
    ensures d < |MergeEntries(log, whole, entries)|
    ensures Forget(MergeEntries(log, whole, entries), d) == MergeEntries(Forget(log, d), at, entries)
  {
    var c := FirstConflict(log, whole, entries, 0);
    MergeCut(log, whole, entries, c);
    MergeCut(Forget(log, d), at, entries, c);
    ForgetCut(log, d, whole + c, entries[c..]);
  }

  lemma MergeShiftAppend(log: seq<Entry>, d: nat, at: nat, whole: nat, entries: seq<Entry>)
    requires d < |log| && 1 <= at && whole == at + d <= |log| && SameFindings(log, whole, Forget(log, d), at, entries)
    requires FirstConflict(log, whole, entries, 0) == Overlap(log, whole, entries)
    ensures d < |MergeEntries(log, whole, entries)|
    ensures Forget(MergeEntries(log, whole, entries), d) == MergeEntries(Forget(log, d), at, entries)
  {
    ForgetAppend(log, d, entries[SameCommands(log, whole, entries, Overlap(log, whole, entries))..]);
  }

  /** Merging commutes with forgetting. */
  lemma MergeShift(log: seq<Entry>, d: nat, at: nat, whole: nat, entries: seq<Entry>)
    requires d < |log| && 1 <= at && whole == at + d <= |log|
    ensures d < |MergeEntries(log, whole, entries)|
    ensures Forget(MergeEntries(log, whole, entries), d) == MergeEntries(Forget(log, d), at, entries)
  {
    ConflictShift(log, d, at, entries, 0);
    CountShift(log, d, at, entries, Overlap(log, whole, entries));
    if FirstConflict(log, whole, entries, 0) < Overlap(log, whole, entries) {
      MergeShiftCut(log, d, at, whole, entries);
    } else {
      MergeShiftAppend(log, d, at, whole, entries);
    }
  }

  lemma {:induction false} WalkBackShift(log: seq<Entry>, d: nat, rel: nat, term: nat)
    requires d < |log| && rel + d < |log|
    ensures d + WalkBack(Forget(log, d), rel, term) == Max(WalkBack(log, rel + d, term), d)
  {
    if rel > 0 {
      assert Forget(log, d)[rel - 1].term == log[rel + d - 1].term;
      WalkBackShift(log, d, rel - 1, term);
    }
  }

  lemma MessagesShift(log: seq<Entry>, base: nat, d: nat, from: nat, upTo: nat)
    requires d < |log| && base + d <= from <= upTo < base + |log|
    ensures Messages(Forget(log, d), base + d, from, upTo) == Messages(log, base, from, upTo)
  {
    var a, b := Messages(Forget(log, d), base + d, from, upTo), Messages(log, base, from, upTo);
    forall k | 0 <= k < upTo - from ensures a[k] == b[k] {
      assert Forget(log, d)[from + 1 + k - base - d] == log[from + 1 + k - base];
    }
  }

  lemma ApplyShift(full: Node, comp: Node)
    requires Twin(full, comp) && comp.baseIndex <= comp.lastApplied
    requires full.commitIndex <= Max(full.lastApplied, LastIndex(full))
    ensures Twin(ApplyCommitted(full), ApplyCommitted(comp))
  {
    if full.commitIndex > full.lastApplied {
      MessagesShift(full.log, full.baseIndex, comp.baseIndex - full.baseIndex, full.lastApplied, full.commitIndex);
    }
  }

  lemma SavedTwin(full: Node, comp: Node, log: seq<Entry>, short: seq<Entry>)
    requires Twin(full, comp) && comp.baseIndex - full.baseIndex < |log| && |short| >= 1
    requires short == Forget(log, comp.baseIndex - full.baseIndex)
    ensures Twin(Persist(full.(log := log)), Persist(comp.(log := short)))
  {}

  lemma TakeIs(n: Node, args: AppendArgs, at: nat, log: seq<Entry>)
    requires NodeOk(n) && Consistent(n, args) && at == args.prevIndex - n.baseIndex + 1
    requires log == MergeEntries(n.log, at, args.entries)
    ensures |log| >= 1 && TakeEntries(n, args) == Persist(n.(log := log))
  {}

  lemma MergedLogs(full: Node, comp: Node, at: nat, whole: nat, entries: seq<Entry>)
    returns (log: seq<Entry>, short: seq<Entry>)
    requires Twin(full, comp) && 1 <= at && whole == at + comp.baseIndex - full.baseIndex <= |full.log|
    ensures at <= |comp.log| && log == MergeEntries(full.log, whole, entries)
      && short == MergeEntries(comp.log, at, entries)
    ensures comp.baseIndex - full.baseIndex < |log| && short == Forget(log, comp.baseIndex - full.baseIndex)
  {
    log, short := MergeEntries(full.log, whole, entries), MergeEntries(comp.log, at, entries);
    MergeShift(full.log, comp.baseIndex - full.baseIndex, at, whole, entries);
  }

  lemma TakeShift(full: Node, comp: Node, args: AppendArgs)
    requires Compacted(full, comp) && Consistent(full, args) && args.prevIndex >= comp.baseIndex
      && Consistent(comp, args)
    ensures Twin(TakeEntries(full, args), TakeEntries(comp, args))
  {
    var whole, at := args.prevIndex - full.baseIndex + 1, args.prevIndex - comp.baseIndex + 1;
    var log, short := MergedLogs(full, comp, at, whole, args.entries);
    SavedTwin(full, comp, log, short);
    TakeIs(full, args, whole, log);
    TakeIs(comp, args, at, short);
  }

  lemma AcceptShift(full: Node, comp: Node, args: AppendArgs)
    requires Compacted(full, comp) && Consistent(full, args) && args.prevIndex >= comp.baseIndex
      && Consistent(comp, args)
    ensures Compacted(Accept(full, args), Accept(comp, args))
  {
    TakeShift(full, comp, args);
    FollowShift(TakeEntries(full, args), TakeEntries(comp, args), args);
  }

  lemma FollowShift(full: Node, comp: Node, args: AppendArgs)
    requires Compacted(full, comp) && args.prevIndex + |args.entries| <= LastIndex(full)
    ensures Twin(ApplyCommitted(FollowCommit(full, args)), ApplyCommitted(FollowCommit(comp, args)))
  {
    ApplyShift(FollowCommit(full, args), FollowCommit(comp, args));
  }

  /** A request from the compacted part's end on is accepted or refused alike, with the same effect; a refusal's hint
      is the same as far as the compacted node can look back. */
  lemma AppendUnaffected(full: Node, comp: Node, args: AppendArgs)
    requires Compacted(full, comp) && args.prevIndex >= comp.baseIndex
    ensures Compacted(OnAppend(full, args).0, OnAppend(comp, args).0)
    ensures var f, c := OnAppend(full, args).1, OnAppend(comp, args).1;
      && c.success == f.success && c.term == f.term && c.conflictTerm == f.conflictTerm
      && (!f.success && full.currentTerm <= args.term ==> c.conflictIndex == Max(f.conflictIndex, comp.baseIndex))
  {
    if full.currentTerm <= args.term {
      var f, c := Recognise(full, args.term), Recognise(comp, args.term);
      RecogniseShift(full, comp, args);
      if Consistent(f, args) { AcceptShift(f, c, args); } else { HintShift(f, c, args); }
    }
  }

  lemma RecogniseShift(full: Node, comp: Node, args: AppendArgs)
    requires Compacted(full, comp) && args.prevIndex >= comp.baseIndex
    ensures var f, c := Recognise(full, args.term), Recognise(comp, args.term);
      && Compacted(f, c) && c.baseIndex == comp.baseIndex && (Consistent(f, args) <==> Consistent(c, args))
  {}

  lemma HintShift(full: Node, comp: Node, args: AppendArgs)
    requires Compacted(full, comp) && args.prevIndex >= comp.baseIndex
    requires !Consistent(full, args) && !Consistent(comp, args)
    ensures RejectHint(comp, args).0 == Max(RejectHint(full, args).0, comp.baseIndex)
    ensures RejectHint(comp, args).1 == RejectHint(full, args).1
  {
    var rel := args.prevIndex - comp.baseIndex;
    if rel < |comp.log| {
      WalkBackShift(full.log, comp.baseIndex - full.baseIndex, rel, comp.log[rel].term);
    }
  }

  // ---------------------------------------------------------------- leaders

  lemma RequestUnaffected(full: Node, comp: Node, peer: nat)
    requires Compacted(full, comp) && peer < comp.peers && CanBuild(comp, peer)
    ensures CanBuild(full, peer) && AppendFor(full, peer) == AppendFor(comp, peer)
  {
    var d := comp.baseIndex - full.baseIndex;
    assert comp.log[comp.nextIndex[peer] - comp.baseIndex..] == full.log[full.nextIndex[peer] - full.baseIndex..];
  }

  lemma {:induction false} ScanShift(full: Node, comp: Node, from: nat)
    requires Compacted(full, comp) && comp.baseIndex <= comp.commitIndex && from <= LastIndex(full)
    ensures ScanCommit(comp, from) == ScanCommit(full, from)
  {
    if from > comp.commitIndex {
      assert comp.log[from - comp.baseIndex].term == full.log[from - full.baseIndex].term;
      assert Replicas(comp, from) == Replicas(full, from);
      ScanShift(full, comp, from - 1);
    }
  }

  lemma SuccessShift(full: Node, comp: Node, peer: nat, args: AppendArgs)
    requires Compacted(full, comp) && peer < comp.peers && comp.baseIndex <= comp.commitIndex
    ensures var f, c := Matched(full, peer, args), Matched(comp, peer, args);
      && NodeOk(f) && NodeOk(c)
      && Twin(ApplyCommitted(f.(commitIndex := ScanCommit(f, LastIndex(f)))),
              ApplyCommitted(c.(commitIndex := ScanCommit(c, LastIndex(c)))))
  {
    CommitShift(Matched(full, peer, args), Matched(comp, peer, args));
  }

  lemma CommitShift(full: Node, comp: Node)
    requires Compacted(full, comp) && comp.baseIndex <= comp.commitIndex
    ensures Twin(ApplyCommitted(full.(commitIndex := ScanCommit(full, LastIndex(full)))),
                 ApplyCommitted(comp.(commitIndex := ScanCommit(comp, LastIndex(comp)))))
  {
    var index := ScanCommit(full, LastIndex(full));
    ScanShift(full, comp, LastIndex(full));
    assert ScanCommit(comp, LastIndex(comp)) == index;
    CommitAt(full, comp, index);
  }

  lemma CommitAt(full: Node, comp: Node, index: nat)
    requires Twin(full, comp) && comp.baseIndex <= comp.lastApplied && index <= Max(full.lastApplied, LastIndex(full))
    ensures Twin(ApplyCommitted(full.(commitIndex := index)), ApplyCommitted(comp.(commitIndex := index)))
  {
    assert Twin(full.(commitIndex := index), comp.(commitIndex := index));
    ApplyShift(full.(commitIndex := index), comp.(commitIndex := index));
  }

  /** The leader acts on a refusal without a hint, and would have to go back into what only the full node has. */
  ghost predicate GoesBack(full: Node, comp: Node, peer: nat, args: AppendArgs, reply: AppendReply)
    requires NodeOk(full) && peer < full.peers
  {
    && full.role == Leader && full.currentTerm == args.term && reply.term <= full.currentTerm
    && !reply.success && reply.conflictIndex == 0
    && full.baseIndex + 1 < full.nextIndex[peer] <= comp.baseIndex + 1
  }

  /** Replies have the same effect exactly unless the leader would have to go back into what it has forgotten. */
  lemma ReplyUnaffected(full: Node, comp: Node, peer: nat, args: AppendArgs, reply: AppendReply)
    requires Compacted(full, comp) && peer < comp.peers && comp.baseIndex <= comp.commitIndex
    ensures Compacted(OnAppendReply(full, peer, args, reply), OnAppendReply(comp, peer, args, reply))
        <==> !GoesBack(full, comp, peer, args, reply)
  {
    if full.role == Leader && full.currentTerm == args.term && reply.term <= full.currentTerm {
      if reply.success {
        SuccessShift(full, comp, peer, args);
      } else {
        RefusalShift(full, comp, peer, args, reply);
      }
    }
  }

  lemma RefusalShift(full: Node, comp: Node, peer: nat, args: AppendArgs, reply: AppendReply)
    requires Compacted(full, comp) && peer < comp.peers
    requires full.role == Leader && full.currentTerm == args.term && reply.term <= full.currentTerm && !reply.success
    ensures Compacted(OnAppendReply(full, peer, args, reply), OnAppendReply(comp, peer, args, reply))
        <==> !GoesBack(full, comp, peer, args, reply)
  {
    var f, c := OnAppendReply(full, peer, args, reply), OnAppendReply(comp, peer, args, reply);
    if GoesBack(full, comp, peer, args, reply) {
      assert f.nextIndex[peer] != c.nextIndex[peer];
    }
  }
}
