/** The Raft node as an object: its fields, and its handlers with their loops, proved against the pure steps. */
module Raft {
  import opened Ops
  import opened RaftTypes
  import opened RaftNode

  class Raft {
    const id: nat
    const peers: nat
    var votedFor: int
    var votesGranted: nat
    var currentTerm: nat
    var commitIndex: nat
    var lastApplied: nat
    var baseIndex: nat
    var baseTerm: nat
    var role: Role
    var log: seq<Entry>
    var nextIndex: seq<nat>
    var matchIndex: seq<nat>
    var disk: Disk
    var channel: seq<ApplyMsg>

    /** The node this object is. */
    function View(): Node
      reads this
    {
      Node(id, peers, votedFor, votesGranted, currentTerm, commitIndex, lastApplied, baseIndex, baseTerm,
           role, log, nextIndex, matchIndex, disk, channel)
    }

    ghost predicate Valid()
      reads this
    {
      NodeOk(View())
    }

    /** Start on a persister; push back whatever log it holds. */
    constructor (id: nat, peers: nat, disk: Disk)
      requires id < peers
      ensures View() == Boot(id, peers, disk) && Valid()
    {
      this.id, this.peers := id, peers;
      votedFor, votesGranted, currentTerm := -1, 0, 0;
      commitIndex, lastApplied, baseIndex, baseTerm := 0, 0, 0, 0;
      role := Follower;
      log := [DUMMY];
      nextIndex, matchIndex := seq(peers, _ => 0), seq(peers, _ => 0);
      this.disk := disk;
      channel := [];
      new;
      match disk
      case NoState =>
      case Saved(term, vote, entries) =>
        currentTerm, votedFor := term, ReadField(vote, "VotedFor");
        var i := 0;
        while i < |entries|
          invariant i <= |entries|
          invariant View() == Boot(id, peers, disk).(log := [DUMMY] + entries[..i])
        {
          log := log + [entries[i]];
          i := i + 1;
        }
        assert entries[..i] == entries;
    }

    method PersistState()
      requires |log| >= 1
      modifies this`disk
      ensures View() == Persist(old(View()))
    {
      var entries: seq<Entry> := [];
      var i := 1;
      while i < |log|
        invariant 1 <= i <= |log| && entries == log[1..i]
      {
        entries := entries + [log[i]];
        i := i + 1;
      }
      assert log[1..i] == log[1..];
      disk := Saved(currentTerm, Field("VotedFor", votedFor), entries);
    }

    method StepDownToFollower(term: nat)
      requires |log| >= 1
      modifies this`currentTerm, this`votedFor, this`role, this`disk
      ensures View() == StepDown(old(View()), term)
    {
      currentTerm := term;
      votedFor := -1;
      role := Follower;
      PersistState();
    }

    // -------------------------------------------------------------- elections

    /** Stand for election and ask every other peer for its vote. */
    method Stand() returns (requests: map<nat, VoteArgs>)
      requires Valid() && MayStand(View())
      modifies this
      ensures View() == StartElection(old(View()))
      ensures forall p :: p in requests <==> 0 <= p < peers && p != id
      ensures forall p :: p in requests ==> requests[p] == VoteRequest(View())
    {
      role := Candidate;
      currentTerm := currentTerm + 1;
      votedFor := id;
      votesGranted := 1;
      PersistState();
      requests := map[];
      var p := 0;
      while p < peers
        invariant p <= peers
        invariant View() == StartElection(old(View()))
        invariant forall q :: q in requests <==> 0 <= q < p && q != id
        invariant forall q :: q in requests ==> requests[q] == VoteRequest(View())
      {
        if p != id {
          requests := requests[p := VoteArgs(currentTerm, id, |log| - 1 + baseIndex, log[|log| - 1].term)];
        }
        p := p + 1;
      }
    }

    method RequestVote(args: VoteArgs) returns (reply: VoteReply)
      requires Valid()
      modifies this
      ensures (View(), reply) == OnVoteRequest(old(View()), args)
    {
      reply := VoteReply(currentTerm, false);
      if currentTerm > args.term { return; }
      if currentTerm < args.term { StepDownToFollower(args.term); }
      var lastIndex, lastTerm := |log| - 1 + baseIndex, log[|log| - 1].term;
      var upToDate := args.lastLogTerm > lastTerm || (args.lastLogTerm == lastTerm && args.lastLogIndex >= lastIndex);
      if (votedFor == -1 || votedFor == args.candidateId) && upToDate {
        reply := reply.(granted := true);
        votedFor := args.candidateId;
      }
      PersistState();
    }

    method HandleVoteReply(reply: VoteReply)
      requires Valid()
      modifies this
      ensures View() == OnVoteReply(old(View()), reply)
    {
      if role != Candidate { return; }
      if reply.granted {
        votesGranted := votesGranted + 1;
      } else if reply.term > currentTerm {
        StepDownToFollower(reply.term);
      }
    }

    method PromoteToLeader()
      requires Valid() && HasMajority(View())
      modifies this
      ensures View() == BecomeLeader(old(View()))
    {
      role := Leader;
      var lastLogIndex := baseIndex + |log| - 1;
      nextIndex := seq(peers, _ => lastLogIndex + 1);
      matchIndex := seq(peers, _ => 0);
    }

    // -------------------------------------------------------------- replication, leader side

    method StartCommand(command: Command) returns (reply: StartReply)
      requires Valid()
      modifies this
      ensures (View(), reply) == Start(old(View()), command)
    {
      if role != Leader { return StartReply(-1, -1, false); }
      log := log + [Entry(command, currentTerm)];
      PersistState();
      reply := StartReply(|log| - 1 + baseIndex, currentTerm, true);
    }

    /** The entries from a place in the log on. */
    method EntriesFrom(first: nat) returns (entries: seq<Entry>)
      requires first <= |log|
      ensures entries == log[first..]
    {
      entries := [];
      var i := first;
      while i < |log|
        invariant first <= i <= |log| && entries == log[first..i]
      {
        entries := entries + [log[i]];
        i := i + 1;
      }
      assert log[first..i] == log[first..];
    }

    /** The request for a peer that does not need a snapshot: everything from its next index on. */
    method BuildRequest(peer: nat) returns (args: AppendArgs)
      requires Valid() && peer < peers && CanBuild(View(), peer)
      ensures args == AppendFor(View(), peer)
    {
      var first := nextIndex[peer] - baseIndex;
      var entries := EntriesFrom(first);
      args := AppendArgs(currentTerm, id, nextIndex[peer] - 1, log[first - 1].term, entries, commitIndex);
    }

    /** One request for every peer that does not need a snapshot. */
    method Broadcast() returns (requests: map<nat, AppendArgs>)
      requires Valid() && role == Leader
      requires forall p :: 0 <= p < peers ==> nextIndex[p] <= LastIndex(View()) + 1
      ensures forall p :: p in requests <==> 0 <= p < peers && p != id && nextIndex[p] > baseIndex
      ensures forall p :: p in requests ==> requests[p] == AppendFor(View(), p)
    {
      requests := map[];
      var p := 0;
      while p < peers
        invariant p <= peers
        invariant forall q :: q in requests <==> 0 <= q < p && q != id && nextIndex[q] > baseIndex
        invariant forall q :: q in requests ==> requests[q] == AppendFor(View(), q)
      {
        if p != id && nextIndex[p] > baseIndex {
          var args := BuildRequest(p);
          requests := requests[p := args];
        }
        p := p + 1;
      }
    }

    /** How many nodes, this one included, are known to hold the log up to an index. */
    method CountReplicas(index: nat) returns (count: nat)
      requires Valid()
      ensures count == 1 + |Replicas(View(), index)|
    {
      count := 1;
      var i := 0;
      ghost var seen: set<nat> := {};
      while i < peers
        invariant i <= peers && count == 1 + |seen|
        invariant seen == set j | 0 <= j < i && j != id && matchIndex[j] >= index
      {
        if i != id && matchIndex[i] >= index {
          count := count + 1;
          seen := seen + {i};
        }
        i := i + 1;
      }
      assert seen == Replicas(View(), index);
    }

    method UpdateLeaderCommitIndex()
      requires Valid() && role == Leader
      modifies this`commitIndex
      ensures View() == old(View()).(commitIndex := ScanCommit(old(View()), LastIndex(old(View()))))
    {
      ghost var n := View();
      var index: nat := baseIndex + |log| - 1;
      while index > commitIndex
        invariant View() == n
        invariant ScanCommit(n, LastIndex(n)) == ScanCommit(n, index)
      {
        if index >= baseIndex && index - baseIndex < |log| {
          var count := CountReplicas(index);
          if count > peers / 2 && log[index - baseIndex].term == currentTerm {
            commitIndex := index;
            break;
          }
        }
        index := index - 1;
      }
    }

    method ApplyUpToCommit()
      requires |log| >= 1 && baseIndex <= lastApplied && commitIndex <= Max(lastApplied, LastIndex(View()))
      modifies this`lastApplied, this`channel
      ensures View() == ApplyCommitted(old(View()))
    {
      ghost var from := lastApplied;
      while commitIndex > lastApplied
        invariant from <= lastApplied && (lastApplied > from ==> lastApplied <= commitIndex)
        invariant channel == old(channel) +
          if lastApplied > from then Messages(log, baseIndex, from, lastApplied) else []
      {
        lastApplied := lastApplied + 1;
        var entry := log[lastApplied - baseIndex];
        channel := channel + [ApplyMsg(lastApplied, entry.term, entry.command)];
      }
    }

    method HandleAppendReply(peer: nat, args: AppendArgs, reply: AppendReply)
      requires Valid() && peer < peers
      modifies this
      ensures View() == OnAppendReply(old(View()), peer, args, reply)
    {
      if role != Leader || currentTerm != args.term { return; }
      if reply.term > currentTerm {
        StepDownToFollower(reply.term);
        return;
      }
      if reply.success {
        matchIndex := matchIndex[peer := Max(matchIndex[peer], args.prevIndex + |args.entries|)];
        nextIndex := nextIndex[peer := matchIndex[peer] + 1];
        UpdateLeaderCommitIndex();
        ApplyUpToCommit();
      } else if reply.conflictIndex > 0 {
        nextIndex := nextIndex[peer := reply.conflictIndex];
      } else if nextIndex[peer] > baseIndex + 1 {
        nextIndex := nextIndex[peer := nextIndex[peer] - 1];
      }
    }

    // -------------------------------------------------------------- replication, follower side

    /** Walk the conflict hint back to the first index of the conflicting term. */
    method ConflictHint(rel: nat) returns (first: nat)
      requires rel < |log|
      ensures first == WalkBack(log, rel, log[rel].term)
    {
      first := rel;
      while first > 0 && log[first - 1].term == log[rel].term
        invariant first <= rel && WalkBack(log, rel, log[rel].term) == WalkBack(log, first, log[rel].term)
      {
        first := first - 1;
      }
    }

    /** Cut the log at the first term conflict, if there is one; mark is the first entry to append then. */
    method CutAtConflict(at: nat, entries: seq<Entry>) returns (mark: nat)
      requires at <= |log|
      modifies this`log
      ensures mark <= |entries| && log + entries[mark..] == MergeEntries(old(log), at, entries)
    {
      ghost var log0, overlap := log, Overlap(log, at, entries);
      mark := 0;
      var i := 0;
      while i < |entries|
        invariant i <= |entries| && log == log0
        invariant FirstConflict(log0, at, entries, 0) == FirstConflict(log0, at, entries, Min(i, overlap))
        invariant mark == SameCommands(log0, at, entries, Min(i, overlap))
      {
        if i + at < |log| {
          if log[i + at].term != entries[i].term {
            log := log[..i + at];
            mark := i;
            assert FirstConflict(log0, at, entries, 0) == i;
            return;
          } else if log[i + at].command == entries[i].command {
            mark := mark + 1;
          }
        }
        i := i + 1;
      }
      assert FirstConflict(log0, at, entries, 0) == overlap;
    }

    /** The mark, resize and push_back loops. */
    method Merge(at: nat, entries: seq<Entry>)
      requires at <= |log|
      modifies this`log
      ensures log == MergeEntries(old(log), at, entries)
    {
      var mark := CutAtConflict(at, entries);
      ghost var kept := log;
      var k := mark;
      while k < |entries|
        invariant mark <= k <= |entries| && log == kept + entries[mark..k]
      {
        log := log + [entries[k]];
        k := k + 1;
      }
      assert entries[mark..k] == entries[mark..];
    }

    method RecogniseTerm(term: nat)
      requires Valid() && currentTerm <= term
      modifies this
      ensures View() == Recognise(old(View()), term)
    {
      if currentTerm < term {
        StepDownToFollower(term);
      } else if role == Candidate {
        role := Follower;
      }
    }

    /** Merge a consistent request's entries into the log and save it. */
    method AppendNew(args: AppendArgs)
      requires Valid() && Consistent(View(), args)
      modifies this`log, this`disk
      ensures View() == TakeEntries(old(View()), args)
    {
      MergeCovers(log, args.prevIndex - baseIndex + 1, args.entries);
      Merge(args.prevIndex - baseIndex + 1, args.entries);
      PersistState();
    }

    method AcceptEntries(args: AppendArgs)
      requires Valid() && Consistent(View(), args)
      modifies this
      ensures View() == Accept(old(View()), args)
    {
      AppendNew(args);
      if args.leaderCommit > commitIndex {
        commitIndex := Min(args.leaderCommit, args.prevIndex + |args.entries|);
      }
      ApplyUpToCommit();
    }

    /** Forget the log up to an index the state machine has a snapshot of. */
    method Snapshot(index: nat)
      requires Valid()
      modifies this
      ensures View() == Compact(old(View()), index)
      ensures index <= lastApplied ==> Valid()
    {
      if index <= baseIndex { return; }
      var rel := index - baseIndex;
      if rel >= |log| { return; }
      baseTerm := log[rel].term;
      baseIndex := index;
      if rel + 1 < |log| {
        log := log[rel + 1..];
      } else {
        log := [];
      }
      log := [Entry(Blank, baseTerm)] + log;
      disk := Saved(currentTerm, Field("Voted", votedFor), log[1..]);
    }

    method AppendEntries(args: AppendArgs) returns (reply: AppendReply)
      requires Valid()
      modifies this
      ensures (View(), reply) == OnAppend(old(View()), args)
    {
      reply := AppendReply(currentTerm, false, 0, 0);
      if currentTerm > args.term { return; }
      RecogniseTerm(args.term);
      if args.prevIndex < baseIndex { return; }
      var rel := args.prevIndex - baseIndex;
      if rel >= |log| {
        reply := reply.(conflictIndex := |log| - 1 + baseIndex, conflictTerm := -1);
        return;
      }
      if log[rel].term != args.prevTerm {
        var first := ConflictHint(rel);
        reply := reply.(conflictIndex := baseIndex + first, conflictTerm := log[rel].term);
        return;
      }
      reply := reply.(success := true);
      AcceptEntries(args);
    }
  }
}
