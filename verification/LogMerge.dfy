/** What the follower's merge loops achieve, and when. */
module LogMerge {
  import opened RaftTypes
  import opened RaftNode

  /** Both logs reach index k and are the same up to and including it. */
  ghost predicate Agree(a: seq<Entry>, b: seq<Entry>, k: nat) {
    k < |a| && k < |b| && forall i :: 0 <= i <= k ==> a[i] == b[i]
  }

  /** The specification of the merge: keep a log that already holds the entries, otherwise cut it at
      the first difference and end with the new entries. */
  ghost function Spliced(log: seq<Entry>, at: nat, entries: seq<Entry>): seq<Entry>
    requires at <= |log|
  {
    if at + |entries| <= |log| && log[at..at + |entries|] == entries then log else log[..at] + entries
  }

  /** Where terms agree, commands agree: what log matching gives for the entries that lie over the log,
      up to the first term conflict. */
  ghost predicate Matching(log: seq<Entry>, at: nat, entries: seq<Entry>)
    requires at <= |log|
  {
    forall i :: 0 <= i < FirstConflict(log, at, entries, 0) ==> log[at + i].command == entries[i].command
  }

  lemma {:induction false} SameCommandsCounts(log: seq<Entry>, at: nat, entries: seq<Entry>, upTo: nat)
    requires at <= |log| && upTo <= Overlap(log, at, entries)
    ensures SameCommands(log, at, entries, upTo) == upTo
        <==> forall i :: 0 <= i < upTo ==> log[at + i].command == entries[i].command
  {
    if upTo > 0 {
      SameCommandsCounts(log, at, entries, upTo - 1);
    }
  }

  lemma MergeIsSplice(log: seq<Entry>, at: nat, entries: seq<Entry>)
    requires at <= |log| && Matching(log, at, entries)
    ensures MergeEntries(log, at, entries) == Spliced(log, at, entries)
  {
    var overlap := Overlap(log, at, entries);
    var c := FirstConflict(log, at, entries, 0);
    assert forall i :: 0 <= i < c ==> log[at + i] == entries[i];
    if c < overlap {
      assert log[..at + c] + entries[c..] == log[..at] + entries;
      assert log[at + c] != entries[c];
      if at + |entries| <= |log| {
        assert log[at..at + |entries|][c] == log[at + c];
      }
    } else {
      SameCommandsCounts(log, at, entries, overlap);
      if |entries| <= |log| - at {
        assert log[at..at + |entries|] == entries;
        assert log + entries[overlap..] == log;
      } else {
        assert log + entries[overlap..] == log[..at] + entries;
      }
    }
  }

  /** The loops refine the specification exactly when entries with equal terms carry equal commands. */
  lemma MergeRefinesSplice(log: seq<Entry>, at: nat, entries: seq<Entry>)
    requires at <= |log|
    ensures MergeEntries(log, at, entries) == Spliced(log, at, entries) <==> Matching(log, at, entries)
  {
    if Matching(log, at, entries) {
      MergeIsSplice(log, at, entries);
    } else {
      var i :| 0 <= i < FirstConflict(log, at, entries, 0) && log[at + i].command != entries[i].command;
      SameCommandsCounts(log, at, entries, Overlap(log, at, entries));
      SpliceHolds(log, at, entries, i);
      assert MergeEntries(log, at, entries)[at + i] == log[at + i];
    }
  }

  lemma SpliceHolds(log: seq<Entry>, at: nat, entries: seq<Entry>, i: nat)
    requires at <= |log| && i < |entries|
    ensures |Spliced(log, at, entries)| >= at + |entries|
    ensures Spliced(log, at, entries)[at + i] == entries[i]
  {
    if at + |entries| <= |log| {
      assert log[at..at + |entries|][i] == log[at + i];
    }
  }
}
