/** Every step keeps the log part of the invariant: log matching, and requests that are slices of a leader's log. */
module LogProof {
  import opened RaftTypes
  import opened RaftNode
  import opened LogMerge
  import opened Cluster
  import opened Invariant
  import opened ElectionProof

  // ---------------------------------------------------------------- logs and term logs

  /** Term logs only grow. */
  ghost predicate Extends(tl: map<nat, seq<Entry>>, tl': map<nat, seq<Entry>>) {
    forall t :: t in tl ==> t in tl' && |tl[t]| <= |tl'[t]| && forall k :: 0 <= k < |tl[t]| ==> tl'[t][k] == tl[t][k]
  }

  lemma LogOkExtends(log: seq<Entry>, tl: map<nat, seq<Entry>>, tl': map<nat, seq<Entry>>)
    requires LogOk(log, tl) && Extends(tl, tl')
    ensures LogOk(log, tl')
  {
    forall i | 1 <= i < |log| ensures Anchored(log, i, tl') { assert Anchored(log, i, tl); }
  }

  /** Log matching: entries with the same index and term have the same history. */
  lemma SameTermAgree(a: seq<Entry>, b: seq<Entry>, k: nat, tl: map<nat, seq<Entry>>)
    requires LogOk(a, tl) && LogOk(b, tl) && k < |a| && k < |b| && a[k].term == b[k].term
    ensures Agree(a, b, k)
  {
    if k > 0 {
      assert Anchored(a, k, tl) && Anchored(b, k, tl);
    }
  }

  lemma PrefixOk(full: seq<Entry>, m: nat, tl: map<nat, seq<Entry>>)
    requires LogOk(full, tl) && m < |full|
    ensures LogOk(full[..m + 1], tl)
  {
    var log := full[..m + 1];
    forall i | 1 <= i < |log| ensures Anchored(log, i, tl) { assert Anchored(full, i, tl); }
  }

  /** A follower's log after it accepted its leader's log up to m. */
  ghost predicate Adopted(merged: seq<Entry>, log: seq<Entry>, full: seq<Entry>, m: nat) {
    && m < |full|
    && if Agree(full, log, m) then merged == log else merged == full[..m + 1]
  }

  lemma SpliceAdopts(log: seq<Entry>, full: seq<Entry>, prev: nat, entries: seq<Entry>)
    requires Agree(full, log, prev) && prev + |entries| < |full|
    requires forall k :: 0 <= k < |entries| ==> entries[k] == full[prev + 1 + k]
    ensures Adopted(Spliced(log, prev + 1, entries), log, full, prev + |entries|)
  {
    HoldsIffAgrees(log, full, prev, entries);
    SliceOf(log, full, prev, entries);
  }

  /** The log holds the request's entries at their place exactly if it agrees with the leader's log up to their end. */
  lemma HoldsIffAgrees(log: seq<Entry>, full: seq<Entry>, prev: nat, entries: seq<Entry>)
    requires Agree(full, log, prev) && prev + |entries| < |full|
    requires forall k :: 0 <= k < |entries| ==> entries[k] == full[prev + 1 + k]
    ensures prev + 1 + |entries| <= |log| && log[prev + 1..prev + 1 + |entries|] == entries
        <==> Agree(full, log, prev + |entries|)
  {
    if prev + 1 + |entries| <= |log| {
      var part := log[prev + 1..prev + 1 + |entries|];
      assert forall k :: 0 <= k < |entries| ==> part[k] == log[prev + 1 + k];
      if part == entries {
        forall i | 0 <= i <= prev + |entries| ensures full[i] == log[i] {
          if i > prev { assert part[i - prev - 1] == entries[i - prev - 1]; }
        }
      }
    }
  }

  lemma SliceOf(log: seq<Entry>, full: seq<Entry>, prev: nat, entries: seq<Entry>)
    requires Agree(full, log, prev) && prev + |entries| < |full|
    requires forall k :: 0 <= k < |entries| ==> entries[k] == full[prev + 1 + k]
    ensures log[..prev + 1] + entries == full[..prev + |entries| + 1]
  {}

  lemma MergeAdopts(log: seq<Entry>, full: seq<Entry>, prev: nat, entries: seq<Entry>, tl: map<nat, seq<Entry>>)
    requires LogOk(log, tl) && LogOk(full, tl)
    requires prev < |log| && prev + |entries| < |full| && log[prev].term == full[prev].term
    requires forall k :: 0 <= k < |entries| ==> entries[k] == full[prev + 1 + k]
    ensures Adopted(MergeEntries(log, prev + 1, entries), log, full, prev + |entries|)
  {
    var at := prev + 1;
    SameTermAgree(full, log, prev, tl);
    forall i | 0 <= i < FirstConflict(log, at, entries, 0) ensures log[at + i].command == entries[i].command {
      assert log[at + i].term == entries[i].term && full[at + i] == entries[i];
      SameTermAgree(log, full, at + i, tl);
    }
    MergeIsSplice(log, at, entries);
    SpliceAdopts(log, full, prev, entries);
  }

  /** Accepting a leader's log never drops what both logs had in common with a third. */
  lemma AdoptedKeeps(merged: seq<Entry>, log: seq<Entry>, full: seq<Entry>, m: nat, p: seq<Entry>, k: nat)
    requires Adopted(merged, log, full, m) && Agree(p, log, k) && Agree(p, full, k)
    ensures Agree(p, merged, k)
  {
    if !Agree(full, log, m) {
      assert k < m;
    }
  }

  lemma MessageExtends(h: History, h': History, m: Message)
    requires LogMessageOk(h, m) && Extends(h.termLog, h'.termLog)
    requires m.AppendReq? || m.AppendResp? ==>
      m.args.term in h'.elected && (m.args.term in h.elected ==> h'.elected[m.args.term] == h.elected[m.args.term])
    requires forall v: nat, t: nat, k: nat :: Acked(h, v, t, k) ==> Acked(h', v, t, k)
    ensures LogMessageOk(h', m)
  {}

  lemma MessagesExtend(c: State, c': State)
    requires Extends(c.hist.termLog, c'.hist.termLog) && c'.net == c.net
    requires c.hist.termLog.Keys <= c.hist.elected.Keys
    requires forall t :: t in c.hist.elected ==> t in c'.hist.elected && c'.hist.elected[t] == c.hist.elected[t]
    requires forall v: nat, t: nat, k: nat :: Acked(c.hist, v, t, k) ==> Acked(c'.hist, v, t, k)
    requires forall m :: m in c.net ==> LogMessageOk(c.hist, m)
    ensures forall m :: m in c'.net ==> LogMessageOk(c'.hist, m)
  {
    forall m | m in c'.net ensures LogMessageOk(c'.hist, m) { MessageExtends(c.hist, c'.hist, m); }
  }

  // ---------------------------------------------------------------- the ways a step touches logs

  /** Node i keeps its log; nothing is elected, appended or acknowledged. */
  ghost predicate QuietStep(c: State, c': State, i: nat) {
    && OnlyNode(c, c', i)
    && c'.nodes[i].log == c.nodes[i].log && c'.nodes[i].currentTerm >= c.nodes[i].currentTerm
    && c'.hist.termLog == c.hist.termLog && c'.hist.elected == c.hist.elected && c'.hist.acks == c.hist.acks
  }

  lemma LogQuiet(c: State, c': State, i: nat)
    requires QuietStep(c, c', i) && LogInv(c)
    requires LeaderOk(c', i)
    requires forall m :: m in c'.net && m !in c.net ==> LogMessageOk(c.hist, m)
    ensures LogInv(c')
  {
    forall t | t in c'.hist.termLog ensures TermLogOk(c', t) { assert TermLogOk(c, t); }
    forall j | 0 <= j < |c'.nodes| ensures LeaderOk(c', j) { assert LeaderOk(c, j); }
    forall b | b in c'.hist.acks ensures AckOk(c', b) { assert AckOk(c, b); }
    forall m | m in c'.net ensures LogMessageOk(c'.hist, m) { assert LogMessageOk(c.hist, m); }
  }

  /** Node i follows the leader of args.term and takes over its log up to the end of the request. */
  ghost predicate AdoptStep(c: State, c': State, i: nat, args: AppendArgs) {
    && OnlyNode(c, c', i) && ArgsOk(c.hist, args)
    && c.nodes[i].currentTerm <= c'.nodes[i].currentTerm == args.term
    && c'.nodes[i].role == Follower
    && Adopted(c'.nodes[i].log, c.nodes[i].log, c.hist.termLog[args.term], args.prevIndex + |args.entries|)
    && c'.hist == c.hist.(acks := Confirmed(c.hist.acks, Ballot(i, args.term), args.prevIndex + |args.entries|))
    && forall m :: m in c'.net && m !in c.net ==> m.AppendResp? && m.from == i && m.args == args && m.reply.success
  }

  lemma AckedConfirmed(h: History, h': History, b: Ballot, index: nat)
    requires h' == h.(acks := Confirmed(h.acks, b, index))
    ensures Acked(h', b.node, b.term, index)
    ensures forall v: nat, t: nat, k: nat :: Acked(h, v, t, k) ==> Acked(h', v, t, k)
  {}

  lemma AdoptedAcks(c: State, c': State, i: nat, args: AppendArgs)
    requires AdoptStep(c, c', i, args) && forall b :: b in c.hist.acks ==> AckOk(c, b)
    ensures forall b :: b in c'.hist.acks ==> AckOk(c', b)
  {
    var b0 := Ballot(i, args.term);
    var full := c.hist.termLog[args.term];
    var m := args.prevIndex + |args.entries|;
    forall b | b in c'.hist.acks ensures AckOk(c', b) {
      assert b in c.hist.acks ==> AckOk(c, b);
      if b == b0 && b in c.hist.acks {
        AdoptedKeeps(c'.nodes[i].log, c.nodes[i].log, full, m, full, c.hist.acks[b]);
      }
    }
  }

  lemma AdoptedLog(c: State, c': State, i: nat, args: AppendArgs)
    requires AdoptStep(c, c', i, args) && LogOk(c.nodes[i].log, c.hist.termLog)
    requires args.term in c.hist.termLog && TermLogOk(c, args.term)
      && LastTerm(c.nodes[i].log) <= c.nodes[i].currentTerm
    ensures LogOk(c'.nodes[i].log, c'.hist.termLog) && LastTerm(c'.nodes[i].log) <= c'.nodes[i].currentTerm
  {
    PrefixOk(c.hist.termLog[args.term], args.prevIndex + |args.entries|, c.hist.termLog);
  }

  lemma LogAdopt(c: State, c': State, i: nat, args: AppendArgs)
    requires AdoptStep(c, c', i, args) && LogInv(c)
    ensures LogInv(c')
  {
    AckedConfirmed(c.hist, c'.hist, Ballot(i, args.term), args.prevIndex + |args.entries|);
    AdoptedAcks(c, c', i, args);
    AdoptedLog(c, c', i, args);
    forall t | t in c'.hist.termLog ensures TermLogOk(c', t) { assert TermLogOk(c, t); }
    forall j | 0 <= j < |c'.nodes| ensures LeaderOk(c', j) { assert LeaderOk(c, j); }
    forall x | x in c'.net ensures LogMessageOk(c'.hist, x) {
      if x in c.net { MessageExtends(c.hist, c'.hist, x); }
    }
  }

  /** Leader i appends one entry of its term. */
  ghost predicate GrowStep(c: State, c': State, i: nat) {
    && OnlyNode(c, c', i)
    && var n, n' := c.nodes[i], c'.nodes[i];
    && n.role == Leader
    && |n'.log| == |n.log| + 1 && n'.log[..|n.log|] == n.log && n'.log[|n.log|].term == n.currentTerm
    && n'.role == Leader && n'.currentTerm == n.currentTerm
    && n'.nextIndex == n.nextIndex && n'.matchIndex == n.matchIndex
    && c'.net == c.net && c'.calls == c.calls
    && c'.hist == c.hist.(
         termLog := c.hist.termLog[n.currentTerm := n'.log],
         acks := c.hist.acks[Ballot(i, n.currentTerm) := |n'.log| - 1])
  }

  lemma GrowExtends(c: State, c': State, i: nat)
    requires GrowStep(c, c', i) && LeaderOk(c, i)
    ensures Extends(c.hist.termLog, c'.hist.termLog)
    ensures forall v: nat, t: nat, k: nat :: Acked(c.hist, v, t, k) ==> Acked(c'.hist, v, t, k)
  {}

  ghost predicate OnlyLeader(c: State, i: nat)
    requires i < |c.nodes|
  {
    forall j :: 0 <= j < |c.nodes| && j != i && c.nodes[j].role == Leader ==>
      c.nodes[j].currentTerm != c.nodes[i].currentTerm
  }

  lemma LogGrow(c: State, c': State, i: nat)
    requires GrowStep(c, c', i) && LogInv(c) && OnlyLeader(c, i)
    ensures LogInv(c')
  {
    GrowTermLogs(c, c', i);
    GrowLeaders(c, c', i);
    GrowAcks(c, c', i);
    GrowMessages(c, c', i);
    assert LeaderOk(c, i);
  }

  lemma GrowMessages(c: State, c': State, i: nat)
    requires GrowStep(c, c', i) && LeaderOk(c, i) && c.hist.termLog.Keys == c.hist.elected.Keys
    requires forall m :: m in c.net ==> LogMessageOk(c.hist, m)
    ensures forall m :: m in c'.net ==> LogMessageOk(c'.hist, m)
  {
    GrowExtends(c, c', i);
    MessagesExtend(c, c');
  }

  lemma GrowAcks(c: State, c': State, i: nat)
    requires GrowStep(c, c', i) && LogInv(c)
    ensures forall b :: b in c'.hist.acks ==> AckOk(c', b)
  {
    var t0 := c.nodes[i].currentTerm;
    assert LeaderOk(c, i);
    forall b | b in c'.hist.acks ensures AckOk(c', b) { assert AckOk(c, b); }
  }

  lemma GrowTermLogs(c: State, c': State, i: nat)
    requires GrowStep(c, c', i) && LogInv(c)
    ensures forall t :: t in c'.hist.termLog ==> TermLogOk(c', t)
    ensures forall j :: 0 <= j < |c'.nodes| ==>
      LogOk(c'.nodes[j].log, c'.hist.termLog) && LastTerm(c'.nodes[j].log) <= c'.nodes[j].currentTerm
  {
    var t0, tl, tl' := c.nodes[i].currentTerm, c.hist.termLog, c'.hist.termLog;
    assert LeaderOk(c, i) && TermLogOk(c, t0);
    GrowExtends(c, c', i);
    LogOkExtends(tl[t0], tl, tl');
    GrownOk(tl[t0], tl'[t0], tl', t0);
    forall t | t in tl' ensures TermLogOk(c', t) {
      assert TermLogOk(c, t);
      LogOkExtends(tl[t], tl, tl');
    }
    forall j | 0 <= j < |c'.nodes|
      ensures LogOk(c'.nodes[j].log, tl') && LastTerm(c'.nodes[j].log) <= c'.nodes[j].currentTerm
    {
      LogOkExtends(c.nodes[j].log, tl, tl');
    }
  }

  lemma GrowLeaders(c: State, c': State, i: nat)
    requires GrowStep(c, c', i) && OnlyLeader(c, i)
    requires forall j :: 0 <= j < |c.nodes| ==> LeaderOk(c, j)
    ensures forall j :: 0 <= j < |c'.nodes| ==> LeaderOk(c', j)
  {
    assert LeaderOk(c, i);
    GrowExtends(c, c', i);
    forall j | 0 <= j < |c'.nodes| ensures LeaderOk(c', j) { assert LeaderOk(c, j); }
  }

  lemma GrownOk(log: seq<Entry>, log': seq<Entry>, tl: map<nat, seq<Entry>>, t: nat)
    requires LogOk(log, tl) && t >= 1 && t in tl && tl[t] == log' && LastTerm(log) <= t
    requires |log'| == |log| + 1 && log'[..|log|] == log && log'[|log|].term == t
    ensures LogOk(log', tl) && LastTerm(log') <= t
  {
    assert forall k :: 0 <= k < |log| ==> log'[k] == log[k];
    forall i | 1 <= i < |log'| ensures Anchored(log', i, tl) {
      if i < |log| { assert Anchored(log, i, tl); }
    }
  }

  lemma WinExtends(c: State, c': State, i: nat)
    requires WinStep(c, c', i) && LogInv(c) && ElectionInv(c)
    ensures c.nodes[i].currentTerm !in c.hist.termLog && c.nodes[i].currentTerm !in c.hist.elected
    ensures Extends(c.hist.termLog, c'.hist.termLog)
    ensures forall v: nat, t: nat, k: nat :: Acked(c.hist, v, t, k) ==> Acked(c'.hist, v, t, k)
    ensures forall b :: b in c.hist.acks ==> b.term != c.nodes[i].currentTerm
  {
    FreshTerm(c, i);
    forall b | b in c.hist.acks ensures b.term != c.nodes[i].currentTerm { assert AckOk(c, b); }
  }

  lemma LogWin(c: State, c': State, i: nat)
    requires WinStep(c, c', i) && LogInv(c) && ElectionInv(c)
    ensures LogInv(c')
  {
    WinExtends(c, c', i);
    WinTermLogs(c, c', i);
    WinBookkeeping(c, c', i);
    MessagesExtend(c, c');
  }

  lemma WinBookkeeping(c: State, c': State, i: nat)
    requires WinStep(c, c', i) && c.nodes[i].currentTerm !in c.hist.termLog
    requires forall j :: 0 <= j < |c.nodes| ==> LeaderOk(c, j)
    requires forall b :: b in c.hist.acks ==> AckOk(c, b)
    ensures forall j :: 0 <= j < |c'.nodes| ==> LeaderOk(c', j)
    ensures forall b :: b in c'.hist.acks ==> AckOk(c', b)
  {
    assert forall b :: b in c.hist.acks ==> b.term != c.nodes[i].currentTerm;
    forall j | 0 <= j < |c'.nodes| ensures LeaderOk(c', j) { assert LeaderOk(c, j); }
    forall b | b in c'.hist.acks ensures AckOk(c', b) { assert b in c.hist.acks ==> AckOk(c, b); }
  }

  lemma WinTermLogs(c: State, c': State, i: nat)
    requires WinStep(c, c', i) && LogInv(c) && ElectionInv(c)
    ensures forall t :: t in c'.hist.termLog ==> TermLogOk(c', t)
    ensures forall j :: 0 <= j < |c'.nodes| ==>
      LogOk(c'.nodes[j].log, c'.hist.termLog) && LastTerm(c'.nodes[j].log) <= c'.nodes[j].currentTerm
  {
    WinExtends(c, c', i);
    assert CandidacyOk(c, i);
    forall j | 0 <= j < |c'.nodes|
      ensures LogOk(c'.nodes[j].log, c'.hist.termLog) && LastTerm(c'.nodes[j].log) <= c'.nodes[j].currentTerm
    {
      LogOkExtends(c.nodes[j].log, c.hist.termLog, c'.hist.termLog);
    }
    forall t | t in c'.hist.termLog ensures TermLogOk(c', t) {
      if t in c.hist.termLog {
        assert TermLogOk(c, t);
        LogOkExtends(c.hist.termLog[t], c.hist.termLog, c'.hist.termLog);
      }
    }
  }
}
