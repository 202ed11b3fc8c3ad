/** Every step keeps the safety part of the invariant: what a term may have committed stays in later leaders' logs. */
module SafetyProof {
  import opened RaftTypes
  import opened RaftNode
  import opened LogMerge
  import opened Cluster
  import opened Invariant
  import opened ElectionProof
  import opened LogProof

  /** Terms rise, term logs grow, and no node acknowledges anything in a term it has left. */
  ghost predicate Onward(c: State, c': State) {
    && |c'.nodes| == |c.nodes|
    && (forall v :: 0 <= v < |c.nodes| ==> c.nodes[v].currentTerm <= c'.nodes[v].currentTerm)
    && Extends(c.hist.termLog, c'.hist.termLog)
    && forall v: nat, t: nat, k: nat ::
         v < |c.nodes| && c.nodes[v].currentTerm > t && Acked(c'.hist, v, t, k) ==> Acked(c.hist, v, t, k)
  }

  lemma DeadStays(c: State, c': State, t: nat, k: nat)
    requires Onward(c, c') && Dead(c, t, k)
    ensures Dead(c', t, k)
  {
    var q :| Blocks(c, q, t, k);
    assert Blocks(c', q, t, k);
  }

  lemma KeptStays(c: State, c': State, log: seq<Entry>, t: nat, k: nat)
    requires Onward(c, c') && t in c.hist.termLog && Kept(c, log, t, k)
    ensures Kept(c', log, t, k)
  {
    if Dead(c, t, k) { DeadStays(c, c', t, k); }
  }

  /** A log at least as up to date as one that holds a possibly committed entry holds it too. */
  lemma UpToDateKeeps(c: State, voter: seq<Entry>, log: seq<Entry>, t: nat, k: nat)
    requires forall x :: x in c.hist.termLog ==> TermLogOk(c, x)
    requires LogOk(voter, c.hist.termLog) && LogOk(log, c.hist.termLog) && LeadersKept(c)
    requires Own(c.hist, t, k) && Agree(c.hist.termLog[t], voter, k)
    requires LastTerm(log) > LastTerm(voter) || (LastTerm(log) == LastTerm(voter) && |log| >= |voter|)
    ensures Kept(c, log, t, k)
  {
    assert TermLogOk(c, t);
    assert voter[k].term == t;
    var x := LastTerm(log);
    assert x >= t >= 1;
    assert Anchored(log, |log| - 1, c.hist.termLog);
    if x == LastTerm(voter) {
      assert Anchored(voter, |voter| - 1, c.hist.termLog);
    } else if !Dead(c, t, k) {
      assert TermLogOk(c, x);
      assert Agree(c.hist.termLog[t], c.hist.termLog[x], k);
      assert c.hist.termLog[x][k].term == t && c.hist.termLog[x][|log| - 1].term == x;
    }
  }

  // ---------------------------------------------------------------- quiet steps

  lemma SafetyQuiet(c: State, c': State, i: nat)
    requires QuietStep(c, c', i) && SafetyInv(c) && c'.hist.votes == c.hist.votes
    requires c'.nodes[i].role == Candidate ==>
      c.nodes[i].role == Candidate && c'.nodes[i].currentTerm == c.nodes[i].currentTerm
    ensures SafetyInv(c')
  {
    assert Onward(c, c');
    forall v: nat, t: nat, k: nat | v < |c'.nodes| && Own(c'.hist, t, k) && Acked(c'.hist, v, t, k)
      ensures Kept(c', c'.nodes[v].log, t, k)
    {
      assert Own(c.hist, t, k) && Acked(c.hist, v, t, k);
      KeptStays(c, c', c.nodes[v].log, t, k);
    }
    forall v: nat, j: nat, t: nat, k: nat |
      && v < |c'.nodes| && j < |c'.nodes| && c'.nodes[j].role == Candidate
      && Voted(c'.hist, v, c'.nodes[j].currentTerm, j) && t < c'.nodes[j].currentTerm
      && Own(c'.hist, t, k) && Acked(c'.hist, v, t, k)
      ensures Kept(c', c'.nodes[j].log, t, k)
    {
      assert Voted(c.hist, v, c.nodes[j].currentTerm, j) && Own(c.hist, t, k) && Acked(c.hist, v, t, k);
      KeptStays(c, c', c.nodes[j].log, t, k);
    }
    LeadersQuiet(c, c');
  }

  lemma LeadersQuiet(c: State, c': State)
    requires Onward(c, c') && LeadersKept(c)
    requires c'.hist.termLog == c.hist.termLog && c'.hist.elected == c.hist.elected
    ensures LeadersKept(c')
  {
    forall t: nat, t': nat, k: nat |
      t < t' && t' in c'.hist.termLog && t' in c'.hist.elected && Own(c'.hist, t, k) && !Dead(c', t, k)
      ensures k < c'.hist.elected[t'].length && Agree(c'.hist.termLog[t], c'.hist.termLog[t'], k)
    {
      assert Own(c.hist, t, k);
      if Dead(c, t, k) { DeadStays(c, c', t, k); }
    }
  }

  // ---------------------------------------------------------------- votes

  /** A vote of node v for candidate j is justified: v's acknowledgements are kept by j's log. */
  ghost predicate VoteJustified(c: State, v: nat, j: nat, term: nat)
    requires v < |c.nodes| && j < |c.nodes|
  {
    forall t: nat, k: nat :: t < term && Own(c.hist, t, k) && Acked(c.hist, v, t, k) ==> Kept(c, c.nodes[j].log, t, k)
  }

  lemma SelfVoteJustified(c: State, i: nat, term: nat)
    requires i < |c.nodes| && AcksKept(c)
    ensures VoteJustified(c, i, i, term)
  {}

  lemma GrantJustified(c: State, v: nat, j: nat, term: nat)
    requires WellFormed(c) && v < |c.nodes| && j < |c.nodes| && LogInv(c) && SafetyInv(c)
    requires UpToDate(VoteRequest(c.nodes[j]), c.nodes[v])
    ensures VoteJustified(c, v, j, term)
  {
    forall t: nat, k: nat | t < term && Own(c.hist, t, k) && Acked(c.hist, v, t, k)
      ensures Kept(c, c.nodes[j].log, t, k)
    {
      assert Kept(c, c.nodes[v].log, t, k);
      if !Dead(c, t, k) { UpToDateKeeps(c, c.nodes[v].log, c.nodes[j].log, t, k); }
    }
  }

  /** One new vote, of node v for candidate j; node i's log stays. */
  lemma SafetyVote(c: State, c': State, i: nat, v0: nat, j0: nat, term: nat)
    requires QuietStep(c, c', i) && SafetyInv(c)
    requires v0 < |c.nodes| && j0 < |c.nodes|
    requires c'.hist.votes == c.hist.votes[Ballot(v0, term) := j0]
    requires c'.nodes[j0].role == Candidate && c'.nodes[j0].currentTerm == term ==> VoteJustified(c, v0, j0, term)
    requires c'.nodes[i].role == Candidate ==>
      || (c.nodes[i].role == Candidate && c'.nodes[i].currentTerm == c.nodes[i].currentTerm)
      || (forall v: nat :: Voted(c'.hist, v, c'.nodes[i].currentTerm, i) ==>
        v == v0 && i == j0 && c'.nodes[i].currentTerm == term)
    ensures SafetyInv(c')
  {
    assert Onward(c, c');
    forall v: nat, t: nat, k: nat | v < |c'.nodes| && Own(c'.hist, t, k) && Acked(c'.hist, v, t, k)
      ensures Kept(c', c'.nodes[v].log, t, k)
    {
      assert Own(c.hist, t, k) && Acked(c.hist, v, t, k);
      KeptStays(c, c', c.nodes[v].log, t, k);
    }
    forall v: nat, j: nat, t: nat, k: nat |
      && v < |c'.nodes| && j < |c'.nodes| && c'.nodes[j].role == Candidate
      && Voted(c'.hist, v, c'.nodes[j].currentTerm, j) && t < c'.nodes[j].currentTerm
      && Own(c'.hist, t, k) && Acked(c'.hist, v, t, k)
      ensures Kept(c', c'.nodes[j].log, t, k)
    {
      assert Own(c.hist, t, k) && Acked(c.hist, v, t, k);
      if v == v0 && j == j0 && c'.nodes[j].currentTerm == term {
        assert Kept(c, c.nodes[j].log, t, k);
      } else {
        assert Voted(c.hist, v, c.nodes[j].currentTerm, j);
      }
      KeptStays(c, c', c.nodes[j].log, t, k);
    }
    LeadersQuiet(c, c');
  }

  // ---------------------------------------------------------------- following a leader

  lemma AdoptOnward(c: State, c': State, i: nat, args: AppendArgs)
    requires AdoptStep(c, c', i, args)
    ensures Onward(c, c')
    ensures forall v: nat, t: nat, k: nat ::
      Acked(c'.hist, v, t, k) ==> Acked(c.hist, v, t, k) || (v == i && t == args.term)
  {}

  lemma SafetyAdopt(c: State, c': State, i: nat, args: AppendArgs)
    requires AdoptStep(c, c', i, args) && LogInv(c) && LogInv(c') && ElectionInv(c) && SafetyInv(c)
    ensures SafetyInv(c')
  {
    AdoptOnward(c, c', i, args);
    forall v: nat, t: nat, k: nat | v < |c'.nodes| && Own(c'.hist, t, k) && Acked(c'.hist, v, t, k)
      ensures Kept(c', c'.nodes[v].log, t, k)
    {
      if v == i { AdoptKeepsAck(c, c', i, args, t, k); } else { KeptStays(c, c', c.nodes[v].log, t, k); }
    }
    forall v: nat, j: nat, t: nat, k: nat |
      && v < |c'.nodes| && j < |c'.nodes| && c'.nodes[j].role == Candidate
      && Voted(c'.hist, v, c'.nodes[j].currentTerm, j) && t < c'.nodes[j].currentTerm
      && Own(c'.hist, t, k) && Acked(c'.hist, v, t, k)
      ensures Kept(c', c'.nodes[j].log, t, k)
    {
      assert Voted(c.hist, v, c.nodes[j].currentTerm, j) && Own(c.hist, t, k);
      assert c.nodes[j].currentTerm <= c.nodes[v].currentTerm;
      assert Acked(c.hist, v, t, k);
      KeptStays(c, c', c.nodes[j].log, t, k);
    }
    LeadersQuiet(c, c');
  }

  lemma AdoptKeepsAck(c: State, c': State, i: nat, args: AppendArgs, t: nat, k: nat)
    requires AdoptStep(c, c', i, args) && LogInv(c) && LogInv(c') && SafetyInv(c)
    requires Own(c'.hist, t, k) && Acked(c'.hist, i, t, k)
    ensures Kept(c', c'.nodes[i].log, t, k)
  {
    AdoptOnward(c, c', i, args);
    assert AckOk(c', Ballot(i, t));
    if t != args.term {
      assert Own(c.hist, t, k) && Acked(c.hist, i, t, k);
      assert Kept(c, c.nodes[i].log, t, k);
      if Dead(c, t, k) {
        DeadStays(c, c', t, k);
      } else {
        assert Agree(c.hist.termLog[t], c.hist.termLog[args.term], k);
        AdoptedKeeps(c'.nodes[i].log, c.nodes[i].log, c.hist.termLog[args.term],
                     args.prevIndex + |args.entries|, c.hist.termLog[t], k);
      }
    }
  }

  // ---------------------------------------------------------------- the leader appends

  /** The only entry that is new belongs to the leader's term and ends its log. */
  lemma GrowFacts(c: State, c': State, i: nat)
    requires GrowStep(c, c', i) && LeaderOk(c, i)
    ensures Onward(c, c')
    ensures forall t: nat, k: nat :: Own(c'.hist, t, k) ==>
      Own(c.hist, t, k) || (t == c.nodes[i].currentTerm && k == |c.nodes[i].log|)
    ensures forall v: nat, t: nat, k: nat :: Acked(c'.hist, v, t, k) ==>
      Acked(c.hist, v, t, k) || (v == i && t == c.nodes[i].currentTerm)
  {
    GrowExtends(c, c', i);
  }

  /** The new entry is known to its leader alone; everything else was acknowledged before. */
  lemma GrowAcked(c: State, c': State, i: nat, v: nat, t: nat, k: nat)
    requires GrowStep(c, c', i) && LogInv(c) && Own(c'.hist, t, k) && Acked(c'.hist, v, t, k)
    ensures v == i || (Own(c.hist, t, k) && Acked(c.hist, v, t, k))
  {
    assert LeaderOk(c, i);
    assert v != i ==> AckOk(c, Ballot(v, t));
  }

  lemma SafetyGrow(c: State, c': State, i: nat)
    requires GrowStep(c, c', i) && LogInv(c) && ElectionInv(c) && SafetyInv(c)
    ensures SafetyInv(c')
  {
    GrowAcksKept(c, c', i);
    GrowVotersKept(c, c', i);
    GrowLeadersKept(c, c', i);
  }

  lemma GrowAcksKept(c: State, c': State, i: nat)
    requires GrowStep(c, c', i) && LogInv(c) && AcksKept(c)
    ensures AcksKept(c')
  {
    assert LeaderOk(c, i);
    GrowFacts(c, c', i);
    forall v: nat, t: nat, k: nat | v < |c'.nodes| && Own(c'.hist, t, k) && Acked(c'.hist, v, t, k)
      ensures Kept(c', c'.nodes[v].log, t, k)
    {
      if v != i || t != c.nodes[i].currentTerm {
        GrowAcked(c, c', i, v, t, k);
        KeptStays(c, c', c.nodes[v].log, t, k);
      }
    }
  }

  lemma GrowVotersKept(c: State, c': State, i: nat)
    requires GrowStep(c, c', i) && LogInv(c) && VotesOk(c) && VotersKept(c)
    ensures VotersKept(c')
  {
    GrowFacts(c, c', i);
    forall v: nat, j: nat, t: nat, k: nat |
      && v < |c'.nodes| && j < |c'.nodes| && c'.nodes[j].role == Candidate
      && Voted(c'.hist, v, c'.nodes[j].currentTerm, j) && t < c'.nodes[j].currentTerm
      && Own(c'.hist, t, k) && Acked(c'.hist, v, t, k)
      ensures Kept(c', c'.nodes[j].log, t, k)
    {
      assert Voted(c.hist, v, c.nodes[j].currentTerm, j) && VoteOk(c, Ballot(v, c.nodes[j].currentTerm));
      GrowAcked(c, c', i, v, t, k);
      KeptStays(c, c', c.nodes[j].log, t, k);
    }
  }

  lemma GrowLeadersKept(c: State, c': State, i: nat)
    requires GrowStep(c, c', i) && LogInv(c) && ElectionInv(c) && LeadersKept(c)
    ensures LeadersKept(c')
  {
    forall t: nat, t': nat, k: nat |
      t < t' && t' in c'.hist.termLog && t' in c'.hist.elected && Own(c'.hist, t, k) && !Dead(c', t, k)
      ensures k < c'.hist.elected[t'].length && Agree(c'.hist.termLog[t], c'.hist.termLog[t'], k)
    {
      assert LeaderOk(c, i);
      if Own(c.hist, t, k) {
        GrowKeepsLeader(c, c', i, t, t', k);
      } else {
        GrowFacts(c, c', i);
        NewEntryBlocked(c, c', i, t', t, k);
      }
    }
  }

  lemma GrowKeepsLeader(c: State, c': State, i: nat, t: nat, t': nat, k: nat)
    requires GrowStep(c, c', i) && LeaderOk(c, i) && LeadersKept(c)
    requires t < t' && t' in c.hist.termLog && t' in c.hist.elected && Own(c.hist, t, k) && !Dead(c', t, k)
    ensures k < c.hist.elected[t'].length && Agree(c'.hist.termLog[t], c'.hist.termLog[t'], k)
  {
    GrowFacts(c, c', i);
    if Dead(c, t, k) { DeadStays(c, c', t, k); }
  }

  lemma NewEntryBlocked(c: State, c': State, i: nat, t': nat, t: nat, k: nat)
    requires GrowStep(c, c', i) && LogInv(c) && ElectionInv(c)
    requires t' in c.hist.elected && t < t' && t == c.nodes[i].currentTerm && Own(c'.hist, t, k) && !Own(c.hist, t, k)
    ensures Dead(c', t, k)
  {
    MovedOn(c, t', t);
    var q := c.hist.elected[t'].voters;
    forall v | v in q ensures !Acked(c'.hist, v, t, k) {
      if Acked(c'.hist, v, t, k) { GrowAcked(c, c', i, v, t, k); }
    }
    assert Blocks(c', q, t, k);
  }

  /** The voters of a term are a quorum that has left every earlier term. */
  lemma MovedOn(c: State, t': nat, t: nat)
    requires WellFormed(c) && ElectionInv(c) && t' in c.hist.elected && t < t'
    ensures IsQuorum(c.hist.elected[t'].voters, |c.nodes|)
    ensures forall v :: v in c.hist.elected[t'].voters ==> c.nodes[v].currentTerm > t
  {
    assert ElectionOk(c, t');
    forall v | v in c.hist.elected[t'].voters ensures c.nodes[v].currentTerm > t {
      assert VoteOk(c, Ballot(v, t'));
    }
  }

  // ---------------------------------------------------------------- winning an election

  lemma WinFacts(c: State, c': State, i: nat)
    requires WinStep(c, c', i) && LogInv(c) && ElectionInv(c)
    ensures Onward(c, c')
    ensures c.nodes[i].currentTerm !in c.hist.termLog && c.nodes[i].currentTerm !in c.hist.elected
    ensures forall t: nat, k: nat :: Own(c'.hist, t, k) ==> Own(c.hist, t, k) && t != c.nodes[i].currentTerm
    ensures forall v: nat, t: nat, k: nat :: t != c.nodes[i].currentTerm && Acked(c'.hist, v, t, k) ==>
      Acked(c.hist, v, t, k)
  {
    var t0 := c.nodes[i].currentTerm;
    WinExtends(c, c', i);
    forall t: nat, k: nat | Own(c'.hist, t, k) ensures Own(c.hist, t, k) && t != t0 {
      assert t == t0 ==> Anchored(c.nodes[i].log, k, c.hist.termLog);
    }
  }

  lemma SafetyWin(c: State, c': State, i: nat)
    requires WinStep(c, c', i) && LogInv(c) && ElectionInv(c) && SafetyInv(c)
    ensures SafetyInv(c')
  {
    WinFacts(c, c', i);
    forall v: nat, t: nat, k: nat | v < |c'.nodes| && Own(c'.hist, t, k) && Acked(c'.hist, v, t, k)
      ensures Kept(c', c'.nodes[v].log, t, k)
    {
      KeptStays(c, c', c.nodes[v].log, t, k);
    }
    forall v: nat, j: nat, t: nat, k: nat |
      && v < |c'.nodes| && j < |c'.nodes| && c'.nodes[j].role == Candidate
      && Voted(c'.hist, v, c'.nodes[j].currentTerm, j) && t < c'.nodes[j].currentTerm
      && Own(c'.hist, t, k) && Acked(c'.hist, v, t, k)
      ensures Kept(c', c'.nodes[j].log, t, k)
    {
      assert Voted(c.hist, v, c.nodes[j].currentTerm, j) && Own(c.hist, t, k) && Acked(c.hist, v, t, k);
      KeptStays(c, c', c.nodes[j].log, t, k);
    }
    WinLeadersKept(c, c', i);
  }

  lemma WinLeadersKept(c: State, c': State, i: nat)
    requires WinStep(c, c', i) && LogInv(c) && ElectionInv(c) && SafetyInv(c)
    ensures LeadersKept(c')
  {
    WinFacts(c, c', i);
    forall t: nat, t': nat, k: nat |
      t < t' && t' in c'.hist.termLog && t' in c'.hist.elected && Own(c'.hist, t, k) && !Dead(c', t, k)
      ensures k < c'.hist.elected[t'].length && Agree(c'.hist.termLog[t], c'.hist.termLog[t'], k)
    {
      if Dead(c, t, k) { DeadStays(c, c', t, k); }
      if t' == c.nodes[i].currentTerm { WinnerKeeps(c, c', i, t, k); }
    }
  }

  /** Either some voter of the winner acknowledged the entry, or the voters block it. */
  lemma WinnerKeeps(c: State, c': State, i: nat, t: nat, k: nat)
    requires WinStep(c, c', i) && LogInv(c) && ElectionInv(c) && SafetyInv(c)
    requires t < c.nodes[i].currentTerm && Own(c.hist, t, k)
    ensures Kept(c, c.nodes[i].log, t, k)
  {
    FreshTerm(c, i);
    assert CandidacyOk(c, i);
    var term, voters := c.nodes[i].currentTerm, c.hist.tally[i];
    if v :| v in voters && Acked(c.hist, v, t, k) {
      assert Voted(c.hist, v, term, i);
    } else {
      forall v | v in voters ensures c.nodes[v].currentTerm > t { assert VoteOk(c, Ballot(v, term)); }
      assert Blocks(c, voters, t, k);
    }
  }
}
