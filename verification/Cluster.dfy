/** A cluster of Raft nodes and its network, with the history its safety argument refers to. */
module Cluster {
  import opened Ops
  import opened RaftTypes
  import opened RaftNode

  /** A node in a term: the key of the vote it gave there and of what it acknowledged there. */
  datatype Ballot = Ballot(node: nat, term: nat)

  /** An outstanding RequestVote call: its reply can still be handled. */
  datatype Call = Call(candidate: nat, term: nat, voter: nat)

  /** Who won a term, on whose votes, and how long the winner's log was then. */
  datatype Election = Election(leader: nat, voters: set<nat>, length: nat)

  /** Replies travel with the request they answer: the reply handlers are closures over it. */
  datatype Message =
    | VoteReq(to: nat, ballot: VoteArgs)
    | VoteResp(from: nat, ballot: VoteArgs, vote: VoteReply)
    | AppendReq(to: nat, args: AppendArgs)
    | AppendResp(from: nat, args: AppendArgs, reply: AppendReply)

  /** Bookkeeping that no handler reads.
      - votes: whom each node voted for in each term
      - tally: the voters counted so far by each node's current candidacy
      - elected: the winner of each term
      - termLog: the log of each term's leader, as long as it grew in that term
      - acks: the highest index each node confirmed to the leader of each term */
  datatype History = History(
    votes: map<Ballot, nat>, tally: seq<set<nat>>,
    elected: map<nat, Election>, termLog: map<nat, seq<Entry>>, acks: map<Ballot, nat>)

  /** net holds every message ever sent, so messages may be lost, delayed, reordered and duplicated. */
  datatype State = State(nodes: seq<Node>, net: set<Message>, calls: set<Call>, hist: History)

  datatype Step =
    | Timeout(i: nat)
    | TakeVoteReq(m: Message)
    | TakeVoteResp(m: Message)
    | Promote(i: nat)
    | SendAppend(i: nat, peer: nat)
    | TakeAppend(m: Message)
    | TakeAppendResp(m: Message)
    | Submit(i: nat, command: Command)
    | Restart(i: nat)

  function Init(n: nat): State {
    State(seq(n, i requires 0 <= i < n => Boot(i, n, NoState)), {}, {},
          History(map[], seq(n, _ => {}), map[], map[], map[]))
  }

  predicate WellFormed(c: State) {
    && |c.hist.tally| == |c.nodes|
    && forall i :: 0 <= i < |c.nodes| ==>
         NodeOk(c.nodes[i]) && c.nodes[i].id == i && c.nodes[i].peers == |c.nodes| && c.nodes[i].baseIndex == 0
  }

  predicate Enabled(c: State, s: Step)
    requires WellFormed(c)
  {
    var n := |c.nodes|;
    match s
    case Timeout(i) => i < n && MayStand(c.nodes[i])
    case TakeVoteReq(m) => m.VoteReq? && m in c.net && m.to < n
    case TakeVoteResp(m) =>
      && m.VoteResp? && m in c.net && m.from < n && m.ballot.candidateId < n
      && Call(m.ballot.candidateId, m.ballot.term, m.from) in c.calls
    case Promote(i) => i < n && HasMajority(c.nodes[i])
    case SendAppend(i, peer) =>
      i < n && peer < n && peer != i && c.nodes[i].role == Leader && CanBuild(c.nodes[i], peer)
    case TakeAppend(m) => m.AppendReq? && m in c.net && m.to < n
    case TakeAppendResp(m) => m.AppendResp? && m in c.net && m.from < n && m.args.leaderId < n
    case Submit(i, _) => i < n
    case Restart(i) => i < n
  }

  /** The timing assumption: a vote that arrives at all arrives within the term that asked for it. */
  predicate Timely(c: State, s: Step)
    requires WellFormed(c) && Enabled(c, s)
  {
    s.TakeVoteResp? && s.m.vote.granted ==> c.nodes[s.m.ballot.candidateId].currentTerm == s.m.ballot.term
  }

  function SetNode(c: State, i: nat, n: Node): State
    requires i < |c.nodes|
  {
    c.(nodes := c.nodes[i := n])
  }

  function DoTimeout(c: State, i: nat): (c': State)
    requires WellFormed(c) && i < |c.nodes|
    ensures WellFormed(c') && |c'.nodes| == |c.nodes|
  {
    var n := StartElection(c.nodes[i]);
    var args := VoteRequest(n);
    SetNode(c, i, n).(
      net := c.net + set p | 0 <= p < |c.nodes| && p != i :: VoteReq(p, args),
      calls := c.calls + set p | 0 <= p < |c.nodes| && p != i :: Call(i, n.currentTerm, p),
      hist := c.hist.(votes := c.hist.votes[Ballot(i, n.currentTerm) := i], tally := c.hist.tally[i := {i}]))
  }

  function DoVoteReq(c: State, to: nat, ballot: VoteArgs): (c': State)
    requires WellFormed(c) && to < |c.nodes|
    ensures WellFormed(c') && |c'.nodes| == |c.nodes|
  {
    var (n, vote) := OnVoteRequest(c.nodes[to], ballot);
    SetNode(c, to, n).(
      net := c.net + {VoteResp(to, ballot, vote)},
      hist := if vote.granted
        then c.hist.(votes := c.hist.votes[Ballot(to, ballot.term) := ballot.candidateId])
        else c.hist)
  }

  function DoVoteResp(c: State, from: nat, ballot: VoteArgs, vote: VoteReply): (c': State)
    requires WellFormed(c) && ballot.candidateId < |c.nodes|
    ensures WellFormed(c') && |c'.nodes| == |c.nodes|
  {
    var i := ballot.candidateId;
    SetNode(c, i, OnVoteReply(c.nodes[i], vote)).(
      calls := c.calls - {Call(i, ballot.term, from)},
      hist := if c.nodes[i].role == Candidate && vote.granted
        then c.hist.(tally := c.hist.tally[i := c.hist.tally[i] + {from}])
        else c.hist)
  }

  function DoPromote(c: State, i: nat): (c': State)
    requires WellFormed(c) && i < |c.nodes|
    ensures WellFormed(c') && |c'.nodes| == |c.nodes|
  {
    var n := BecomeLeader(c.nodes[i]);
    SetNode(c, i, n).(
      hist := c.hist.(
        elected := c.hist.elected[n.currentTerm := Election(i, c.hist.tally[i], |n.log|)],
        termLog := c.hist.termLog[n.currentTerm := n.log],
        acks := c.hist.acks[Ballot(i, n.currentTerm) := |n.log| - 1]))
  }

  function DoSendAppend(c: State, i: nat, peer: nat): (c': State)
    requires WellFormed(c) && i < |c.nodes| && peer < |c.nodes| && CanBuild(c.nodes[i], peer)
    ensures WellFormed(c') && |c'.nodes| == |c.nodes|
  {
    c.(net := c.net + {AppendReq(peer, AppendFor(c.nodes[i], peer))})
  }

  function Confirmed(acks: map<Ballot, nat>, b: Ballot, index: nat): map<Ballot, nat> {
    acks[b := if b in acks then Max(acks[b], index) else index]
  }

  function DoAppend(c: State, to: nat, args: AppendArgs): (c': State)
    requires WellFormed(c) && to < |c.nodes|
    ensures WellFormed(c') && |c'.nodes| == |c.nodes|
  {
    var (n, reply) := OnAppend(c.nodes[to], args);
    SetNode(c, to, n).(
      net := c.net + {AppendResp(to, args, reply)},
      hist := if reply.success
        then c.hist.(acks := Confirmed(c.hist.acks, Ballot(to, args.term), args.prevIndex + |args.entries|))
        else c.hist)
  }

  function DoAppendResp(c: State, from: nat, args: AppendArgs, reply: AppendReply): (c': State)
    requires WellFormed(c) && from < |c.nodes| && args.leaderId < |c.nodes|
    ensures WellFormed(c') && |c'.nodes| == |c.nodes|
  {
    SetNode(c, args.leaderId, OnAppendReply(c.nodes[args.leaderId], from, args, reply))
  }

  function DoSubmit(c: State, i: nat, command: Command): (c': State)
    requires WellFormed(c) && i < |c.nodes|
    ensures WellFormed(c') && |c'.nodes| == |c.nodes|
  {
    var (n, r) := Start(c.nodes[i], command);
    SetNode(c, i, n).(
      hist := if r.isLeader
        then c.hist.(
          termLog := c.hist.termLog[n.currentTerm := n.log],
          acks := c.hist.acks[Ballot(i, n.currentTerm) := |n.log| - 1])
        else c.hist)
  }

  function DoRestart(c: State, i: nat): (c': State)
    requires WellFormed(c) && i < |c.nodes|
    ensures WellFormed(c') && |c'.nodes| == |c.nodes|
  {
    SetNode(c, i, Boot(i, |c.nodes|, c.nodes[i].disk))
  }

  function Do(c: State, s: Step): (c': State)
    requires WellFormed(c) && Enabled(c, s)
    ensures WellFormed(c') && |c'.nodes| == |c.nodes|
  {
    match s
    case Timeout(i) => DoTimeout(c, i)
    case TakeVoteReq(m) => DoVoteReq(c, m.to, m.ballot)
    case TakeVoteResp(m) => DoVoteResp(c, m.from, m.ballot, m.vote)
    case Promote(i) => DoPromote(c, i)
    case SendAppend(i, peer) => DoSendAppend(c, i, peer)
    case TakeAppend(m) => DoAppend(c, m.to, m.args)
    case TakeAppendResp(m) => DoAppendResp(c, m.from, m.args, m.reply)
    case Submit(i, command) => DoSubmit(c, i, command)
    case Restart(i) => DoRestart(c, i)
  }

  ghost predicate Next(c: State, c': State) {
    WellFormed(c) && exists s :: Enabled(c, s) && Timely(c, s) && c' == Do(c, s)
  }

  /** A run of n nodes: it starts with fresh nodes and takes one atomic handler after another. */
  ghost predicate IsRun(n: nat, run: seq<State>) {
    && |run| > 0
    && run[0] == Init(n)
    && forall j, k :: 0 <= j && k == j + 1 && k < |run| ==> Next(run[j], run[k])
  }
}
