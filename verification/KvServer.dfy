/** The key-value server: it hands operations to its Raft node, applies what comes back, and answers waiters. */
module KvServer {
  import opened Ops
  import opened RaftTypes
  import opened RaftNode
  import Raft
  import opened KvMachine

  datatype Err = Ok | NoKey | WrongLeader

  datatype GetReply = GetReply(err: Err, value: string)

  /** The reading end of a promise made for a log index: empty, filled, or abandoned with its promise. */
  datatype Future = Pending(index: nat) | Ready(index: nat, op: Op) | Broken(index: nat)

  /** The operations behind a stretch of the apply stream. */
  function OpsOf(stream: seq<ApplyMsg>): (ops: seq<Op>)
    ensures |ops| == |stream|
    ensures forall i :: 0 <= i < |ops| ==> ops[i] == Decode(stream[i].command)
  {
    seq(|stream|, i requires 0 <= i < |stream| => Decode(stream[i].command))
  }

  /** The stream counts 1, 2, 3 and so on, as every run of the cluster ensures. */
  ghost predicate Counts(stream: seq<ApplyMsg>) {
    forall i :: 0 <= i < |stream| ==> stream[i].index == i + 1
  }

  /** A node that has pushed the messages 1, 2, 3 and so on, up to the last one it has applied. */
  ghost predicate Streams(n: Node) {
    n.lastApplied == |n.applied| && Counts(n.applied)
  }

  /** A handler keeps the numbering, and takes back nothing it has pushed. */
  ghost predicate StreamGrows(n: Node, n': Node) {
    Streams(n') && n.applied <= n'.applied
  }

  lemma ApplyStreams(n: Node)
    requires |n.log| >= 1 && n.baseIndex <= n.lastApplied && n.commitIndex <= Max(n.lastApplied, LastIndex(n))
    requires Streams(n)
    ensures StreamGrows(n, ApplyCommitted(n))
  {}

  lemma AppendStreams(n: Node, args: AppendArgs)
    requires NodeOk(n) && Streams(n)
    ensures StreamGrows(n, OnAppend(n, args).0)
  {
    if n.currentTerm <= args.term {
      var m := Recognise(n, args.term);
      if Consistent(m, args) { ApplyStreams(FollowCommit(TakeEntries(m, args), args)); }
    }
  }

  lemma ReplyStreams(n: Node, peer: nat, args: AppendArgs, reply: AppendReply)
    requires NodeOk(n) && peer < n.peers && Streams(n)
    ensures StreamGrows(n, OnAppendReply(n, peer, args, reply))
  {
    var m := Matched(n, peer, args);
    ApplyStreams(m.(commitIndex := ScanCommit(m, LastIndex(m))));
  }

  /** The other handlers push nothing, and a node starts with nothing pushed. */
  lemma QuietStreams(n: Node, ballot: VoteArgs, vote: VoteReply, command: Command)
    requires NodeOk(n) && Streams(n)
    ensures StreamGrows(n, StartElection(n)) && StreamGrows(n, OnVoteRequest(n, ballot).0)
    ensures StreamGrows(n, OnVoteReply(n, vote)) && StreamGrows(n, BecomeLeader(n))
    ensures StreamGrows(n, Start(n, command).0) && Streams(Boot(n.id, n.peers, n.disk))
  {}

  /** Has the log position been applied with this result? */
  ghost predicate Delivered(ops: seq<Op>, index: nat, op: Op) {
    1 <= index <= |ops| && op == Outcome(ops, index - 1)
  }

  /** A wait ends well if it ends in time, on a live server, with the result of the caller's own request. */
  predicate Answers(dead: bool, ready: bool, future: Future, clientId: nat, seqNo: int) {
    !dead && ready && future.Ready? && future.op.clientId == clientId && future.op.seqNo == seqNo
  }

  /** What ends a wait: the entry at the index has been applied, and has the caller's numbers. */
  ghost predicate Answered(applied: seq<Op>, index: nat, clientId: nat, seqNo: int) {
    1 <= index <= |applied| && applied[index - 1].clientId == clientId && applied[index - 1].seqNo == seqNo
  }

  /** What a reply to a get that is no refusal says: it is the outcome of an applied entry with the caller's numbers. */
  ghost predicate GetAnswer(applied: seq<Op>, index: nat, clientId: nat, seqNo: int, reply: GetReply) {
    && Answered(applied, index, clientId, seqNo)
    && reply.value == Outcome(applied, index - 1).value
    && (reply.err == Ok <==> reply.value != "")
  }

  /** The futures after the promise waiting at an index, if any, became something else. */
  ghost predicate Turned(before: map<nat, Future>, after: map<nat, Future>, waitMap: map<nat, nat>, index: nat,
    what: Future) {
    forall t :: t in before ==>
      t in after && after[t] == if index in waitMap && t == waitMap[index] then what else before[t]
  }

  class KvServer {
    const raft: Raft.Raft
    var store: map<string, string>
    var clientSeq: map<nat, int>
    /** The promise to fill at each log index, named by its ticket. */
    var waitMap: map<nat, nat>
    /** One future for every ticket handed out. */
    var futures: map<nat, Future>
    var nextTicket: nat
    var dead: bool
    /** How many messages have been popped off the apply channel. */
    var taken: nat

    function State(): KvState
      reads this
    {
      KvState(store, clientSeq)
    }

    ghost function Applied(): seq<Op>
      reads this, raft
      requires taken <= |raft.channel|
    {
      OpsOf(raft.channel[..taken])
    }

    ghost predicate WaitersOk()
      reads this
    {
      forall index :: index in waitMap ==> waitMap[index] in futures && futures[waitMap[index]] == Pending(index)
    }

    /** The ticket waits at the index: whoever fills the promise there fills this one. */
    ghost predicate Registered(ticket: nat, index: nat)
      reads this
    {
      index in waitMap && waitMap[index] == ticket && ticket in futures && futures[ticket] == Pending(index)
    }

    /** The store is what the applied operations amount to, and every filled future holds the outcome of its index. */
    ghost predicate Valid()
      reads this, raft
    {
      && raft.Valid() && Streams(raft.View()) && taken <= |raft.channel|
      && State() == Run(Applied())
      && WaitersOk()
      && (forall t :: t in futures ==> t < nextTicket)
      && forall t :: t in futures && futures[t].Ready? ==> Delivered(Applied(), futures[t].index, futures[t].op)
    }

    constructor (raft: Raft.Raft)
      requires raft.Valid() && Streams(raft.View())
      ensures Valid() && this.raft == raft && State() == EMPTY && taken == 0 && !dead
    {
      this.raft := raft;
      store, clientSeq, waitMap, futures := map[], map[], map[], map[];
      dead, taken, nextTicket := false, 0, 0;
    }

    /** The server stays in order whatever its node does, as long as the node only adds to its stream. */
    twostate lemma NodeMoves()
      requires old(Valid()) && unchanged(this) && raft.Valid() && StreamGrows(old(raft.View()), raft.View())
      ensures Valid()
    {
      assert old(raft.channel)[..taken] == raft.channel[..taken];
    }

    /** The node takes a request; what it pushes waits in the channel. */
    method ReceiveAppend(args: AppendArgs) returns (reply: AppendReply)
      requires Valid()
      modifies raft
      ensures Valid() && (raft.View(), reply) == OnAppend(old(raft.View()), args)
    {
      AppendStreams(raft.View(), args);
      reply := raft.AppendEntries(args);
      NodeMoves();
    }

    /** The node takes a reply to one of its requests; what it pushes waits in the channel. */
    method ReceiveAppendReply(peer: nat, args: AppendArgs, reply: AppendReply)
      requires Valid() && peer < raft.peers
      modifies raft
      ensures Valid() && raft.View() == OnAppendReply(old(raft.View()), peer, args, reply)
    {
      ReplyStreams(raft.View(), peer, args, reply);
      raft.HandleAppendReply(peer, args, reply);
      NodeMoves();
    }

    method ReceiveVoteRequest(args: VoteArgs) returns (reply: VoteReply)
      requires Valid()
      modifies raft
      ensures Valid() && (raft.View(), reply) == OnVoteRequest(old(raft.View()), args)
    {
      QuietStreams(raft.View(), args, VoteReply(0, false), Blank);
      reply := raft.RequestVote(args);
      NodeMoves();
    }

    method ReceiveVoteReply(reply: VoteReply)
      requires Valid()
      modifies raft
      ensures Valid() && raft.View() == OnVoteReply(old(raft.View()), reply)
    {
      QuietStreams(raft.View(), VoteArgs(0, 0, 0, 0), reply, Blank);
      raft.HandleVoteReply(reply);
      NodeMoves();
    }

    /** The node's own thread, when its election timer fires or it holds a majority. */
    method RunElection() returns (requests: map<nat, VoteArgs>)
      requires Valid() && (MayStand(raft.View()) || HasMajority(raft.View()))
      modifies raft
      ensures Valid()
      ensures raft.View() ==
        if HasMajority(old(raft.View())) then BecomeLeader(old(raft.View())) else StartElection(old(raft.View()))
      ensures forall p :: p in requests <==> !HasMajority(old(raft.View())) && 0 <= p < raft.peers && p != raft.id
      ensures forall p :: p in requests ==> requests[p] == VoteRequest(raft.View())
    {
      QuietStreams(raft.View(), VoteArgs(0, 0, 0, 0), VoteReply(0, false), Blank);
      requests := map[];
      if raft.role == Candidate && raft.votesGranted > raft.peers / 2 {
        raft.PromoteToLeader();
      } else {
        requests := raft.Stand();
      }
      NodeMoves();
    }

    /** Apply one operation to the maps in place. */
    method ApplyOp(op: Op) returns (result: Op)
      modifies this`store, this`clientSeq
      ensures (State(), result) == Apply(old(State()), op)
    {
      result := op;
      if op.kind == Get {
        if op.key in store {
          result := op.(value := store[op.key]);
        } else {
          result := op.(value := "");
        }
      } else if op.kind == Append {
        if !(op.clientId in clientSeq && clientSeq[op.clientId] >= op.seqNo) {
          store := store[op.key := (if op.key in store then store[op.key] else "") + op.value];
          clientSeq := clientSeq[op.clientId := op.seqNo];
        }
      } else if op.kind == Put {
        if !(op.clientId in clientSeq && clientSeq[op.clientId] >= op.seqNo) {
          store := store[op.key := op.value];
          clientSeq := clientSeq[op.clientId := op.seqNo];
        }
      }
    }

    /** Fill the promise waiting at an index, if there is one, and forget it. */
    method Fulfil(index: nat, result: Op)
      requires WaitersOk()
      modifies this`waitMap, this`futures
      ensures WaitersOk() && futures.Keys == old(futures).Keys && waitMap == old(waitMap) - {index}
      ensures Turned(old(futures), futures, old(waitMap), index, Ready(index, result))
    {
      if index in waitMap {
        futures := futures[waitMap[index] := Ready(index, result)];
      }
      waitMap := waitMap - {index};
    }

    /** Pop one message and apply it. */
    method TakeMessage() returns (index: nat, result: Op)
      requires taken < |raft.channel| && Counts(raft.channel) && State() == Run(Applied())
      modifies this`store, this`clientSeq, this`taken
      ensures index == taken == old(taken) + 1 && State() == Run(Applied())
      ensures Applied()[..taken - 1] == old(Applied()) && result == Outcome(Applied(), taken - 1)
    {
      ghost var before := Applied();
      var msg := raft.channel[taken];
      index := msg.index;
      var op := Decode(msg.command);
      result := ApplyOp(op);
      taken := taken + 1;
      assert Applied() == before + [op] && Applied()[..taken - 1] == before;
      RunSnoc(before, op);
    }

    /** One turn of the applier: take a message, and fill the promise waiting at its index. */
    method ApplyNext()
      requires Valid() && taken < |raft.channel|
      modifies this`store, this`clientSeq, this`taken, this`waitMap, this`futures
      ensures Valid() && taken == old(taken) + 1
      ensures futures.Keys == old(futures).Keys && waitMap == old(waitMap) - {taken}
      ensures Turned(old(futures), futures, old(waitMap), taken, Ready(taken, Outcome(Applied(), taken - 1)))
      ensures forall ticket :: old(Registered(ticket, taken + 1)) ==>
        futures[ticket] == Ready(taken, Outcome(Applied(), taken - 1))
      ensures forall ticket, index :: index != taken && old(Registered(ticket, index)) ==> Registered(ticket, index)
    {
      var index, result := TakeMessage();
      Fulfil(index, result);
      forall t | t in futures && futures[t].Ready? ensures Delivered(Applied(), futures[t].index, futures[t].op) {
        if futures[t] == old(futures)[t] {
          DeliveredStays(old(Applied()), Applied(), futures[t].index, futures[t].op);
        }
      }
    }

    /** The applier drains the channel. */
    method ApplierLoop()
      requires Valid()
      modifies this
      ensures Valid() && taken == |raft.channel| && State() == Run(OpsOf(raft.channel))
    {
      while taken < |raft.channel|
        invariant Valid()
        decreases |raft.channel| - taken
      {
        ApplyNext();
      }
      assert raft.channel[..taken] == raft.channel;
    }

    /** Make a promise for a log index; one that was there before is abandoned. */
    method Register(index: nat) returns (ticket: nat)
      requires Valid()
      modifies this`waitMap, this`futures, this`nextTicket
      ensures Valid() && ticket !in old(futures) && Registered(ticket, index)
      ensures waitMap == old(waitMap)[index := ticket]
      ensures Turned(old(futures), futures, old(waitMap), index, Broken(index))
    {
      ticket := nextTicket;
      nextTicket := nextTicket + 1;
      if index in waitMap { futures := futures[waitMap[index] := Broken(index)]; }
      futures := futures[ticket := Pending(index)];
      waitMap := waitMap[index := ticket];
    }

    /** The first half of a get: on the leader its operation is appended and gets a ticket for its index. */
    method BeginGet(key: string, clientId: nat, seqNo: int) returns (ticket: nat, index: nat, leader: bool)
      requires Valid()
      modifies this`waitMap, this`futures, this`nextTicket, raft
      ensures Valid() && leader == (old(raft.View()).role == Leader)
      ensures raft.View() == Start(old(raft.View()), Client(Op(Get, key, "", clientId, seqNo))).0
      ensures leader ==> index == LastIndex(raft.View()) && Registered(ticket, index)
      ensures leader ==> ticket !in old(futures) && waitMap == old(waitMap)[index := ticket]
      ensures !leader ==> waitMap == old(waitMap) && futures == old(futures)
    {
      var reply := raft.StartCommand(Client(Op(Get, key, "", clientId, seqNo)));
      leader := reply.isLeader;
      ticket, index := 0, 0;
      if leader {
        index := reply.index;
        ticket := Register(index);
      }
    }

    /** Take the waiter at an index off the map when its caller is done; whoever waits there is abandoned. */
    method Unregister(index: nat)
      requires Valid()
      modifies this`waitMap, this`futures
      ensures Valid() && waitMap == old(waitMap) - {index}
      ensures Turned(old(futures), futures, old(waitMap), index, Broken(index))
    {
      if index in waitMap { futures := futures[waitMap[index] := Broken(index)]; }
      waitMap := waitMap - {index};
    }

    /** The second half of a get: the wait is over, in time if ready. A reply carries the outcome of the log entry at
        the index, which has the caller's client and sequence number; if that entry is the caller's own get, the value
        is the one that the log before it gives the key. */
    method FinishGet(ticket: nat, index: nat, key: string, clientId: nat, seqNo: int, ready: bool)
      returns (reply: GetReply)
      requires Valid() && ticket in futures && futures[ticket].index == index
      requires ready ==> !futures[ticket].Pending?
      modifies this`waitMap, this`futures
      ensures Valid()
      ensures reply.err != WrongLeader ==>
        && GetAnswer(Applied(), index, clientId, seqNo, reply)
        && (Applied()[index - 1] == Op(Get, key, "", clientId, seqNo) ==>
              reply.value == Lookup(Run(Applied()[..index - 1]).store, key))
      ensures reply.err == WrongLeader <==> !Answers(dead, ready, old(futures)[ticket], clientId, seqNo)
      ensures (!dead && ready && old(futures)[ticket].Ready? && 1 <= index <= taken
               && Applied()[index - 1] == Op(Get, key, "", clientId, seqNo)) ==>
        var value := Lookup(Run(Applied()[..index - 1]).store, key);
        reply == if value == "" then GetReply(NoKey, "") else GetReply(Ok, value)
    {
      Unregister(index);
      reply := GetReply(WrongLeader, "");
      if dead || !ready || !futures[ticket].Ready? { return; }
      var op := futures[ticket].op;
      OutcomeKeepsName(Applied(), index - 1);
      if op.clientId == clientId && op.seqNo == seqNo {
        reply := if op.value != "" then GetReply(Ok, op.value) else GetReply(NoKey, "");
      }
    }

    /** The first half of a write: a number that is not above the client's last applied one is answered at once. */
    method BeginWrite(op: Op) returns (ticket: nat, index: nat, leader: bool, duplicate: bool)
      requires Valid()
      modifies this`waitMap, this`futures, this`nextTicket, raft
      ensures Valid() && leader == (old(raft.View()).role == Leader)
      ensures raft.View() == Start(old(raft.View()), Client(op)).0
      ensures duplicate == (leader && Duplicate(Run(Applied()), op))
      ensures leader && !duplicate ==> index == LastIndex(raft.View()) && Registered(ticket, index)
      ensures leader && !duplicate ==> ticket !in old(futures) && waitMap == old(waitMap)[index := ticket]
      ensures !leader || duplicate ==> waitMap == old(waitMap) && futures == old(futures)
    {
      var reply := raft.StartCommand(Client(op));
      leader, duplicate := reply.isLeader, false;
      ticket, index := 0, 0;
      if leader {
        duplicate := op.clientId in clientSeq && clientSeq[op.clientId] >= op.seqNo;
        if !duplicate {
          index := reply.index;
          ticket := Register(index);
        }
      }
    }

    /** The second half of a write: OK means that the entry at the index has the caller's numbers and was applied. */
    method FinishWrite(ticket: nat, index: nat, clientId: nat, seqNo: int, ready: bool) returns (err: Err)
      requires Valid() && ticket in futures && futures[ticket].index == index
      requires ready ==> !futures[ticket].Pending?
      modifies this`waitMap, this`futures
      ensures Valid()
      ensures err == Ok ==> Answered(Applied(), index, clientId, seqNo)
      ensures err == (if Answers(dead, ready, old(futures)[ticket], clientId, seqNo) then Ok else WrongLeader)
      ensures (!dead && ready && old(futures)[ticket].Ready? && 1 <= index <= taken
               && Applied()[index - 1].clientId == clientId && Applied()[index - 1].seqNo == seqNo) ==> err == Ok
    {
      Unregister(index);
      err := WrongLeader;
      if dead || !ready || !futures[ticket].Ready? { return; }
      OutcomeKeepsName(Applied(), index - 1);
      if futures[ticket].op.clientId == clientId && futures[ticket].op.seqNo == seqNo { err := Ok; }
    }

    /** The applier goes on until it has applied an index; whoever waits there has the outcome. */
    method ApplyUntil(index: nat)
      requires Valid() && taken < index <= |raft.channel|
      modifies this`store, this`clientSeq, this`taken, this`waitMap, this`futures
      ensures Valid() && taken == index
      ensures forall ticket :: old(Registered(ticket, index)) ==>
        ticket in futures && futures[ticket] == Ready(index, Outcome(Applied(), index - 1))
    {
      while taken + 1 < index
        invariant Valid() && taken < index <= |raft.channel|
        invariant forall ticket :: old(Registered(ticket, index)) ==> Registered(ticket, index)
        decreases index - taken
      {
        ApplyNext();
      }
      ApplyNext();
    }

    /** What follows for a write that waits at an index, on a server that lives: if its own entry is what is pushed
        there, in time, it is answered OK. */
    method EndWriteRound(op: Op, ticket: nat, index: nat) returns (err: Err)
      requires Valid() && Registered(ticket, index) && !dead && taken < index <= |raft.channel|
      requires raft.channel[index - 1].command == Client(op)
      modifies this`store, this`clientSeq, this`taken, this`waitMap, this`futures
      ensures Valid() && taken == index && Applied()[index - 1] == op && err == Ok
    {
      ApplyUntil(index);
      err := FinishWrite(ticket, index, op.clientId, op.seqNo, true);
    }

    /** The same for a get: it is answered with the value its key has after the log before the index, or that there is
        none. */
    method EndGetRound(key: string, clientId: nat, seqNo: int, ticket: nat, index: nat) returns (reply: GetReply)
      requires Valid() && Registered(ticket, index) && !dead && taken < index <= |raft.channel|
      requires raft.channel[index - 1].command == Client(Op(Get, key, "", clientId, seqNo))
      modifies this`store, this`clientSeq, this`taken, this`waitMap, this`futures
      ensures Valid() && taken == index
      ensures var value := Lookup(Run(Applied()[..index - 1]).store, key);
        reply == if value == "" then GetReply(NoKey, "") else GetReply(Ok, value)
    {
      ApplyUntil(index);
      reply := FinishGet(ticket, index, key, clientId, seqNo, true);
    }
  }

  /** The operation that a node pushes for a client's command is that command's operation. */
  lemma PushedOperation(n: Node, op: Op, index: nat)
    requires |n.log| >= 1 && n.baseIndex <= n.lastApplied < index <= n.commitIndex <= LastIndex(n)
    requires n.log[index - n.baseIndex].command == Client(op)
    ensures var pushed := ApplyCommitted(n).applied;
      |pushed| >= |n.applied| + index - n.lastApplied
      && OpsOf(pushed)[|n.applied| + index - n.lastApplied - 1] == op
  {}

  /** Applying an operation never changes who asked for it. */
  lemma OutcomeKeepsName(ops: seq<Op>, i: nat)
    requires i < |ops|
    ensures Outcome(ops, i).clientId == ops[i].clientId && Outcome(ops, i).seqNo == ops[i].seqNo
  {}

  /** Later operations do not change what earlier ones returned. */
  lemma DeliveredStays(ops: seq<Op>, ops': seq<Op>, index: nat, result: Op)
    requires Delivered(ops, index, result) && |ops| <= |ops'| && ops'[..|ops|] == ops
    ensures Delivered(ops', index, result)
  {
    assert ops'[..index - 1] == ops[..index - 1];
  }
}
