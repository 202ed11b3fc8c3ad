/** The replicated store: servers on the nodes of one cluster, over every run of the cluster. */
module EndToEnd {
  import opened Ops
  import opened RaftTypes
  import opened RaftNode
  import opened Cluster
  import opened Integrity
  import opened RaftSafety
  import opened KvMachine
  import opened KvServer

  /** The server runs on node i of the cluster, as the node is at one moment of a run. */
  ghost predicate Serves(server: KvServer, c: State, i: nat)
    reads server, server.raft
  {
    i < |c.nodes| && server.Valid() && server.raft.View() == c.nodes[i]
  }

  lemma SamePrefix(n: nat, run: seq<State>, a: nat, b: nat, i: nat, j: nat, m: nat)
    requires IsRun(n, run) && a < |run| && b < |run| && i < |run[a].nodes| && j < |run[b].nodes|
    requires m <= |run[a].nodes[i].applied| && m <= |run[b].nodes[j].applied|
    ensures run[a].nodes[i].applied[..m] == run[b].nodes[j].applied[..m]
  {
    forall p | 0 <= p < m ensures run[a].nodes[i].applied[p] == run[b].nodes[j].applied[p] {
      StateMachineSafety(n, run, a, b, i, j, p);
    }
  }

  /** What two servers have applied is the same as far as both have got. */
  lemma AppliedAgree(n: nat, run: seq<State>, a: nat, b: nat, i: nat, j: nat, x: KvServer, y: KvServer, m: nat)
    requires IsRun(n, run) && a < |run| && b < |run| && Serves(x, run[a], i) && Serves(y, run[b], j)
    requires m <= x.taken && m <= y.taken
    ensures x.Applied()[..m] == y.Applied()[..m]
  {
    SamePrefix(n, run, a, b, i, j, m);
    assert x.raft.channel[..m] == y.raft.channel[..m];
    forall p | 0 <= p < m ensures x.Applied()[p] == y.Applied()[p] {
      assert x.raft.channel[..m][p] == y.raft.channel[..m][p];
    }
  }

  /** Replica agreement: servers that have applied equally many entries, at any two moments of a run, have equal
      stores and equal sequence maps. */
  lemma ReplicaAgreement(n: nat, run: seq<State>, a: nat, b: nat, i: nat, j: nat, x: KvServer, y: KvServer)
    requires IsRun(n, run) && a < |run| && b < |run| && Serves(x, run[a], i) && Serves(y, run[b], j)
    requires x.taken == y.taken
    ensures x.store == y.store && x.clientSeq == y.clientSeq
  {
    AppliedAgree(n, run, a, b, i, j, x, y, x.taken);
    assert x.Applied()[..x.taken] == x.Applied() && y.Applied()[..y.taken] == y.Applied();
  }

  // ---------------------------------------------------------------- whose entry an answer is about

  ghost predicate Carries(e: Entry, clientId: nat, seqNo: int) {
    Decode(e.command).clientId == clientId && Decode(e.command).seqNo == seqNo
  }

  /** The numbers belong to one operation: whatever is submitted with them is that operation, and not before moment
      a. */
  ghost predicate Numbered(run: seq<State>, a: nat, clientId: nat, seqNo: int, op: Op) {
    forall m: nat, l: nat, k: nat, e: Entry :: Submitted(run, m, l, k, e) && Carries(e, clientId, seqNo) ==>
      m >= a && Decode(e.command) == op
  }

  lemma AppliedEntry(n: nat, run: seq<State>, b: nat, i: nat, x: KvServer, index: nat)
    requires IsRun(n, run) && b < |run| && Serves(x, run[b], i) && 1 <= index <= x.taken
    ensures index <= run[b].nodes[i].commitIndex && index < |run[b].nodes[i].log|
    ensures x.Applied()[index - 1] == Decode(run[b].nodes[i].log[index].command)
  {
    RunNode(n, run, b, i);
    assert x.raft.channel[..x.taken][index - 1] == run[b].nodes[i].applied[index - 1];
  }

  /** The entry behind an answer is the caller's own operation, and its moment m and its leader can be named. */
  lemma OwnEntry(
    n: nat, run: seq<State>, a: nat, b: nat, i: nat, x: KvServer, index: nat, clientId: nat, seqNo: int, op: Op)
    returns (m: nat, l: nat)
    requires IsRun(n, run) && b < |run| && Serves(x, run[b], i)
    requires Answered(x.Applied(), index, clientId, seqNo) && Numbered(run, a, clientId, seqNo, op)
    ensures x.Applied()[index - 1] == op
    ensures index <= run[b].nodes[i].commitIndex && index < |run[b].nodes[i].log|
    ensures a <= m < b && Submitted(run, m, l, index, run[b].nodes[i].log[index])
  {
    AppliedEntry(n, run, b, i, x, index);
    EntrySubmitted(n, run, b, i, index);
    m, l :| m < b && Submitted(run, m, l, index, run[b].nodes[i].log[index]);
    assert Carries(run[b].nodes[i].log[index], clientId, seqNo);
  }

  /** An answer comes from a log whose entries before it include everything that any server had applied before the
      request was first submitted. */
  lemma AnswerIsFresh(
    n: nat, run: seq<State>, a: nat, b: nat, i: nat, j: nat, x: KvServer, y: KvServer,
    index: nat, clientId: nat, seqNo: int, op: Op)
    requires IsRun(n, run) && a < |run| && b < |run| && Serves(x, run[b], i) && Serves(y, run[a], j)
    requires Answered(x.Applied(), index, clientId, seqNo) && Numbered(run, a, clientId, seqNo, op)
    ensures x.Applied()[index - 1] == op && y.Applied() <= x.Applied()[..index - 1]
  {
    var m, l := OwnEntry(n, run, a, b, i, x, index, clientId, seqNo, op);
    EntriesAreFresh(n, run, a, m, b, l, j, i);
    AppliedAgree(n, run, b, a, i, j, x, y, y.taken);
    assert y.Applied()[..y.taken] == y.Applied();
    assert x.Applied()[..index - 1][..y.taken] == x.Applied()[..y.taken];
  }

  // ---------------------------------------------------------------- gets

  /** An answered get says what any server's store holds that has applied exactly the entries before it. */
  lemma GetReadsReplicas(
    n: nat, run: seq<State>, a: nat, b: nat, i: nat, j: nat, x: KvServer, y: KvServer,
    index: nat, key: string, clientId: nat, seqNo: int, reply: GetReply)
    requires IsRun(n, run) && a < |run| && b < |run| && Serves(x, run[a], i) && Serves(y, run[b], j)
    requires GetAnswer(x.Applied(), index, clientId, seqNo, reply)
    requires Numbered(run, 0, clientId, seqNo, Op(Get, key, "", clientId, seqNo))
    requires y.taken == index - 1
    ensures reply.value == Lookup(y.store, key)
  {
    var m, l := OwnEntry(n, run, 0, a, i, x, index, clientId, seqNo, Op(Get, key, "", clientId, seqNo));
    AppliedAgree(n, run, a, b, i, j, x, y, index - 1);
    assert y.Applied()[..index - 1] == y.Applied();
  }

  /** Fresh reads: a get is answered with the key's value after a log prefix that includes everything that any server
      had applied before the get was submitted. */
  lemma GetIsFresh(
    n: nat, run: seq<State>, a: nat, b: nat, i: nat, j: nat, x: KvServer, y: KvServer,
    index: nat, key: string, clientId: nat, seqNo: int, reply: GetReply)
    requires IsRun(n, run) && a < |run| && b < |run| && Serves(x, run[b], i) && Serves(y, run[a], j)
    requires GetAnswer(x.Applied(), index, clientId, seqNo, reply)
    requires Numbered(run, a, clientId, seqNo, Op(Get, key, "", clientId, seqNo))
    ensures y.Applied() <= x.Applied()[..index - 1]
    ensures reply.value == Lookup(Run(x.Applied()[..index - 1]).store, key)
  {
    AnswerIsFresh(n, run, a, b, i, j, x, y, index, clientId, seqNo, Op(Get, key, "", clientId, seqNo));
  }

  /** Why the numbers must be unique: the server compares nothing else, and answers a get with a value that was put to
      another key under the same numbers. */
  lemma SharedNumbersMislead()
    ensures var applied := [Op(Put, "other", "v", 7, 1)];
      && GetAnswer(applied, 1, 7, 1, GetReply(Ok, "v"))
      && Lookup(Run(applied[..0]).store, "k") == "" && Lookup(Run(applied).store, "k") == ""
  {
    var applied := [Op(Put, "other", "v", 7, 1)];
    assert applied[..0] == [];
  }

  // ---------------------------------------------------------------- writes

  /** An answered write stands at its index in every server that has got that far, and if the requests of each client
      came in order there, exactly one entry of it takes effect. */
  lemma WriteStands(
    n: nat, run: seq<State>, a: nat, b: nat, i: nat, j: nat, x: KvServer, y: KvServer,
    index: nat, clientId: nat, seqNo: int, op: Op)
    requires IsRun(n, run) && a < |run| && b < |run| && Serves(x, run[a], i) && Serves(y, run[b], j)
    requires Answered(x.Applied(), index, clientId, seqNo) && Numbered(run, 0, clientId, seqNo, op)
    requires IsWrite(op) && index <= y.taken
    ensures y.Applied()[index - 1] == op
    ensures FirstsInOrder(y.Applied()) ==> ServedOnce(y.Applied(), index - 1)
  {
    var m, l := OwnEntry(n, run, 0, a, i, x, index, clientId, seqNo, op);
    AppliedAgree(n, run, a, b, i, j, x, y, index);
    assert x.Applied()[..index][index - 1] == y.Applied()[..index][index - 1];
    ExactlyOnce(y.Applied());
  }

  /** A get that is submitted after a write was answered reads a store that the write has gone into. */
  lemma GetSeesWrite(
    n: nat, run: seq<State>, a: nat, b: nat, i: nat, j: nat, x: KvServer, y: KvServer,
    written: nat, writer: nat, writeNo: int, op: Op,
    index: nat, key: string, clientId: nat, seqNo: int, reply: GetReply)
    requires IsRun(n, run) && a < |run| && b < |run| && Serves(x, run[b], i) && Serves(y, run[a], j)
    requires Answered(y.Applied(), written, writer, writeNo) && Numbered(run, 0, writer, writeNo, op)
    requires GetAnswer(x.Applied(), index, clientId, seqNo, reply)
    requires Numbered(run, a, clientId, seqNo, Op(Get, key, "", clientId, seqNo))
    ensures written < index && x.Applied()[written - 1] == op
    ensures reply.value == Lookup(Run(x.Applied()[..index - 1]).store, key)
  {
    var m, l := OwnEntry(n, run, 0, a, j, y, written, writer, writeNo, op);
    GetIsFresh(n, run, a, b, i, j, x, y, index, key, clientId, seqNo, reply);
    assert x.Applied()[..index - 1][written - 1] == y.Applied()[written - 1];
  }

  // ---------------------------------------------------------------- servers through a run

  /** A server keeps its order through every step of its node, of any kind but a restart. */
  twostate lemma ServerKept(n: nat, run: seq<State>, a: nat, i: nat, server: KvServer)
    requires IsRun(n, run) && a + 1 < |run| && old(Serves(server, run[a], i)) && unchanged(server)
    requires i < |run[a + 1].nodes| && server.raft.View() == run[a + 1].nodes[i]
    requires WellFormed(run[a]) && run[a + 1] != DoRestart(run[a], i)
    ensures Serves(server, run[a + 1], i)
  {
    StreamCounts(n, run, a + 1, i);
    CommitMonotone(n, run, a, i);
    server.NodeMoves();
  }

  /** Every node of a run is one that a server can start on. */
  lemma StreamCounts(n: nat, run: seq<State>, a: nat, i: nat)
    requires IsRun(n, run) && a < |run| && i < |run[a].nodes|
    ensures NodeOk(run[a].nodes[i]) && Streams(run[a].nodes[i])
  {
    IndexInvariants(n, run, a, i);
  }
}
