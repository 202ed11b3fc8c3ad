/** The replicated state machine: what applying one committed operation does, and what a whole log amounts to. */
module KvMachine {
  import opened Ops
  import opened KvModel

  /** The store and, for each client, the sequence number of its last applied write. */
  datatype KvState = KvState(store: map<string, string>, clientSeq: map<nat, int>)

  const EMPTY := KvState(map[], map[])

  function Lookup(store: map<string, string>, key: string): string {
    if key in store then store[key] else ""
  }

  /** What a log command decodes to: text that is no operation gives one that does nothing. */
  function Decode(command: Command): Op {
    match command
    case Client(op) => op
    case Blank => Op(Unknown, "", "", 0, 0)
  }

  predicate IsWrite(op: Op) {
    op.kind == Put || op.kind == Append
  }

  predicate Duplicate(s: KvState, op: Op) {
    op.clientId in s.clientSeq && s.clientSeq[op.clientId] >= op.seqNo
  }

  /** The store after a write, duplicates or not. */
  function Write(store: map<string, string>, op: Op): map<string, string> {
    if op.kind == Append then store[op.key := Lookup(store, op.key) + op.value]
    else if op.kind == Put then store[op.key := op.value]
    else store
  }

  /** Apply one operation; the operation comes back with the value a get has read. */
  function Apply(s: KvState, op: Op): (KvState, Op) {
    if op.kind == Get then
      (s, op.(value := Lookup(s.store, op.key)))
    else if IsWrite(op) && !Duplicate(s, op) then
      (KvState(Write(s.store, op), s.clientSeq[op.clientId := op.seqNo]), op)
    else
      (s, op)
  }

  /** The state after a log of operations. */
  function Run(ops: seq<Op>): KvState {
    if ops == [] then EMPTY else Apply(Run(ops[..|ops| - 1]), ops[|ops| - 1]).0
  }

  /** What the waiter at a log position receives. */
  function Outcome(ops: seq<Op>, i: nat): Op
    requires i < |ops|
  {
    Apply(Run(ops[..i]), ops[i]).1
  }

  lemma RunSnoc(ops: seq<Op>, op: Op)
    ensures Run(ops + [op]) == Apply(Run(ops), op).0
  {
    assert (ops + [op])[..|ops|] == ops;
  }

  // ---------------------------------------------------------------- deduplication

  /** A write whose number exceeds those of all earlier writes of its client. */
  ghost predicate Effective(ops: seq<Op>, i: nat)
    requires i < |ops|
  {
    IsWrite(ops[i]) && forall j :: 0 <= j < i && IsWrite(ops[j]) && ops[j].clientId == ops[i].clientId ==>
      ops[j].seqNo < ops[i].seqNo
  }

  /** The sequence map holds exactly the clients that have written, each with the maximum of its numbers. */
  ghost predicate SeqMapOk(ops: seq<Op>, seqs: map<nat, int>) {
    && (forall j :: 0 <= j < |ops| && IsWrite(ops[j]) ==>
          ops[j].clientId in seqs && ops[j].seqNo <= seqs[ops[j].clientId])
    && (forall client :: client in seqs ==>
          exists j :: 0 <= j < |ops| && IsWrite(ops[j]) && ops[j].clientId == client && ops[j].seqNo == seqs[client])
  }

  lemma {:induction false} SeqMapIsMaximum(ops: seq<Op>)
    ensures SeqMapOk(ops, Run(ops).clientSeq)
  {
    if ops != [] {
      var before, op := ops[..|ops| - 1], ops[|ops| - 1];
      SeqMapIsMaximum(before);
      var old', new' := Run(before).clientSeq, Run(ops).clientSeq;
      forall client | client in new'
        ensures exists j ::
          0 <= j < |ops| && IsWrite(ops[j]) && ops[j].clientId == client && ops[j].seqNo == new'[client]
      {
        if client in old' && new'[client] == old'[client] {
          var j :| 0 <= j < |before| && IsWrite(before[j]) && before[j].clientId == client
            && before[j].seqNo == old'[client];
          assert ops[j] == before[j];
        } else {
          assert ops[|ops| - 1].seqNo == new'[client];
        }
      }
      forall j | 0 <= j < |ops| && IsWrite(ops[j])
        ensures ops[j].clientId in new' && ops[j].seqNo <= new'[ops[j].clientId]
      {
        assert j < |before| ==> ops[j] == before[j];
      }
    }
  }

  /** The check against the sequence map finds exactly the writes that are effective. */
  lemma EffectiveIffNotDuplicate(ops: seq<Op>, i: nat)
    requires i < |ops|
    ensures Effective(ops, i) <==> IsWrite(ops[i]) && !Duplicate(Run(ops[..i]), ops[i])
  {
    var before := ops[..i];
    SeqMapIsMaximum(before);
    if IsWrite(ops[i]) && Duplicate(Run(before), ops[i]) {
      var top := Run(before).clientSeq[ops[i].clientId];
      var j :| 0 <= j < |before| && IsWrite(before[j]) && before[j].clientId == ops[i].clientId
        && before[j].seqNo == top;
      assert ops[j] == before[j];
    }
    forall j | 0 <= j < i ensures ops[j] == before[j] {}
  }

  /** The effective writes of a log, in order. */
  ghost function EffectiveWrites(ops: seq<Op>): seq<Op> {
    if ops == [] then []
    else
      var rest := EffectiveWrites(ops[..|ops| - 1]);
      if Effective(ops, |ops| - 1) then rest + [ops[|ops| - 1]] else rest
  }

  /** The store after a sequence of writes, each applied. */
  function Plain(writes: seq<Op>): map<string, string> {
    if writes == [] then map[] else Write(Plain(writes[..|writes| - 1]), writes[|writes| - 1])
  }

  lemma PlainSnoc(writes: seq<Op>, op: Op)
    ensures Plain(writes + [op]) == Write(Plain(writes), op)
  {
    assert (writes + [op])[..|writes|] == writes;
  }

  /** Deduplication is the plain fold of the effective writes. */
  lemma {:induction false} DedupIsPlainFold(ops: seq<Op>)
    ensures Run(ops).store == Plain(EffectiveWrites(ops))
  {
    if ops != [] {
      var before, op := ops[..|ops| - 1], ops[|ops| - 1];
      DedupIsPlainFold(before);
      EffectiveIffNotDuplicate(ops, |ops| - 1);
      PlainSnoc(EffectiveWrites(before), op);
      assert EffectiveWrites(ops) == EffectiveWrites(before) + if Effective(ops, |ops| - 1) then [op] else [];
      assert Run(ops) == Apply(Run(before), op).0;
    }
  }

  /** The write at a log position passes the machine's duplicate check, in the state the log before it has led to. */
  ghost predicate TakesEffect(ops: seq<Op>, i: nat)
    requires i < |ops|
  {
    IsWrite(ops[i]) && !Duplicate(Run(ops[..i]), ops[i])
  }

  /** Two log entries of the same request. */
  predicate SameRequest(a: Op, b: Op) {
    IsWrite(a) && IsWrite(b) && a.clientId == b.clientId && a.seqNo == b.seqNo
  }

  ghost predicate Repeats(ops: seq<Op>, i: nat)
    requires i < |ops|
  {
    exists j :: 0 <= j < i && SameRequest(ops[j], ops[i])
  }

  /** The requests of each client first enter the log in the order of their numbers. */
  ghost predicate FirstsInOrder(ops: seq<Op>) {
    forall i, j ::
      && 0 <= i < j < |ops| && IsWrite(ops[i]) && IsWrite(ops[j]) && ops[i].clientId == ops[j].clientId
      && !Repeats(ops, i) && !Repeats(ops, j)
      ==> ops[i].seqNo < ops[j].seqNo
  }

  /** Entry k, at i or before, is the only one of the request at i to take effect. */
  ghost predicate ServedBy(ops: seq<Op>, i: nat, k: nat)
    requires i < |ops|
  {
    && k <= i && SameRequest(ops[k], ops[i]) && TakesEffect(ops, k)
    && forall j :: 0 <= j < |ops| && SameRequest(ops[j], ops[i]) && TakesEffect(ops, j) ==> j == k
  }

  ghost predicate ServedOnce(ops: seq<Op>, i: nat)
    requires i < |ops|
  {
    exists k :: ServedBy(ops, i, k)
  }

  lemma {:induction false} FirstOccurrence(ops: seq<Op>, i: nat) returns (first: nat)
    requires i < |ops| && IsWrite(ops[i])
    ensures first <= i && SameRequest(ops[first], ops[i]) && !Repeats(ops, first)
  {
    if Repeats(ops, i) {
      var j :| 0 <= j < i && SameRequest(ops[j], ops[i]);
      first := FirstOccurrence(ops, j);
    } else {
      first := i;
    }
  }

  /** At most once: of all entries of a request only the first can take effect. */
  lemma AtMostOnce(ops: seq<Op>, k: nat)
    requires k < |ops| && TakesEffect(ops, k)
    ensures forall j :: 0 <= j < |ops| && SameRequest(ops[j], ops[k]) ==> k <= j && (TakesEffect(ops, j) ==> j == k)
  {
    EffectiveIffNotDuplicate(ops, k);
    forall j | 0 <= j < |ops| && SameRequest(ops[j], ops[k]) ensures k <= j && (TakesEffect(ops, j) ==> j == k) {
      EffectiveIffNotDuplicate(ops, j);
    }
  }

  lemma OrderedFirstTakesEffect(ops: seq<Op>, first: nat)
    requires FirstsInOrder(ops) && first < |ops| && IsWrite(ops[first]) && !Repeats(ops, first)
    ensures TakesEffect(ops, first)
  {
    forall j | 0 <= j < first && IsWrite(ops[j]) && ops[j].clientId == ops[first].clientId
      ensures ops[j].seqNo < ops[first].seqNo
    {
      var k := FirstOccurrence(ops, j);
    }
    EffectiveIffNotDuplicate(ops, first);
  }

  /** Exactly once: the machine lets exactly one entry of every request through, exactly if the requests of each
      client first enter the log in the order of their numbers. */
  lemma ExactlyOnce(ops: seq<Op>)
    ensures FirstsInOrder(ops) <==> forall i :: 0 <= i < |ops| && IsWrite(ops[i]) ==> ServedOnce(ops, i)
  {
    if FirstsInOrder(ops) {
      forall i | 0 <= i < |ops| && IsWrite(ops[i]) ensures ServedOnce(ops, i) {
        var first := FirstOccurrence(ops, i);
        OrderedFirstTakesEffect(ops, first);
        AtMostOnce(ops, first);
        assert ServedBy(ops, i, first);
      }
    }
    if forall i :: 0 <= i < |ops| && IsWrite(ops[i]) ==> ServedOnce(ops, i) {
      ServedInOrder(ops);
    }
  }

  lemma ServedInOrder(ops: seq<Op>)
    requires forall i :: 0 <= i < |ops| && IsWrite(ops[i]) ==> ServedOnce(ops, i)
    ensures FirstsInOrder(ops)
  {
    forall i, j |
      && 0 <= i < j < |ops| && IsWrite(ops[i]) && IsWrite(ops[j]) && ops[i].clientId == ops[j].clientId
      && !Repeats(ops, i) && !Repeats(ops, j)
      ensures ops[i].seqNo < ops[j].seqNo
    {
      assert ServedOnce(ops, j);
      var k :| ServedBy(ops, j, k);
      assert k == j;
      EffectiveIffNotDuplicate(ops, j);
    }
  }

  // ---------------------------------------------------------------- writes answered at once

  ghost predicate AlreadyIn(ops: seq<Op>, op: Op) {
    exists k :: 0 <= k < |ops| && SameRequest(ops[k], op)
  }

  lemma PrefixInOrder(ops: seq<Op>, op: Op)
    requires FirstsInOrder(ops + [op])
    ensures FirstsInOrder(ops)
  {
    forall i, j |
      && 0 <= i < j < |ops| && IsWrite(ops[i]) && IsWrite(ops[j]) && ops[i].clientId == ops[j].clientId
      && !Repeats(ops, i) && !Repeats(ops, j)
      ensures ops[i].seqNo < ops[j].seqNo
    {
      assert !Repeats(ops + [op], i) && !Repeats(ops + [op], j);
      assert (ops + [op])[i] == ops[i] && (ops + [op])[j] == ops[j];
    }
  }

  /** The server answers a write at once whenever its request is in the log it has applied. When it answers at once, the
      request is in that log exactly if it would have come in order. */
  lemma EarlyAnswerIsExact(ops: seq<Op>, op: Op)
    requires IsWrite(op)
    ensures AlreadyIn(ops, op) ==> Duplicate(Run(ops), op)
    ensures FirstsInOrder(ops) && Duplicate(Run(ops), op) ==> (AlreadyIn(ops, op) <==> FirstsInOrder(ops + [op]))
  {
    SeqMapIsMaximum(ops);
    if FirstsInOrder(ops) && Duplicate(Run(ops), op) {
      if AlreadyIn(ops, op) { RepetitionInOrder(ops, op); } else { OvertakenOutOfOrder(ops, op); }
    }
  }

  lemma RepetitionInOrder(ops: seq<Op>, op: Op)
    requires FirstsInOrder(ops) && AlreadyIn(ops, op)
    ensures FirstsInOrder(ops + [op])
  {
    var all := ops + [op];
    assert Repeats(all, |ops|) by {
      var k :| 0 <= k < |ops| && SameRequest(ops[k], op);
      assert all[k] == ops[k];
    }
    forall i, j |
      && 0 <= i < j < |all| && IsWrite(all[i]) && IsWrite(all[j]) && all[i].clientId == all[j].clientId
      && !Repeats(all, i) && !Repeats(all, j)
      ensures all[i].seqNo < all[j].seqNo
    {
      assert j < |ops| && all[i] == ops[i] && all[j] == ops[j];
      assert forall k :: 0 <= k < j ==> ops[k] == all[k];
      assert !Repeats(ops, i) && !Repeats(ops, j);
    }
  }

  lemma OvertakenOutOfOrder(ops: seq<Op>, op: Op)
    requires IsWrite(op) && Duplicate(Run(ops), op) && !AlreadyIn(ops, op)
    ensures !FirstsInOrder(ops + [op])
  {
    SeqMapIsMaximum(ops);
    var top := Run(ops).clientSeq[op.clientId];
    var j :| 0 <= j < |ops| && IsWrite(ops[j]) && ops[j].clientId == op.clientId && ops[j].seqNo == top;
    var first := FirstOccurrence(ops, j);
    var all := ops + [op];
    assert forall k :: 0 <= k < |ops| ==> all[k] == ops[k];
    assert !Repeats(all, first) && !Repeats(all, |ops|);
    assert all[first].seqNo >= all[|ops|].seqNo && all[|ops|] == op;
  }

  /** A write answered at once whose request comes in order has taken effect, by exactly one entry. */
  lemma EarlyAnswerStands(ops: seq<Op>, op: Op) returns (k: nat)
    requires IsWrite(op) && Duplicate(Run(ops), op) && FirstsInOrder(ops + [op])
    ensures k < |ops| && SameRequest(ops[k], op) && ServedOnce(ops, k)
  {
    PrefixInOrder(ops, op);
    EarlyAnswerIsExact(ops, op);
    k :| 0 <= k < |ops| && SameRequest(ops[k], op);
    ExactlyOnce(ops);
  }

  /** Two concurrent requests of one client that enter the log in the wrong order: the later entry is dropped, and its
      client is told OK all the same, since the applier hands its waiter the operation it was waiting for. */
  lemma OvertakenWriteIsLost()
    ensures var ops := [Op(Put, "k", "new", 7, 2), Op(Put, "k", "old", 7, 1)];
      && Outcome(ops, 1) == ops[1]
      && !Repeats(ops, 1) && !TakesEffect(ops, 1)
      && Run(ops) == Run(ops[..1])
  {
    var a, b := Op(Put, "k", "new", 7, 2), Op(Put, "k", "old", 7, 1);
    var ops := [a, b];
    assert ops[..1] == [a] && [a][..0] == [];
    assert Run([a]) == Apply(EMPTY, a).0;
    assert ops[0].seqNo > ops[1].seqNo;
  }

  // ---------------------------------------------------------------- one key at a time

  function GetRecord(op: Op, value: string): Record {
    Record(KvInput(0, op.key, ""), KvOutput(value))
  }

  function WriteRecord(op: Op): Record {
    Record(KvInput(if op.kind == Put then 1 else 2, op.key, op.value), KvOutput(""))
  }

  /** What a log amounts to, as a history of the sequential specification: gets with what they read, and effective
      writes. */
  ghost function History(ops: seq<Op>): seq<Record> {
    if ops == [] then []
    else
      var i := |ops| - 1;
      if ops[i].kind == Get then History(ops[..i]) + [GetRecord(ops[i], Outcome(ops, i).value)]
      else if Effective(ops, i) then History(ops[..i]) + [WriteRecord(ops[i])]
      else History(ops[..i])
  }

  /** The specification's step explains what an operation does to the key and what it answers. */
  lemma RecordFits(s: KvState, op: Op, key: string)
    requires op.kind == Get || (IsWrite(op) && !Duplicate(s, op))
    ensures var r := if op.kind == Get then GetRecord(op, Apply(s, op).1.value) else WriteRecord(op);
      Explains(r, key, Lookup(s.store, key), Lookup(Apply(s, op).0.store, key))
  {}

  ghost predicate Explains(r: Record, key: string, before: string, after: string) {
    if r.input.key == key then KvModel.Step(before, r.input, r.output) == (true, after) else after == before
  }

  lemma ExplainedSteps(rest: seq<Record>, r: Record, key: string, before: string, after: string)
    requires Explains(r, key, before, after) && Steps(Group(rest, key)) == (true, before)
    ensures Steps(Group(rest + [r], key)) == (true, after)
  {
    GroupSnoc(rest, r, key);
    StepsSnoc(Group(rest, key), r);
  }

  /** Locality: for every key, the specification accepts every output of the key's group, and ends with the key's
      value. */
  lemma {:induction false} Locality(ops: seq<Op>, key: string)
    ensures Steps(Group(History(ops), key)) == (true, Lookup(Run(ops).store, key))
  {
    if ops != [] {
      var i := |ops| - 1;
      var rest, s, s' := History(ops[..i]), Run(ops[..i]), Run(ops);
      Locality(ops[..i], key);
      EffectiveIffNotDuplicate(ops, i);
      if ops[i].kind == Get {
        RecordFits(s, ops[i], key);
        ExplainedSteps(rest, GetRecord(ops[i], Outcome(ops, i).value), key, Lookup(s.store, key),
          Lookup(s'.store, key));
      } else if Effective(ops, i) {
        RecordFits(s, ops[i], key);
        ExplainedSteps(rest, WriteRecord(ops[i]), key, Lookup(s.store, key), Lookup(s'.store, key));
      }
    }
  }
}
