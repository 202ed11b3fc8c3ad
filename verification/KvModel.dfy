/** The sequential specification of one key, and the split of a history by key. */
module KvModel {

  /** operation: 0 is a get, 1 a put, 2 an append. */
  datatype KvInput = KvInput(operation: nat, key: string, value: string)

  datatype KvOutput = KvOutput(value: string)

  datatype Record = Record(input: KvInput, output: KvOutput)

  function Init(): string { "" }

  /** Is the output right in this state, and what is the state afterwards? */
  function Step(state: string, input: KvInput, output: KvOutput): (bool, string) {
    if input.operation == 0 then (output.value == state, state)
    else if input.operation == 1 then (true, input.value)
    else if input.operation == 2 then (true, state + input.value)
    else (output.value == state, state + input.value)
  }

  /** All of a history of one key: was every output right, and where does it end? */
  function Steps(history: seq<Record>): (bool, string) {
    if history == [] then (true, Init())
    else
      var last := history[|history| - 1];
      var (ok, state) := Steps(history[..|history| - 1]);
      var (ok', state') := Step(state, last.input, last.output);
      (ok && ok', state')
  }

  /** The part of a history that concerns one key. */
  function Group(history: seq<Record>, key: string): (group: seq<Record>)
    ensures forall r :: r in group <==> r in history && r.input.key == key
  {
    if history == [] then []
    else
      var last := history[|history| - 1];
      var before := Group(history[..|history| - 1], key);
      if last.input.key == key then before + [last] else before
  }

  lemma GroupSnoc(history: seq<Record>, r: Record, key: string)
    ensures Group(history + [r], key) == if r.input.key == key then Group(history, key) + [r] else Group(history, key)
  {
    assert (history + [r])[..|history|] == history;
  }

  lemma StepsSnoc(history: seq<Record>, r: Record)
    ensures Steps(history + [r]) ==
      (Steps(history).0 && Step(Steps(history).1, r.input, r.output).0, Step(Steps(history).1, r.input, r.output).1)
  {
    assert (history + [r])[..|history|] == history;
  }

  /** The first loop: every operation goes to the end of its key's group. */
  method Collect(history: seq<Record>) returns (grouped: map<string, seq<Record>>)
    ensures forall key :: key in grouped <==> Group(history, key) != []
    ensures forall key :: key in grouped ==> grouped[key] == Group(history, key)
  {
    grouped := map[];
    var k := 0;
    while k < |history|
      invariant k <= |history|
      invariant forall key :: key in grouped <==> Group(history[..k], key) != []
      invariant forall key :: key in grouped ==> grouped[key] == Group(history[..k], key)
    {
      var key := history[k].input.key;
      assert history[..k + 1] == history[..k] + [history[k]];
      forall other ensures Group(history[..k + 1], other) ==
        if key == other then Group(history[..k], other) + [history[k]] else Group(history[..k], other)
      {
        GroupSnoc(history[..k], history[k], other);
      }
      grouped := grouped[key := (if key in grouped then grouped[key] else []) + [history[k]]];
      k := k + 1;
    }
    assert history[..k] == history;
  }

  lemma GroupNonEmpty(history: seq<Record>, key: string)
    ensures Group(history, key) != [] <==> exists r :: r in history && r.input.key == key
  {
    if Group(history, key) != [] {
      assert Group(history, key)[0] in Group(history, key);
    }
    if r :| r in history && r.input.key == key {
      assert r in Group(history, key);
    }
  }

  /** The order in which the grouping map lists its keys. */
  predicate Less(a: string, b: string) {
    b != "" && (a == "" || a[0] < b[0] || (a[0] == b[0] && Less(a[1..], b[1..])))
  }

  lemma {:induction false} LessTrans(a: string, b: string, c: string)
    requires Less(a, b) && Less(b, c)
    ensures Less(a, c)
  {
    if a != "" && a[0] == b[0] == c[0] { LessTrans(a[1..], b[1..], c[1..]); }
  }

  lemma {:induction false} LessTotal(a: string, b: string)
    ensures a == b || Less(a, b) || Less(b, a)
  {
    if a != "" && b != "" && a[0] == b[0] {
      LessTotal(a[1..], b[1..]);
      assert a == [a[0]] + a[1..] && b == [b[0]] + b[1..];
    }
  }

  ghost predicate Least(keys: set<string>, key: string) {
    key in keys && forall other :: other in keys ==> other == key || Less(key, other)
  }

  lemma LeastExists(keys: set<string>) returns (least: string)
    requires keys != {}
    ensures Least(keys, least)
  {
    least :| least in keys;
    if keys != {least} {
      var other := LeastExists(keys - {least});
      LessTotal(least, other);
      if Less(other, least) {
        least := other;
      } else {
        forall k | k in keys && k != least && k != other ensures Less(least, k) { LessTrans(least, other, k); }
      }
    }
  }

  ghost predicate Ordered(keys: seq<string>) {
    forall i, j :: 0 <= i < j < |keys| ==> Less(keys[i], keys[j])
  }

  /** The second loop: the groups, in the order of their keys. */
  method InOrder(grouped: map<string, seq<Record>>) returns (groups: seq<seq<Record>>, ghost keys: seq<string>)
    ensures |groups| == |keys| && Ordered(keys)
    ensures forall key :: key in keys <==> key in grouped
    ensures forall i :: 0 <= i < |keys| ==> keys[i] in grouped && groups[i] == grouped[keys[i]]
  {
    groups, keys := [], [];
    var todo := grouped.Keys;
    while todo != {}
      invariant todo <= grouped.Keys && |groups| == |keys| && Ordered(keys)
      invariant forall key :: key in keys <==> key in grouped.Keys - todo
      invariant forall i :: 0 <= i < |keys| ==> keys[i] in grouped && groups[i] == grouped[keys[i]]
      invariant forall key, later :: key in keys && later in todo ==> Less(key, later)
      decreases |todo|
    {
      ghost var least := LeastExists(todo);
      var key :| key in todo && forall other :: other in todo ==> other == key || Less(key, other);
      forall i | 0 <= i < |keys| ensures Less(keys[i], key) { assert keys[i] in keys; }
      groups, keys := groups + [grouped[key]], keys + [key];
      todo := todo - {key};
    }
  }

  lemma FirstOfGroup(history: seq<Record>, key: string)
    requires Group(history, key) != []
    ensures Group(history, key)[0].input.key == key
  {
    assert Group(history, key)[0] in Group(history, key);
  }

  /** Collect the operations of every key, then list the groups in the order of their keys: one for each key that
      occurs, with all its operations in history order. */
  method Partition(history: seq<Record>) returns (groups: seq<seq<Record>>)
    ensures forall i :: 0 <= i < |groups| ==> groups[i] != [] && groups[i] == Group(history, groups[i][0].input.key)
    ensures forall r :: r in history ==> Group(history, r.input.key) in groups
    ensures forall i, j :: 0 <= i < j < |groups| && groups[i] != [] && groups[j] != [] ==>
      Less(groups[i][0].input.key, groups[j][0].input.key)
  {
    var grouped := Collect(history);
    ghost var keys: seq<string>;
    groups, keys := InOrder(grouped);
    forall i | 0 <= i < |groups| ensures groups[i] != [] && groups[i][0].input.key == keys[i] {
      FirstOfGroup(history, keys[i]);
    }
    forall r | r in history ensures Group(history, r.input.key) in groups {
      GroupNonEmpty(history, r.input.key);
      assert r.input.key in keys;
    }
  }
}
