/** The key/value model that histories are checked against, one key at a time, and the store as a whole. */
module KvModel {
  import opened Linearizability
  import opened Operations
  import opened StringOrder

  datatype KvValue =
    | Input(op: nat, key: string, value: string)   // 0 is get, 1 is put, anything else appends
    | Output(result: string)

  /** Every operation has an input and an output of the right kind, as the model's type assertions demand. */
  predicate Typed(ops: seq<Operation<KvValue>>) {
    forall i :: 0 <= i < |ops| ==> ops[i].input.Input? && ops[i].output.Output?
  }

  /** The model of one key's value. */
  function KeyStep(st: string, inp: KvValue, out: KvValue): (bool, string) {
    if !inp.Input? || !out.Output? then (false, st)
    else if inp.op == 0 then (out.result == st, st)
    else if inp.op == 1 then (true, inp.value)
    else (true, st + inp.value)
  }

  function KeyModel(): Model<string, KvValue> {
    Model("", KeyStep)
  }

  function Lookup(st: map<string, string>, key: string): string {
    if key in st then st[key] else ""
  }

  /** The model of a whole store: every key behaves as one key does, and the keys are independent. */
  function StoreStep(st: map<string, string>, inp: KvValue, out: KvValue): (bool, map<string, string>) {
    if !inp.Input? || !out.Output? then (false, st)
    else if inp.op == 0 then (out.result == Lookup(st, inp.key), st)
    else if inp.op == 1 then (true, st[inp.key := inp.value])
    else (true, st[inp.key := Lookup(st, inp.key) + inp.value])
  }

  function StoreModel(): Model<map<string, string>, KvValue> {
    Model(map[], StoreStep)
  }

  /** A step of the store is a step of its key, and leaves the other keys alone. */
  lemma StoreStepByKey(st: map<string, string>, inp: KvValue, out: KvValue, key: string)
    requires inp.Input? && out.Output?
    ensures inp.key == key ==>
              KeyStep(Lookup(st, key), inp, out) == (StoreStep(st, inp, out).0, Lookup(StoreStep(st, inp, out).1, key))
    ensures inp.key != key ==> Lookup(StoreStep(st, inp, out).1, key) == Lookup(st, key)
  {
  }

  // ---------------------------------------------------------------- partitions

  /** The operations on one key, in the order of the history. */
  function Restrict(ops: seq<Operation<KvValue>>, key: string): seq<Operation<KvValue>>
    requires Typed(ops)
  {
    if ops == [] then []
    else
      var rest := Restrict(ops[..|ops| - 1], key);
      if ops[|ops| - 1].input.key == key then rest + [ops[|ops| - 1]] else rest
  }

  /** Where the operations on one key stand in the history. */
  function Positions(ops: seq<Operation<KvValue>>, key: string): (r: seq<nat>)
    requires Typed(ops)
    ensures Distinct(r)
    ensures forall i, j :: 0 <= i < j < |r| ==> r[i] < r[j]
    ensures forall i :: 0 <= i < |r| ==> r[i] < |ops| && ops[r[i]].input.key == key
    ensures forall k: nat :: k < |ops| && ops[k].input.key == key ==> k in r
  {
    if ops == [] then []
    else
      var rest := Positions(ops[..|ops| - 1], key);
      if ops[|ops| - 1].input.key == key then rest + [|ops| - 1] else rest
  }

  lemma {:induction false} RestrictAt(ops: seq<Operation<KvValue>>, key: string)
    requires Typed(ops)
    ensures |Restrict(ops, key)| == |Positions(ops, key)|
    ensures forall i :: 0 <= i < |Restrict(ops, key)| ==> Restrict(ops, key)[i] == ops[Positions(ops, key)[i]]
  {
    if ops != [] {
      RestrictAt(ops[..|ops| - 1], key);
    }
  }

  /** Some operation of the history is on this key. */
  predicate Occurs(ops: seq<Operation<KvValue>>, key: string)
    requires Typed(ops)
  {
    exists i :: 0 <= i < |ops| && ops[i].input.key == key
  }

  lemma {:induction false} RestrictEmpty(ops: seq<Operation<KvValue>>, key: string)
    requires Typed(ops)
    ensures Restrict(ops, key) == [] <==> !Occurs(ops, key)
  {
    if ops != [] {
      var before := ops[..|ops| - 1];
      RestrictEmpty(before, key);
      if Occurs(before, key) {
        var i :| 0 <= i < |before| && before[i].input.key == key;
        assert ops[i].input.key == key;
      }
      if ops[|ops| - 1].input.key != key && Occurs(ops, key) {
        var i :| 0 <= i < |ops| && ops[i].input.key == key;
        assert before[i].input.key == key;
      }
    }
  }

  /** The first loop of the partition: append each operation to the list of its key. */
  method Group(history: seq<Operation<KvValue>>) returns (m: map<string, seq<Operation<KvValue>>>)
    requires Typed(history)
    ensures forall k :: k in m <==> Occurs(history, k)
    ensures forall k :: k in m ==> m[k] == Restrict(history, k)
  {
    m := map[];
    var i := 0;
    assert history[..0] == [];
    while i < |history|
      invariant 0 <= i <= |history|
      invariant forall k :: k in m <==> Restrict(history[..i], k) != []
      invariant forall k :: k in m ==> m[k] == Restrict(history[..i], k)
    {
      var key := history[i].input.key;
      assert history[..i + 1][..i] == history[..i];
      m := m[key := (if key in m then m[key] else []) + [history[i]]];
      i := i + 1;
    }
    assert history[..i] == history;
    forall k {
      RestrictEmpty(history, k);
    }
  }

  /**
   The history split by key, the keys in sorted order.
   */
  method Partition(history: seq<Operation<KvValue>>) returns (ret: seq<seq<Operation<KvValue>>>, keys: seq<string>)
    requires Typed(history)
    ensures |ret| == |keys| && Increasing(keys)
    ensures forall k :: k in keys <==> Occurs(history, k)
    ensures forall i :: 0 <= i < |keys| ==> ret[i] == Restrict(history, keys[i])
  {
    var m := Group(history);
    keys := SortStrings(m.Keys);
    ret := [];
    while |ret| < |keys|
      invariant |ret| <= |keys|
      invariant forall i :: 0 <= i < |ret| ==> ret[i] == Restrict(history, keys[i])
    {
      ret := ret + [m[keys[|ret|]]];
    }
  }
}
