/** MapReduce: what the workers compute bucket by bucket is what the sequential program computes. */
module MapReduce {
  import opened StringOrder

  datatype KeyValue = KeyValue(key: string, value: string)

  /** The values emitted for one key, in the order they were emitted. */
  function ValuesOf(kvs: seq<KeyValue>, key: string): seq<string> {
    if kvs == [] then []
    else
      var rest := ValuesOf(kvs[..|kvs| - 1], key);
      var kv := kvs[|kvs| - 1];
      if kv.key == key then rest + [kv.value] else rest
  }

  predicate Emitted(kvs: seq<KeyValue>, key: string) {
    ValuesOf(kvs, key) != []
  }

  /** The specification: one line for every key emitted, with the reduction of its values. */
  ghost predicate Reduces(reducef: (string, seq<string>) -> string, kvs: seq<KeyValue>, out: map<string, string>) {
    forall k :: (k in out <==> Emitted(kvs, k)) && (k in out ==> out[k] == reducef(k, ValuesOf(kvs, k)))
  }

  /** The reduction of a key does not depend on the order of its values. */
  ghost predicate Unordered(reducef: (string, seq<string>) -> string) {
    forall k, vs, ws {:trigger reducef(k, vs), reducef(k, ws)} ::
      multiset(vs) == multiset(ws) ==> reducef(k, vs) == reducef(k, ws)
  }

  function Concat(parts: seq<seq<KeyValue>>): seq<KeyValue> {
    if parts == [] then [] else Concat(parts[..|parts| - 1]) + parts[|parts| - 1]
  }

  lemma {:induction false} ValuesOfConcat(a: seq<KeyValue>, b: seq<KeyValue>, key: string)
    ensures ValuesOf(a + b, key) == ValuesOf(a, key) + ValuesOf(b, key)
  {
    if b == [] {
      assert a + b == a;
    } else {
      var b' := b[..|b| - 1];
      assert (a + b)[..|a + b| - 1] == a + b';
      ValuesOfConcat(a, b', key);
    }
  }

  lemma {:induction false} NoneEmitted(kvs: seq<KeyValue>, key: string)
    requires forall i :: 0 <= i < |kvs| ==> kvs[i].key != key
    ensures !Emitted(kvs, key)
  {
    if kvs != [] {
      NoneEmitted(kvs[..|kvs| - 1], key);
    }
  }

  // ---------------------------------------------------------------- the workers

  /** The bucket of a key, 1 .. buckets. The hash is any function. */
  function BucketOf(hash: string -> nat, key: string, buckets: nat): (y: nat)
    requires buckets > 0
    ensures 1 <= y <= buckets
  {
    hash(key) % buckets + 1
  }

  /** One bucket's share of a map task's output, in order. */
  function Share(hash: string -> nat, kvs: seq<KeyValue>, buckets: nat, y: nat): seq<KeyValue>
    requires buckets > 0
  {
    if kvs == [] then []
    else
      var rest := Share(hash, kvs[..|kvs| - 1], buckets, y);
      var kv := kvs[|kvs| - 1];
      if BucketOf(hash, kv.key, buckets) == y then rest + [kv] else rest
  }

  /** Positions in increasing order. */
  predicate Rising(at: seq<nat>, n: nat) {
    (forall i :: 0 <= i < |at| ==> at[i] < n) && (forall i, j :: 0 <= i < j < |at| ==> at[i] < at[j])
  }

  lemma NoPositions()
    ensures Rising([], 0)
  {
  }

  lemma RisingNext(at: seq<nat>, kvs: seq<KeyValue>)
    requires kvs != [] && Rising(at, |kvs| - 1)
    ensures var n := |kvs| - 1;
            && Rising(at, n + 1) && Rising(at + [n], n + 1) && n !in at
            && (forall j :: j in at + [n] <==> j in at || j == n)
            && (forall i :: 0 <= i < |at| ==> at[i] < n && kvs[..n][at[i]] == kvs[at[i]])
            && (forall j :: 0 <= j < n ==> kvs[..n][j] == kvs[j])
  {
  }

  /** A bucket's file is exactly the pairs whose key hashes to it, in the order they were emitted. */
  lemma ShareInOrder(hash: string -> nat, kvs: seq<KeyValue>, buckets: nat, y: nat)
      returns (at: seq<nat>)
    requires buckets > 0
    ensures |at| == |Share(hash, kvs, buckets, y)| && Rising(at, |kvs|)
    ensures forall i :: 0 <= i < |at| ==> Share(hash, kvs, buckets, y)[i] == kvs[at[i]]
    ensures forall j :: 0 <= j < |kvs| ==> (j in at <==> hash(kvs[j].key) % buckets + 1 == y)
  {
    hide Rising, Share;
    at := ShareAt(hash, kvs, buckets, y);
  }

  lemma {:induction false} ShareAt(hash: string -> nat, kvs: seq<KeyValue>, buckets: nat, y: nat)
      returns (at: seq<nat>)
    requires buckets > 0
    ensures |at| == |Share(hash, kvs, buckets, y)| && Rising(at, |kvs|)
    ensures forall i :: 0 <= i < |at| ==> Share(hash, kvs, buckets, y)[i] == kvs[at[i]]
    ensures forall j :: 0 <= j < |kvs| ==> (j in at <==> BucketOf(hash, kvs[j].key, buckets) == y)
  {
    hide Rising, BucketOf;
    at := [];
    if kvs == [] {
      NoPositions();
    } else {
      var n := |kvs| - 1;
      var rest := ShareAt(hash, kvs[..n], buckets, y);
      RisingNext(rest, kvs);
      at := if BucketOf(hash, kvs[n].key, buckets) == y then rest + [n] else rest;
    }
  }

  lemma ShareMembers(hash: string -> nat, kvs: seq<KeyValue>, buckets: nat, y: nat, kv: KeyValue)
    requires buckets > 0
    ensures kv in Share(hash, kvs, buckets, y) <==> kv in kvs && hash(kv.key) % buckets + 1 == y
  {
    hide Share;
    var at := ShareInOrder(hash, kvs, buckets, y);
    var share := Share(hash, kvs, buckets, y);
    if kv in share {
      var i :| 0 <= i < |share| && share[i] == kv;
      assert at[i] in at;
    }
    if kv in kvs && hash(kv.key) % buckets + 1 == y {
      var j :| 0 <= j < |kvs| && kvs[j] == kv;
      var i :| 0 <= i < |at| && at[i] == j;
      assert share[i] == kv;
    }
  }

  /** The values of a key are those of all pairs with that key, in the order of the pairs. */
  lemma {:induction false} ValuesInOrder(kvs: seq<KeyValue>, key: string) returns (at: seq<nat>)
    ensures |at| == |ValuesOf(kvs, key)| && Rising(at, |kvs|)
    ensures forall i :: 0 <= i < |at| ==> ValuesOf(kvs, key)[i] == kvs[at[i]].value
    ensures forall j :: 0 <= j < |kvs| ==> (j in at <==> kvs[j].key == key)
  {
    hide Rising;
    at := [];
    if kvs == [] {
      NoPositions();
    } else {
      var n := |kvs| - 1;
      var rest := ValuesInOrder(kvs[..n], key);
      RisingNext(rest, kvs);
      at := if kvs[n].key == key then rest + [n] else rest;
    }
  }

  lemma {:induction false} ShareValues(hash: string -> nat, kvs: seq<KeyValue>, buckets: nat, y: nat, key: string)
    requires buckets > 0
    ensures ValuesOf(Share(hash, kvs, buckets, y), key) ==
            if BucketOf(hash, key, buckets) == y then ValuesOf(kvs, key) else []
  {
    if kvs != [] {
      var before, kv := kvs[..|kvs| - 1], kvs[|kvs| - 1];
      ShareValues(hash, before, buckets, y, key);
      if BucketOf(hash, kv.key, buckets) == y {
        var rest := Share(hash, before, buckets, y);
        assert (rest + [kv])[..|rest|] == rest;
      }
    }
  }

  /** A map task: the key/value pairs it emitted, divided into one file per bucket. */
  method Mapper(hash: string -> nat, kvs: seq<KeyValue>, buckets: nat) returns (files: seq<seq<KeyValue>>)
    requires buckets > 0
    ensures |files| == buckets
    ensures forall y :: 1 <= y <= buckets ==> files[y - 1] == Share(hash, kvs, buckets, y)
    ensures forall b, kv :: 0 <= b < buckets ==> (kv in files[b] <==> kv in kvs && hash(kv.key) % buckets == b)
  {
    var mp: map<nat, seq<KeyValue>> := map[];
    var i := 0;
    assert kvs[..0] == [];
    while i < |kvs|
      invariant 0 <= i <= |kvs|
      invariant forall y: nat :: (if y in mp then mp[y] else []) == Share(hash, kvs[..i], buckets, y)
    {
      var y := BucketOf(hash, kvs[i].key, buckets);
      assert kvs[..i + 1][..i] == kvs[..i];
      mp := mp[y := (if y in mp then mp[y] else []) + [kvs[i]]];
      i := i + 1;
    }
    assert kvs[..i] == kvs;
    files := [];
    var y := 1;
    while y <= buckets
      invariant 1 <= y <= buckets + 1 && |files| == y - 1
      invariant forall z :: 1 <= z < y ==> files[z - 1] == Share(hash, kvs, buckets, z)
    {
      files := files + [if y in mp then mp[y] else []];
      y := y + 1;
    }
    hide Share;
    forall b, kv | 0 <= b < buckets
      ensures kv in files[b] <==> kv in kvs && hash(kv.key) % buckets == b
    {
      assert files[b + 1 - 1] == Share(hash, kvs, buckets, b + 1);
      ShareMembers(hash, kvs, buckets, b + 1, kv);
    }
  }

  /** The table holds, for every key emitted, its values in order. */
  ghost predicate Table(mp: map<string, seq<string>>, kvs: seq<KeyValue>) {
    forall k :: (if k in mp then mp[k] else []) == ValuesOf(kvs, k) && (k in mp ==> mp[k] != [])
  }

  lemma TableStep(mp: map<string, seq<string>>, kvs: seq<KeyValue>, kv: KeyValue)
    requires Table(mp, kvs)
    ensures Table(mp[kv.key := (if kv.key in mp then mp[kv.key] else []) + [kv.value]], kvs + [kv])
  {
    assert (kvs + [kv])[..|kvs|] == kvs;
  }

  /** A reduce task: gather the values of each key from all files of the bucket, then reduce each. */
  method Reducer(reducef: (string, seq<string>) -> string, files: seq<seq<KeyValue>>) returns (out: map<string, string>)
    ensures Reduces(reducef, Concat(files), out)
  {
    var mp: map<string, seq<string>> := map[];
    var x := 0;
    assert files[..0] == [];
    while x < |files|
      invariant 0 <= x <= |files|
      invariant Table(mp, Concat(files[..x]))
    {
      assert files[..x + 1][..x] == files[..x];
      mp := Gather(mp, Concat(files[..x]), files[x]);
      x := x + 1;
    }
    assert files[..x] == files;
    out := map k | k in mp :: reducef(k, mp[k]);
  }

  /** Reading one file into the table. */
  method Gather(before: map<string, seq<string>>, ghost seen: seq<KeyValue>, file: seq<KeyValue>)
      returns (mp: map<string, seq<string>>)
    requires Table(before, seen)
    ensures Table(mp, seen + file)
  {
    hide Table;
    mp := before;
    var i := 0;
    assert seen + file[..0] == seen;
    while i < |file|
      invariant 0 <= i <= |file|
      invariant Table(mp, seen + file[..i])
    {
      var kv := file[i];
      TableStep(mp, seen + file[..i], kv);
      assert seen + file[..i] + [kv] == seen + file[..i + 1];
      mp := mp[kv.key := (if kv.key in mp then mp[kv.key] else []) + [kv.value]];
      i := i + 1;
    }
    assert file[..i] == file;
  }

  // ---------------------------------------------------------------- the sequential program

  function KeyList(kvs: seq<KeyValue>): seq<string> {
    seq(|kvs|, i requires 0 <= i < |kvs| => kvs[i].key)
  }

  /** Sorting by key. The order among equal keys is left open. */
  method SortByKey(kvs: seq<KeyValue>) returns (sorted: seq<KeyValue>)
    ensures multiset(sorted) == multiset(kvs) && Ascending(KeyList(sorted))
  {
    hide Ascending;
    sorted := [];
    EmptyAscending();
    assert KeyList(sorted) == [];
    var i := 0;
    while i < |kvs|
      invariant i <= |kvs| && multiset(sorted) == multiset(kvs[..i]) && Ascending(KeyList(sorted))
    {
      var keys := KeyList(sorted);
      var p := Place(keys, kvs[i].key);
      var more := sorted[..p] + [kvs[i]] + sorted[p..];
      assert KeyList(more) == keys[..p] + [kvs[i].key] + keys[p..];
      assert sorted == sorted[..p] + sorted[p..];
      assert kvs[..i + 1] == kvs[..i] + [kvs[i]];
      sorted := more;
      i := i + 1;
    }
    assert kvs[..i] == kvs;
  }

  /** Sorting brings equal keys together. */
  lemma SortedIsGrouped(kvs: seq<KeyValue>)
    requires Ascending(KeyList(kvs))
    ensures Grouped(kvs)
  {
    hide Before;
    var keys := KeyList(kvs);
    forall i, j, k | 0 <= i < j < k < |kvs| && kvs[i].key == kvs[k].key
      ensures kvs[j].key == kvs[i].key
    {
      assert !Before(keys[j], keys[i]) && !Before(keys[k], keys[j]);
      OneWay(kvs[i].key, kvs[j].key);
    }
  }

  /** Equal keys stand together. */
  ghost predicate Grouped(kvs: seq<KeyValue>) {
    forall i, j, k :: 0 <= i < j < k < |kvs| && kvs[i].key == kvs[k].key ==> kvs[j].key == kvs[i].key
  }

  /** The sequential program: all that the map tasks emit in one list, sorted, and reduced key by key. */
  method Sequential(reducef: (string, seq<string>) -> string, tasks: seq<seq<KeyValue>>)
      returns (sorted: seq<KeyValue>, out: map<string, string>)
    ensures multiset(sorted) == multiset(Concat(tasks)) && Ascending(KeyList(sorted))
    ensures Reduces(reducef, sorted, out)
  {
    hide Reduces, Grouped, Ascending;
    var intermediate := [];
    var x := 0;
    assert tasks[..0] == [];
    while x < |tasks|
      invariant x <= |tasks| && intermediate == Concat(tasks[..x])
    {
      assert tasks[..x + 1][..x] == tasks[..x];
      intermediate := intermediate + tasks[x];
      x := x + 1;
    }
    assert tasks[..x] == tasks;
    sorted := SortByKey(intermediate);
    SortedIsGrouped(sorted);
    out := ReduceRuns(reducef, sorted);
  }

  /** One line for every run of equal keys. */
  method ReduceRuns(reducef: (string, seq<string>) -> string, sorted: seq<KeyValue>) returns (out: map<string, string>)
    requires Grouped(sorted)
    ensures Reduces(reducef, sorted, out)
  {
    hide Reduces, Grouped;
    out := map[];
    var i := 0;
    NothingReduced(reducef, sorted[..0]);
    while i < |sorted|
      invariant 0 <= i <= |sorted|
      invariant Reduces(reducef, sorted[..i], out)
      invariant 0 < i < |sorted| ==> sorted[i - 1].key != sorted[i].key
    {
      var j, values := NextRun(sorted, i);
      var output := reducef(sorted[i].key, values);
      RunReduced(reducef, sorted, i, j, out);
      out := out[sorted[i].key := output];
      i := j;
    }
    assert sorted[..i] == sorted;
  }

  /** The run of equal keys that starts at `i`, and its values. */
  method NextRun(sorted: seq<KeyValue>, i: nat) returns (j: nat, values: seq<string>)
    requires i < |sorted|
    ensures i < j <= |sorted| && IsRun(sorted, i, j)
    ensures j < |sorted| ==> sorted[j - 1].key != sorted[j].key
    ensures values == ValuesOf(sorted[i..j], sorted[i].key)
  {
    hide ValuesOf;
    j := i + 1;
    while j < |sorted| && sorted[j].key == sorted[i].key
      invariant i < j <= |sorted| && IsRun(sorted, i, j)
    {
      j := j + 1;
    }
    values := [];
    NoneEmitted(sorted[i..i], sorted[i].key);
    var k := i;
    while k < j
      invariant i <= k <= j
      invariant values == ValuesOf(sorted[i..k], sorted[i].key)
    {
      assert sorted[i..k + 1] == sorted[i..k] + [sorted[k]];
      ValuesOfNext(sorted[i..k], sorted[k]);
      values := values + [sorted[k].value];
      k := k + 1;
    }
  }

  lemma ValuesOfNext(kvs: seq<KeyValue>, kv: KeyValue)
    ensures ValuesOf(kvs + [kv], kv.key) == ValuesOf(kvs, kv.key) + [kv.value]
  {
    assert (kvs + [kv])[..|kvs|] == kvs;
  }

  predicate IsRun(sorted: seq<KeyValue>, i: nat, j: nat) {
    i < j <= |sorted| && forall m :: i <= m < j ==> sorted[m].key == sorted[i].key
  }

  lemma NothingReduced(reducef: (string, seq<string>) -> string, kvs: seq<KeyValue>)
    requires kvs == []
    ensures Reduces(reducef, kvs, map[])
  {
  }

  /** A whole run of equal keys is all the pairs of that key, and adds one line. */
  lemma RunReduced(reducef: (string, seq<string>) -> string, sorted: seq<KeyValue>, i: nat, j: nat,
                   out: map<string, string>)
    requires Grouped(sorted) && IsRun(sorted, i, j) && Reduces(reducef, sorted[..i], out)
    requires i > 0 ==> sorted[i - 1].key != sorted[i].key
    ensures var key := sorted[i].key;
            Reduces(reducef, sorted[..j], out[key := reducef(key, ValuesOf(sorted[i..j], key))])
  {
    assert i < j <= |sorted|;
    hide Grouped, ValuesOf, IsRun;
    var key := sorted[i].key;
    RunEmits(sorted, i, j);
    forall k
      ensures ValuesOf(sorted[..j], k) == if k == key then ValuesOf(sorted[i..j], k) else ValuesOf(sorted[..i], k)
    {
      RunValues(sorted, i, j, k);
    }
  }

  lemma RunEmits(sorted: seq<KeyValue>, i: nat, j: nat)
    requires IsRun(sorted, i, j)
    ensures Emitted(sorted[i..j], sorted[i].key)
  {
    assert sorted[i..j][j - i - 1].key == sorted[i].key;
  }

  lemma RunIsNew(sorted: seq<KeyValue>, i: nat)
    requires Grouped(sorted) && i < |sorted| && (i > 0 ==> sorted[i - 1].key != sorted[i].key)
    ensures !Emitted(sorted[..i], sorted[i].key)
  {
    NoneEmitted(sorted[..i], sorted[i].key);
  }

  lemma RunOnly(sorted: seq<KeyValue>, i: nat, j: nat, k: string)
    requires IsRun(sorted, i, j) && k != sorted[i].key
    ensures !Emitted(sorted[i..j], k)
  {
    NoneEmitted(sorted[i..j], k);
  }

  lemma RunValues(sorted: seq<KeyValue>, i: nat, j: nat, k: string)
    requires Grouped(sorted) && IsRun(sorted, i, j) && (i > 0 ==> sorted[i - 1].key != sorted[i].key)
    ensures ValuesOf(sorted[..j], k) == if k == sorted[i].key then ValuesOf(sorted[i..j], k)
            else ValuesOf(sorted[..i], k)
  {
    assert i < j <= |sorted|;
    hide Grouped, ValuesOf, IsRun;
    RunIsNew(sorted, i);
    if k != sorted[i].key {
      RunOnly(sorted, i, j, k);
    }
    assert sorted[..j] == sorted[..i] + sorted[i..j];
    ValuesOfConcat(sorted[..i], sorted[i..j], k);
  }

  // ---------------------------------------------------------------- the theorem

  /** What bucket y's reduce task reads: its share of every map task's output. */
  function Column(hash: string -> nat, tasks: seq<seq<KeyValue>>, buckets: nat, y: nat): seq<seq<KeyValue>>
    requires buckets > 0
  {
    seq(|tasks|, x requires 0 <= x < |tasks| => Share(hash, tasks[x], buckets, y))
  }

  lemma {:induction false} ColumnValues(hash: string -> nat, tasks: seq<seq<KeyValue>>, buckets: nat, y: nat,
      key: string)
    requires buckets > 0
    ensures ValuesOf(Concat(Column(hash, tasks, buckets, y)), key) ==
            if BucketOf(hash, key, buckets) == y then ValuesOf(Concat(tasks), key) else []
  {
    if tasks != [] {
      var before, last := tasks[..|tasks| - 1], tasks[|tasks| - 1];
      ColumnValues(hash, before, buckets, y, key);
      var column := Column(hash, tasks, buckets, y);
      assert column[..|tasks| - 1] == Column(hash, before, buckets, y);
      ValuesOfConcat(Concat(Column(hash, before, buckets, y)), Share(hash, last, buckets, y), key);
      ValuesOfConcat(Concat(before), last, key);
      ShareValues(hash, last, buckets, y, key);
    }
  }

  lemma {:induction false} SameValues(a: seq<KeyValue>, b: seq<KeyValue>, key: string)
    requires multiset(a) == multiset(b)
    ensures multiset(ValuesOf(a, key)) == multiset(ValuesOf(b, key))
  {
    if a == [] {
      assert |multiset(b)| == 0;
    } else {
      var kv := a[|a| - 1];
      assert kv in multiset(b);
      var i :| 0 <= i < |b| && b[i] == kv;
      var before, rest := a[..|a| - 1], b[..i] + b[i + 1..];
      assert a == before + [kv];
      assert multiset(before) == multiset(a) - multiset{kv};
      Without(b, i, key);
      Without(a, |a| - 1, key);
      assert before + a[|a|..] == before;
      hide ValuesOf;
      SameValues(before, rest, key);
    }
  }

  /** Taking one pair out takes its value out. */
  lemma Without(b: seq<KeyValue>, i: nat, key: string)
    requires i < |b|
    ensures var rest := b[..i] + b[i + 1..];
            && multiset(rest) == multiset(b) - multiset{b[i]}
            && multiset(ValuesOf(b, key)) ==
                 multiset(ValuesOf(rest, key)) + if b[i].key == key then multiset{b[i].value} else multiset{}
  {
    var kv := b[i];
    assert ValuesOf([kv], key) == if kv.key == key then [kv.value] else [] by {
      assert [kv][..0] == [];
    }
    hide ValuesOf;
    assert b == b[..i] + [kv] + b[i + 1..];
    ValuesOfConcat(b[..i], b[i + 1..], key);
    ValuesOfConcat(b[..i] + [kv], b[i + 1..], key);
    ValuesOfConcat(b[..i], [kv], key);
  }

  /** The lines of all reduce tasks together. */
  ghost predicate Together(outs: seq<map<string, string>>, out: map<string, string>) {
    && (forall k :: k in out <==> exists y :: 0 <= y < |outs| && k in outs[y])
    && (forall y, k :: 0 <= y < |outs| && k in outs[y] ==> k in out && out[k] == outs[y][k])
  }

  /** No key has a line in two outputs, and its line reduces all the values emitted for it. */
  lemma LineOf(hash: string -> nat, reducef: (string, seq<string>) -> string, tasks: seq<seq<KeyValue>>, buckets: nat,
               y: nat, out: map<string, string>, key: string)
    requires buckets > 0 && 1 <= y <= buckets && Reduces(reducef, Concat(Column(hash, tasks, buckets, y)), out)
    ensures key in out <==> BucketOf(hash, key, buckets) == y && Emitted(Concat(tasks), key)
    ensures key in out ==> out[key] == reducef(key, ValuesOf(Concat(tasks), key))
  {
    ColumnValues(hash, tasks, buckets, y, key);
  }

  /** Both programs reduce each key exactly once, on the same values, though perhaps in another order. */
  lemma EachKeyOnce(hash: string -> nat, reducef: (string, seq<string>) -> string, tasks: seq<seq<KeyValue>>,
                    buckets: nat, outs: seq<map<string, string>>, sorted: seq<KeyValue>, out: map<string, string>,
                    key: string)
    requires buckets > 0 && |outs| == buckets
    requires forall y :: 1 <= y <= buckets ==> Reduces(reducef, Concat(Column(hash, tasks, buckets, y)), outs[y - 1])
    requires multiset(sorted) == multiset(Concat(tasks)) && Reduces(reducef, sorted, out)
    ensures var all := Concat(tasks);
            && (key in out <==> Emitted(all, key))
            && (key in out ==> out[key] == reducef(key, ValuesOf(sorted, key)))
            && (forall y :: 0 <= y < buckets ==>
                (key in outs[y] <==> BucketOf(hash, key, buckets) == y + 1 && key in out))
            && (forall y :: 0 <= y < buckets && key in outs[y] ==> outs[y][key] == reducef(key, ValuesOf(all, key)))
            && multiset(ValuesOf(sorted, key)) == multiset(ValuesOf(all, key))
  {
    hide ValuesOf, Concat, Column, BucketOf;
    var all := Concat(tasks);
    SameValues(sorted, all, key);
    assert |ValuesOf(sorted, key)| == |multiset(ValuesOf(sorted, key))|;
    assert |ValuesOf(all, key)| == |multiset(ValuesOf(all, key))|;
    forall y | 0 <= y < buckets
      ensures key in outs[y] <==> BucketOf(hash, key, buckets) == y + 1 && Emitted(all, key)
      ensures key in outs[y] ==> outs[y][key] == reducef(key, ValuesOf(all, key))
    {
      assert Reduces(reducef, Concat(Column(hash, tasks, buckets, y + 1)), outs[y + 1 - 1]);
      LineOf(hash, reducef, tasks, buckets, y + 1, outs[y], key);
    }
  }

  /** The reduction gives the same on two orders of each key's values. */
  ghost predicate OrderFree(reducef: (string, seq<string>) -> string, sorted: seq<KeyValue>, all: seq<KeyValue>) {
    forall k :: Emitted(all, k) ==> reducef(k, ValuesOf(sorted, k)) == reducef(k, ValuesOf(all, k))
  }

  /**
   The distributed job and the sequential program agree exactly if the reduction gives the same on
   the order in which the sort left each key's values and on the order in which they were emitted:
   whatever the hash, the number of buckets and the reduction.
   */
  lemma JobExact(hash: string -> nat, reducef: (string, seq<string>) -> string, tasks: seq<seq<KeyValue>>,
                 buckets: nat, outs: seq<map<string, string>>, sorted: seq<KeyValue>, out: map<string, string>)
    requires buckets > 0 && |outs| == buckets
    requires forall y :: 1 <= y <= buckets ==> Reduces(reducef, Concat(Column(hash, tasks, buckets, y)), outs[y - 1])
    requires multiset(sorted) == multiset(Concat(tasks)) && Reduces(reducef, sorted, out)
    ensures Together(outs, out) <==> OrderFree(reducef, sorted, Concat(tasks))
  {
    var all := Concat(tasks);
    forall k
      ensures (Listed(out, k) <==> Emitted(all, k))
      ensures k in out ==> out[k] == reducef(k, ValuesOf(sorted, k))
      ensures forall y :: 0 <= y < buckets ==> (k in outs[y] <==> BucketOf(hash, k, buckets) == y + 1 && k in out)
      ensures forall y :: 0 <= y < buckets && k in outs[y] ==> outs[y][k] == reducef(k, ValuesOf(all, k))
    {
      EachKeyOnce(hash, reducef, tasks, buckets, outs, sorted, out, k);
    }
    hide Reduces, Emitted, ValuesOf, Concat, Column, BucketOf;
    forall k | k in out
      ensures k in outs[BucketOf(hash, k, buckets) - 1]
    {
    }
    if Together(outs, out) {
      forall k | Emitted(all, k)
        ensures reducef(k, ValuesOf(sorted, k)) == reducef(k, ValuesOf(all, k))
      {
        assert Listed(out, k);
        var y := BucketOf(hash, k, buckets) - 1;
        assert out[k] == outs[y][k];
      }
    }
  }

  predicate Listed(out: map<string, string>, k: string) {
    k in out
  }

  /** In particular for every reduction that ignores the order of its values. */
  lemma JobIsSequential(hash: string -> nat, reducef: (string, seq<string>) -> string, tasks: seq<seq<KeyValue>>,
                        buckets: nat, outs: seq<map<string, string>>, sorted: seq<KeyValue>, out: map<string, string>)
    requires buckets > 0 && |outs| == buckets
    requires forall y :: 1 <= y <= buckets ==> Reduces(reducef, Concat(Column(hash, tasks, buckets, y)), outs[y - 1])
    requires multiset(sorted) == multiset(Concat(tasks)) && Reduces(reducef, sorted, out)
    ensures Unordered(reducef) ==> Together(outs, out)
  {
    hide ValuesOf, Concat, Column, Reduces, Together;
    JobExact(hash, reducef, tasks, buckets, outs, sorted, out);
    var all := Concat(tasks);
    forall k | Unordered(reducef) && Emitted(all, k)
      ensures reducef(k, ValuesOf(sorted, k)) == reducef(k, ValuesOf(all, k))
    {
      SameValues(sorted, all, k);
    }
  }
}
