/** Checking each key by itself is exact: a history is linearizable iff its part on every key is. */
module Locality {
  import opened Linearizability
  import opened Operations
  import opened KvModel

  type Ops = seq<Operation<KvValue>>

  /** The operations among `ids` on one key. */
  function OnKey(ops: Ops, ids: set<nat>, key: string): set<nat>
    requires Typed(ops) && forall i :: i in ids ==> i < |ops|
  {
    set i | i in ids && ops[i].input.key == key
  }

  // ---------------------------------------------------------------- from the whole to one key

  function Only(ops: Ops, order: seq<nat>, key: string): (r: seq<nat>)
    requires Typed(ops) && Within(ops, order)
    ensures Within(ops, r)
    ensures forall k :: k in r <==> k in order && ops[k].input.key == key
  {
    if order == [] then []
    else if ops[order[0]].input.key == key then [order[0]] + Only(ops, order[1..], key)
    else Only(ops, order[1..], key)
  }

  /** What comes after the first operation is different from it, and did not return before its call. */
  lemma AfterFirst(ops: Ops, order: seq<nat>, k: nat)
    requires Within(ops, order) && Distinct(order) && InTime(ops, order) && order != [] && k in order[1..]
    ensures k < |ops| && k != order[0] && !(ops[k].ret < ops[order[0]].call)
  {
    var j :| 0 <= j < |order[1..]| && order[1..][j] == k;
    assert order[j + 1] == k;
  }

  lemma PutFirst(ops: Ops, id: nat, rest: seq<nat>)
    requires id < |ops| && Within(ops, rest) && Distinct(rest) && InTime(ops, rest)
    requires forall i :: 0 <= i < |rest| ==> rest[i] != id && !(ops[rest[i]].ret < ops[id].call)
    ensures Within(ops, [id] + rest) && Distinct([id] + rest) && InTime(ops, [id] + rest)
  {
  }

  lemma TailInTime(ops: Ops, order: seq<nat>)
    requires Within(ops, order) && Distinct(order) && InTime(ops, order) && order != []
    ensures Within(ops, order[1..]) && Distinct(order[1..]) && InTime(ops, order[1..])
  {
  }

  lemma {:induction false} OnlyInTime(ops: Ops, order: seq<nat>, key: string)
    requires Typed(ops) && Within(ops, order) && Distinct(order) && InTime(ops, order)
    ensures Distinct(Only(ops, order, key)) && InTime(ops, Only(ops, order, key))
  {
    if order != [] {
      hide Distinct, InTime;
      TailInTime(ops, order);
      OnlyInTime(ops, order[1..], key);
      var rest := Only(ops, order[1..], key);
      forall i | 0 <= i < |rest|
        ensures rest[i] != order[0] && !(ops[rest[i]].ret < ops[order[0]].call)
      {
        assert rest[i] in rest;
        AfterFirst(ops, order, rest[i]);
      }
      PutFirst(ops, order[0], rest);
    }
  }

  lemma {:induction false} OnlyAccepted(ops: Ops, st: map<string, string>, order: seq<nat>, key: string)
    requires Typed(ops) && Within(ops, order) && Accepted(StoreModel(), ops, st, order)
    ensures Accepted(KeyModel(), ops, Lookup(st, key), Only(ops, order, key))
    decreases order
  {
    if order != [] {
      var o := ops[order[0]];
      StoreStepByKey(st, o.input, o.output, key);
      OnlyAccepted(ops, StoreStep(st, o.input, o.output).1, order[1..], key);
      assert o.input.key == key ==> Only(ops, order, key)[1..] == Only(ops, order[1..], key);
    }
  }

  lemma WholeToKey(ops: Ops, ids: set<nat>, key: string)
    requires Typed(ops) && (forall i :: i in ids ==> i < |ops|) && OpsLinearizable(StoreModel(), ops, ids)
    ensures OpsLinearizable(KeyModel(), ops, OnKey(ops, ids, key))
  {
    var order :| IsLinearization(StoreModel(), ops, ids, order);
    var mine := Only(ops, order, key);
    OnlyInTime(ops, order, key);
    OnlyAccepted(ops, map[], order, key);
    assert forall k :: k in order <==> k in Elements(order);
    assert forall k :: k in mine <==> k in Elements(mine);
    assert Elements(mine) == OnKey(ops, ids, key);
    assert IsLinearization(KeyModel(), ops, OnKey(ops, ids, key), mine);
  }

  // ---------------------------------------------------------------- from every key to the whole

  /** One key's remaining operations, in an order its model accepts from the value the store holds. */
  ghost predicate KeyReady(ops: Ops, st: map<string, string>, left: set<nat>, key: string, order: seq<nat>) {
    && Typed(ops) && Distinct(order) && Within(ops, order) && InTime(ops, order)
    && (forall i :: 0 <= i < |order| ==> order[i] in left && ops[order[i]].input.key == key)
    && Accepted(KeyModel(), ops, Lookup(st, key), order)
  }

  ghost predicate Ready(ops: Ops, st: map<string, string>, left: set<nat>, orders: map<string, seq<nat>>) {
    && Typed(ops)
    && (forall i :: i in left ==> i < |ops| && ops[i].input.key in orders && i in orders[ops[i].input.key])
    && (forall k :: k in orders ==> KeyReady(ops, st, left, k, orders[k]))
  }

  lemma {:induction false} EarliestReturn(ops: Ops, left: set<nat>) returns (r: nat)
    requires left != {} && forall i :: i in left ==> i < |ops|
    ensures r in left && forall i :: i in left ==> ops[r].ret <= ops[i].ret
    decreases left
  {
    var first :| first in left;
    var rest := left - {first};
    r := first;
    if rest != {} {
      var q := EarliestReturn(ops, rest);
      if ops[q].ret < ops[first].ret {
        r := q;
      }
    }
    assert forall i :: i in left ==> i == first || i in rest;
  }

  /** The head of the key of the earliest return can go first: nothing left had returned when it was called. */
  lemma CanGoFirst(ops: Ops, st: map<string, string>, left: set<nat>, orders: map<string, seq<nat>>)
      returns (key: string)
    requires Timed(ops) && Ready(ops, st, left, orders) && left != {}
    ensures key in orders && orders[key] != [] && orders[key][0] < |ops|
    ensures forall i :: i in left ==> i < |ops| && !(ops[i].ret < ops[orders[key][0]].call)
  {
    hide KeyReady;
    var r := EarliestReturn(ops, left);
    key := ops[r].input.key;
    assert KeyReady(ops, st, left, key, orders[key]);
    HeadBefore(ops, st, left, key, orders[key], r);
  }

  lemma HeadBefore(ops: Ops, st: map<string, string>, left: set<nat>, key: string, order: seq<nat>, r: nat)
    requires Timed(ops) && KeyReady(ops, st, left, key, order) && r in order
    ensures r < |ops| && order[0] < |ops| && !(ops[r].ret < ops[order[0]].call)
  {
    var j :| 0 <= j < |order| && order[j] == r;
  }

  lemma TailReady(ops: Ops, st: map<string, string>, left: set<nat>, key: string, order: seq<nat>)
    requires KeyReady(ops, st, left, key, order) && order != []
    ensures order[0] in left && order[0] < |ops|
    ensures StoreStep(st, ops[order[0]].input, ops[order[0]].output).0
    ensures var st' := StoreStep(st, ops[order[0]].input, ops[order[0]].output).1;
            KeyReady(ops, st', left - {order[0]}, key, order[1..])
  {
    var o := ops[order[0]];
    StoreStepByKey(st, o.input, o.output, key);
  }

  lemma OtherReady(ops: Ops, st: map<string, string>, left: set<nat>, key: string, order: seq<nat>, id: nat)
    requires KeyReady(ops, st, left, key, order) && id < |ops| && ops[id].input.key != key
    ensures KeyReady(ops, StoreStep(st, ops[id].input, ops[id].output).1, left - {id}, key, order)
  {
    StoreStepByKey(st, ops[id].input, ops[id].output, key);
  }

  lemma AfterHead(ops: Ops, st: map<string, string>, left: set<nat>, orders: map<string, seq<nat>>, key: string)
    requires Ready(ops, st, left, orders) && key in orders && orders[key] != []
    ensures var id := orders[key][0];
            && id in left && id < |ops| && StoreStep(st, ops[id].input, ops[id].output).0
            && Ready(ops, StoreStep(st, ops[id].input, ops[id].output).1, left - {id}, orders[key := orders[key][1..]])
  {
    hide KeyReady;
    var order := orders[key];
    var id := order[0];
    assert KeyReady(ops, st, left, key, order);
    TailReady(ops, st, left, key, order);
    HeadKey(ops, st, left, key, order);
    var st', orders' := StoreStep(st, ops[id].input, ops[id].output).1, orders[key := order[1..]];
    forall k | k in orders'
      ensures KeyReady(ops, st', left - {id}, k, orders'[k])
    {
      if k != key {
        assert KeyReady(ops, st, left, k, orders[k]);
        OtherReady(ops, st, left, k, orders[k], id);
      }
    }
    forall i | i in left - {id}
      ensures i < |ops| && ops[i].input.key in orders' && i in orders'[ops[i].input.key]
    {
      if ops[i].input.key == key {
        var j :| 0 <= j < |order| && order[j] == i;
        assert order[1..][j - 1] == i;
      }
    }
  }

  lemma HeadKey(ops: Ops, st: map<string, string>, left: set<nat>, key: string, order: seq<nat>)
    requires KeyReady(ops, st, left, key, order) && order != []
    ensures order[0] < |ops| && ops[order[0]].input.key == key
  {
  }

  lemma {:induction false} Merge(ops: Ops, st: map<string, string>, left: set<nat>, orders: map<string, seq<nat>>)
    returns (order: seq<nat>)
    requires Timed(ops) && Ready(ops, st, left, orders)
    ensures Distinct(order) && Elements(order) == left && Within(ops, order) && InTime(ops, order)
    ensures Accepted(StoreModel(), ops, st, order)
    decreases left
  {
    hide Ready, KeyReady, StoreStep;
    if left == {} {
      order := [];
    } else {
      var key := CanGoFirst(ops, st, left, orders);
      var id := orders[key][0];
      AfterHead(ops, st, left, orders, key);
      var st' := StoreStep(st, ops[id].input, ops[id].output).1;
      var rest := Merge(ops, st', left - {id}, orders[key := orders[key][1..]]);
      order := [id] + rest;
      Prepended(ops, left, id, rest);
      assert order[1..] == rest;
    }
  }

  lemma Prepended(ops: Ops, left: set<nat>, id: nat, rest: seq<nat>)
    requires id in left && Distinct(rest) && Elements(rest) == left - {id} && Within(ops, rest) && InTime(ops, rest)
    requires id < |ops| && forall i :: i in left ==> i < |ops| && !(ops[i].ret < ops[id].call)
    ensures Distinct([id] + rest) && Elements([id] + rest) == left
    ensures Within(ops, [id] + rest) && InTime(ops, [id] + rest)
  {
    var order := [id] + rest;
    forall i | 0 <= i < |rest|
      ensures rest[i] in left && rest[i] != id
    {
      ElementsAt(rest, i);
    }
    PutFirst(ops, id, rest);
    hide Distinct, InTime;
    assert order[1..] == rest;
    ElementsTail(order);
    ElementsAt(order, 0);
    assert Elements(order) == {id} + Elements(rest);
  }

  lemma KeysToWhole(ops: Ops, ids: set<nat>)
    requires Typed(ops) && Timed(ops) && (forall i :: i in ids ==> i < |ops|)
    requires forall key :: OpsLinearizable(KeyModel(), ops, OnKey(ops, ids, key))
    ensures OpsLinearizable(StoreModel(), ops, ids)
  {
    hide KeyReady;
    var orders := map i | i in ids :: ops[i].input.key := ChosenOrder(ops, ids, ops[i].input.key);
    forall k | k in orders
      ensures KeyReady(ops, map[], ids, k, orders[k])
      ensures Elements(orders[k]) == OnKey(ops, ids, k)
    {
      ChosenReady(ops, ids, k);
    }
    forall i | i in ids
      ensures ops[i].input.key in orders && i in orders[ops[i].input.key]
    {
      assert i in Elements(orders[ops[i].input.key]);
    }
    var order := Merge(ops, map[], ids, orders);
    assert IsLinearization(StoreModel(), ops, ids, order);
  }

  ghost function ChosenOrder(ops: Ops, ids: set<nat>, key: string): (order: seq<nat>)
    requires Typed(ops) && forall i :: i in ids ==> i < |ops|
    requires OpsLinearizable(KeyModel(), ops, OnKey(ops, ids, key))
    ensures IsLinearization(KeyModel(), ops, OnKey(ops, ids, key), order)
  {
    var order :| IsLinearization(KeyModel(), ops, OnKey(ops, ids, key), order);
    order
  }

  lemma ChosenReady(ops: Ops, ids: set<nat>, key: string)
    requires Typed(ops) && forall i :: i in ids ==> i < |ops|
    requires OpsLinearizable(KeyModel(), ops, OnKey(ops, ids, key))
    ensures KeyReady(ops, map[], ids, key, ChosenOrder(ops, ids, key))
    ensures Elements(ChosenOrder(ops, ids, key)) == OnKey(ops, ids, key)
  {
    var order := ChosenOrder(ops, ids, key);
    assert IsLinearization(KeyModel(), ops, OnKey(ops, ids, key), order);
    forall i | 0 <= i < |order|
      ensures order[i] in ids && ops[order[i]].input.key == key
    {
      ElementsAt(order, i);
    }
  }

  // ---------------------------------------------------------------- a part by itself

  /** `sub` lists, in some order and under new numbers, the operations `at` of `ops`. */
  predicate Lists(ops: Ops, at: seq<nat>, sub: Ops) {
    && |sub| == |at| && Distinct(at)
    && forall i :: 0 <= i < |at| ==> at[i] < |ops| && sub[i] == ops[at[i]]
  }

  function Through(at: seq<nat>, order: seq<nat>): seq<nat>
    requires forall i :: 0 <= i < |order| ==> order[i] < |at|
  {
    seq(|order|, i requires 0 <= i < |order| => at[order[i]])
  }

  lemma {:induction false} ThroughAccepted<S>(m: Model<S, KvValue>, ops: Ops, at: seq<nat>, sub: Ops, s: S,
      order: seq<nat>)
    requires Lists(ops, at, sub) && Within(sub, order)
    ensures Within(ops, Through(at, order))
    ensures Accepted(m, sub, s, order) <==> Accepted(m, ops, s, Through(at, order))
  {
    if order != [] {
      assert Through(at, order)[1..] == Through(at, order[1..]);
      ThroughAccepted(m, ops, at, sub, m.step(s, sub[order[0]].input, sub[order[0]].output).1, order[1..]);
    }
  }

  lemma ThroughDistinct(at: seq<nat>, order: seq<nat>)
    requires Distinct(at) && forall i :: 0 <= i < |order| ==> order[i] < |at|
    ensures Distinct(order) <==> Distinct(Through(at, order))
  {
    var out := Through(at, order);
    forall i, j | 0 <= i < j < |order|
      ensures order[i] == order[j] <==> out[i] == out[j]
    {
      assert out[i] == at[order[i]] && out[j] == at[order[j]];
    }
  }

  lemma ThroughMember(at: seq<nat>, order: seq<nat>, j: nat)
    requires Distinct(at) && (forall i :: 0 <= i < |order| ==> order[i] < |at|) && j < |at|
    ensures j in Elements(order) <==> at[j] in Elements(Through(at, order))
  {
    var out := Through(at, order);
    if j in Elements(order) {
      var i :| 0 <= i < |order| && order[i] == j;
      assert out[i] == at[j];
    }
    if at[j] in Elements(out) {
      var i :| 0 <= i < |out| && out[i] == at[j];
      assert order[i] == j;
    }
  }

  lemma ThroughInside(at: seq<nat>, order: seq<nat>)
    requires forall i :: 0 <= i < |order| ==> order[i] < |at|
    ensures Elements(order) <= Below(|at|) && Elements(Through(at, order)) <= Elements(at)
  {
  }

  lemma ThroughElements(at: seq<nat>, order: seq<nat>)
    requires Distinct(at) && forall i :: 0 <= i < |order| ==> order[i] < |at|
    ensures Elements(order) == Below(|at|) <==> Elements(Through(at, order)) == Elements(at)
  {
    hide Distinct, Through, Below;
    var out := Through(at, order);
    ThroughInside(at, order);
    forall j: nat | j < |at|
      ensures j in Elements(order) <==> at[j] in Elements(out)
    {
      ThroughMember(at, order, j);
    }
    if Elements(order) == Below(|at|) {
      assert Elements(at) <= Elements(out);
    }
    if Elements(out) == Elements(at) {
      forall j: nat | j < |at|
        ensures j in Elements(order)
      {
        ElementsAt(at, j);
      }
      assert Below(|at|) <= Elements(order);
    }
  }

  lemma ThroughInTime(ops: Ops, at: seq<nat>, sub: Ops, order: seq<nat>)
    requires Lists(ops, at, sub) && Within(sub, order) && Within(ops, Through(at, order))
    ensures InTime(sub, order) <==> InTime(ops, Through(at, order))
  {
    var out := Through(at, order);
    assert forall i :: 0 <= i < |order| ==> ops[out[i]] == sub[order[i]];
  }

  lemma ThroughLinearization<S>(m: Model<S, KvValue>, ops: Ops, at: seq<nat>, sub: Ops, order: seq<nat>)
    requires Lists(ops, at, sub) && forall i :: 0 <= i < |order| ==> order[i] < |at|
    ensures IsLinearization(m, sub, Below(|sub|), order) <==> IsLinearization(m, ops, Elements(at), Through(at, order))
  {
    ThroughAccepted(m, ops, at, sub, m.init, order);
    hide Distinct, Elements, Accepted, Below, InTime, Through;
    ThroughDistinct(at, order);
    ThroughElements(at, order);
    ThroughInTime(ops, at, sub, order);
  }

  /** Renumbering the operations of a part does not matter. */
  lemma PartAlone<S>(m: Model<S, KvValue>, ops: Ops, at: seq<nat>, sub: Ops)
    requires Lists(ops, at, sub)
    ensures OpsLinearizable(m, sub, Below(|sub|)) <==> OpsLinearizable(m, ops, Elements(at))
  {
    if order :| IsLinearization(m, sub, Below(|sub|), order) {
      ThroughLinearization(m, ops, at, sub, order);
    }
    if out :| IsLinearization(m, ops, Elements(at), out) {
      var order := Back(at, out);
      assert Through(at, order) == out;
      ThroughLinearization(m, ops, at, sub, order);
    }
  }

  lemma {:induction false} Back(at: seq<nat>, out: seq<nat>) returns (order: seq<nat>)
    requires forall i :: 0 <= i < |out| ==> out[i] in Elements(at)
    ensures |order| == |out| && forall i :: 0 <= i < |order| ==> order[i] < |at| && at[order[i]] == out[i]
  {
    if out == [] {
      order := [];
    } else {
      var rest := Back(at, out[1..]);
      var j :| 0 <= j < |at| && at[j] == out[0];
      order := [j] + rest;
    }
  }

  // ---------------------------------------------------------------- the theorem

  /** The one-key model accepts the partition of this key, checked by itself. */
  ghost predicate KeyLinearizable(ops: Ops, key: string)
    requires Typed(ops)
  {
    OpsLinearizable(KeyModel(), Restrict(ops, key), Below(|Restrict(ops, key)|))
  }

  lemma PartOfKey(ops: Ops, key: string)
    requires Typed(ops)
    ensures KeyLinearizable(ops, key) <==> OpsLinearizable(KeyModel(), ops, OnKey(ops, Below(|ops|), key))
  {
    hide OpsLinearizable;
    RestrictAt(ops, key);
    var at := Positions(ops, key);
    PartAlone(KeyModel(), ops, at, Restrict(ops, key));
    assert Elements(at) == OnKey(ops, Below(|ops|), key);
  }

  /**
   Locality: the store accepts the history exactly if the one-key model accepts the history of
   every key by itself. So checking the partitions one by one is exact.
   */
  lemma PartitionExact(ops: Ops)
    requires Typed(ops) && Timed(ops)
    ensures OpsLinearizable(StoreModel(), ops, Below(|ops|)) <==> forall key :: KeyLinearizable(ops, key)
  {
    hide OpsLinearizable, Timed, KeyLinearizable;
    forall key
      ensures KeyLinearizable(ops, key) <==> OpsLinearizable(KeyModel(), ops, OnKey(ops, Below(|ops|), key))
    {
      PartOfKey(ops, key);
    }
    if OpsLinearizable(StoreModel(), ops, Below(|ops|)) {
      forall key
        ensures KeyLinearizable(ops, key)
      {
        WholeToKey(ops, Below(|ops|), key);
      }
    }
    if forall key :: KeyLinearizable(ops, key) {
      KeysToWhole(ops, Below(|ops|));
    }
  }
}
