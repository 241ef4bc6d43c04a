/** Histories of concurrent operations, and what it means for one to be linearizable. */
module Linearizability {
  /** A sequential specification: an initial state, and whether an input may produce an output in a state. */
  datatype Model<!S, !V> = Model(init: S, step: (S, V, V) -> (bool, S))

  /** A call (carrying the operation's input) or its return (carrying the output). */
  datatype Entry<V> = Entry(isReturn: bool, value: V, id: nat)

  type History<V> = seq<Entry<V>>

  /** The position of an operation's call or return, counting from `from`; the length if there is none. */
  function Find<V>(h: History<V>, id: nat, isReturn: bool, from: nat): (p: nat)
    requires from <= |h|
    ensures from <= p <= |h|
    ensures p < |h| ==> h[p].id == id && h[p].isReturn == isReturn
    ensures forall q :: from <= q < p ==> !(h[q].id == id && h[q].isReturn == isReturn)
    decreases |h| - from
  {
    if from == |h| then from
    else if h[from].id == id && h[from].isReturn == isReturn then from
    else Find(h, id, isReturn, from + 1)
  }

  function CallPos<V>(h: History<V>, id: nat): nat {
    Find(h, id, false, 0)
  }

  function RetPos<V>(h: History<V>, id: nat): nat {
    Find(h, id, true, 0)
  }

  function Ops<V>(h: History<V>): nat {
    |h| / 2
  }

  /** Operations 0 .. n-1, each called once and then returning once. */
  ghost predicate WellFormed<V>(h: History<V>) {
    && |h| == 2 * Ops(h)
    && (forall p :: 0 <= p < |h| ==>
          h[p].id < Ops(h) && p == if h[p].isReturn then RetPos(h, h[p].id) else CallPos(h, h[p].id))
    && (forall id: nat :: id < Ops(h) ==> CallPos(h, id) < RetPos(h, id) < |h|)
  }

  /** Operation `a` returned before operation `b` was called. */
  predicate Precedes<V>(h: History<V>, a: nat, b: nat) {
    RetPos(h, a) < CallPos(h, b)
  }

  function StepOf<S, V>(m: Model<S, V>, h: History<V>, s: S, id: nat): (bool, S)
    requires CallPos(h, id) < |h| && RetPos(h, id) < |h|
  {
    m.step(s, h[CallPos(h, id)].value, h[RetPos(h, id)].value)
  }

  /** Every operation of the order exists in the history. */
  predicate Known<V>(h: History<V>, order: seq<nat>) {
    forall i :: 0 <= i < |order| ==> CallPos(h, order[i]) < |h| && RetPos(h, order[i]) < |h|
  }

  /** The model accepts the operations one after the other, in this order, from `s`. */
  predicate Legal<S, V>(m: Model<S, V>, h: History<V>, s: S, order: seq<nat>)
    requires Known(h, order)
  {
    order == [] || (StepOf(m, h, s, order[0]).0 && Legal(m, h, StepOf(m, h, s, order[0]).1, order[1..]))
  }

  predicate RespectsTime<V>(h: History<V>, order: seq<nat>) {
    forall i, j :: 0 <= i < j < |order| ==> !Precedes(h, order[j], order[i])
  }

  predicate Distinct(order: seq<nat>) {
    forall i, j :: 0 <= i < j < |order| ==> order[i] != order[j]
  }

  function Elements(order: seq<nat>): set<nat> {
    set i | 0 <= i < |order| :: order[i]
  }

  function Below(n: nat): (r: set<nat>)
    ensures forall i: nat :: i in r <==> i < n
    ensures |r| == n
  {
    if n == 0 then {} else Below(n - 1) + {n - 1}
  }

  function AllOps<V>(h: History<V>): set<nat> {
    Below(Ops(h))
  }

  /** The order lists exactly the operations not in `done`, once each. */
  ghost predicate Enumerates<V>(h: History<V>, done: set<nat>, order: seq<nat>) {
    Distinct(order) && Elements(order) == AllOps(h) - done
  }

  ghost predicate Completion<S(!new), V>(m: Model<S, V>, h: History<V>, done: set<nat>, s: S, order: seq<nat>) {
    Enumerates(h, done, order) && RespectsTime(h, order) && Known(h, order) && Legal(m, h, s, order)
  }

  /** The operations not in `done` can be linearized from state `s`. */
  ghost predicate Completable<S(!new), V>(m: Model<S, V>, h: History<V>, done: set<nat>, s: S) {
    exists order :: Completion(m, h, done, s, order)
  }

  /** Some order of all the operations respects real time and is accepted by the model. */
  ghost predicate Linearizable<S(!new), V>(m: Model<S, V>, h: History<V>) {
    Completable(m, h, {}, m.init)
  }

  // ---------------------------------------------------------------- one operation at a time

  /** No operation still to come had returned when this one was called. */
  ghost predicate CanBeNext<V>(h: History<V>, done: set<nat>, id: nat) {
    && id < Ops(h) && id !in done
    && forall o: nat :: o < Ops(h) && o !in done ==> !Precedes(h, o, id)
  }

  lemma ElementsTail(order: seq<nat>)
    requires order != [] && Distinct(order)
    ensures Elements(order[1..]) == Elements(order) - {order[0]}
  {
    var t := order[1..];
    forall x | x in Elements(order) - {order[0]}
      ensures x in Elements(t)
    {
      var i :| 0 <= i < |order| && order[i] == x;
      assert t[i - 1] == x;
    }
    forall x | x in Elements(t)
      ensures x in Elements(order) - {order[0]}
    {
      var i :| 0 <= i < |t| && t[i] == x;
      assert order[i + 1] == x;
    }
  }

  lemma WellFormedOp<V>(h: History<V>, id: nat)
    requires WellFormed(h) && id < Ops(h)
    ensures CallPos(h, id) < RetPos(h, id) < |h|
  {
  }

  /** The first operation of a completion is one that can be next, and what follows completes the rest. */
  lemma FirstOfCompletion<S(!new), V>(m: Model<S, V>, h: History<V>, done: set<nat>, s: S, order: seq<nat>)
    requires WellFormed(h) && Completion(m, h, done, s, order) && order != []
    ensures var id := order[0];
            && CanBeNext(h, done, id)
            && CallPos(h, id) < |h| && RetPos(h, id) < |h|
            && StepOf(m, h, s, id).0 && Completion(m, h, done + {id}, StepOf(m, h, s, id).1, order[1..])
  {
    hide WellFormed;
    var id := order[0];
    assert id in Elements(order);
    WellFormedOp(h, id);
    forall o: nat | o < Ops(h) && o !in done
      ensures !Precedes(h, o, id)
    {
      assert o in Elements(order);
      var j :| 0 <= j < |order| && order[j] == o;
      if j == 0 {
        assert !Precedes(h, id, id);
      }
    }
    ElementsTail(order);
    assert AllOps(h) - (done + {id}) == AllOps(h) - done - {id};
  }

  /** Putting an operation that can be next in front of a completion of the rest. */
  lemma PrependCompletion<S(!new), V>(m: Model<S, V>, h: History<V>, done: set<nat>, s: S, id: nat, rest: seq<nat>)
    requires WellFormed(h) && CanBeNext(h, done, id)
    requires CallPos(h, id) < |h| && RetPos(h, id) < |h|
    requires StepOf(m, h, s, id).0 && Completion(m, h, done + {id}, StepOf(m, h, s, id).1, rest)
    ensures Completion(m, h, done, s, [id] + rest)
  {
    hide WellFormed, Known, Legal, CanBeNext, Precedes;
    var order := [id] + rest;
    assert order[1..] == rest;
    forall i | 0 <= i < |rest|
      ensures rest[i] in AllOps(h) - done && rest[i] != id && !Precedes(h, rest[i], id)
    {
      assert rest[i] in Elements(rest);
      NotBefore(h, done, id, rest[i]);
    }
    assert Distinct(order) && RespectsTime(h, order);
    PrependKnown(m, h, s, id, rest);
    ElementsTail(order);
    hide Distinct, RespectsTime;
    assert Elements(order) == {id} + Elements(rest) by {
      assert order[0] in Elements(order);
    }
    NextIsOp(h, done, id);
  }

  lemma NotBefore<V>(h: History<V>, done: set<nat>, id: nat, o: nat)
    requires CanBeNext(h, done, id) && o in AllOps(h) - (done + {id})
    ensures o in AllOps(h) - done && !Precedes(h, o, id)
  {
  }

  lemma NextIsOp<V>(h: History<V>, done: set<nat>, id: nat)
    requires CanBeNext(h, done, id)
    ensures {id} + (AllOps(h) - (done + {id})) == AllOps(h) - done
  {
  }

  lemma PrependKnown<S, V>(m: Model<S, V>, h: History<V>, s: S, id: nat, rest: seq<nat>)
    requires CallPos(h, id) < |h| && RetPos(h, id) < |h| && Known(h, rest)
    requires StepOf(m, h, s, id).0 && Legal(m, h, StepOf(m, h, s, id).1, rest)
    ensures Known(h, [id] + rest) && Legal(m, h, s, [id] + rest)
  {
    assert ([id] + rest)[1..] == rest;
  }

  /** A configuration is completable exactly if it is complete or some next operation leads to one that is. */
  lemma CompletableStep<S(!new), V>(m: Model<S, V>, h: History<V>, done: set<nat>, s: S, id: nat)
    requires WellFormed(h) && CanBeNext(h, done, id)
    ensures CallPos(h, id) < |h| && RetPos(h, id) < |h|
    ensures StepOf(m, h, s, id).0 && Completable(m, h, done + {id}, StepOf(m, h, s, id).1) ==>
            Completable(m, h, done, s)
  {
    hide WellFormed, Completion;
    WellFormedOp(h, id);
    if StepOf(m, h, s, id).0 && Completable(m, h, done + {id}, StepOf(m, h, s, id).1) {
      var rest :| Completion(m, h, done + {id}, StepOf(m, h, s, id).1, rest);
      PrependCompletion(m, h, done, s, id, rest);
    }
  }
}
