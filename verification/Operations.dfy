/** Histories given as timed operations, and the events the checker makes of them. */
module Operations {
  import opened Linearizability

  datatype Operation<V> = Operation(input: V, call: int, output: V, ret: int)

  // ---------------------------------------------------------------- linearizability of operations

  ghost predicate Within<V>(ops: seq<Operation<V>>, order: seq<nat>) {
    forall i :: 0 <= i < |order| ==> order[i] < |ops|
  }

  ghost predicate InTime<V>(ops: seq<Operation<V>>, order: seq<nat>)
    requires Within(ops, order)
  {
    forall i, j :: 0 <= i < j < |order| ==> !(ops[order[j]].ret < ops[order[i]].call)
  }

  /** The model accepts the operations one after the other, in this order, from `s`. */
  ghost predicate Accepted<S, V>(m: Model<S, V>, ops: seq<Operation<V>>, s: S, order: seq<nat>)
    requires Within(ops, order)
  {
    order == [] ||
    (var (ok, s') := m.step(s, ops[order[0]].input, ops[order[0]].output);
     ok && Accepted(m, ops, s', order[1..]))
  }

  ghost predicate IsLinearization<S, V>(m: Model<S, V>, ops: seq<Operation<V>>, ids: set<nat>, order: seq<nat>) {
    Distinct(order) && Elements(order) == ids && Within(ops, order) && InTime(ops, order) &&
        Accepted(m, ops, m.init, order)
  }

  /** The operations in `ids` can be ordered, respecting real time, so that the model accepts them. */
  ghost predicate OpsLinearizable<S, V>(m: Model<S, V>, ops: seq<Operation<V>>, ids: set<nat>) {
    exists order :: IsLinearization(m, ops, ids, order)
  }

  /** No operation returns before it is called. */
  predicate Timed<V>(ops: seq<Operation<V>>) {
    forall i :: 0 <= i < |ops| ==> ops[i].call <= ops[i].ret
  }

  lemma ElementsAt(order: seq<nat>, i: nat)
    requires i < |order|
    ensures order[i] in Elements(order)
  {
  }

  // ---------------------------------------------------------------- events in order of time

  /** The events as first collected: call and return of operation 0, of operation 1, and so on. */
  function TimeOf<V>(ops: seq<Operation<V>>, k: nat): int
    requires k < 2 * |ops|
  {
    if k % 2 == 0 then ops[k / 2].call else ops[k / 2].ret
  }

  function EventOf<V>(ops: seq<Operation<V>>, k: nat): Entry<V>
    requires k < 2 * |ops|
  {
    if k % 2 == 0 then Entry(false, ops[k / 2].input, k / 2) else Entry(true, ops[k / 2].output, k / 2)
  }

  /** The order of the sort: by time, calls before returns of the same time. */
  predicate Before<V>(ops: seq<Operation<V>>, a: nat, b: nat)
    requires a < 2 * |ops| && b < 2 * |ops|
  {
    TimeOf(ops, a) < TimeOf(ops, b) || (TimeOf(ops, a) == TimeOf(ops, b) && a % 2 == 0 && b % 2 == 1)
  }

  /** `h` is the events of `ops`, rearranged by `perm` into some order that the sort may produce. */
  ghost predicate Arranged<V>(ops: seq<Operation<V>>, perm: seq<nat>, h: History<V>) {
    && |perm| == |h| == 2 * |ops|
    && Distinct(perm) && Elements(perm) == Below(2 * |ops|)
    && (forall i :: 0 <= i < |perm| ==> perm[i] < 2 * |ops| && h[i] == EventOf(ops, perm[i]))
    && (forall i, j :: 0 <= i < j < |perm| ==> !Before(ops, perm[j], perm[i]))
  }

  lemma PositionOf<V>(ops: seq<Operation<V>>, perm: seq<nat>, h: History<V>, k: nat) returns (i: nat)
    requires Arranged(ops, perm, h) && k < 2 * |ops|
    ensures i < |perm| == |h| && perm[i] == k && i == Find(h, k / 2, k % 2 == 1, 0)
  {
    hide Before, TimeOf, Distinct;
    assert k in Elements(perm);
    i :| i < |perm| && perm[i] == k;
    var p := Find(h, k / 2, k % 2 == 1, 0);
    assert h[i] == EventOf(ops, k);
    assert p <= i;
    assert h[p] == EventOf(ops, perm[p]);
    SameEvent(ops, perm[p], k);
    SamePlace(perm, p, i);
  }

  lemma SameEvent<V>(ops: seq<Operation<V>>, j: nat, k: nat)
    requires j < 2 * |ops| && k < 2 * |ops|
    requires EventOf(ops, j).id == k / 2 && EventOf(ops, j).isReturn == (k % 2 == 1)
    ensures j == k
  {
  }

  lemma SamePlace(perm: seq<nat>, i: nat, j: nat)
    requires Distinct(perm) && i < |perm| && j < |perm| && perm[i] == perm[j]
    ensures i == j
  {
  }

  lemma InOrder<V>(ops: seq<Operation<V>>, perm: seq<nat>, h: History<V>, i: nat, j: nat)
    requires Arranged(ops, perm, h) && i < |perm| && j < |perm|
    ensures perm[i] < 2 * |ops| && perm[j] < 2 * |ops|
    ensures h[i] == EventOf(ops, perm[i])
    ensures Before(ops, perm[i], perm[j]) ==> i < j
  {
  }

  lemma EventPositions<V>(ops: seq<Operation<V>>, perm: seq<nat>, h: History<V>, id: nat) returns (c: nat, r: nat)
    requires Arranged(ops, perm, h) && Timed(ops) && id < |ops|
    ensures c == CallPos(h, id) < r == RetPos(h, id) < |h| == |perm| && perm[c] == 2 * id && perm[r] == 2 * id + 1
    ensures h[c].value == ops[id].input && h[r].value == ops[id].output
  {
    hide Arranged, Distinct;
    c := PositionOf(ops, perm, h, 2 * id);
    r := PositionOf(ops, perm, h, 2 * id + 1);
    InOrder(ops, perm, h, c, r);
    InOrder(ops, perm, h, r, c);
  }

  lemma ArrangedWellFormed<V>(ops: seq<Operation<V>>, perm: seq<nat>, h: History<V>)
    requires Arranged(ops, perm, h) && Timed(ops)
    ensures WellFormed(h) && Ops(h) == |ops|
  {
    forall id: nat | id < Ops(h)
      ensures CallPos(h, id) < RetPos(h, id) < |h|
    {
      var c, r := EventPositions(ops, perm, h, id);
    }
    forall p | 0 <= p < |h|
      ensures h[p].id < Ops(h) && p == if h[p].isReturn then RetPos(h, h[p].id) else CallPos(h, h[p].id)
    {
      var k := perm[p];
      var i := PositionOf(ops, perm, h, k);
      assert h[p] == EventOf(ops, k);
      assert i == p;
    }
  }

  /** The positions say exactly which operation had returned before which other was called. */
  lemma PrecedesMeans<V>(ops: seq<Operation<V>>, perm: seq<nat>, h: History<V>, a: nat, b: nat)
    requires Arranged(ops, perm, h) && Timed(ops) && a < |ops| && b < |ops|
    ensures Precedes(h, a, b) <==> ops[a].ret < ops[b].call
  {
    hide Arranged;
    var ca, ra := EventPositions(ops, perm, h, a);
    var cb, rb := EventPositions(ops, perm, h, b);
    InOrder(ops, perm, h, ra, cb);
    InOrder(ops, perm, h, cb, ra);
  }

  lemma {:induction false} AcceptedLegal<S, V>(m: Model<S, V>, ops: seq<Operation<V>>, perm: seq<nat>, h: History<V>,
      s: S, order: seq<nat>)
    requires Arranged(ops, perm, h) && Timed(ops) && Within(ops, order)
    ensures Known(h, order) && (Accepted(m, ops, s, order) <==> Legal(m, h, s, order))
  {
    hide Arranged;
    forall i | 0 <= i < |order|
      ensures CallPos(h, order[i]) < |h| && RetPos(h, order[i]) < |h|
    {
      var _, _ := EventPositions(ops, perm, h, order[i]);
    }
    if order != [] {
      var _, _ := EventPositions(ops, perm, h, order[0]);
      AcceptedLegal(m, ops, perm, h, m.step(s, ops[order[0]].input, ops[order[0]].output).1, order[1..]);
    }
  }

  lemma TimeAgrees<V>(ops: seq<Operation<V>>, perm: seq<nat>, h: History<V>, order: seq<nat>)
    requires Arranged(ops, perm, h) && Timed(ops) && Within(ops, order)
    ensures RespectsTime(h, order) <==> InTime(ops, order)
  {
    hide Arranged, Timed, Precedes;
    forall i, j | 0 <= i < j < |order|
      ensures Precedes(h, order[j], order[i]) <==> ops[order[j]].ret < ops[order[i]].call
    {
      PrecedesMeans(ops, perm, h, order[j], order[i]);
    }
  }

  lemma OrderAgrees<S(!new), V>(m: Model<S, V>, ops: seq<Operation<V>>, perm: seq<nat>, h: History<V>, order: seq<nat>)
    requires Arranged(ops, perm, h) && Timed(ops) && Ops(h) == |ops|
    ensures Completion(m, h, {}, m.init, order) <==> IsLinearization(m, ops, Below(|ops|), order)
  {
    hide Arranged, Timed, RespectsTime, InTime, Distinct, Legal, Accepted, Known, Elements;
    if Elements(order) == Below(|ops|) {
      forall i | 0 <= i < |order|
        ensures order[i] < |ops|
      {
        ElementsAt(order, i);
      }
      AcceptedLegal(m, ops, perm, h, m.init, order);
      TimeAgrees(ops, perm, h, order);
    }
  }

  /** However equal times are arranged, the events are linearizable exactly if the operations are. */
  lemma EntriesExact<S(!new), V>(m: Model<S, V>, ops: seq<Operation<V>>, perm: seq<nat>, h: History<V>)
    requires Arranged(ops, perm, h) && Timed(ops)
    ensures WellFormed(h)
    ensures Linearizable(m, h) <==> OpsLinearizable(m, ops, Below(|ops|))
  {
    hide Arranged, Completion, IsLinearization;
    ArrangedWellFormed(ops, perm, h);
    hide WellFormed;
    if order :| Completion(m, h, {}, m.init, order) {
      OrderAgrees(m, ops, perm, h, order);
    }
    if order :| IsLinearization(m, ops, Below(|ops|), order) {
      OrderAgrees(m, ops, perm, h, order);
    }
  }
}
