/**
 The state of the checker's backtracking search, as values: which operations have been linearized
 so far and in which order, what the list of remaining events looks like, and which branches are
 known to fail.
 */
module CheckerSearch {
  import opened Linearizability
  import opened DancingLinks

  /** List positions: the head is 0, the event at history position p is at p + 1. */
  function CallAt<V>(h: History<V>, id: nat): nat {
    CallPos(h, id) + 1
  }

  function RetAt<V>(h: History<V>, id: nat): nat {
    RetPos(h, id) + 1
  }

  /** The operations exist and are listed at most once. */
  ghost predicate Chosen<V>(h: History<V>, ids: seq<nat>) {
    Distinct(ids) && forall i :: 0 <= i < |ids| ==> ids[i] < Ops(h)
  }

  function Front(ids: seq<nat>): seq<nat>
    requires ids != []
  {
    ids[..|ids| - 1]
  }

  function Final(ids: seq<nat>): nat
    requires ids != []
  {
    ids[|ids| - 1]
  }

  /** The events of the linearized operations. */
  function Gone<V>(h: History<V>, ids: seq<nat>): set<nat> {
    if ids == [] then {} else Gone(h, Front(ids)) + {CallAt(h, Final(ids))} + {RetAt(h, Final(ids))}
  }

  /** The events of an operation are the two that carry its number. */
  lemma EventsOf<V>(h: History<V>, id: nat, p: nat)
    requires WellFormed(h) && id < Ops(h) && p <= |h|
    ensures p == CallAt(h, id) || p == RetAt(h, id) <==> p >= 1 && h[p - 1].id == id
  {
    assert CallPos(h, id) < RetPos(h, id) < |h|;
  }

  lemma {:induction false} GoneMeans<V>(h: History<V>, ids: seq<nat>, p: nat)
    requires WellFormed(h) && Chosen(h, ids) && p <= |h|
    ensures p in Gone(h, ids) <==> p >= 1 && h[p - 1].id in ids
  {
    hide WellFormed, CallAt, RetAt, Chosen;
    if ids != [] {
      var id := Final(ids);
      ChosenFront(h, ids);
      GoneMeans(h, Front(ids), p);
      EventsOf(h, id, p);
      assert ids == Front(ids) + [id];
    }
  }

  lemma GoneBounded<V>(h: History<V>, ids: seq<nat>)
    requires WellFormed(h) && Chosen(h, ids)
    ensures forall q :: q in Gone(h, ids) ==> 1 <= q <= |h|
  {
    if ids != [] {
      GoneBounded(h, Front(ids));
      WellFormedOp(h, Final(ids));
    }
  }

  /** Neither event of an operation not yet linearized is gone. */
  lemma NotGone<V>(h: History<V>, ids: seq<nat>, id: nat)
    requires WellFormed(h) && Chosen(h, ids) && id < Ops(h) && id !in ids
    ensures 1 <= CallAt(h, id) < RetAt(h, id) <= |h|
    ensures CallAt(h, id) !in Gone(h, ids) && RetAt(h, id) !in Gone(h, ids)
  {
    hide WellFormed, Chosen, Gone;
    WellFormedOp(h, id);
    GoneMeans(h, ids, CallAt(h, id));
    GoneMeans(h, ids, RetAt(h, id));
  }

  lemma ChosenFront<V>(h: History<V>, ids: seq<nat>)
    requires Chosen(h, ids) && ids != []
    ensures Chosen(h, Front(ids)) && Final(ids) < Ops(h) && Final(ids) !in Front(ids)
  {
  }

  /** The list after lifting each operation in turn: its call, then its return. */
  ghost function ListAfter<V>(h: History<V>, ids: seq<nat>): (k: Links)
    requires WellFormed(h) && Chosen(h, ids)
    ensures Consistent(k, |h| + 1, Gone(h, ids))
  {
    if ids == [] then
      WholeConsistent(|h| + 1);
      Whole(|h| + 1)
    else
      ChosenFront(h, ids);
      Lifted(h, ListAfter(h, Front(ids)), Front(ids), Final(ids))
  }

  lemma LiftedOK<V>(h: History<V>, k: Links, ids: seq<nat>, id: nat)
    requires WellFormed(h) && Chosen(h, ids) && id < Ops(h) && id !in ids
    requires Consistent(k, |h| + 1, Gone(h, ids))
    ensures var c, r := CallAt(h, id), RetAt(h, id);
            && c < |k.next| && c < |k.prev| && k.prev[c] < |k.next|
            && var k1 := Unlink(k, c);
               && r < |k1.next| && r < |k1.prev| && k1.prev[r] < |k1.next|
               && Consistent(Unlink(k1, r), |h| + 1, Gone(h, ids) + {c} + {r})
  {
    hide WellFormed, Chosen, Gone, Consistent, CallAt, RetAt;
    NotGone(h, ids, id);
    UnlinkConsistent(k, |h| + 1, Gone(h, ids), CallAt(h, id));
    UnlinkConsistent(Unlink(k, CallAt(h, id)), |h| + 1, Gone(h, ids) + {CallAt(h, id)}, RetAt(h, id));
  }

  ghost function Lifted<V>(h: History<V>, k: Links, ids: seq<nat>, id: nat): (k': Links)
    requires WellFormed(h) && Chosen(h, ids) && id < Ops(h) && id !in ids
    requires Consistent(k, |h| + 1, Gone(h, ids))
    ensures Consistent(k', |h| + 1, Gone(h, ids) + {CallAt(h, id)} + {RetAt(h, id)})
  {
    hide WellFormed, Chosen, Gone, Consistent;
    LiftedOK(h, k, ids, id);
    Unlink(Unlink(k, CallAt(h, id)), RetAt(h, id))
  }

  /** The model's state after the operations in this order. */
  ghost function StateAfter<S, V>(m: Model<S, V>, h: History<V>, ids: seq<nat>): S
    requires WellFormed(h) && Chosen(h, ids)
  {
    if ids == [] then m.init else StepOf(m, h, StateAfter(m, h, Front(ids)), Final(ids)).1
  }

  /** Each operation could be next when it was chosen, and the model accepted it. */
  ghost predicate Sound<S, V>(m: Model<S, V>, h: History<V>, ids: seq<nat>)
    requires WellFormed(h) && Chosen(h, ids)
  {
    ids != [] ==>
      && Sound(m, h, Front(ids))
      && CanBeNext(h, Elements(Front(ids)), Final(ids))
      && StepOf(m, h, StateAfter(m, h, Front(ids)), Final(ids)).0
  }

  lemma ElementsSnoc(ids: seq<nat>)
    requires ids != []
    ensures Elements(ids) == Elements(Front(ids)) + {Final(ids)}
  {
    forall x | x in Elements(ids)
      ensures x in Elements(Front(ids)) + {Final(ids)}
    {
      var i :| 0 <= i < |ids| && ids[i] == x;
      assert i < |ids| - 1 ==> Front(ids)[i] == x;
    }
    forall x | x in Elements(Front(ids))
      ensures x in Elements(ids)
    {
      var i :| 0 <= i < |Front(ids)| && Front(ids)[i] == x;
      assert ids[i] == x;
    }
    assert ids[|ids| - 1] in Elements(ids);
  }

  lemma InElements(ids: seq<nat>, x: nat)
    ensures x in Elements(ids) <==> x in ids
  {
  }

  /** A sound order that can be completed is the beginning of a linearization. */
  lemma {:induction false} SoundCompletes<S(!new), V>(m: Model<S, V>, h: History<V>, ids: seq<nat>)
    requires WellFormed(h) && Chosen(h, ids) && Sound(m, h, ids)
    requires Completable(m, h, Elements(ids), StateAfter(m, h, ids))
    ensures Linearizable(m, h)
  {
    hide WellFormed, Completable, CanBeNext;
    if ids == [] {
      assert Elements(ids) == {};
    } else {
      ElementsSnoc(ids);
      CompletableStep(m, h, Elements(Front(ids)), StateAfter(m, h, Front(ids)), Final(ids));
      SoundCompletes(m, h, Front(ids));
    }
  }

  /** A sound order of all the operations is a linearization. */
  lemma SoundComplete<S(!new), V>(m: Model<S, V>, h: History<V>, ids: seq<nat>)
    requires WellFormed(h) && Chosen(h, ids) && Sound(m, h, ids)
    requires forall id: nat :: id < Ops(h) ==> id in ids
    ensures Linearizable(m, h)
  {
    forall id | id in AllOps(h)
      ensures id in Elements(ids)
    {
      InElements(ids, id);
    }
    assert AllOps(h) - Elements(ids) == {};
    assert Elements([]) == {};
    assert Completion(m, h, Elements(ids), StateAfter(m, h, ids), []);
    SoundCompletes(m, h, ids);
  }

  // ---------------------------------------------------------------- failed branches

  /** Choosing `id` next leads nowhere. */
  ghost predicate Fails<S(!new), V>(m: Model<S, V>, h: History<V>, done: set<nat>, s: S, id: nat)
    requires CallPos(h, id) < |h| && RetPos(h, id) < |h|
  {
    StepOf(m, h, s, id).0 ==> !Completable(m, h, done + {id}, StepOf(m, h, s, id).1)
  }

  /** Every event still in the list before `pos` is a call, and choosing its operation next fails. */
  ghost predicate Scanned<S(!new), V>(m: Model<S, V>, h: History<V>, ids: seq<nat>, pos: nat)
    requires WellFormed(h) && Chosen(h, ids)
  {
    forall p: nat :: 1 <= p < pos && p <= |h| && p !in Gone(h, ids) ==>
      !h[p - 1].isReturn && Fails(m, h, Elements(ids), StateAfter(m, h, ids), h[p - 1].id)
  }

  /** At a call reached by the scan, the operation can be next. */
  lemma ScanReachesCall<S(!new), V>(m: Model<S, V>, h: History<V>, ids: seq<nat>, pos: nat)
    requires WellFormed(h) && Chosen(h, ids) && Scanned(m, h, ids, pos)
    requires 1 <= pos <= |h| && pos !in Gone(h, ids) && !h[pos - 1].isReturn
    ensures CanBeNext(h, Elements(ids), h[pos - 1].id) && h[pos - 1].id !in ids && pos == CallAt(h, h[pos - 1].id)
  {
    var id := h[pos - 1].id;
    GoneMeans(h, ids, pos);
    InElements(ids, id);
    forall o: nat | o < Ops(h) && o !in Elements(ids)
      ensures !Precedes(h, o, id)
    {
      InElements(ids, o);
      NotGone(h, ids, o);
    }
  }

  /** At a return reached by the scan, every possible next operation has failed. */
  lemma ScanReachesReturn<S(!new), V>(m: Model<S, V>, h: History<V>, ids: seq<nat>, pos: nat)
    requires WellFormed(h) && Chosen(h, ids) && Scanned(m, h, ids, pos)
    requires 1 <= pos <= |h| && pos !in Gone(h, ids) && h[pos - 1].isReturn
    ensures !Completable(m, h, Elements(ids), StateAfter(m, h, ids))
  {
    hide Completion;
    var done, s := Elements(ids), StateAfter(m, h, ids);
    if Completable(m, h, done, s) {
      var order :| Completion(m, h, done, s, order);
      var o := h[pos - 1].id;
      GoneMeans(h, ids, pos);
      InElements(ids, o);
      CompletionNonempty(m, h, done, s, order, o);
      FirstOfCompletion(m, h, done, s, order);
      var id := order[0];
      assert !Precedes(h, o, id);
      InElements(ids, id);
      NotGone(h, ids, id);
    }
  }

  lemma CompletionNonempty<S(!new), V>(m: Model<S, V>, h: History<V>, done: set<nat>, s: S, order: seq<nat>, o: nat)
    requires Completion(m, h, done, s, order) && o < Ops(h) && o !in done
    ensures order != []
  {
    assert o in Elements(order);
  }

  // ---------------------------------------------------------------- what is left to see

  /** The configurations reachable by choosing at most `k` operations: finitely many. */
  ghost function Reachable<S, V>(m: Model<S, V>, h: History<V>, k: nat): set<(set<nat>, S)>
    requires WellFormed(h)
  {
    if k == 0 then {({}, m.init)}
    else
      Reachable(m, h, k - 1) + Extensions(m, h, Reachable(m, h, k - 1))
  }

  ghost function Extensions<S, V>(m: Model<S, V>, h: History<V>, r: set<(set<nat>, S)>): set<(set<nat>, S)>
    requires WellFormed(h)
  {
    set c, i | c in r && i in AllOps(h) :: (c.0 + {i}, StepOf(m, h, c.1, i).1)
  }

  lemma {:induction false} ReachableMonotone<S, V>(m: Model<S, V>, h: History<V>, j: nat, k: nat)
    requires WellFormed(h) && j <= k
    ensures Reachable(m, h, j) <= Reachable(m, h, k)
  {
    hide WellFormed, Extensions;
    if j < k {
      ReachableMonotone(m, h, j, k - 1);
      assert Reachable(m, h, k - 1) <= Reachable(m, h, k);
    }
  }

  lemma {:induction false} ChosenReachable<S, V>(m: Model<S, V>, h: History<V>, ids: seq<nat>)
    requires WellFormed(h) && Chosen(h, ids)
    ensures (Elements(ids), StateAfter(m, h, ids)) in Reachable(m, h, |ids|)
  {
    if ids == [] {
      assert Elements(ids) == {};
    } else {
      ChosenFront(h, ids);
      hide WellFormed, Chosen, Elements, Gone;
      ChosenReachable(m, h, Front(ids));
      ElementsSnoc(ids);
      var c := (Elements(Front(ids)), StateAfter(m, h, Front(ids)));
      assert c in Reachable(m, h, |ids| - 1) && Final(ids) in AllOps(h);
    }
  }

  lemma ChosenSize<V>(h: History<V>, ids: seq<nat>)
    requires Chosen(h, ids)
    ensures |ids| <= Ops(h) && |Elements(ids)| == |ids|
  {
    DistinctSize(ids);
    assert Elements(ids) <= Below(Ops(h));
    assert Below(Ops(h)) == Elements(ids) + (Below(Ops(h)) - Elements(ids));
  }

  lemma {:induction false} DistinctSize(ids: seq<nat>)
    requires Distinct(ids)
    ensures |Elements(ids)| == |ids|
  {
    if ids == [] {
      assert Elements(ids) == {};
    } else {
      DistinctSize(Front(ids));
      ElementsSnoc(ids);
      InElements(Front(ids), Final(ids));
    }
  }
}
