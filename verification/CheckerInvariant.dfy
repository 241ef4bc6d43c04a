/** What the checker's search keeps true from one iteration to the next. */
module CheckerInvariant {
  import opened Linearizability
  import opened DancingLinks
  import opened CheckerSearch

  /** A remembered configuration that the search is still inside of. */
  ghost predicate OnStack<S, V>(m: Model<S, V>, h: History<V>, ids: seq<nat>, c: (set<nat>, S))
    requires WellFormed(h) && Chosen(h, ids)
  {
    |c.0| <= |ids| && Chosen(h, ids[..|c.0|]) && c == (Elements(ids[..|c.0|]), StateAfter(m, h, ids[..|c.0|]))
  }

  /** Remembered configurations cannot be completed, unless the search is still inside them. */
  ghost predicate SeenOK<S(!new), V>(m: Model<S, V>, h: History<V>, ids: seq<nat>, seen: set<(set<nat>, S)>)
    requires WellFormed(h) && Chosen(h, ids)
  {
    forall c :: c in seen ==> Completable(m, h, c.0, c.1) ==> OnStack(m, h, ids, c)
  }

  /** At every level of the search, the operations tried before the current one have failed. */
  ghost predicate LevelsOK<S(!new), V>(m: Model<S, V>, h: History<V>, ids: seq<nat>)
    requires WellFormed(h) && Chosen(h, ids)
  {
    ids != [] ==>
      LevelsOK(m, h, Front(ids)) && Scanned(m, h, Front(ids), CallAt(h, Final(ids)))
  }

  ghost predicate SearchOK<S(!new), V>(m: Model<S, V>, h: History<V>, ids: seq<nat>, pos: nat, seen: set<(set<nat>, S)>)
    requires WellFormed(h)
  {
    && Chosen(h, ids) && Sound(m, h, ids) && LevelsOK(m, h, ids) && SeenOK(m, h, ids, seen)
    && seen <= Reachable(m, h, Ops(h))
    && (|ids| < Ops(h) ==> 1 <= pos <= |h| && pos !in Gone(h, ids) && Scanned(m, h, ids, pos))
  }

  lemma StartOK<S(!new), V>(m: Model<S, V>, h: History<V>)
    requires WellFormed(h)
    ensures SearchOK(m, h, [], 1, {})
  {
  }

  /** An operation not yet chosen keeps the list from being empty. */
  lemma SomeLeft<V>(h: History<V>, ids: seq<nat>) returns (id: nat)
    requires WellFormed(h) && Chosen(h, ids) && |ids| < Ops(h)
    ensures id < Ops(h) && id !in ids
  {
    ChosenSize(h, ids);
    var all, some := Below(Ops(h)), Elements(ids);
    assert some == (all * some) + (some - all);
    assert all * some == all ==> |some| == |all| + |some - all|;
    id :| id in all && id !in some;
    InElements(ids, id);
  }

  lemma NextInList(k: Links, n: nat, gone: set<nat>, p: nat)
    requires Consistent(k, n, gone) && p < n && p !in gone
    ensures p < k.next[p] <= n && k.next[p] !in gone && forall q :: p < q < k.next[p] ==> q in gone
  {
    assert NextOK(k, n, gone, p);
  }

  /** The first event left in the list, if an operation is left. */
  lemma FirstLeft<V>(h: History<V>, ids: seq<nat>)
    requires WellFormed(h) && Chosen(h, ids)
    ensures var k := ListAfter(h, ids);
            && 1 <= k.next[0] <= |h| + 1 && k.next[0] !in Gone(h, ids)
            && (forall q :: 0 < q < k.next[0] ==> q in Gone(h, ids))
            && (|ids| < Ops(h) <==> k.next[0] <= |h|)
  {
    hide WellFormed, Consistent;
    var k := ListAfter(h, ids);
    ConsistentBasics(k, |h| + 1, Gone(h, ids));
    NextInList(k, |h| + 1, Gone(h, ids), 0);
    if |ids| < Ops(h) {
      var id := SomeLeft(h, ids);
      NotGone(h, ids, id);
    } else if k.next[0] <= |h| {
      AllChosen(h, ids, k.next[0]);
    }
  }

  lemma ConsistentBasics(k: Links, n: nat, gone: set<nat>)
    requires Consistent(k, n, gone)
    ensures 0 !in gone && |k.next| == |k.prev| == n && n >= 1
  {
  }

  lemma AllChosen<V>(h: History<V>, ids: seq<nat>, p: nat)
    requires WellFormed(h) && Chosen(h, ids) && |ids| >= Ops(h) && 1 <= p <= |h|
    ensures p in Gone(h, ids)
  {
    AllChosenIds(h, ids, h[p - 1].id);
    GoneMeans(h, ids, p);
  }

  lemma FullSet(a: set<nat>, b: set<nat>)
    requires a <= b && |a| >= |b|
    ensures a == b
  {
    assert b == a + (b - a);
  }

  lemma AllChosenIds<V>(h: History<V>, ids: seq<nat>, id: nat)
    requires Chosen(h, ids) && |ids| >= Ops(h) && id < Ops(h)
    ensures id in ids
  {
    ChosenSize(h, ids);
    InElements(ids, id);
    assert Elements(ids) <= Below(Ops(h));
    FullSet(Elements(ids), Below(Ops(h)));
  }

  // ---------------------------------------------------------------- the four moves

  /** The whole list has been linearized. */
  lemma Finished<S(!new), V>(m: Model<S, V>, h: History<V>, ids: seq<nat>, pos: nat, seen: set<(set<nat>, S)>)
    requires WellFormed(h) && SearchOK(m, h, ids, pos, seen) && |ids| >= Ops(h)
    ensures Linearizable(m, h)
  {
    hide WellFormed, LevelsOK, SeenOK, Sound;
    forall id: nat | id < Ops(h)
      ensures id in ids
    {
      AllChosenIds(h, ids, id);
    }
    SoundComplete(m, h, ids);
  }

  /** A return is reached with nothing to undo. */
  lemma Exhausted<S(!new), V>(m: Model<S, V>, h: History<V>, pos: nat, seen: set<(set<nat>, S)>)
    requires WellFormed(h) && SearchOK(m, h, [], pos, seen) && 0 < Ops(h) && 1 <= pos <= |h| && h[pos - 1].isReturn
    ensures !Linearizable(m, h)
  {
    hide WellFormed, LevelsOK, SeenOK, Sound;
    ScanReachesReturn(m, h, [], pos);
    assert Elements([]) == {};
  }

  /** The call at `pos` fails: move to the next event. */
  lemma Skip<S(!new), V>(m: Model<S, V>, h: History<V>, ids: seq<nat>, pos: nat, pos': nat, seen: set<(set<nat>, S)>)
    requires WellFormed(h) && SearchOK(m, h, ids, pos, seen) && |ids| < Ops(h) && 1 <= pos <= |h| &&
             !h[pos - 1].isReturn
    requires CallPos(h, h[pos - 1].id) < |h| && RetPos(h, h[pos - 1].id) < |h|
    requires Fails(m, h, Elements(ids), StateAfter(m, h, ids), h[pos - 1].id)
    requires pos < |ListAfter(h, ids).next| && pos' == ListAfter(h, ids).next[pos]
    ensures pos < pos' <= |h| && SearchOK(m, h, ids, pos', seen)
  {
    hide WellFormed, LevelsOK, SeenOK, Sound, Fails, Scanned, Gone, StateAfter, Reachable, Consistent, Chosen,
         CanBeNext;
    var k := ListAfter(h, ids);
    ScanReachesCall(m, h, ids, pos);
    EventOp(h, pos);
    NotGone(h, ids, h[pos - 1].id);
    NextInList(k, |h| + 1, Gone(h, ids), pos);
    SkipScan(m, h, ids, pos, pos');
  }

  lemma EventOp<V>(h: History<V>, pos: nat)
    requires WellFormed(h) && 1 <= pos <= |h|
    ensures h[pos - 1].id < Ops(h)
  {
  }

  lemma SkipScan<S(!new), V>(m: Model<S, V>, h: History<V>, ids: seq<nat>, pos: nat, pos': nat)
    requires WellFormed(h) && Chosen(h, ids) && Scanned(m, h, ids, pos) && 1 <= pos <= |h| && !h[pos - 1].isReturn
    requires CallPos(h, h[pos - 1].id) < |h| && RetPos(h, h[pos - 1].id) < |h|
    requires Fails(m, h, Elements(ids), StateAfter(m, h, ids), h[pos - 1].id)
    requires forall q :: pos < q < pos' ==> q in Gone(h, ids)
    ensures Scanned(m, h, ids, pos')
  {
    hide WellFormed, Fails, Gone, StateAfter;
  }

  /** A configuration met before cannot be completed, unless the search is inside it. */
  lemma SeenFails<S(!new), V>(m: Model<S, V>, h: History<V>, ids: seq<nat>, id: nat, seen: set<(set<nat>, S)>)
    requires WellFormed(h) && Chosen(h, ids) && SeenOK(m, h, ids, seen) && id < Ops(h) && id !in ids
    requires CallPos(h, id) < |h| && RetPos(h, id) < |h|
    requires (Elements(ids) + {id}, StepOf(m, h, StateAfter(m, h, ids), id).1) in seen
    ensures Fails(m, h, Elements(ids), StateAfter(m, h, ids), id)
  {
    hide WellFormed, Completable;
    InElements(ids, id);
    ChosenSize(h, ids);
    assert |Elements(ids) + {id}| == |ids| + 1;
  }

  lemma SnocChosen<V>(h: History<V>, ids: seq<nat>, id: nat)
    requires Chosen(h, ids) && id < Ops(h) && id !in ids
    ensures Chosen(h, ids + [id]) && Front(ids + [id]) == ids && Final(ids + [id]) == id
    ensures Elements(ids + [id]) == Elements(ids) + {id}
  {
    assert Front(ids + [id]) == ids;
    ElementsSnoc(ids + [id]);
  }

  /** Staying on the stack when it grows. */
  lemma OnStackSnoc<S, V>(m: Model<S, V>, h: History<V>, ids: seq<nat>, id: nat, c: (set<nat>, S))
    requires WellFormed(h) && Chosen(h, ids) && Chosen(h, ids + [id]) && OnStack(m, h, ids, c)
    ensures OnStack(m, h, ids + [id], c)
  {
    hide WellFormed, StateAfter;
    assert (ids + [id])[..|c.0|] == ids[..|c.0|];
  }

  /** The call at `pos` is accepted and new: choose its operation, and scan from the front. */
  lemma Push<S(!new), V>(m: Model<S, V>, h: History<V>, ids: seq<nat>, pos: nat, seen: set<(set<nat>, S)>)
    requires WellFormed(h) && SearchOK(m, h, ids, pos, seen) && |ids| < Ops(h) && 1 <= pos <= |h| &&
             !h[pos - 1].isReturn
    requires CallPos(h, h[pos - 1].id) < |h| && RetPos(h, h[pos - 1].id) < |h|
    requires StepOf(m, h, StateAfter(m, h, ids), h[pos - 1].id).0
    ensures var id := h[pos - 1].id;
            var c := (Elements(ids) + {id}, StepOf(m, h, StateAfter(m, h, ids), id).1);
            && Chosen(h, ids + [id]) && StateAfter(m, h, ids + [id]) == c.1 && Elements(ids + [id]) == c.0
            && c in Reachable(m, h, Ops(h))
            && ListAfter(h, ids + [id]).next != []
            && SearchOK(m, h, ids + [id], ListAfter(h, ids + [id]).next[0], seen + {c})
  {
    hide WellFormed, Completable, Gone, Scanned, Reachable, SeenOK, Consistent, Elements, Chosen, ListAfter, StateAfter,
         Sound, LevelsOK, StepOf, CanBeNext;
    var id := h[pos - 1].id;
    var ids' := ids + [id];
    ScanReachesCall(m, h, ids, pos);
    EventOp(h, pos);
    SnocChosen(h, ids, id);
    PushLevels(m, h, ids, pos);
    ChosenReachable(m, h, ids');
    ChosenSize(h, ids');
    ReachableMonotone(m, h, |ids'|, Ops(h));
    ConsistentBasics(ListAfter(h, ids'), |h| + 1, Gone(h, ids'));
    FirstLeft(h, ids');
    PushSeen(m, h, ids, id, seen);
    PushScan(m, h, ids', ListAfter(h, ids').next[0]);
  }

  lemma PushLevels<S(!new), V>(m: Model<S, V>, h: History<V>, ids: seq<nat>, pos: nat)
    requires WellFormed(h) && Chosen(h, ids) && Sound(m, h, ids) && LevelsOK(m, h, ids) && 1 <= pos <= |h|
    requires var id := h[pos - 1].id;
             && Chosen(h, ids + [id]) && Front(ids + [id]) == ids && Final(ids + [id]) == id
             && pos == CallAt(h, id) && Scanned(m, h, ids, pos) && CanBeNext(h, Elements(ids), id)
             && CallPos(h, id) < |h| && RetPos(h, id) < |h| && StepOf(m, h, StateAfter(m, h, ids), id).0
    ensures Sound(m, h, ids + [h[pos - 1].id]) && LevelsOK(m, h, ids + [h[pos - 1].id])
    ensures StateAfter(m, h, ids + [h[pos - 1].id]) == StepOf(m, h, StateAfter(m, h, ids), h[pos - 1].id).1
  {
    hide WellFormed, Chosen, Scanned, CanBeNext, Gone, Elements;
  }

  lemma PushScan<S(!new), V>(m: Model<S, V>, h: History<V>, ids: seq<nat>, pos: nat)
    requires WellFormed(h) && Chosen(h, ids) && forall q :: 0 < q < pos ==> q in Gone(h, ids)
    ensures Scanned(m, h, ids, pos)
  {
  }

  lemma PushSeen<S(!new), V>(m: Model<S, V>, h: History<V>, ids: seq<nat>, id: nat, seen: set<(set<nat>, S)>)
    requires WellFormed(h) && Chosen(h, ids) && id < Ops(h) && id !in ids && Chosen(h, ids + [id]) &&
             SeenOK(m, h, ids, seen)
    ensures SeenOK(m, h, ids + [id], seen + {(Elements(ids + [id]), StateAfter(m, h, ids + [id]))})
  {
    hide WellFormed, Completable, StateAfter;
    var ids' := ids + [id];
    var new' := (Elements(ids'), StateAfter(m, h, ids'));
    forall c | c in seen + {new'} && Completable(m, h, c.0, c.1)
      ensures OnStack(m, h, ids', c)
    {
      if c == new' {
        ChosenSize(h, ids');
        assert ids'[..|ids'|] == ids';
      } else {
        OnStackSnoc(m, h, ids, id, c);
      }
    }
  }

  /** A return is reached: the last choice has failed, so undo it and go on behind it. */
  lemma Pop<S(!new), V>(m: Model<S, V>, h: History<V>, ids: seq<nat>, pos: nat, pos': nat, seen: set<(set<nat>, S)>)
    requires WellFormed(h) && SearchOK(m, h, ids, pos, seen) && ids != [] && |ids| < Ops(h) && 1 <= pos <= |h| &&
             h[pos - 1].isReturn
    requires Chosen(h, Front(ids)) && CallAt(h, Final(ids)) < |ListAfter(h, Front(ids)).next|
    requires pos' == ListAfter(h, Front(ids)).next[CallAt(h, Final(ids))]
    ensures 1 <= pos' <= |h| && SearchOK(m, h, Front(ids), pos', seen)
  {
    hide WellFormed, Completable, Gone, Reachable, Scanned, SeenOK, Consistent, StateAfter, Elements, ListAfter,
         CallAt, RetAt, Chosen;
    ScanReachesReturn(m, h, ids, pos);
    var front, id := Front(ids), Final(ids);
    ChosenFront(h, ids);
    NotGone(h, front, id);
    NextInList(ListAfter(h, front), |h| + 1, Gone(h, front), CallAt(h, id));
    ElementsSnoc(ids);
    PopScan(m, h, ids, pos');
    PopSeen(m, h, ids, seen);
  }

  lemma PopScan<S(!new), V>(m: Model<S, V>, h: History<V>, ids: seq<nat>, pos': nat)
    requires WellFormed(h) && Chosen(h, ids) && ids != [] && Chosen(h, Front(ids)) && Final(ids) < Ops(h)
    requires Scanned(m, h, Front(ids), CallAt(h, Final(ids)))
    requires !Completable(m, h, Elements(Front(ids)) + {Final(ids)}, StateAfter(m, h, ids))
    requires forall q :: CallAt(h, Final(ids)) < q < pos' ==> q in Gone(h, Front(ids))
    ensures Scanned(m, h, Front(ids), pos')
  {
    hide Completable, Gone, WellFormed, Chosen, StateAfter, Fails, Elements, CallAt;
    FinalFails(m, h, ids);
    var front := Front(ids);
    forall p: nat | 1 <= p < pos' && p <= |h| && p !in Gone(h, front)
      ensures CallPos(h, h[p - 1].id) < |h| && RetPos(h, h[p - 1].id) < |h|
      ensures !h[p - 1].isReturn && Fails(m, h, Elements(front), StateAfter(m, h, front), h[p - 1].id)
    {
      EventKnown(h, p);
      assert p <= CallAt(h, Final(ids));
    }
  }

  lemma EventKnown<V>(h: History<V>, p: nat)
    requires WellFormed(h) && 1 <= p <= |h|
    ensures CallPos(h, h[p - 1].id) < |h| && RetPos(h, h[p - 1].id) < |h|
  {
  }

  /** The operation chosen last, at its call, once no completion is left behind it. */
  lemma FinalFails<S(!new), V>(m: Model<S, V>, h: History<V>, ids: seq<nat>)
    requires WellFormed(h) && Chosen(h, ids) && ids != [] && Chosen(h, Front(ids)) && Final(ids) < Ops(h)
    requires !Completable(m, h, Elements(Front(ids)) + {Final(ids)}, StateAfter(m, h, ids))
    ensures var p, id := CallAt(h, Final(ids)), Final(ids);
            && 1 <= p <= |h| && h[p - 1].id == id && !h[p - 1].isReturn
            && CallPos(h, id) < |h| && RetPos(h, id) < |h|
            && Fails(m, h, Elements(Front(ids)), StateAfter(m, h, Front(ids)), id)
  {
    hide Completable, WellFormed, Chosen, Elements;
    WellFormedOp(h, Final(ids));
  }

  lemma PopSeen<S(!new), V>(m: Model<S, V>, h: History<V>, ids: seq<nat>, seen: set<(set<nat>, S)>)
    requires WellFormed(h) && Chosen(h, ids) && ids != [] && Chosen(h, Front(ids)) && SeenOK(m, h, ids, seen)
    requires !Completable(m, h, Elements(ids), StateAfter(m, h, ids))
    ensures SeenOK(m, h, Front(ids), seen)
  {
    hide WellFormed, Completable, StateAfter;
    forall c | c in seen && Completable(m, h, c.0, c.1)
      ensures OnStack(m, h, Front(ids), c)
    {
      assert OnStack(m, h, ids, c);
      assert ids[..|ids|] == ids;
      assert |c.0| != |ids|;
      assert Front(ids)[..|c.0|] == ids[..|c.0|];
    }
  }
}
