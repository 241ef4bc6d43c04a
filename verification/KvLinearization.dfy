/** The order in which the clerks' calls take effect: writes where first logged, reads where they are read. */
module KvLinearization {
  import opened KvOps
  import opened KvModel
  import opened KvStore
  import opened KvFront
  import opened Linearizability
  import opened Operations

  /** Where a request is first in the log; the length if it is not. */
  function FirstOf(log: seq<Op>, client: int, seqNum: int): (r: nat)
    ensures r <= |log|
    ensures r < |log| ==> SameRequest(log[r], client, seqNum)
    ensures forall i :: 0 <= i < r ==> !SameRequest(log[i], client, seqNum)
  {
    if log == [] then 0
    else
      var before := FirstOf(log[..|log| - 1], client, seqNum);
      if before < |log| - 1 || SameRequest(log[|log| - 1], client, seqNum) then before else |log|
  }

  lemma FirstOfHas(log: seq<Op>, client: int, seqNum: int, p: nat)
    requires p <= |log|
    ensures Has(log[..p], client, seqNum) <==> FirstOf(log, client, seqNum) < p
  {
    var q := FirstOf(log, client, seqNum);
    if q < p {
      assert log[..p][q] == log[q];
    }
    if Has(log[..p], client, seqNum) {
      var i :| 0 <= i < p && log[..p][i].clientId == client && log[..p][i].seqNum == seqNum;
      assert SameRequest(log[i], client, seqNum);
    }
  }

  /** The calls that took effect: those that returned, and the writes in the log. */
  ghost function Effective(log: seq<Op>, f: Front): (r: set<nat>)
    ensures Completed(f, r) && MayCount(f, r)
  {
    set i | 0 <= i < |f.calls| &&
            (f.calls[i].done || (f.calls[i].op.typ != OpGet && Has(log, f.calls[i].op.clientId, f.calls[i].op.seqNum)))
  }

  /** A read comes after the first `point` commands; a write is the command it is. */
  ghost function Rank(log: seq<Op>, f: Front, marks: seq<Mark>, i: nat): int {
    if i >= |f.calls| || i >= |marks| then 0
    else if f.calls[i].op.typ == OpGet then 2 * marks[i].point
    else 2 * FirstOf(log, f.calls[i].op.clientId, f.calls[i].op.seqNum) + 1
  }

  ghost predicate ByRank(rank: nat -> int, order: seq<nat>) {
    forall i, j :: 0 <= i < j < |order| ==> rank(order[i]) <= rank(order[j])
  }

  lemma {:induction false} Lowest(rank: nat -> int, ids: set<nat>) returns (r: nat)
    requires ids != {}
    ensures r in ids && forall i :: i in ids ==> rank(r) <= rank(i)
    decreases ids
  {
    var first :| first in ids;
    var rest := ids - {first};
    r := first;
    if rest != {} {
      var q := Lowest(rank, rest);
      if rank(q) < rank(first) {
        r := q;
      }
    }
    assert forall i :: i in ids ==> i == first || i in rest;
  }

  lemma {:induction false} SortedByRank(rank: nat -> int, ids: set<nat>) returns (order: seq<nat>)
    ensures Distinct(order) && Elements(order) == ids && ByRank(rank, order)
    decreases ids
  {
    if ids == {} {
      order := [];
    } else {
      var r := Lowest(rank, ids);
      var rest := SortedByRank(rank, ids - {r});
      order := [r] + rest;
      forall i | 0 <= i < |rest|
        ensures rest[i] in ids && rest[i] != r
      {
        ElementsAt(rest, i);
      }
      assert order[1..] == rest;
      assert Distinct(order);
      ElementsTail(order);
      ElementsAt(order, 0);
      assert Elements(order) == {r} + Elements(rest);
    }
  }

  // ---------------------------------------------------------------- real time

  /** Where an effective call stands against the log. */
  lemma RankBounds(log: seq<Op>, f: Front, marks: seq<Mark>, i: nat)
    requires CallsOK(log, f, marks) && EntriesOK(log, f, marks) && Unique(f) && i in Effective(log, f)
    ensures 2 * marks[i].at < Rank(log, f, marks, i) <= 2 * |log|
    ensures f.calls[i].done ==> Rank(log, f, marks, i) <= 2 * marks[i].until
    ensures f.calls[i].op.typ == OpGet ==> Rank(log, f, marks, i) == 2 * marks[i].point && f.calls[i].done
    ensures f.calls[i].op.typ != OpGet ==> FirstOf(log, f.calls[i].op.clientId, f.calls[i].op.seqNum) < |log|
  {
    var v, m := f.calls[i], marks[i];
    hide Has, Effective, Issued;
    assert v.done || (v.op.typ != OpGet && Has(log, v.op.clientId, v.op.seqNum)) by {
      EffectiveMeans(log, f, i);
    }
    assert CallOK(log, f, v, m);
    var q := FirstOf(log, v.op.clientId, v.op.seqNum);
    assert log[..|log|] == log;
    FirstOfHas(log, v.op.clientId, v.op.seqNum, |log|);
    if v.done {
      FirstOfHas(log, v.op.clientId, v.op.seqNum, m.point);
    }
    assert q < |log|;
    LoggedAfterCall(log, f, marks, i, q);
  }

  lemma EffectiveMeans(log: seq<Op>, f: Front, i: nat)
    requires i in Effective(log, f)
    ensures i < |f.calls|
    ensures f.calls[i].done || (f.calls[i].op.typ != OpGet && Has(log, f.calls[i].op.clientId, f.calls[i].op.seqNum))
  {
  }

  /** A request is logged only after it was made. */
  lemma LoggedAfterCall(log: seq<Op>, f: Front, marks: seq<Mark>, i: nat, q: nat)
    requires |marks| == |f.calls| && EntriesOK(log, f, marks) && Unique(f) && i < |f.calls|
    requires q < |log| && SameRequest(log[q], f.calls[i].op.clientId, f.calls[i].op.seqNum)
    ensures marks[i].at <= q && f.calls[i].op == log[q]
  {
    assert Issued(f, marks, log[q], q);
    var j :| 0 <= j < |f.calls| && f.calls[j].op == log[q] && marks[j].at <= q;
    assert j == i;
  }

  lemma RankInTime(log: seq<Op>, f: Front, marks: seq<Mark>, x: nat, y: nat)
    requires FrontOK(log, f, marks) && x in Effective(log, f) && y in Effective(log, f)
    requires Rank(log, f, marks, x) <= Rank(log, f, marks, y)
    ensures !(OperationsOf(f)[y].ret < OperationsOf(f)[x].call)
  {
    hide Effective, Rank, CallOK, RepliesOK, NextOK;
    RankBounds(log, f, marks, x);
    RankBounds(log, f, marks, y);
    EffectiveMeans(log, f, x);
    EffectiveMeans(log, f, y);
    MarkBound(log, f, f.calls[x], marks[x]);
  }

  // ---------------------------------------------------------------- what the store says

  /** The command at `p` is the first occurrence of a write: the one call it belongs to, and what it does. */
  lemma WriteAt(log: seq<Op>, f: Front, marks: seq<Mark>, p: nat) returns (w: nat)
    requires FrontOK(log, f, marks) && p < |log|
    requires log[p].typ != OpGet && !Has(log[..p], log[p].clientId, log[p].seqNum)
    ensures w in Effective(log, f) && f.calls[w].op == log[p] && Rank(log, f, marks, w) == 2 * p + 1
  {
    hide CallOK, RepliesOK, NextOK, TimesOK;
    assert Issued(f, marks, log[p], p);
    w :| 0 <= w < |f.calls| && f.calls[w].op == log[p] && marks[w].at <= p;
    assert log[..|log|] == log;
    FirstOfHas(log, log[p].clientId, log[p].seqNum, p);
    FirstOfHas(log, log[p].clientId, log[p].seqNum, |log|);
  }

  /** Only the first occurrence of a write changes the store. */
  lemma StoreAt(log: seq<Op>, p: nat)
    requires Serial(log) && p < |log|
    ensures Fold(log[..p + 1]).kvMap ==
            if Has(log[..p], log[p].clientId, log[p].seqNum) then Fold(log[..p]).kvMap
                else Write(Fold(log[..p]).kvMap, log[p])
  {
    FoldStep(log, p);
    DuplicateTest(log, p);
  }

  /** `order` lists, by rank, effective calls from rank 2p on, among them all the writes from there. */
  ghost predicate Rest(log: seq<Op>, f: Front, marks: seq<Mark>, p: nat, order: seq<nat>) {
    && (forall i :: 0 <= i < |order| ==> order[i] in Effective(log, f) && 2 * p <= Rank(log, f, marks, order[i]))
    && ByRank((i: nat) => Rank(log, f, marks, i), order) && Distinct(order)
    && (forall w :: w in Effective(log, f) && f.calls[w].op.typ != OpGet && 2 * p <= Rank(log, f, marks, w) ==>
        w in order)
  }

  lemma RestWithin(log: seq<Op>, f: Front, marks: seq<Mark>, p: nat, order: seq<nat>)
    requires Rest(log, f, marks, p, order)
    ensures Within(OperationsOf(f), order)
  {
    hide Rank;
  }

  /** The rest behind its first call. */
  lemma RestTail(log: seq<Op>, f: Front, marks: seq<Mark>, p: nat, q: nat, order: seq<nat>)
    requires Rest(log, f, marks, p, order) && order != [] && p <= q
    requires (q == p && f.calls[order[0]].op.typ == OpGet) ||
             (q == p + 1 && Rank(log, f, marks, order[0]) == 2 * p + 1 && f.calls[order[0]].op.typ != OpGet
              && forall i :: 0 < i < |order| ==> Rank(log, f, marks, order[i]) != 2 * p + 1)
    ensures Rest(log, f, marks, q, order[1..])
  {
    hide Rank, Effective;
    var t := order[1..];
    forall i | 0 <= i < |t|
      ensures t[i] in Effective(log, f) && 2 * q <= Rank(log, f, marks, t[i])
    {
      assert t[i] == order[i + 1];
      assert Rank(log, f, marks, order[0]) <= Rank(log, f, marks, order[i + 1]);
    }
    forall w | w in Effective(log, f) && f.calls[w].op.typ != OpGet && 2 * q <= Rank(log, f, marks, w)
      ensures w in t
    {
      var j :| 0 <= j < |order| && order[j] == w;
      assert t[j - 1] == w;
    }
  }

  lemma ReadAccepted(log: seq<Op>, f: Front, marks: seq<Mark>, p: nat, id: nat)
    requires FrontOK(log, f, marks) && id in Effective(log, f) && Rank(log, f, marks, id) == 2 * p && p <= |log|
    ensures f.calls[id].op.typ == OpGet
    ensures var o := OperationsOf(f)[id];
            StoreStep(Fold(log[..p]).kvMap, o.input, o.output) == (true, Fold(log[..p]).kvMap)
  {
    assert f.calls[id].op.typ == OpGet;
    hide Effective, Has, RepliesOK, NextOK, TimesOK;
    RankBounds(log, f, marks, id);
    assert CallOK(log, f, f.calls[id], marks[id]);
    assert marks[id].point == p;
  }

  lemma WriteAccepted(f: Front, id: nat, st: map<string, string>)
    requires id < |f.calls| && f.calls[id].op.typ != OpGet
    ensures var o := OperationsOf(f)[id];
            StoreStep(st, o.input, o.output) == (true, Write(st, f.calls[id].op))
  {
  }

  /** Two effective writes of the same rank are the same call. */
  lemma OneWrite(log: seq<Op>, f: Front, marks: seq<Mark>, x: nat, y: nat, p: nat)
    requires FrontOK(log, f, marks) && x in Effective(log, f) && y in Effective(log, f)
    requires Rank(log, f, marks, x) == 2 * p + 1 == Rank(log, f, marks, y)
    ensures x == y && f.calls[x].op.typ != OpGet
  {
    hide Effective, CallOK, RepliesOK, NextOK, TimesOK, EntriesOK;
    EffectiveMeans(log, f, x);
    EffectiveMeans(log, f, y);
    RankBounds(log, f, marks, x);
    RankBounds(log, f, marks, y);
    assert f.calls[x].op.typ != OpGet && f.calls[y].op.typ != OpGet;
    assert SameRequest(log[p], f.calls[x].op.clientId, f.calls[x].op.seqNum);
    assert SameRequest(log[p], f.calls[y].op.clientId, f.calls[y].op.seqNum);
  }

  /** From the store after `p` commands, the model accepts the calls that follow. */
  lemma {:induction false} RestAccepted(log: seq<Op>, f: Front, marks: seq<Mark>, p: nat, order: seq<nat>)
    requires FrontOK(log, f, marks) && Serial(log) && p <= |log| && Rest(log, f, marks, p, order)
    ensures Within(OperationsOf(f), order) && Accepted(StoreModel(), OperationsOf(f), Fold(log[..p]).kvMap, order)
    decreases |log| - p, order
  {
    RestWithin(log, f, marks, p, order);
    if order == [] {
    } else if Rank(log, f, marks, order[0]) == 2 * p {
      HeadRead(log, f, marks, p, order);
      RestAccepted(log, f, marks, p, order[1..]);
    } else {
      LaterHead(log, f, marks, p, order);
      if log[p].typ != OpGet && !Has(log[..p], log[p].clientId, log[p].seqNum) {
        HeadWrite(log, f, marks, p, order);
      } else {
        NoWrite(log, f, marks, p, order);
      }
      hide Has, Rank, Rest, FrontOK, Serial, Fold, Effective;
      if log[p].typ != OpGet && !Has(log[..p], log[p].clientId, log[p].seqNum) {
        RestAccepted(log, f, marks, p + 1, order[1..]);
      } else {
        RestAccepted(log, f, marks, p + 1, order);
      }
    }
  }

  lemma HeadRead(log: seq<Op>, f: Front, marks: seq<Mark>, p: nat, order: seq<nat>)
    requires FrontOK(log, f, marks) && p <= |log| && Rest(log, f, marks, p, order)
    requires order != [] && Rank(log, f, marks, order[0]) == 2 * p
    ensures Rest(log, f, marks, p, order[1..]) && order[0] < |f.calls|
    ensures var o := OperationsOf(f)[order[0]];
            StoreStep(Fold(log[..p]).kvMap, o.input, o.output) == (true, Fold(log[..p]).kvMap)
  {
    hide FrontOK, Effective, Rank;
    EffectiveMeans(log, f, order[0]);
    ReadAccepted(log, f, marks, p, order[0]);
    RestTail(log, f, marks, p, p, order);
  }

  lemma LaterHead(log: seq<Op>, f: Front, marks: seq<Mark>, p: nat, order: seq<nat>)
    requires FrontOK(log, f, marks) && p <= |log| && Rest(log, f, marks, p, order)
    requires order != [] && Rank(log, f, marks, order[0]) != 2 * p
    ensures p < |log|
  {
    hide Effective, Rank;
    RankBounds(log, f, marks, order[0]);
  }

  lemma HeadWrite(log: seq<Op>, f: Front, marks: seq<Mark>, p: nat, order: seq<nat>)
    requires FrontOK(log, f, marks) && Serial(log) && p < |log| && Rest(log, f, marks, p, order)
    requires order != [] && Rank(log, f, marks, order[0]) != 2 * p
    requires log[p].typ != OpGet && !Has(log[..p], log[p].clientId, log[p].seqNum)
    ensures Rest(log, f, marks, p + 1, order[1..]) && order[0] < |f.calls|
    ensures var o := OperationsOf(f)[order[0]];
            StoreStep(Fold(log[..p]).kvMap, o.input, o.output) == (true, Fold(log[..p + 1]).kvMap)
  {
    hide FrontOK, Effective, Rank, Has, Serial;
    var w := WriteAt(log, f, marks, p);
    var j :| 0 <= j < |order| && order[j] == w;
    assert Rank(log, f, marks, order[0]) <= Rank(log, f, marks, order[j]);
    OneWrite(log, f, marks, order[0], w, p);
    EffectiveMeans(log, f, w);
    forall i | 0 < i < |order|
      ensures Rank(log, f, marks, order[i]) != 2 * p + 1
    {
      if Rank(log, f, marks, order[i]) == 2 * p + 1 {
        OneWrite(log, f, marks, order[i], w, p);
      }
    }
    RestTail(log, f, marks, p, p + 1, order);
    WriteAccepted(f, w, Fold(log[..p]).kvMap);
    StoreAt(log, p);
  }

  lemma NoWrite(log: seq<Op>, f: Front, marks: seq<Mark>, p: nat, order: seq<nat>)
    requires FrontOK(log, f, marks) && Serial(log) && p < |log| && Rest(log, f, marks, p, order)
    requires order != [] && Rank(log, f, marks, order[0]) != 2 * p
    requires log[p].typ == OpGet || Has(log[..p], log[p].clientId, log[p].seqNum)
    ensures Rest(log, f, marks, p + 1, order) && Fold(log[..p + 1]).kvMap == Fold(log[..p]).kvMap
  {
    hide FrontOK, Effective, Rank, Has, Serial;
    StoreAt(log, p);
    forall i | i in Effective(log, f)
      ensures Rank(log, f, marks, i) != 2 * p + 1
    {
      if Rank(log, f, marks, i) == 2 * p + 1 {
        NotFirst(log, f, marks, i, p);
      }
    }
    forall i | 0 <= i < |order|
      ensures 2 * (p + 1) <= Rank(log, f, marks, order[i])
    {
      assert i > 0 ==> Rank(log, f, marks, order[0]) <= Rank(log, f, marks, order[i]);
    }
  }

  lemma NotFirst(log: seq<Op>, f: Front, marks: seq<Mark>, i: nat, p: nat)
    requires FrontOK(log, f, marks) && p < |log| && i in Effective(log, f)
    requires log[p].typ == OpGet || Has(log[..p], log[p].clientId, log[p].seqNum)
    ensures Rank(log, f, marks, i) != 2 * p + 1
  {
    hide Effective, CallOK, RepliesOK, NextOK, TimesOK, Has;
    if Rank(log, f, marks, i) == 2 * p + 1 {
      OneWrite(log, f, marks, i, i, p);
      EffectiveMeans(log, f, i);
      RankBounds(log, f, marks, i);
      LoggedAfterCall(log, f, marks, i, p);
      FirstOfHas(log, log[p].clientId, log[p].seqNum, p);
    }
  }

  // ---------------------------------------------------------------- the theorem

  /** What the clerks saw is linearizable. */
  lemma Linearization(log: seq<Op>, f: Front, marks: seq<Mark>)
    requires FrontOK(log, f, marks)
    ensures FrontLinearizable(f)
  {
    hide FrontOK, Effective, Rank;
    var ids := Effective(log, f);
    var rank := (i: nat) => Rank(log, f, marks, i);
    var order := SortedByRank(rank, ids);
    LogSerial(log, f, marks);
    hide Serial;
    forall i | 0 <= i < |order|
      ensures order[i] in ids && 0 <= Rank(log, f, marks, order[i])
    {
      ElementsAt(order, i);
      RankPositive(log, f, marks, order[i]);
    }
    assert Rest(log, f, marks, 0, order);
    RestAccepted(log, f, marks, 0, order);
    assert log[..0] == [];
    forall i, j | 0 <= i < j < |order|
      ensures !(OperationsOf(f)[order[j]].ret < OperationsOf(f)[order[i]].call)
    {
      assert rank(order[i]) <= rank(order[j]);
      RankInTime(log, f, marks, order[i], order[j]);
    }
    assert IsLinearization(StoreModel(), OperationsOf(f), ids, order);
    assert OpsLinearizable(StoreModel(), OperationsOf(f), ids);
  }

  lemma RankPositive(log: seq<Op>, f: Front, marks: seq<Mark>, i: nat)
    ensures 0 <= Rank(log, f, marks, i)
  {
  }
}
