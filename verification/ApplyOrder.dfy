/**
 The order in which a service receives what its Raft server hands over.

 Commands are sent one after the other by one goroutine, but every snapshot by a goroutine of its
 own. So the messages of a stream arrive with the commands in order and the snapshots anywhere.
 A message is named by its position in the stream; `snap[m]` says that message m is a snapshot.
 */
module ApplyOrder {
  import opened Linearizability

  /** One past the furthest message that has arrived. */
  function Reach(arr: seq<nat>): (q: nat)
    ensures forall i :: 0 <= i < |arr| ==> arr[i] < q
    ensures q == 0 || q - 1 in arr
  {
    if arr == [] then 0
    else
      var q, m := Reach(arr[..|arr| - 1]), arr[|arr| - 1];
      if m < q then q else m + 1
  }

  predicate Within(snap: seq<bool>, arr: seq<nat>) {
    forall i :: 0 <= i < |arr| ==> arr[i] < |snap|
  }

  /** What the code can do: a command arrives after all earlier commands. */
  predicate CanArrive(snap: seq<bool>, arr: seq<nat>, m: nat) {
    m < |snap| && m !in arr && (!snap[m] ==> forall i :: 0 <= i < m && !snap[i] ==> i in arr)
  }

  /** The positions a service has the effect of: a snapshot replaces them by all up to its own. */
  function Covered(snap: seq<bool>, arr: seq<nat>): set<nat>
    requires Within(snap, arr)
  {
    if arr == [] then {}
    else
      var before, m := Covered(snap, arr[..|arr| - 1]), arr[|arr| - 1];
      if snap[m] then Below(m + 1) else before + {m}
  }

  /** After every arrival the service has the effect of exactly what was handed over up to the furthest message. */
  predicate Faithful(snap: seq<bool>, arr: seq<nat>)
    requires Within(snap, arr)
  {
    Covered(snap, arr) == Below(Reach(arr)) && (arr == [] || Faithful(snap, arr[..|arr| - 1]))
  }

  /** A message may arrive now: a snapshot that nothing has overtaken, or a command with nothing missing before it. */
  predicate InTurn(snap: seq<bool>, arr: seq<nat>, m: nat)
    requires m < |snap|
  {
    if snap[m] then Reach(arr) <= m + 1 else m <= Reach(arr)
  }

  predicate Orderly(snap: seq<bool>, arr: seq<nat>)
    requires Within(snap, arr)
  {
    arr == [] || (Orderly(snap, arr[..|arr| - 1]) && InTurn(snap, arr[..|arr| - 1], arr[|arr| - 1]))
  }

  lemma StepFaithful(snap: seq<bool>, arr: seq<nat>, m: nat)
    requires Within(snap, arr) && m < |snap| && Covered(snap, arr) == Below(Reach(arr))
    ensures Covered(snap, arr + [m]) == Below(Reach(arr + [m])) <==> InTurn(snap, arr, m)
  {
    hide Below;
    assert (arr + [m])[..|arr|] == arr;
    if snap[m] {
      SnapshotReach(Reach(arr), m);
    } else {
      CommandReach(Reach(arr), m);
    }
  }

  lemma SnapshotReach(q: nat, m: nat)
    ensures Below(m + 1) == Below(if m < q then q else m + 1) <==> q <= m + 1
  {
    hide Below;
    assert q > m + 1 ==> m + 1 in Below(q) && m + 1 !in Below(m + 1);
  }

  lemma CommandReach(q: nat, m: nat)
    ensures Below(q) + {m} == Below(if m < q then q else m + 1) <==> m <= q
  {
    hide Below;
    assert m > q ==> q in Below(m + 1) && q !in Below(q) + {m};
  }

  /** The service is faithful exactly if every message arrives in its turn. */
  lemma {:induction false} FaithfulIffOrderly(snap: seq<bool>, arr: seq<nat>)
    requires Within(snap, arr)
    ensures Faithful(snap, arr) <==> Orderly(snap, arr)
  {
    if arr != [] {
      var before, m := arr[..|arr| - 1], arr[|arr| - 1];
      FaithfulIffOrderly(snap, before);
      assert before + [m] == arr;
      hide Covered, Reach, InTurn;
      if Faithful(snap, before) {
        StepFaithful(snap, before, m);
      }
    }
  }

  /** Arriving in the order they were handed over, as through one channel, is orderly. */
  lemma {:induction false} FifoIsOrderly(snap: seq<bool>, arr: seq<nat>)
    requires Within(snap, arr) && forall i :: 0 <= i < |arr| ==> arr[i] == i
    ensures Orderly(snap, arr) && Reach(arr) == |arr|
  {
    if arr != [] {
      var before := arr[..|arr| - 1];
      FifoIsOrderly(snap, before);
    }
  }

  /** A snapshot followed by a command, arriving the other way round: the command is lost. */
  lemma LateSnapshotLoses()
    ensures var snap, arr := [true, false], [1, 0];
            && CanArrive(snap, [], 1) && CanArrive(snap, [1], 0)
            && Reach(arr) == 2 && Covered(snap, arr) == {0} && !Orderly(snap, arr)
  {
    var snap, arr := [true, false], [1, 0];
    assert arr[..1] == [1] && [1][..0] == [];
    assert Reach([1]) == 2;
    assert Below(1) == {0};
    assert !InTurn(snap, arr[..1], arr[1]);
  }
}
