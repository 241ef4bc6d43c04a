/** What a test that records the clerks' calls and checks them by key reports on the service. */
module KvCheck {
  import opened KvModel
  import opened KvFront
  import opened KvStore
  import opened KvSystem
  import opened Linearizability
  import opened Operations
  import opened KvServer
  import Locality

  /** Every call has returned. */
  predicate Quiet(f: Front) {
    forall i :: 0 <= i < |f.calls| ==> f.calls[i].done
  }

  lemma RecordedWell(n: nat, steps: seq<KvStep>)
    requires Proper(n, steps)
    ensures Typed(OperationsOf(KvRun(n, steps).front)) && Timed(OperationsOf(KvRun(n, steps).front))
  {
    hide KvRun, Proper;
    var f := KvRun(n, steps).front;
    var cs, marks := KvRunOK(n, steps);
    hide OpsOf, ReadAt, Has;
    forall i | 0 <= i < |f.calls|
      ensures OperationsOf(f)[i].call <= OperationsOf(f)[i].ret
    {
      assert CallOK(OpsOf(cs), f, f.calls[i], marks[i]);
    }
  }

  lemma RestrictTimed(ops: seq<Operation<KvValue>>, key: string)
    requires Typed(ops) && Timed(ops)
    ensures Timed(Restrict(ops, key))
  {
    RestrictAt(ops, key);
  }

  lemma QuietAll(f: Front, ids: set<nat>)
    requires Quiet(f) && Completed(f, ids) && MayCount(f, ids)
    ensures ids == Below(|f.calls|)
  {
  }

  /**
   The history of a run in which every call has returned passes the check: for every key, and
   however events of equal time are arranged, its part of the history is linearizable.
   */
  lemma TestPasses(n: nat, steps: seq<KvStep>, key: string, perm: seq<nat>, h: History<KvValue>)
    requires Proper(n, steps) && Quiet(KvRun(n, steps).front)
    requires Typed(OperationsOf(KvRun(n, steps).front))
    requires Arranged(Restrict(OperationsOf(KvRun(n, steps).front), key), perm, h)
    ensures WellFormed(h) && Linearizable(KeyModel(), h)
  {
    hide KvRun, Proper, OpsLinearizable, Linearizable, Arranged, Restrict, WellFormed, Quiet, Completed, MayCount;
    var f := KvRun(n, steps).front;
    var ops := OperationsOf(f);
    ServiceLinearizable(n, steps);
    var ids :| Completed(f, ids) && MayCount(f, ids) && OpsLinearizable(StoreModel(), ops, ids);
    QuietAll(f, ids);
    RecordedWell(n, steps);
    Locality.PartitionExact(ops);
    assert Locality.KeyLinearizable(ops, key);
    RestrictTimed(ops, key);
    EntriesExact(KeyModel(), Restrict(ops, key), perm, h);
  }
}
