/** The state a key/value server builds from the commands it applies. */
module KvStore {
  import opened KvOps
  import opened KvModel

  /** The store, and the highest sequence number executed for each client. */
  datatype Store = Store(kvMap: map<string, string>, lastSeq: map<int, int>)

  const EMPTY := Store(map[], map[])

  function LastSeq(st: Store, client: int): int {
    if client in st.lastSeq then st.lastSeq[client] else 0
  }

  function Write(kvMap: map<string, string>, op: Op): map<string, string> {
    match op.typ
    case OpGet => kvMap
    case OpPut => kvMap[op.key := op.value]
    case OpAppend => kvMap[op.key := Lookup(kvMap, op.key) + op.value]
  }

  /** One applied command: a sequence number not above the client's last one is a duplicate. */
  function Execute(st: Store, op: Op): Store {
    if op.seqNum <= LastSeq(st, op.clientId) then st
    else Store(Write(st.kvMap, op), st.lastSeq[op.clientId := op.seqNum])
  }

  function Fold(log: seq<Op>): Store {
    if log == [] then EMPTY else Execute(Fold(log[..|log| - 1]), log[|log| - 1])
  }

  // ---------------------------------------------------------------- duplicates

  /** Request `seq` of `client` is in the log. */
  ghost predicate Has(log: seq<Op>, client: int, seqNum: int) {
    exists i :: 0 <= i < |log| && log[i].clientId == client && log[i].seqNum == seqNum
  }

  /** Executing exactly the first occurrence of every request, remembering all of them. */
  ghost function FoldOnce(log: seq<Op>): map<string, string> {
    if log == [] then map[]
    else
      var before := log[..|log| - 1];
      var op := log[|log| - 1];
      if Has(before, op.clientId, op.seqNum) then FoldOnce(before) else Write(FoldOnce(before), op)
  }

  /** Clients number their requests from 1, and start one only when the one before is in the log. */
  ghost predicate Serial(log: seq<Op>) {
    forall i :: 0 <= i < |log| ==>
      log[i].seqNum >= 1 && forall k :: 1 <= k < log[i].seqNum ==> Has(log[..i], log[i].clientId, k)
  }

  lemma SerialPrefix(log: seq<Op>, n: nat)
    requires Serial(log) && n <= |log|
    ensures Serial(log[..n])
  {
    forall i | 0 <= i < n
      ensures log[..n][i].seqNum >= 1
      ensures forall k :: 1 <= k < log[..n][i].seqNum ==> Has(log[..n][..i], log[..n][i].clientId, k)
    {
      assert log[..n][..i] == log[..i];
    }
  }

  lemma HasGrows(log: seq<Op>, p: nat, q: nat, client: int, seqNum: int)
    requires p <= q <= |log| && Has(log[..p], client, seqNum)
    ensures Has(log[..q], client, seqNum)
  {
    var i :| 0 <= i < p && log[..p][i].clientId == client && log[..p][i].seqNum == seqNum;
    assert log[..q][i] == log[..p][i];
  }

  lemma HasLast(log: seq<Op>, client: int, seqNum: int)
    requires log != []
    ensures Has(log, client, seqNum) <==>
            Has(log[..|log| - 1], client, seqNum) ||
                (log[|log| - 1].clientId == client && log[|log| - 1].seqNum == seqNum)
  {
    var before := log[..|log| - 1];
    if Has(log, client, seqNum) && !(log[|log| - 1].clientId == client && log[|log| - 1].seqNum == seqNum) {
      var i :| 0 <= i < |log| && log[i].clientId == client && log[i].seqNum == seqNum;
      assert before[i] == log[i];
    }
    if Has(before, client, seqNum) {
      assert log[..|log|] == log;
      HasGrows(log, |log| - 1, |log|, client, seqNum);
    }
  }

  /** The one number kept per client stands for the whole set of its executed requests. */
  lemma {:induction false} LastSeqMeans(log: seq<Op>, client: int, seqNum: int)
    requires Serial(log) && seqNum >= 1
    ensures Has(log, client, seqNum) <==> seqNum <= LastSeq(Fold(log), client)
  {
    hide Has;
    if log == [] {
      assert !Has(log, client, seqNum) by {
        HasNothing(client, seqNum);
      }
    } else {
      var before, op := log[..|log| - 1], log[|log| - 1];
      SerialPrefix(log, |log| - 1);
      LastSeqMeans(before, client, seqNum);
      HasLast(log, client, seqNum);
      if op.clientId == client {
        LastSeqMeans(before, client, op.seqNum);
        if 1 <= seqNum < op.seqNum {
          assert Has(before, client, seqNum);
        }
      }
    }
  }

  lemma HasNothing(client: int, seqNum: int)
    ensures !Has([], client, seqNum)
  {
  }

  /** The test against the last sequence number finds exactly the duplicates. */
  lemma DuplicateTest(log: seq<Op>, i: nat)
    requires Serial(log) && i < |log|
    ensures log[i].seqNum <= LastSeq(Fold(log[..i]), log[i].clientId) <==> Has(log[..i], log[i].clientId, log[i].seqNum)
  {
    SerialPrefix(log, i);
    LastSeqMeans(log[..i], log[i].clientId, log[i].seqNum);
  }

  /** Constant-space deduplication builds the same store as remembering every request. */
  lemma {:induction false} DedupExact(log: seq<Op>)
    requires Serial(log)
    ensures Fold(log).kvMap == FoldOnce(log)
  {
    hide Has, Serial;
    if log != [] {
      SerialPrefix(log, |log| - 1);
      DedupExact(log[..|log| - 1]);
      DuplicateTest(log, |log| - 1);
    }
  }

  /** A request already in the log changes nothing when it is applied again. */
  lemma Reapplied(log: seq<Op>, op: Op)
    requires Serial(log) && op.seqNum >= 1 && Has(log, op.clientId, op.seqNum)
    ensures Execute(Fold(log), op) == Fold(log)
  {
    LastSeqMeans(log, op.clientId, op.seqNum);
  }

  lemma FoldStep(log: seq<Op>, p: nat)
    requires p < |log|
    ensures Fold(log[..p + 1]) == Execute(Fold(log[..p]), log[p])
  {
    assert log[..p + 1][..p] == log[..p];
  }
}
