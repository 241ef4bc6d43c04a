/** The key/value server. */
module KvServer {
  import opened KvOps
  import opened KvRpc
  import opened ApplyOrder
  import opened KvModel
  import opened KvStore
  import opened RaftLog
  import opened RaftPeer
  import opened RaftSystem
  import opened RaftInvariant
  import opened RaftSnapshotSteps

  /** Snapshot bytes: none, bytes that do not decode, or an encoded server. */
  datatype Bytes = NoBytes | Garbled | Encoded(kvMap: map<string, string>, lastSeq: map<int, int>, lastApplied: int)

  /** A message on the apply channel, as the service sees it. */
  datatype Incoming = NewCommand(index: int, op: Op) | NewSnapshot(index: int, data: Bytes)

  datatype Server = Server(store: Store, lastApplied: int)

  const FRESH := Server(EMPTY, 0)

  function Encode(sv: Server): Bytes {
    Encoded(sv.store.kvMap, sv.store.lastSeq, sv.lastApplied)
  }

  /** Bytes that are missing or do not decode leave the server as it is. */
  function Decode(sv: Server, data: Bytes): Server {
    match data
    case Encoded(m, l, a) => Server(Store(m, l), a)
    case _ => sv
  }

  function Handle(sv: Server, msg: Incoming): Server {
    match msg
    case NewCommand(i, op) => Server(Execute(sv.store, op), i)
    case NewSnapshot(i, data) => Decode(sv, data).(lastApplied := i)
  }

  function HandleAll(sv: Server, msgs: seq<Incoming>): Server {
    if msgs == [] then sv else Handle(HandleAll(sv, msgs[..|msgs| - 1]), msgs[|msgs| - 1])
  }

  // ---------------------------------------------------------------- wake-ups and snapshots

  /** A message whose command carries the request `key`. */
  predicate Wakes(msg: Incoming, key: (int, int)) {
    msg.NewCommand? && key == (msg.op.clientId, msg.op.seqNum)
  }

  ghost predicate SomeWakes(msgs: seq<Incoming>, key: (int, int)) {
    exists i :: 0 <= i < |msgs| && Wakes(msgs[i], key)
  }

  lemma WakesSnoc(msgs: seq<Incoming>, msg: Incoming, key: (int, int))
    ensures SomeWakes(msgs + [msg], key) <==> SomeWakes(msgs, key) || Wakes(msg, key)
  {
    if SomeWakes(msgs, key) {
      var i :| 0 <= i < |msgs| && Wakes(msgs[i], key);
      assert Wakes((msgs + [msg])[i], key);
    }
    if Wakes(msg, key) {
      assert Wakes((msgs + [msg])[|msgs|], key);
    }
  }

  /** The loop goes on to its size test only behind a command that was not a duplicate. */
  predicate Tested(sv: Server, msg: Incoming, size: int, limit: int) {
    msg.NewCommand? && msg.op.seqNum > LastSeq(sv.store, msg.op.clientId) && limit != -1 && size > limit
  }

  /** The snapshots the loop hands to Raft, given the size of the Raft state behind each message. */
  function Handed(sv: Server, msgs: seq<Incoming>, sizes: seq<int>, limit: int): seq<(int, Bytes)>
    requires |sizes| == |msgs|
  {
    if msgs == [] then []
    else
      var k := |msgs| - 1;
      var before := HandleAll(sv, msgs[..k]);
      var after := Handle(before, msgs[k]);
      Handed(sv, msgs[..k], sizes[..k], limit) +
      if Tested(before, msgs[k], sizes[k], limit) then [(after.lastApplied, Encode(after))] else []
  }

  /** Every snapshot handed over is what the server was after some of the messages, under the index it then had. */
  lemma {:induction false} HandedIsState(sv: Server, msgs: seq<Incoming>, sizes: seq<int>, limit: int, h: (int, Bytes))
      returns (j: nat)
    requires |sizes| == |msgs| && h in Handed(sv, msgs, sizes, limit)
    ensures j <= |msgs| && h.0 == HandleAll(sv, msgs[..j]).lastApplied
    ensures Decode(FRESH, h.1) == HandleAll(sv, msgs[..j])
  {
    var k := |msgs| - 1;
    if h in Handed(sv, msgs[..k], sizes[..k], limit) {
      j := HandedIsState(sv, msgs[..k], sizes[..k], limit, h);
      assert msgs[..k][..j] == msgs[..j];
    } else {
      j := |msgs|;
      assert msgs[..j] == msgs;
    }
  }

  /** Message `i` is a command that is executed and leaves the Raft state above the limit; `h` is the state then. */
  ghost predicate TakenAt(sv: Server, msgs: seq<Incoming>, sizes: seq<int>, limit: int, h: (int, Bytes), i: nat)
    requires |sizes| == |msgs| && i < |msgs|
  {
    && msgs[i].NewCommand? && limit != -1 && sizes[i] > limit
    && msgs[i].op.seqNum > LastSeq(HandleAll(sv, msgs[..i]).store, msgs[i].op.clientId)
    && h == (msgs[i].index, Encode(HandleAll(sv, msgs[..i + 1])))
  }

  /** Snapshots are handed over exactly behind those commands. */
  lemma {:induction false} HandedExact(sv: Server, msgs: seq<Incoming>, sizes: seq<int>, limit: int, h: (int, Bytes))
    requires |sizes| == |msgs|
    ensures h in Handed(sv, msgs, sizes, limit) <==>
            exists i :: 0 <= i < |msgs| && TakenAt(sv, msgs, sizes, limit, h, i)
  {
    hide TakenAt, Tested, Handle, HandleAll, Encode;
    if msgs != [] {
      var k := |msgs| - 1;
      HandedExact(sv, msgs[..k], sizes[..k], limit, h);
      forall i | 0 <= i < k
        ensures TakenAt(sv, msgs, sizes, limit, h, i) <==> TakenAt(sv, msgs[..k], sizes[..k], limit, h, i)
      {
        TakenEarlier(sv, msgs, sizes, limit, h, k, i);
      }
      TakenLast(sv, msgs, sizes, limit, h);
    }
  }

  lemma TakenEarlier(sv: Server, msgs: seq<Incoming>, sizes: seq<int>, limit: int, h: (int, Bytes), k: nat, i: nat)
    requires |sizes| == |msgs| && i < k <= |msgs|
    ensures TakenAt(sv, msgs, sizes, limit, h, i) <==> TakenAt(sv, msgs[..k], sizes[..k], limit, h, i)
  {
    hide HandleAll, Encode;
    assert msgs[..k][..i] == msgs[..i] && msgs[..k][..i + 1] == msgs[..i + 1];
  }

  lemma TakenLast(sv: Server, msgs: seq<Incoming>, sizes: seq<int>, limit: int, h: (int, Bytes))
    requires |sizes| == |msgs| > 0
    ensures var k := |msgs| - 1;
            var before := HandleAll(sv, msgs[..k]);
            var after := Handle(before, msgs[k]);
            TakenAt(sv, msgs, sizes, limit, h, k) <==>
            Tested(before, msgs[k], sizes[k], limit) && h == (after.lastApplied, Encode(after))
  {
    assert msgs[..|msgs|] == msgs;
  }

  lemma HandedLast(sv: Server, msgs: seq<Incoming>, sizes: seq<int>, limit: int, h: (int, Bytes))
    requires |sizes| == |msgs| > 0 && h in Handed(sv, msgs, sizes, limit)
    ensures var k := |msgs| - 1;
            var before := HandleAll(sv, msgs[..k]);
            var after := Handle(before, msgs[k]);
            || h in Handed(sv, msgs[..k], sizes[..k], limit)
            || (Tested(before, msgs[k], sizes[k], limit) && h == (after.lastApplied, Encode(after)))
  {
    hide Handle, HandleAll, Tested, Encode;
  }

  // ---------------------------------------------------------------- what a stream does to a server

  /** The requests behind a sequence of commands. */
  function OpsOf(cs: seq<Command>): seq<Op> {
    if AllRequests(cs) then seq(|cs|, i requires 0 <= i < |cs| && cs[i].Request? => cs[i].op) else []
  }

  predicate AllRequests(cs: seq<Command>) {
    forall i :: 0 <= i < |cs| ==> cs[i].Request?
  }

  /** A server that has executed exactly these commands. */
  function After(cs: seq<Command>): Server {
    Server(Fold(OpsOf(cs)), |cs|)
  }

  /** What the channel carries. The bytes of a snapshot are the encoded server that executed its commands. */
  predicate Carries(m: ApplyMsg) {
    match m
    case CommandMsg(_, c) => c.Request?
    case SnapshotMsg(_, d) => AllRequests(d)
  }

  function IncomingOf(m: ApplyMsg): Incoming
    requires Carries(m)
  {
    match m
    case CommandMsg(i, c) => NewCommand(i, c.op)
    case SnapshotMsg(i, d) => NewSnapshot(i, Encode(After(d)))
  }

  predicate AllCarry(stream: seq<ApplyMsg>) {
    forall i :: 0 <= i < |stream| ==> Carries(stream[i])
  }

  /** Which messages are snapshots. */
  function Snaps(stream: seq<ApplyMsg>): (r: seq<bool>)
    ensures |r| == |stream| && forall i :: 0 <= i < |r| ==> r[i] == stream[i].SnapshotMsg?
  {
    seq(|stream|, i requires 0 <= i < |stream| => stream[i].SnapshotMsg?)
  }

  /** The messages of a stream in the order in which they arrive. */
  function Arrivals(stream: seq<ApplyMsg>, arr: seq<nat>): (r: seq<Incoming>)
    requires AllCarry(stream) && ApplyOrder.Within(Snaps(stream), arr)
    ensures |r| == |arr|
  {
    seq(|arr|, j requires 0 <= j < |arr| => IncomingOf(stream[arr[j]]))
  }

  lemma OpsOfSnoc(cs: seq<Command>, c: Command)
    requires AllRequests(cs) && c.Request?
    ensures AllRequests(cs + [c]) && OpsOf(cs + [c]) == OpsOf(cs) + [c.op]
  {
  }

  lemma OpsOfTake(cs: seq<Command>, ds: seq<Command>)
    requires AllRequests(ds) && cs <= ds
    ensures AllRequests(cs) && |OpsOf(cs)| == |cs| && |OpsOf(ds)| == |ds|
    ensures OpsOf(cs) <= OpsOf(ds) && OpsOf(ds)[..|cs|] == OpsOf(cs)
  {
  }

  lemma ReplayStep(base: seq<Command>, stream: seq<ApplyMsg>, m: nat)
    requires m < |stream|
    ensures Replay(base, stream[..m + 1]) == Consume(Replay(base, stream[..m]), stream[m])
  {
    assert stream[..m + 1][..m] == stream[..m];
  }

  /** A command that a later snapshot has overtaken is a duplicate. */
  lemma StaleCommand(base: seq<Command>, stream: seq<ApplyMsg>, m: nat, q: nat)
    requires Contiguous(base, stream) && AllRequests(Replay(base, stream)) && Serial(OpsOf(Replay(base, stream)))
    requires m < q <= |stream| && stream[m].CommandMsg? && stream[m].command.Request?
    ensures var st := Fold(OpsOf(Replay(base, stream[..q])));
            Execute(st, stream[m].command.op) == st
  {
    hide Contiguous, Serial, Has, AllRequests, OpsOf;
    InReplay(base, stream, m, q);
    Reapplied(OpsOf(Replay(base, stream[..q])), stream[m].command.op);
  }

  lemma InLog(cs: seq<Command>, i: nat, op: Op)
    requires AllRequests(cs) && i < |cs| && cs[i] == Request(op) && Serial(OpsOf(cs))
    ensures Has(OpsOf(cs), op.clientId, op.seqNum) && op.seqNum >= 1
  {
    assert OpsOf(cs)[i] == op;
  }

  lemma NextCommand(base: seq<Command>, stream: seq<ApplyMsg>, m: nat)
    requires m < |stream| && stream[m].CommandMsg? && stream[m].command.Request? &&
             AllRequests(Replay(base, stream[..m]))
    ensures Fold(OpsOf(Replay(base, stream[..m + 1]))) ==
            Execute(Fold(OpsOf(Replay(base, stream[..m]))), stream[m].command.op)
  {
    var cs := Replay(base, stream[..m]);
    ReplayStep(base, stream, m);
    OpsOfSnoc(cs, stream[m].command);
    assert (OpsOf(cs) + [stream[m].command.op])[..|cs|] == OpsOf(cs);
  }

  /** One message in its turn, on a server that has the effect of everything before `q`. */
  lemma ArriveInTurn(base: seq<Command>, stream: seq<ApplyMsg>, q: nat, m: nat, sv: Server)
    requires Contiguous(base, stream) && AllRequests(Replay(base, stream)) && Serial(OpsOf(Replay(base, stream)))
    requires q <= |stream| && m < |stream| && Carries(stream[m]) &&
             (if stream[m].SnapshotMsg? then q <= m + 1 else m <= q)
    requires sv.store == Fold(OpsOf(Replay(base, stream[..q])))
    ensures Handle(sv, IncomingOf(stream[m])).store == Fold(OpsOf(Replay(base, stream[..if m < q then q else m + 1])))
  {
    if stream[m].SnapshotMsg? {
      ReplayStep(base, stream, m);
    } else if m == q {
      PrefixRequests(base, stream, m);
      NextCommand(base, stream, m);
    } else {
      StaleCommand(base, stream, m, q);
    }
    hide Contiguous, Serial, AllRequests, OpsOf, Replay, Fold, Execute;
  }

  /**
   Restoring is transparent: a server that starts from a snapshot and takes commands and further
   snapshots as they arrive, each in its turn, holds the store of one that executed the whole
   command sequence up to the furthest message.
   */
  lemma {:induction false} OrderlyStore(base: seq<Command>, stream: seq<ApplyMsg>, arr: seq<nat>)
    requires Contiguous(base, stream) && AllRequests(Replay(base, stream)) && Serial(OpsOf(Replay(base, stream)))
    requires AllCarry(stream) && ApplyOrder.Within(Snaps(stream), arr) && Orderly(Snaps(stream), arr)
    ensures Reach(arr) <= |stream|
    ensures HandleAll(Decode(FRESH, Encode(After(base))), Arrivals(stream, arr)).store ==
            Fold(OpsOf(Replay(base, stream[..Reach(arr)])))
  {
    hide Contiguous, Serial, AllRequests, OpsOf, Fold, Handle, IncomingOf, Carries;
    if arr == [] {
      assert stream[..0] == [];
    } else {
      hide Replay;
      var before, m := arr[..|arr| - 1], arr[|arr| - 1];
      OrderlyStore(base, stream, before);
      var start, msgs := Decode(FRESH, Encode(After(base))), Arrivals(stream, arr);
      assert msgs[..|before|] == Arrivals(stream, before);
      ArriveInTurn(base, stream, Reach(before), m, HandleAll(start, Arrivals(stream, before)));
    }
  }

  lemma PrefixRequests(base: seq<Command>, stream: seq<ApplyMsg>, m: nat)
    requires Contiguous(base, stream) && AllRequests(Replay(base, stream)) && m <= |stream|
    ensures AllRequests(Replay(base, stream[..m]))
  {
    ReplayGrows(base, stream, m);
    OpsOfTake(Replay(base, stream[..m]), Replay(base, stream));
  }

  /**
   What the loop hands over is what Raft takes: with every message in its turn, each snapshot is the
   state after a prefix of the stream, under the index the service reports for that prefix.
   */
  lemma {:induction false} HandedIsPrefix(base: seq<Command>, stream: seq<ApplyMsg>, arr: seq<nat>, sizes: seq<int>,
                                          limit: int, h: (int, Bytes)) returns (j: nat)
    requires Contiguous(base, stream) && AllRequests(Replay(base, stream)) && Serial(OpsOf(Replay(base, stream)))
    requires AllCarry(stream) && ApplyOrder.Within(Snaps(stream), arr) && Orderly(Snaps(stream), arr)
    requires |sizes| == |arr| && h in Handed(Decode(FRESH, Encode(After(base))), Arrivals(stream, arr), sizes, limit)
    ensures j <= |stream| && h == (Position(base, stream[..j]), Encode(After(Replay(base, stream[..j]))))
  {
    hide *;
    var k := |arr| - 1;
    var start, msgs := Decode(FRESH, Encode(After(base))), Arrivals(stream, arr);
    HandedSome(start, msgs, sizes, limit, h);
    HandedLast(start, msgs, sizes, limit, h);
    LastTurn(Snaps(stream), arr);
    var before, m := arr[..k], arr[k];
    LastArrival(stream, arr);
    if h in Handed(start, msgs[..k], sizes[..k], limit) {
      j := HandedIsPrefix(base, stream, before, sizes[..k], limit, h);
    } else {
      OrderlyStore(base, stream, before);
      HandedNow(base, stream, Reach(before), m, HandleAll(start, msgs[..k]), sizes[k], limit);
      j := m + 1;
    }
  }

  lemma HandedSome(sv: Server, msgs: seq<Incoming>, sizes: seq<int>, limit: int, h: (int, Bytes))
    requires |sizes| == |msgs| && h in Handed(sv, msgs, sizes, limit)
    ensures msgs != []
  {
  }

  lemma LastArrival(stream: seq<ApplyMsg>, arr: seq<nat>)
    requires AllCarry(stream) && ApplyOrder.Within(Snaps(stream), arr) && arr != []
    ensures var k := |arr| - 1;
            && ApplyOrder.Within(Snaps(stream), arr[..k]) && arr[k] < |stream| && Carries(stream[arr[k]])
            && Arrivals(stream, arr)[..k] == Arrivals(stream, arr[..k])
            && Arrivals(stream, arr)[k] == IncomingOf(stream[arr[k]])
  {
    hide Carries, IncomingOf;
  }

  lemma LastTurn(snap: seq<bool>, arr: seq<nat>)
    requires arr != [] && ApplyOrder.Within(snap, arr) && Orderly(snap, arr)
    ensures var before := arr[..|arr| - 1];
            && ApplyOrder.Within(snap, before) && Orderly(snap, before)
            && (!snap[arr[|arr| - 1]] ==> arr[|arr| - 1] <= Reach(before))
  {
  }

  /** A command that is tested is the next of the stream, and leaves the state after it. */
  lemma HandedNow(base: seq<Command>, stream: seq<ApplyMsg>, q: nat, m: nat, sv: Server, size: int, limit: int)
    requires Contiguous(base, stream) && AllRequests(Replay(base, stream)) && Serial(OpsOf(Replay(base, stream)))
    requires q <= |stream| && m < |stream| && Carries(stream[m]) && (stream[m].CommandMsg? ==> m <= q)
    requires sv.store == Fold(OpsOf(Replay(base, stream[..q]))) && Tested(sv, IncomingOf(stream[m]), size, limit)
    ensures Handle(sv, IncomingOf(stream[m])) == After(Replay(base, stream[..m + 1]))
    ensures Handle(sv, IncomingOf(stream[m])).lastApplied == Position(base, stream[..m + 1])
  {
    hide Contiguous, Serial, AllRequests, OpsOf, Fold, Replay;
    assert stream[m].CommandMsg?;
    if m < q {
      StaleCommand(base, stream, m, q);
      ExecutedRaises(sv.store, stream[m].command.op);
    }
    PrefixRequests(base, stream, m);
    NextCommand(base, stream, m);
    ReplayGrows(base, stream, m + 1);
    PositionIsLength(base, stream[..m + 1]);
    assert stream[..m + 1][m] == stream[m];
  }

  lemma ExecutedRaises(st: Store, op: Op)
    ensures op.seqNum > LastSeq(st, op.clientId) ==> Execute(st, op) != st
  {
  }

  lemma {:induction false} LastSeqGrows(log: seq<Op>, p: nat, client: int)
    requires p <= |log|
    ensures LastSeq(Fold(log[..p]), client) <= LastSeq(Fold(log), client)
  {
    if p == |log| {
      assert log[..p] == log;
    } else {
      var before := log[..|log| - 1];
      assert before[..p] == log[..p];
      LastSeqGrows(before, p, client);
    }
  }

  /** With every message in its turn, no arrival takes a client's last sequence number back. */
  lemma ArrivalsRaise(base: seq<Command>, stream: seq<ApplyMsg>, arr: seq<nat>, i: nat, client: int)
    requires Contiguous(base, stream) && AllRequests(Replay(base, stream)) && Serial(OpsOf(Replay(base, stream)))
    requires AllCarry(stream) && ApplyOrder.Within(Snaps(stream), arr) && Orderly(Snaps(stream), arr) && i <= |arr|
    ensures var start := Decode(FRESH, Encode(After(base)));
            LastSeq(HandleAll(start, Arrivals(stream, arr[..i])).store, client) <=
              LastSeq(HandleAll(start, Arrivals(stream, arr)).store, client)
  {
    OrderlyPrefix(Snaps(stream), arr, i);
    hide Contiguous, Serial, AllRequests, OpsOf, Orderly, HandleAll, Replay, Arrivals, LastSeq, After, Fold;
    OrderlyStore(base, stream, arr);
    OrderlyStore(base, stream, arr[..i]);
    var p, q := Reach(arr[..i]), Reach(arr);
    var now := stream[..q];
    PrefixRequests(base, stream, q);
    ReplayGrows(base, stream, q);
    assert now[..p] == stream[..p];
    ReplayGrows(base, now, p);
    OpsOfTake(Replay(base, stream[..p]), Replay(base, now));
    LastSeqGrows(OpsOf(Replay(base, now)), |Replay(base, stream[..p])|, client);
  }

  lemma {:induction false} OrderlyPrefix(snap: seq<bool>, arr: seq<nat>, i: nat)
    requires ApplyOrder.Within(snap, arr) && Orderly(snap, arr) && i <= |arr|
    ensures Orderly(snap, arr[..i]) && Reach(arr[..i]) <= Reach(arr)
  {
    if i == |arr| {
      assert arr[..i] == arr;
    } else {
      assert arr[..|arr| - 1][..i] == arr[..i];
      OrderlyPrefix(snap, arr[..|arr| - 1], i);
    }
  }

  /** A request whose command has arrived, each message in its turn, is not above its client's last number. */
  lemma WokenIsExecuted(base: seq<Command>, stream: seq<ApplyMsg>, arr: seq<nat>, m: nat)
    requires Contiguous(base, stream) && AllRequests(Replay(base, stream)) && Serial(OpsOf(Replay(base, stream)))
    requires AllCarry(stream) && ApplyOrder.Within(Snaps(stream), arr) && Orderly(Snaps(stream), arr)
    requires m in arr && stream[m].CommandMsg?
    ensures var op := stream[m].command.op;
            var sv := HandleAll(Decode(FRESH, Encode(After(base))), Arrivals(stream, arr));
            op.seqNum <= LastSeq(sv.store, op.clientId)
  {
    hide Contiguous, Serial, AllRequests, OpsOf, Orderly, HandleAll, Replay, Arrivals, LastSeq, After, Fold, Has;
    OrderlyStore(base, stream, arr);
    var q, op := Reach(arr), stream[m].command.op;
    InReplay(base, stream, m, q);
    LastSeqMeans(OpsOf(Replay(base, stream[..q])), op.clientId, op.seqNum);
  }

  /** A command before position `q` is among the requests replayed up to it. */
  lemma InReplay(base: seq<Command>, stream: seq<ApplyMsg>, m: nat, q: nat)
    requires Contiguous(base, stream) && AllRequests(Replay(base, stream)) && Serial(OpsOf(Replay(base, stream)))
    requires m < q <= |stream| && stream[m].CommandMsg? && stream[m].command.Request?
    ensures var log, op := OpsOf(Replay(base, stream[..q])), stream[m].command.op;
            Serial(log) && Has(log, op.clientId, op.seqNum) && op.seqNum >= 1
  {
    hide Contiguous, Serial, Has, AllRequests, OpsOf;
    var now, op := Replay(base, stream[..q]), stream[m].command.op;
    ReplayGrows(base, stream, q);
    OpsOfTake(now, Replay(base, stream));
    SerialPrefix(OpsOf(Replay(base, stream)), |now|);
    ReplayGrows(base, stream[..q], m + 1);
    assert stream[..q][..m + 1] == stream[..m + 1];
    ReplayStep(base, stream, m);
    var upto := Replay(base, stream[..m + 1]);
    assert upto[|upto| - 1] == stream[m].command;
    InLog(now, |upto| - 1, op);
  }

  /**
   The code does not make messages arrive in their turn. Here a snapshot of one write is overtaken
   by the write after it: both arrive, and the later write is gone from the store.
   */
  lemma OvertakenSnapshot(a: Op, b: Op)
    requires a == Op(OpPut, "x", "1", 1, 1) && b == Op(OpPut, "y", "2", 2, 1)
    ensures var stream := [SnapshotMsg(1, [Request(a)]), CommandMsg(2, Request(b))];
            && Contiguous([], stream) && AllCarry(stream)
            && CanArrive(Snaps(stream), [], 1) && CanArrive(Snaps(stream), [1], 0)
            && ApplyOrder.Within(Snaps(stream), [1, 0])
            && var store := HandleAll(FRESH, Arrivals(stream, [1, 0])).store;
               "y" in Fold(OpsOf(Replay([], stream))).kvMap && "y" !in store.kvMap
  {
    var stream := [SnapshotMsg(1, [Request(a)]), CommandMsg(2, Request(b))];
    assert stream[..1] == [stream[0]] && stream[..1][..0] == [];
    assert Replay([], stream[..1]) == [Request(a)];
    assert Replay([], stream) == [Request(a), Request(b)];
    assert OpsOf([Request(a), Request(b)]) == [a, b] && [a, b][..1] == [a];
    assert OpsOf([Request(a)]) == [a] && [a][..0] == [];
    assert Fold([a]) == Store(map["x" := "1"], map[1 := 1]);
    assert Fold([a, b]) == Execute(Fold([a]), b);
    var msgs := Arrivals(stream, [1, 0]);
    assert msgs[1] == NewSnapshot(1, Encode(After([Request(a)])));
  }

  // ---------------------------------------------------------------- the server object

  class KVServer {
    var kvMap: map<string, string>
    var lastSeq: map<int, int>
    var lastApplied: int
    var chanMap: map<(int, int), bool>   // waiting handlers by request, and whether each has been signalled
    const maxRaftState: int

    function View(): Server
      reads this
    {
      Server(Store(kvMap, lastSeq), lastApplied)
    }

    /** Start from what the persister holds. */
    constructor (snapshot: Bytes, maxRaftState: int)
      ensures View() == Decode(FRESH, snapshot) && chanMap == map[]
    {
      this.maxRaftState := maxRaftState;
      chanMap := map[];
      if snapshot.Encoded? {
        kvMap, lastSeq, lastApplied := snapshot.kvMap, snapshot.lastSeq, snapshot.lastApplied;
      } else {
        kvMap, lastSeq, lastApplied := map[], map[], 0;
      }
    }

    method EncodeSnapshot() returns (data: Bytes)
      ensures data == Encode(View())
      ensures forall sv :: Decode(sv, data) == View()
    {
      data := Encoded(kvMap, lastSeq, lastApplied);
    }

    method DecodeSnapshot(data: Bytes)
      modifies this
      ensures View() == Decode(old(View()), data) && chanMap == old(chanMap)
      ensures if data.Encoded? then kvMap == data.kvMap && lastSeq == data.lastSeq && lastApplied == data.lastApplied
              else View() == old(View())
    {
      if data.Encoded? {
        kvMap, lastSeq, lastApplied := data.kvMap, data.lastSeq, data.lastApplied;
      }
    }

    /** Wake the handler of a request, if one waits. The channel holds one signal. */
    method Notify(key: (int, int))
      modifies this`chanMap
      ensures chanMap == if key in old(chanMap) then old(chanMap)[key := true] else old(chanMap)
    {
      if key in chanMap {
        chanMap := chanMap[key := true];
      }
    }

    /** One message from the apply channel: at most one request is signalled, and only after it is in the store. */
    method ApplyOne(msg: Incoming) returns (executed: bool)
      modifies this
      ensures View() == Handle(old(View()), msg)
      ensures executed <==> msg.NewCommand? && msg.op.seqNum > LastSeq(old(View()).store, msg.op.clientId)
      ensures chanMap.Keys == old(chanMap).Keys
      ensures forall k :: k in chanMap ==>
                (chanMap[k] <==> old(chanMap)[k] || (msg.NewCommand? && k == (msg.op.clientId, msg.op.seqNum)))
      ensures msg.NewCommand? ==> msg.op.seqNum <= LastSeq(View().store, msg.op.clientId)
      ensures lastApplied == msg.index
    {
      executed := false;
      match msg
      case NewSnapshot(index, data) =>
        DecodeSnapshot(data);
        lastApplied := index;
      case NewCommand(index, op) =>
        var last := if op.clientId in lastSeq then lastSeq[op.clientId] else 0;
        if op.seqNum > last {
          executed := true;
          lastSeq := lastSeq[op.clientId := op.seqNum];
          match op.typ
          case OpPut => kvMap := kvMap[op.key := op.value];
          case OpAppend => kvMap := kvMap[op.key := (if op.key in kvMap then kvMap[op.key] else "") + op.value];
          case OpGet =>
        }
        lastApplied := index;
        Notify((op.clientId, op.seqNum));
    }

    /** When the Raft state has grown too large, hand over a snapshot of what has been applied. */
    method MaybeSnapshot(raftStateSize: int) returns (taken: bool, index: int, data: Bytes)
      ensures taken <==> maxRaftState != -1 && raftStateSize > maxRaftState
      ensures taken ==> index == lastApplied && data == Encode(View()) && Decode(FRESH, data) == View()
    {
      taken, index, data := false, 0, NoBytes;
      if maxRaftState != -1 && raftStateSize > maxRaftState {
        taken, index := true, lastApplied;
        data := EncodeSnapshot();
      }
    }

    /**
     The apply loop, over what the channel brings and the sizes the Raft state has behind each message:
     the store, exactly the requests signalled, and the snapshots handed to Raft.
     */
    method GuardApply(msgs: seq<Incoming>, sizes: seq<int>) returns (handed: seq<(int, Bytes)>)
      requires |sizes| == |msgs|
      modifies this
      ensures View() == HandleAll(old(View()), msgs)
      ensures chanMap.Keys == old(chanMap).Keys
      ensures forall k :: k in chanMap ==> (chanMap[k] <==> old(chanMap)[k] || SomeWakes(msgs, k))
      ensures handed == Handed(old(View()), msgs, sizes, maxRaftState)
    {
      handed := [];
      var i := 0;
      assert msgs[..0] == [] && sizes[..0] == [];
      while i < |msgs|
        invariant 0 <= i <= |msgs|
        invariant View() == HandleAll(old(View()), msgs[..i])
        invariant chanMap.Keys == old(chanMap).Keys
        invariant forall k :: k in chanMap ==> (chanMap[k] <==> old(chanMap)[k] || SomeWakes(msgs[..i], k))
        invariant handed == Handed(old(View()), msgs[..i], sizes[..i], maxRaftState)
      {
        ghost var before := msgs[..i];
        assert msgs[..i + 1][..i] == before && sizes[..i + 1][..i] == sizes[..i];
        var executed := ApplyOne(msgs[i]);
        if executed {
          var taken, index, data := MaybeSnapshot(sizes[i]);
          if taken {
            handed := handed + [(index, data)];
          }
        }
        forall k
          ensures SomeWakes(msgs[..i + 1], k) <==> SomeWakes(before, k) || Wakes(msgs[i], k)
        {
          WakesSnoc(before, msgs[i], k);
          assert before + [msgs[i]] == msgs[..i + 1];
        }
        i := i + 1;
      }
      assert msgs[..i] == msgs && sizes[..i] == sizes;
    }

    /** A handler puts itself on the waiting list before it proposes its request. */
    method Register(client: int, seqNum: int)
      modifies this`chanMap
      ensures chanMap == old(chanMap)[(client, seqNum) := false]
    {
      chanMap := chanMap[(client, seqNum) := false];
    }

    /** The end of the Get handler: read the store as it is when the signal is taken, and leave the list. */
    method FinishGet(key: string, client: int, seqNum: int, started: bool) returns (err: Err, value: string)
      modifies this`chanMap
      ensures chanMap == old(chanMap) - {(client, seqNum)}
      ensures var woken := started && (client, seqNum) in old(chanMap) && old(chanMap)[(client, seqNum)];
              err == (if !woken then ErrWrongLeader else if key in kvMap then OK else ErrNoKey)
      ensures err != ErrWrongLeader ==> value == Lookup(View().store.kvMap, key)
    {
      err, value := ErrWrongLeader, "";
      if started && (client, seqNum) in chanMap && chanMap[(client, seqNum)] {
        if key in kvMap {
          err, value := OK, kvMap[key];
        } else {
          err := ErrNoKey;
        }
      }
      chanMap := chanMap - {(client, seqNum)};
    }

    method FinishPutAppend(client: int, seqNum: int, started: bool) returns (err: Err)
      modifies this`chanMap
      ensures chanMap == old(chanMap) - {(client, seqNum)}
      ensures err == if started && (client, seqNum) in old(chanMap) && old(chanMap)[(client, seqNum)] then OK
              else ErrWrongLeader
    {
      err := if started && (client, seqNum) in chanMap && chanMap[(client, seqNum)] then OK else ErrWrongLeader;
      chanMap := chanMap - {(client, seqNum)};
    }
  }
}
