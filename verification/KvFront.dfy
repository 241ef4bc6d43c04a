/** Clerks, the requests they make, and the replies the servers give them. */
module KvFront {
  import opened KvOps
  import opened KvModel
  import opened KvStore
  import opened Operations

  /** One call of a clerk: when it was made and, once it has returned, when and with what. */
  datatype Invocation = Invocation(op: Op, call: nat, done: bool, ret: nat, value: string)

  /** An answer on its way to the clerk that made request `seqNum`. */
  datatype Reply = Reply(clientId: int, seqNum: int, value: string)

  datatype Front = Front(
    calls: seq<Invocation>,
    replies: set<Reply>,
    next: map<int, int>,        // each clerk's next sequence number
    now: nat                    // a clock that ticks at every step
  )

  const NO_CALLS := Front([], {}, map[], 0)

  /** A clerk's sequence number starts at 1. */
  function NextSeq(f: Front, client: int): int {
    if client in f.next then f.next[client] else 1
  }

  predicate Busy(f: Front, client: int) {
    exists i :: 0 <= i < |f.calls| && f.calls[i].op.clientId == client && !f.calls[i].done
  }

  predicate SameRequest(op: Op, client: int, seqNum: int) {
    op.clientId == client && op.seqNum == seqNum
  }

  // ---------------------------------------------------------------- steps

  function Tick(f: Front): Front {
    f.(now := f.now + 1)
  }

  /** A clerk that is not waiting for an answer makes its next request. */
  function Invoke(f: Front, client: int, typ: OpType, key: string, value: string): Front {
    if Busy(f, client) then Tick(f)
    else
      var op := Op(typ, key, value, client, NextSeq(f, client));
      Tick(f.(calls := f.calls + [Invocation(op, f.now, false, 0, "")]))
  }

  function Answered(store: Store, op: Op): Reply {
    Reply(op.clientId, op.seqNum, if op.typ == OpGet then Lookup(store.kvMap, op.key) else "")
  }

  /**
   The handler of a request is woken once its server has applied it, and reads the store the
   server has by then. Applying a request takes the client's last sequence number to it.
   */
  function Answer(f: Front, id: nat, store: Store): Front {
    if id < |f.calls| && f.calls[id].op.seqNum <= LastSeq(store, f.calls[id].op.clientId)
    then Tick(f.(replies := f.replies + {Answered(store, f.calls[id].op)}))
    else Tick(f)
  }

  predicate Taken(f: Front, id: nat, r: Reply) {
    id < |f.calls| && !f.calls[id].done && r in f.replies && SameRequest(f.calls[id].op, r.clientId, r.seqNum)
  }

  /** The waiting clerk takes an answer to its request, and moves to the next sequence number. */
  function Return(f: Front, id: nat, r: Reply): Front {
    if Taken(f, id, r) then
      Tick(f.(calls := f.calls[id := f.calls[id].(done := true, ret := f.now, value := r.value)],
              next := f.next[r.clientId := r.seqNum + 1]))
    else Tick(f)
  }

  /**
   A call can be completed: an idle clerk makes its request, a server that has executed it answers,
   and the clerk returns what that server's store holds and is ready for its next number.
   */
  lemma CallCompletes(f: Front, client: int, typ: OpType, key: string, value: string, store: Store)
    requires !Busy(f, client) && NextSeq(f, client) <= LastSeq(store, client)
    ensures var op := Op(typ, key, value, client, NextSeq(f, client));
            var read := if typ == OpGet then Lookup(store.kvMap, key) else "";
            var asked := Invoke(f, client, typ, key, value);
            var f' := Return(Answer(asked, |f.calls|, store), |f.calls|, Reply(client, op.seqNum, read));
            && asked.calls == f.calls + [Invocation(op, f.now, false, 0, "")]
            && f'.calls == f.calls + [Invocation(op, f.now, true, f.now + 2, read)]
            && NextSeq(f', client) == NextSeq(f, client) + 1 && !Busy(f', client)
            && forall c :: c != client ==> NextSeq(f', c) == NextSeq(f, c)
  {
    var asked := Invoke(f, client, typ, key, value);
    assert asked.calls[|f.calls|].op == Op(typ, key, value, client, NextSeq(f, client));
    var f' := Return(Answer(asked, |f.calls|, store), |f.calls|, Answered(store, asked.calls[|f.calls|].op));
    assert f'.calls[..|f.calls|] == f.calls;
    assert forall i :: 0 <= i < |f.calls| ==> f'.calls[i] == f.calls[i];
  }

  // ---------------------------------------------------------------- the history a test would record

  function OpCode(typ: OpType): nat {
    match typ
    case OpGet => 0
    case OpPut => 1
    case OpAppend => 2
  }

  /** A call that has not returned is recorded as returning now. */
  function OperationOf(f: Front, v: Invocation): Operation<KvValue> {
    Operation(Input(OpCode(v.op.typ), v.op.key, v.op.value), v.call, Output(v.value), if v.done then v.ret else f.now)
  }

  function OperationsOf(f: Front): (r: seq<Operation<KvValue>>)
    ensures |r| == |f.calls| && forall i :: 0 <= i < |r| ==> r[i] == OperationOf(f, f.calls[i])
  {
    seq(|f.calls|, i requires 0 <= i < |f.calls| => OperationOf(f, f.calls[i]))
  }

  ghost predicate Completed(f: Front, ids: set<nat>) {
    forall i: nat :: i < |f.calls| && f.calls[i].done ==> i in ids
  }

  ghost predicate MayCount(f: Front, ids: set<nat>) {
    forall i :: i in ids ==> i < |f.calls| && (f.calls[i].done || f.calls[i].op.typ != OpGet)
  }

  /**
   Linearizability of what the clerks saw: all calls that returned, and some of the writes that
   have not, took effect in one order that respects real time and that a single store accepts.
   */
  ghost predicate FrontLinearizable(f: Front) {
    exists ids :: Completed(f, ids) && MayCount(f, ids) && OpsLinearizable(StoreModel(), OperationsOf(f), ids)
  }

  // ---------------------------------------------------------------- invariant

  /** Where a call stands in the log: its length at the call, at the return, and where the answer was read. */
  datatype Mark = Mark(at: nat, until: nat, point: nat)

  /** An answer to `op` read after exactly the first `p` commands. */
  ghost predicate ReadAt(log: seq<Op>, op: Op, value: string, p: nat) {
    && p <= |log| && Has(log[..p], op.clientId, op.seqNum)
    && (op.typ == OpGet ==> value == Lookup(Fold(log[..p]).kvMap, op.key))
  }

  ghost predicate CallOK(log: seq<Op>, f: Front, v: Invocation, m: Mark) {
    && 1 <= v.op.seqNum <= NextSeq(f, v.op.clientId)
    && (v.done <==> v.op.seqNum < NextSeq(f, v.op.clientId))
    && v.call < f.now && m.at <= |log|
    && (forall k :: 1 <= k < v.op.seqNum ==> Has(log[..m.at], v.op.clientId, k))
    && (v.done ==> v.call <= v.ret < f.now && m.point <= m.until <= |log| && ReadAt(log, v.op, v.value, m.point))
  }

  ghost predicate CallsOK(log: seq<Op>, f: Front, marks: seq<Mark>) {
    |marks| == |f.calls| && forall j :: 0 <= j < |f.calls| ==> CallOK(log, f, f.calls[j], marks[j])
  }

  predicate Unique(f: Front) {
    forall i, j :: 0 <= i < j < |f.calls| ==> !SameRequest(f.calls[i].op, f.calls[j].op.clientId, f.calls[j].op.seqNum)
  }

  /** A clerk moves on only when its request is in the log. */
  ghost predicate NextOK(log: seq<Op>, f: Front) {
    forall c :: NextSeq(f, c) >= 1 && forall k :: 1 <= k < NextSeq(f, c) ==> Has(log, c, k)
  }

  ghost predicate TimesOK(f: Front, marks: seq<Mark>)
    requires |marks| == |f.calls|
  {
    forall i, j :: 0 <= i < |marks| && 0 <= j < |marks| && f.calls[i].done && f.calls[i].ret < f.calls[j].call
      ==> marks[i].until <= marks[j].at
  }

  /** The command at `i` is a request that had been made when the log was that long. */
  ghost predicate Issued(f: Front, marks: seq<Mark>, op: Op, i: nat)
    requires |marks| == |f.calls|
  {
    exists j :: 0 <= j < |f.calls| && f.calls[j].op == op && marks[j].at <= i
  }

  predicate Made(f: Front, op: Op) {
    exists j :: 0 <= j < |f.calls| && f.calls[j].op == op
  }

  ghost predicate EntriesOK(log: seq<Op>, f: Front, marks: seq<Mark>)
    requires |marks| == |f.calls|
  {
    forall i :: 0 <= i < |log| ==> Issued(f, marks, log[i], i)
  }

  ghost predicate ReplyOK(log: seq<Op>, f: Front, r: Reply) {
    exists j: nat, p: nat :: j < |f.calls| && SameRequest(f.calls[j].op, r.clientId, r.seqNum) &&
        ReadAt(log, f.calls[j].op, r.value, p)
  }

  ghost predicate RepliesOK(log: seq<Op>, f: Front) {
    forall r :: r in f.replies ==> ReplyOK(log, f, r)
  }

  ghost predicate FrontOK(log: seq<Op>, f: Front, marks: seq<Mark>) {
    && CallsOK(log, f, marks) && Unique(f) && NextOK(log, f) && TimesOK(f, marks)
    && EntriesOK(log, f, marks) && RepliesOK(log, f)
  }

  lemma NoCallsOK()
    ensures FrontOK([], NO_CALLS, [])
  {
  }

  lemma ReadAtGrows(log: seq<Op>, log': seq<Op>, op: Op, value: string, p: nat)
    requires ReadAt(log, op, value, p) && log <= log'
    ensures ReadAt(log', op, value, p)
  {
    assert log'[..p] == log[..p];
  }

  lemma HasExtends(log: seq<Op>, log': seq<Op>, c: int, k: int)
    requires log <= log' && Has(log, c, k)
    ensures Has(log', c, k)
  {
    assert log'[..|log|] == log && log'[..|log'|] == log';
    HasGrows(log', |log|, |log'|, c, k);
  }

  lemma CallOKGrows(log: seq<Op>, log': seq<Op>, f: Front, v: Invocation, m: Mark)
    requires CallOK(log, f, v, m) && log <= log'
    ensures CallOK(log', f, v, m)
  {
    hide Has, ReadAt;
    assert log'[..m.at] == log[..m.at];
    if v.done {
      ReadAtGrows(log, log', v.op, v.value, m.point);
    }
  }

  /** The log may grow by any requests that have been made. */
  lemma LogGrows(log: seq<Op>, log': seq<Op>, f: Front, marks: seq<Mark>)
    requires FrontOK(log, f, marks) && log <= log'
    requires forall i :: |log| <= i < |log'| ==> Made(f, log'[i])
    ensures FrontOK(log', f, marks)
  {
    hide CallOK, Has, ReadAt, Unique, TimesOK;
    forall j | 0 <= j < |f.calls|
      ensures CallOK(log', f, f.calls[j], marks[j])
    {
      CallOKGrows(log, log', f, f.calls[j], marks[j]);
    }
    forall c, k | 1 <= k < NextSeq(f, c)
      ensures Has(log', c, k)
    {
      HasExtends(log, log', c, k);
    }
    forall i | 0 <= i < |log'|
      ensures Issued(f, marks, log'[i], i)
    {
      if i < |log| {
        assert Issued(f, marks, log[i], i);
      } else {
        assert Made(f, log'[i]);
        var j :| 0 <= j < |f.calls| && f.calls[j].op == log'[i];
        MarkBound(log, f, f.calls[j], marks[j]);
      }
    }
    forall r | r in f.replies
      ensures ReplyOK(log', f, r)
    {
      assert ReplyOK(log, f, r);
      var j: nat, p: nat :| j < |f.calls| && SameRequest(f.calls[j].op, r.clientId, r.seqNum) &&
          ReadAt(log, f.calls[j].op, r.value, p);
      ReadAtGrows(log, log', f.calls[j].op, r.value, p);
    }
  }

  lemma MarkBound(log: seq<Op>, f: Front, v: Invocation, m: Mark)
    requires CallOK(log, f, v, m)
    ensures m.at <= |log| && v.call < f.now && (v.done ==> m.until <= |log|)
  {
  }

  lemma TickOK(log: seq<Op>, f: Front, marks: seq<Mark>)
    requires FrontOK(log, f, marks)
    ensures FrontOK(log, Tick(f), marks)
  {
    hide Has, ReadAt, NextOK;
    var g := Tick(f);
    forall c
      ensures NextSeq(g, c) == NextSeq(f, c)
    {
    }
    assert NextOK(log, g) by {
      NextSame(log, f, g);
    }
    forall j | 0 <= j < |f.calls|
      ensures CallOK(log, g, f.calls[j], marks[j])
    {
      assert CallOK(log, f, f.calls[j], marks[j]);
    }
    forall i | 0 <= i < |log|
      ensures Issued(g, marks, log[i], i)
    {
      assert Issued(f, marks, log[i], i);
    }
    forall r | r in g.replies
      ensures ReplyOK(log, g, r)
    {
      assert ReplyOK(log, f, r);
    }
  }

  lemma NextSame(log: seq<Op>, f: Front, g: Front)
    requires NextOK(log, f) && g.next == f.next
    ensures NextOK(log, g)
  {
    hide Has;
    forall c
      ensures NextSeq(g, c) >= 1 && forall k :: 1 <= k < NextSeq(g, c) ==> Has(log, c, k)
    {
      assert NextSeq(g, c) == NextSeq(f, c);
    }
  }

  lemma CallNumber(log: seq<Op>, f: Front, marks: seq<Mark>, id: nat)
    requires CallsOK(log, f, marks) && id < |f.calls|
    ensures f.calls[id].op.seqNum >= 1
  {
    hide Has, ReadAt;
    assert CallOK(log, f, f.calls[id], marks[id]);
  }

  /** An answer from the store of a prefix of the log is one read behind that prefix. */
  lemma AnswerRead(log: seq<Op>, applied: seq<Op>, op: Op)
    requires Serial(log) && applied <= log && 1 <= op.seqNum <= LastSeq(Fold(applied), op.clientId)
    ensures ReadAt(log, op, Answered(Fold(applied), op).value, |applied|)
  {
    hide Has, Serial, LastSeq, Fold;
    assert log[..|applied|] == applied;
    SerialPrefix(log, |applied|);
    LastSeqMeans(applied, op.clientId, op.seqNum);
  }

  lemma AnswerOK(log: seq<Op>, f: Front, marks: seq<Mark>, id: nat, applied: seq<Op>)
    requires FrontOK(log, f, marks) && applied <= log
    ensures FrontOK(log, Answer(f, id, Fold(applied)), marks)
  {
    hide Has, CallsOK, Unique, NextOK, TimesOK, EntriesOK, Serial, LastSeq, Fold, ReadAt;
    TickOK(log, f, marks);
    if id < |f.calls| && f.calls[id].op.seqNum <= LastSeq(Fold(applied), f.calls[id].op.clientId) {
      var op := f.calls[id].op;
      LogSerial(log, f, marks);
      CallNumber(log, f, marks, id);
      var g, t := Answer(f, id, Fold(applied)), Tick(f);
      var r := Answered(Fold(applied), op);
      AnswerRead(log, applied, op);
      assert ReplyOK(log, g, r);
      forall q | q in f.replies
        ensures ReplyOK(log, g, q)
      {
        assert ReplyOK(log, f, q);
      }
      SameCalls(log, t, g, marks);
    }
  }

  lemma SameCalls(log: seq<Op>, f: Front, g: Front, marks: seq<Mark>)
    requires CallsOK(log, f, marks) && Unique(f) && NextOK(log, f) && TimesOK(f, marks) && EntriesOK(log, f, marks)
    requires g.calls == f.calls && g.next == f.next && g.now == f.now
    ensures CallsOK(log, g, marks) && Unique(g) && NextOK(log, g) && TimesOK(g, marks) && EntriesOK(log, g, marks)
  {
    hide Has, ReadAt, NextOK;
    NextSame(log, f, g);
    forall j | 0 <= j < |g.calls|
      ensures CallOK(log, g, g.calls[j], marks[j])
    {
      assert CallOK(log, f, f.calls[j], marks[j]);
    }
    forall i | 0 <= i < |log|
      ensures Issued(g, marks, log[i], i)
    {
      assert Issued(f, marks, log[i], i);
    }
  }

  /** Calls are added and answered, never changed in what they ask. */
  predicate Extends(f: Front, marks: seq<Mark>, g: Front, marks': seq<Mark>) {
    && |marks| == |f.calls| <= |g.calls| == |marks'|
    && (forall j :: 0 <= j < |f.calls| ==> g.calls[j].op == f.calls[j].op && marks'[j].at == marks[j].at)
  }

  lemma EntriesStay(log: seq<Op>, f: Front, marks: seq<Mark>, g: Front, marks': seq<Mark>)
    requires Extends(f, marks, g, marks') && EntriesOK(log, f, marks)
    ensures EntriesOK(log, g, marks')
  {
    forall i | 0 <= i < |log|
      ensures Issued(g, marks', log[i], i)
    {
      assert Issued(f, marks, log[i], i);
      var j :| 0 <= j < |f.calls| && f.calls[j].op == log[i] && marks[j].at <= i;
      assert g.calls[j].op == log[i] && marks'[j].at <= i;
    }
  }

  lemma RepliesStay(log: seq<Op>, f: Front, marks: seq<Mark>, g: Front, marks': seq<Mark>)
    requires Extends(f, marks, g, marks') && RepliesOK(log, f) && g.replies == f.replies
    ensures RepliesOK(log, g)
  {
    hide ReadAt;
    forall r | r in g.replies
      ensures ReplyOK(log, g, r)
    {
      assert ReplyOK(log, f, r);
      var j: nat, p: nat :| j < |f.calls| && SameRequest(f.calls[j].op, r.clientId, r.seqNum) &&
          ReadAt(log, f.calls[j].op, r.value, p);
      assert g.calls[j].op == f.calls[j].op;
    }
  }

  lemma InvokeOK(log: seq<Op>, f: Front, marks: seq<Mark>, client: int, typ: OpType, key: string, value: string)
    returns (marks': seq<Mark>)
    requires FrontOK(log, f, marks)
    ensures FrontOK(log, Invoke(f, client, typ, key, value), marks')
  {
    TickOK(log, f, marks);
    if Busy(f, client) {
      marks' := marks;
    } else {
      hide Has, ReadAt, CallOK, NextOK, EntriesOK, RepliesOK, TimesOK, Unique, Busy;
      var g := Invoke(f, client, typ, key, value);
      marks' := marks + [Mark(|log|, 0, 0)];
      NextSame(log, f, g);
      EntriesStay(log, f, marks, g, marks');
      RepliesStay(log, f, marks, g, marks');
      InvokeCalls(log, f, marks, client, typ, key, value);
      InvokeTimes(log, f, marks, client, typ, key, value);
    }
  }

  lemma InvokeCalls(log: seq<Op>, f: Front, marks: seq<Mark>, client: int, typ: OpType, key: string, value: string)
    requires CallsOK(log, f, marks) && NextOK(log, f) && Unique(f) && !Busy(f, client)
    ensures var g := Invoke(f, client, typ, key, value);
            CallsOK(log, g, marks + [Mark(|log|, 0, 0)]) && Unique(g)
  {
    hide Has, ReadAt, NextOK;
    var g, marks' := Invoke(f, client, typ, key, value), marks + [Mark(|log|, 0, 0)];
    var op := Op(typ, key, value, client, NextSeq(f, client));
    NewCallOK(log, f, op);
    forall j | 0 <= j < |g.calls|
      ensures CallOK(log, g, g.calls[j], marks'[j])
      ensures j < |f.calls| ==> !SameRequest(f.calls[j].op, op.clientId, op.seqNum)
    {
      if j < |f.calls| {
        assert CallOK(log, f, f.calls[j], marks[j]);
      } else {
        assert log[..|log|] == log;
      }
    }
  }

  lemma InvokeTimes(log: seq<Op>, f: Front, marks: seq<Mark>, client: int, typ: OpType, key: string, value: string)
    requires CallsOK(log, f, marks) && TimesOK(f, marks) && !Busy(f, client)
    ensures TimesOK(Invoke(f, client, typ, key, value), marks + [Mark(|log|, 0, 0)])
  {
    hide CallOK, Busy;
    var g, marks' := Invoke(f, client, typ, key, value), marks + [Mark(|log|, 0, 0)];
    forall i, j | 0 <= i < |marks'| && 0 <= j < |marks'| && g.calls[i].done && g.calls[i].ret < g.calls[j].call
      ensures marks'[i].until <= marks'[j].at
    {
      MarkBound(log, f, f.calls[i], marks[i]);
    }
  }

  lemma NewCallOK(log: seq<Op>, f: Front, op: Op)
    requires NextOK(log, f) && op.seqNum == NextSeq(f, op.clientId)
    ensures op.seqNum >= 1 && forall k :: 1 <= k < op.seqNum ==> Has(log, op.clientId, k)
  {
  }

  /** The answer a clerk takes was read at some point after its request. */
  lemma ReplyFor(log: seq<Op>, f: Front, id: nat, r: Reply) returns (p: nat)
    requires Unique(f) && RepliesOK(log, f) && r in f.replies
    requires id < |f.calls| && SameRequest(f.calls[id].op, r.clientId, r.seqNum)
    ensures ReadAt(log, f.calls[id].op, r.value, p)
  {
    hide ReadAt;
    assert ReplyOK(log, f, r);
    var j: nat, q: nat :| j < |f.calls| && SameRequest(f.calls[j].op, r.clientId, r.seqNum) &&
        ReadAt(log, f.calls[j].op, r.value, q);
    assert j == id;
    p := q;
  }

  lemma ReturnOK(log: seq<Op>, f: Front, marks: seq<Mark>, id: nat, r: Reply) returns (marks': seq<Mark>)
    requires FrontOK(log, f, marks)
    ensures FrontOK(log, Return(f, id, r), marks')
  {
    TickOK(log, f, marks);
    if Taken(f, id, r) {
      hide Has, ReadAt, CallOK, NextOK, EntriesOK, RepliesOK, TimesOK, SameRequest;
      var p := ReplyFor(log, f, id, r);
      var g := Return(f, id, r);
      marks' := marks[id := Mark(marks[id].at, |log|, p)];
      ReturnCalls(log, f, marks, id, r, p);
      EntriesStay(log, f, marks, g, marks');
      RepliesStay(log, f, marks, g, marks');
      ReturnTimes(log, f, marks, id, r, p);
    } else {
      marks' := marks;
    }
  }

  lemma ReturnCalls(log: seq<Op>, f: Front, marks: seq<Mark>, id: nat, r: Reply, p: nat)
    requires CallsOK(log, f, marks) && Unique(f) && NextOK(log, f) && Taken(f, id, r)
    requires ReadAt(log, f.calls[id].op, r.value, p)
    ensures NextOK(log, Return(f, id, r))
    ensures CallsOK(log, Return(f, id, r), marks[id := Mark(marks[id].at, |log|, p)])
  {
    hide Has, ReadAt, NextOK;
    var g, marks' := Return(f, id, r), marks[id := Mark(marks[id].at, |log|, p)];
    assert CallOK(log, f, f.calls[id], marks[id]);
    AnsweredNext(log, f, g, f.calls[id].op, r.value, p);
    forall j | 0 <= j < |g.calls|
      ensures CallOK(log, g, g.calls[j], marks'[j])
    {
      assert CallOK(log, f, f.calls[j], marks[j]);
      if j != id {
        assert !SameRequest(f.calls[j].op, r.clientId, r.seqNum);
      }
    }
  }

  lemma ReturnTimes(log: seq<Op>, f: Front, marks: seq<Mark>, id: nat, r: Reply, p: nat)
    requires CallsOK(log, f, marks) && TimesOK(f, marks) && Taken(f, id, r)
    ensures TimesOK(Return(f, id, r), marks[id := Mark(marks[id].at, |log|, p)])
  {
    hide CallOK;
    var g, marks' := Return(f, id, r), marks[id := Mark(marks[id].at, |log|, p)];
    forall i, j | 0 <= i < |marks'| && 0 <= j < |marks'| && g.calls[i].done && g.calls[i].ret < g.calls[j].call
      ensures marks'[i].until <= marks'[j].at
    {
      MarkBound(log, f, f.calls[j], marks[j]);
    }
  }

  lemma AnsweredNext(log: seq<Op>, f: Front, g: Front, op: Op, value: string, p: nat)
    requires NextOK(log, f) && ReadAt(log, op, value, p) && op.seqNum == NextSeq(f, op.clientId)
    requires g.next == f.next[op.clientId := op.seqNum + 1]
    ensures NextOK(log, g)
    ensures forall c :: NextSeq(g, c) == if c == op.clientId then op.seqNum + 1 else NextSeq(f, c)
    ensures p <= |log|
  {
    assert log[..|log|] == log;
    HasGrows(log, p, |log|, op.clientId, op.seqNum);
    hide Has;
    forall c
      ensures NextSeq(g, c) >= 1 && forall k :: 1 <= k < NextSeq(g, c) ==> Has(log, c, k)
    {
      assert NextSeq(f, c) >= 1;
      forall k | 1 <= k < NextSeq(g, c)
        ensures Has(log, c, k)
      {
        if c != op.clientId || k != op.seqNum {
          assert k < NextSeq(f, c);
        }
      }
    }
  }

  /**
   A clerk's number is the object's: a new call carries it, an answer taken raises it by one, and
   nothing else changes it.
   */
  lemma ClerkNumbers(log: seq<Op>, f: Front, marks: seq<Mark>, client: int, typ: OpType, key: string, value: string,
                     id: nat, r: Reply)
    requires FrontOK(log, f, marks)
    ensures var g := Invoke(f, client, typ, key, value);
            && g.next == f.next
            && (|g.calls| > |f.calls| ==> g.calls[|f.calls|].op == Op(typ, key, value, client, NextSeq(f, client)))
    ensures var g := Return(f, id, r);
            forall c :: NextSeq(g, c) == NextSeq(f, c) + if Taken(f, id, r) && c == r.clientId then 1 else 0
  {
    hide Has, ReadAt, NextOK, RepliesOK, EntriesOK, TimesOK, Unique;
    if Taken(f, id, r) {
      assert CallOK(log, f, f.calls[id], marks[id]);
    }
  }

  /** The log the clerks produce is serial. */
  lemma LogSerial(log: seq<Op>, f: Front, marks: seq<Mark>)
    requires FrontOK(log, f, marks)
    ensures Serial(log)
  {
    hide Has, ReadAt, NextOK, RepliesOK, TimesOK, Unique;
    forall i | 0 <= i < |log|
      ensures log[i].seqNum >= 1 && forall k :: 1 <= k < log[i].seqNum ==> Has(log[..i], log[i].clientId, k)
    {
      assert Issued(f, marks, log[i], i);
      var j :| 0 <= j < |f.calls| && f.calls[j].op == log[i] && marks[j].at <= i;
      assert CallOK(log, f, f.calls[j], marks[j]);
      forall k | 1 <= k < log[i].seqNum
        ensures Has(log[..i], log[i].clientId, k)
      {
        HasGrows(log, marks[j].at, i, log[i].clientId, k);
      }
    }
  }
}
