/**
 A run of three servers and three clerks in which a write is lost.

 Server 0 leads, commits a first write with server 1, compacts, and brings server 2 up to date by a
 snapshot and a second write. Server 2 then leads and commits a read. On its way to the service of
 server 2 the snapshot is overtaken by the second write, so the read does not see it, although the
 write was answered before the read was made.
 */
module LostWrite {
  import opened KvOps
  import opened KvModel
  import opened KvStore
  import opened KvFront
  import opened KvServer
  import opened KvSystem
  import opened ApplyOrder
  import opened RaftLog
  import opened RaftPeer
  import opened RaftSystem
  import opened RaftTheorems
  import opened LostWriteSteps
  import opened Linearizability
  import opened Operations
  import Locality

  // ---------------------------------------------------------------- one step at a time

  function Cluster(pre: seq<KvStep>): State {
    Run(3, KvRun(3, pre).trace)
  }

  function Arrived(pre: seq<KvStep>): (r: seq<seq<nat>>)
    ensures |r| == 3
  {
    KvRun(3, pre).arrived
  }

  function Calls(pre: seq<KvStep>): Front {
    KvRun(3, pre).front
  }

  lemma KvRunSnoc(pre: seq<KvStep>, step: KvStep)
    ensures KvRun(3, pre + [step]) == KvNext(3, KvRun(3, pre), step)
  {
    assert (pre + [step])[..|pre|] == pre;
  }

  lemma ByRaft(pre: seq<KvStep>, st: Step)
    requires !st.Start? && !st.Crash?
    ensures var run := pre + [OfRaft(st)];
            && Cluster(run) == Next(3, Cluster(pre), st)
            && Arrived(run) == Arrived(pre) && Calls(run) == Tick(Calls(pre))
  {
    KvRunSnoc(pre, OfRaft(st));
    hide KvRun, Run, Next;
    RunSnoc(3, KvRun(3, pre).trace, st);
  }

  lemma BySubmit(pre: seq<KvStep>, x: nat, id: nat, op: Op)
    requires id < |Calls(pre).calls| && Calls(pre).calls[id].op == op
    ensures var run := pre + [Submit(x, id)];
            && Cluster(run) == Next(3, Cluster(pre), Start(x, Request(op)))
            && Arrived(run) == Arrived(pre) && Calls(run) == Tick(Calls(pre))
  {
    KvRunSnoc(pre, Submit(x, id));
    hide KvRun, Run, Next;
    RunSnoc(3, KvRun(3, pre).trace, Start(x, Request(op)));
  }

  lemma ByApply(pre: seq<KvStep>, x: nat, m: nat)
    requires x < 3 && CanArrive(Snaps(Cluster(pre).nodes[x].stream), Arrived(pre)[x], m)
    ensures var run := pre + [Apply(x, m)];
            && Cluster(run) == Cluster(pre) && Arrived(run) == Arrived(pre)[x := Arrived(pre)[x] + [m]]
            && Calls(run) == Tick(Calls(pre))
  {
    KvRunSnoc(pre, Apply(x, m));
    hide KvRun, Run;
  }

  lemma ByRespond(pre: seq<KvStep>, x: nat, id: nat, store: Store)
    requires x < 3 && ServerOf(3, KvRun(3, pre), x).store == store
    ensures var run := pre + [Respond(x, id)];
            && Cluster(run) == Cluster(pre) && Arrived(run) == Arrived(pre) &&
                Calls(run) == Answer(Calls(pre), id, store)
  {
    KvRunSnoc(pre, Respond(x, id));
    hide KvRun, Run, ServerOf;
  }

  lemma ByAsk(pre: seq<KvStep>, client: int, typ: OpType, key: string, value: string)
    ensures var run := pre + [Ask(client, typ, key, value)];
            && Cluster(run) == Cluster(pre) && Arrived(run) == Arrived(pre)
            && Calls(run) == Invoke(Calls(pre), client, typ, key, value)
  {
    KvRunSnoc(pre, Ask(client, typ, key, value));
    hide KvRun, Run;
  }

  lemma ByAccept(pre: seq<KvStep>, id: nat, r: Reply)
    ensures var run := pre + [Accept(id, r)];
            && Cluster(run) == Cluster(pre) && Arrived(run) == Arrived(pre) && Calls(run) == Return(Calls(pre), id, r)
  {
    KvRunSnoc(pre, Accept(id, r));
    hide KvRun, Run;
  }

  /** Only time has passed for the clerks and the services. */
  predicate Elsewhere(pre: seq<KvStep>, run: seq<KvStep>) {
    && Arrived(run) == Arrived(pre)
    && Calls(run) == Calls(pre).(now := Calls(run).now) && Calls(run).now >= Calls(pre).now
  }

  // ---------------------------------------------------------------- the run, phase by phase

  function Nd(p: Peer, rounds: seq<Round>, stream: seq<ApplyMsg>): Node {
    Node(p, rounds, 0, [], stream)
  }

  const NEW := Nd(Boot(Blank), [], [])

  function Won(t: int, v: nat): seq<Round>
    requires v < 3
  {
    Asking(t, [Idle, Idle, Idle][v := Counted], 2)
  }

  /** Candidate `x` stands, gets the vote of `v`, and leads. */
  lemma Elects(pre: seq<KvStep>, x: nat, v: nat, p: Peer, c: Peer, a: VoteArgs, p': Peer) returns (run: seq<KvStep>)
    requires x < 3 && v < 3 && v != x
    requires var nodes := Cluster(pre).nodes;
             |nodes| == 3 && nodes[x] == Nd(p, [], nodes[x].stream) && Stands(p, nodes[v].peer, x, c, a, p')
    ensures Elsewhere(pre, run) && |Cluster(pre).nodes| == 3
    ensures var nodes := Cluster(pre).nodes;
            Cluster(run).nodes == nodes[v := nodes[v].(peer := p')]
                                       [x := Nd(BecomeLeader(c, x, 3), Won(a.term, v), nodes[x].stream)]
  {
    hide Cluster, Arrived, Calls, Next, HandleVote, BecomeLeader, MakeVoteArgs;
    var s0 := Cluster(pre);
    var st := VoteSteps(x, v, a);
    TimesOut(s0, x, p);
    ByRaft(pre, Timeout(x));
    var r1 := pre + [OfRaft(Timeout(x))];
    Asks(Cluster(r1), x, v);
    ByRaft(r1, st[0]);
    var r2 := r1 + [OfRaft(st[0])];
    assert Cluster(r2).nodes[v] == s0.nodes[v];
    Votes(Cluster(r2), x, v, a, p');
    ByRaft(r2, st[1]);
    var r3 := r2 + [OfRaft(st[1])];
    Wins(Cluster(r3), x, v, a.term);
    ByRaft(r3, st[2]);
    run := r3 + [OfRaft(st[2])];
  }

  /** Leader `x` proposes the request of call `id`, replicates it to `v`, learns of it, and delivers. */
  lemma Commits(pre: seq<KvStep>, x: nat, v: nat, id: nat, op: Op, p1: Peer, a: AppendArgs, q: Peer,
                p2: Peer, p3: Peer, out: seq<ApplyMsg>) returns (run: seq<KvStep>)
    requires x < 3 && v < 3 && v != x && id < |Calls(pre).calls| && Calls(pre).calls[id].op == op
    requires var nodes := Cluster(pre).nodes;
             && |nodes| == 3 && nodes[x].boots == 0
             && Exchanges(nodes[x].peer, nodes[v].peer, x, v, op, p1, a, q, p2, p3, out)
    ensures Elsewhere(pre, run) && |Cluster(pre).nodes| == 3
    ensures var nodes := Cluster(pre).nodes;
            Cluster(run).nodes == nodes[v := nodes[v].(peer := q)]
                                       [x := nodes[x].(peer := p3, stream := nodes[x].stream + out)]
  {
    hide Cluster, Arrived, Calls, Next, HandleAppend, HandleAppendReply, HandleKick, HandleStart, MakeAppendArgs;
    var s0 := Cluster(pre);
    Proposes(s0, x, Request(op));
    BySubmit(pre, x, id, op);
    var r1 := pre + [Submit(x, id)];
    Sends(Cluster(r1), x, v, a);
    ByRaft(r1, Replicate(x, v));
    var r2 := r1 + [OfRaft(Replicate(x, v))];
    assert Cluster(r2).nodes[v] == s0.nodes[v];
    Takes(Cluster(r2), x, v, a, q, Yes(a.term));
    var m1, m2 := AppendReq(x, v, 0, a), AppendResp(v, x, 0, a, Yes(a.term));
    ByRaft(r2, Receive(m1));
    var r3 := r2 + [OfRaft(Receive(m1))];
    Learns(Cluster(r3), x, v, a, Yes(a.term));
    ByRaft(r3, Receive(m2));
    var r4 := r3 + [OfRaft(Receive(m2))];
    Delivers(Cluster(r4), x, p3, out);
    ByRaft(r4, Deliver(x));
    run := r4 + [OfRaft(Deliver(x))];
  }

  /** Server 0 compacts its first command and brings server 2 up to date with the snapshot. */
  lemma InstallsSnapshot(pre: seq<KvStep>, rounds: seq<Round>) returns (run: seq<KvStep>)
    requires var nodes := Cluster(pre).nodes;
             |nodes| == 3 && nodes[0] == Nd(Leader0Committed(), rounds, [CommandMsg(1, Request(A))]) && nodes[2] == NEW
    ensures Elsewhere(pre, run) && |Cluster(pre).nodes| == 3
    ensures Cluster(run).nodes == Cluster(pre).nodes[0 := Nd(Leader0Told(), rounds, [CommandMsg(1, Request(A))])]
                                                    [2 := Nd(Installed2(), [], [SnapshotMsg(1, [Request(A)])])]
  {
    hide Cluster, Arrived, Calls, Next, HandleInstall, HandleInstallReply, TakeSnapshot, MakeInstallArgs, Boot;
    Compact0();
    Install2();
    var s0 := Cluster(pre);
    Compacts(s0, 0, 1, Request(A));
    ByRaft(pre, Compact(0, 1));
    var r1 := pre + [OfRaft(Compact(0, 1))];
    SendsSnapshot(Cluster(r1), 0, 2);
    ByRaft(r1, Replicate(0, 2));
    var r2 := r1 + [OfRaft(Replicate(0, 2))];
    assert Cluster(r2).nodes[2] == NEW;
    EmptyLog();
    Installs(Cluster(r2), 0, 2, INSTALL_A, Installed2(), 1, [SnapshotMsg(1, [Request(A)])]);
    var m1, m2 := InstallReq(0, 2, 0, INSTALL_A), InstallResp(2, 0, 0, INSTALL_A, 1);
    ByRaft(r2, Receive(m1));
    var r3 := r2 + [OfRaft(Receive(m1))];
    LearnsInstalled(Cluster(r3), 0, 2, INSTALL_A, 1);
    ByRaft(r3, Receive(m2));
    run := r3 + [OfRaft(Receive(m2))];
    var none: seq<ApplyMsg> := [];
    assert none + [SnapshotMsg(1, [Request(A)])] == [SnapshotMsg(1, [Request(A)])];
  }

  lemma EmptyLog()
    ensures Boot(Blank).log != []
  {
  }

  // ---------------------------------------------------------------- what the services make of it

  lemma HandleTwo(sv: Server, a: Incoming, b: Incoming)
    ensures HandleAll(sv, [a, b]) == Handle(Handle(sv, a), b)
  {
    assert [a, b][..1] == [a] && [a][..0] == [];
    assert HandleAll(sv, [a]) == Handle(sv, a);
  }

  lemma HandleThree(sv: Server, a: Incoming, b: Incoming, c: Incoming)
    ensures HandleAll(sv, [a, b, c]) == Handle(Handle(Handle(sv, a), b), c)
  {
    assert [a, b, c][..2] == [a, b];
    HandleTwo(sv, a, b);
  }

  const STORE_A := Store(map["x" := "1"], map[1 := 1])
  const STORE_AB := Store(map["x" := "1", "y" := "2"], map[1 := 1, 2 := 1])
  const STORE_AC := Store(map["x" := "1"], map[1 := 1, 3 := 1])

  lemma AfterNothing()
    ensures Decode(FRESH, Encode(After([]))) == FRESH
  {
  }

  lemma AfterA()
    ensures After([Request(A)]) == Server(STORE_A, 1)
  {
    assert OpsOf([Request(A)]) == [A];
    assert [A][..0] == [];
    assert Fold([A]) == Execute(EMPTY, A);
  }

  /** Server 0, in order: both writes are in the store. */
  lemma InOrder0()
    ensures var stream := [CommandMsg(1, Request(A)), CommandMsg(2, Request(B))];
            && AllCarry(stream) && ApplyOrder.Within(Snaps(stream), [0, 1])
            && HandleAll(FRESH, Arrivals(stream, [0, 1])).store == STORE_AB
  {
    var stream := [CommandMsg(1, Request(A)), CommandMsg(2, Request(B))];
    assert Arrivals(stream, [0, 1]) == [NewCommand(1, A), NewCommand(2, B)];
    HandleTwo(FRESH, NewCommand(1, A), NewCommand(2, B));
    assert Handle(FRESH, NewCommand(1, A)).store == STORE_A;
  }

  const STREAM2 := [SnapshotMsg(1, [Request(A)]), CommandMsg(2, Request(B)), CommandMsg(3, Request(C))]

  /** Server 2, with the snapshot overtaken: the second write is gone. */
  lemma Overtaken2()
    ensures AllCarry(STREAM2) && ApplyOrder.Within(Snaps(STREAM2), [1, 0, 2])
    ensures CanArrive(Snaps(STREAM2), [], 1) && CanArrive(Snaps(STREAM2), [1], 0) &&
            CanArrive(Snaps(STREAM2), [1, 0], 2)
    ensures HandleAll(FRESH, Arrivals(STREAM2, [1, 0, 2])).store == STORE_AC
    ensures !InTurn(Snaps(STREAM2), [1], 0)
  {
    AfterA();
    var b, a, c := NewCommand(2, B), NewSnapshot(1, Encode(Server(STORE_A, 1))), NewCommand(3, C);
    assert Arrivals(STREAM2, [1, 0, 2]) == [b, a, c];
    HandleThree(FRESH, b, a, c);
    assert Handle(Handle(FRESH, b), a) == Server(STORE_A, 1);
    assert [1][..0] == [];
    assert Reach([1]) == 2;
  }

  lemma ServerIs(pre: seq<KvStep>, x: nat, p: Peer, rounds: seq<Round>, stream: seq<ApplyMsg>, arr: seq<nat>)
    requires x < 3 && |Cluster(pre).nodes| == 3 && Cluster(pre).nodes[x] == Nd(p, rounds, stream) &&
             Arrived(pre)[x] == arr
    requires AllCarry(stream) && ApplyOrder.Within(Snaps(stream), arr)
    ensures ServerOf(3, KvRun(3, pre), x) == HandleAll(FRESH, Arrivals(stream, arr))
  {
    hide KvRun, Run, HandleAll, Arrivals;
    AfterNothing();
  }

  // ---------------------------------------------------------------- the whole run

  const CMD_A := CommandMsg(1, Request(A))
  const CMD_B := CommandMsg(2, Request(B))
  const SNAP_A := SnapshotMsg(1, [Request(A)])

  lemma Start3()
    ensures Cluster([]).nodes == [NEW, NEW, NEW] && Arrived([]) == [[], [], []] && Calls([]) == NO_CALLS
  {
  }

  /** Server 0 is elected and has committed the first write with server 1. */
  lemma FirstWrite() returns (run: seq<KvStep>)
    ensures Cluster(run).nodes == [Nd(Leader0Committed(), Won(1, 1), [CMD_A]), Nd(Follower1A(), [], []), NEW]
    ensures Arrived(run) == [[0], [], []]
    ensures Calls(run) == Front([Invocation(A, 0, false, 0, "")], {}, map[], Calls(run).now)
  {
    hide Cluster, Arrived, Calls, Stands, Exchanges, Boot, BecomeLeader,
         Candidate0, Voter1, Leader0, Leader0A, Leader0Committed, Follower1A;
    Start3();
    Stands0();
    ExchangesA();
    var pre: seq<KvStep> := [];
    ByAsk(pre, 1, OpPut, "x", "1");
    var r1 := pre + [Ask(1, OpPut, "x", "1")];
    assert Calls(r1).calls == [Invocation(A, 0, false, 0, "")];
    var r2 := Elects(r1, 0, 1, Boot(Blank), Candidate0(), VoteArgs(1, 0, 0, -1), Voter1());
    assert Cluster(r2).nodes == [Nd(Leader0(), Won(1, 1), []), Nd(Voter1(), [], []), NEW];
    var r3 := Commits(r2, 0, 1, 0, A, Leader0A(), SEND_A, Follower1A(),
                      Leader0Committed().(lastApplied := 0), Leader0Committed(), [CMD_A]);
    var none: seq<ApplyMsg> := [];
    assert none + [CMD_A] == [CMD_A];
    assert Cluster(r3).nodes == [Nd(Leader0Committed(), Won(1, 1), [CMD_A]), Nd(Follower1A(), [], []), NEW];
    assert Snaps([CMD_A]) == [false];
    ByApply(r3, 0, 0);
    run := r3 + [Apply(0, 0)];
    var empty: seq<nat> := [];
    assert empty + [0] == [0] && [empty, empty, empty][0 := [0]] == [[0], empty, empty];
  }

  /** Server 2 has the snapshot and the second write, which server 0 has committed and answered. */
  lemma SecondWrite() returns (run: seq<KvStep>, call: nat, ret: nat)
    ensures Cluster(run).nodes ==
            [Nd(Leader0Done(), Won(1, 1), [CMD_A, CMD_B]), Nd(Follower1A(), [], []), Nd(Holder2(), [], [SNAP_A])]
    ensures Arrived(run) == [[0, 1], [], []] && ret < Calls(run).now
    ensures Calls(run).calls == [Invocation(A, 0, false, 0, ""), Invocation(B, call, true, ret, "")]
    ensures Calls(run).next == map[2 := 2]
  {
    hide Cluster, Arrived, Calls, Exchanges, Invoke, Boot, HandleAll, Arrivals,
         Leader0Committed, Follower1A, Leader0Told, Leader0B, Leader0Done, Installed2, Holder2;
    ExchangesB();
    var r0 := FirstWrite();
    var r1 := InstallsSnapshot(r0, Won(1, 1));
    assert Cluster(r1).nodes ==
           [Nd(Leader0Told(), Won(1, 1), [CMD_A]), Nd(Follower1A(), [], []), Nd(Installed2(), [], [SNAP_A])];
    ByAsk(r1, 2, OpPut, "y", "2");
    var r2 := r1 + [Ask(2, OpPut, "y", "2")];
    call := Calls(r1).now;
    SecondCall(Calls(r1));
    var r3 := Commits(r2, 0, 2, 1, B, Leader0B(), SEND_B, Holder2(),
                      Leader0Done().(lastApplied := 1), Leader0Done(), [CMD_B]);
    assert [CMD_A] + [CMD_B] == [CMD_A, CMD_B];
    assert Cluster(r3).nodes ==
           [Nd(Leader0Done(), Won(1, 1), [CMD_A, CMD_B]), Nd(Follower1A(), [], []), Nd(Holder2(), [], [SNAP_A])];
    assert Snaps([CMD_A, CMD_B]) == [false, false];
    ByApply(r3, 0, 1);
    var r4 := r3 + [Apply(0, 1)];
    InOrder0();
    ServerIs(r4, 0, Leader0Done(), Won(1, 1), [CMD_A, CMD_B], [0, 1]);
    ByRespond(r4, 0, 1, STORE_AB);
    var r5 := r4 + [Respond(0, 1)];
    ByAccept(r5, 1, Reply(2, 1, ""));
    run := r5 + [Accept(1, Reply(2, 1, ""))];
    ret := Calls(r5).now;
    var first := Invocation(A, 0, false, 0, "");
    assert [first, Invocation(B, call, false, 0, "")][1 := Invocation(B, call, true, ret, "")] ==
           [first, Invocation(B, call, true, ret, "")];
  }

  lemma SecondCall(f: Front)
    requires f.calls == [Invocation(A, 0, false, 0, "")] && f.next == map[] && f.replies == {}
    ensures var g := Invoke(f, 2, OpPut, "y", "2");
            && g.calls == [Invocation(A, 0, false, 0, ""), Invocation(B, f.now, false, 0, "")]
            && g.next == map[] && g.replies == {} && g.now == f.now + 1
  {
  }

  lemma ThirdCall(f: Front, call: nat, ret: nat)
    requires f.calls == [Invocation(A, 0, false, 0, ""), Invocation(B, call, true, ret, "")] && f.next == map[2 := 2]
    ensures var g := Invoke(f, 3, OpGet, "y", "");
            && g.calls == [Invocation(A, 0, false, 0, ""), Invocation(B, call, true, ret, ""),
                Invocation(C, f.now, false, 0, "")]
            && g.next == map[2 := 2] && g.replies == f.replies && g.now == f.now + 1
  {
  }

  /** The read was made after the second write was answered, and did not see it. */
  predicate Stale(f: Front) {
    && |f.calls| == 3 && f.calls[1].op == B && f.calls[1].done
    && f.calls[2].op == C && f.calls[2].done && f.calls[2].value == ""
    && f.calls[0].op == A && f.calls[1].ret < f.calls[2].call
  }

  /** Server 2 leads, commits the read, and answers it from a store without the second write. */
  lemma StaleRead() returns (before: seq<KvStep>, run: seq<KvStep>)
    ensures Stale(Calls(run)) && before + [Apply(2, 0)] <= run
    ensures |Cluster(run).nodes| == 3 && Cluster(run).nodes[2].stream == STREAM2 && Arrived(run)[2] == [1, 0, 2]
    ensures !StepInTurn(3, KvRun(3, before), Apply(2, 0))
  {
    hide Cluster, Arrived, Calls, Stands, Exchanges, Invoke, BecomeLeader, HandleAll, Arrivals, CanArrive, InTurn,
         Leader0Done, Follower1A, Holder2, Candidate2, Voter0, Leader2, Leader2C, Leader2Done, Follower0C, StepInTurn;
    Stands2();
    ExchangesC();
    Overtaken2();
    var r0, call, ret := SecondWrite();
    ByAsk(r0, 3, OpGet, "y", "");
    var r1 := r0 + [Ask(3, OpGet, "y", "")];
    ThirdCall(Calls(r0), call, ret);
    var r2 := Elects(r1, 2, 0, Holder2(), Candidate2(), VoteArgs(2, 2, 2, 1), Voter0());
    var r3 := Commits(r2, 2, 0, 2, C, Leader2C(), SEND_C, Follower0C(), Leader2Done().(lastApplied := 1), Leader2Done(),
                      [CMD_B, CommandMsg(3, Request(C))]);
    assert [SNAP_A] + [CMD_B, CommandMsg(3, Request(C))] == STREAM2;
    assert Cluster(r3).nodes[2] == Nd(Leader2Done(), Won(2, 0), STREAM2) && Arrived(r3)[2] == [];
    before, run := Arrives(r3);
    var r6 := run;
    ServerIs(r6, 2, Leader2Done(), Won(2, 0), STREAM2, [1, 0, 2]);
    ByRespond(r6, 2, 2, STORE_AC);
    var r7 := r6 + [Respond(2, 2)];
    ByAccept(r7, 2, Reply(3, 1, ""));
    run := r7 + [Accept(2, Reply(3, 1, ""))];
  }

  lemma Arrives(pre: seq<KvStep>) returns (before: seq<KvStep>, run: seq<KvStep>)
    requires var nodes := Cluster(pre).nodes; |nodes| == 3 && nodes[2] == Nd(Leader2Done(), Won(2, 0), STREAM2)
    requires Arrived(pre)[2] == []
    ensures before + [Apply(2, 0)] <= run && !StepInTurn(3, KvRun(3, before), Apply(2, 0))
    ensures Cluster(run) == Cluster(pre) && Arrived(run)[2] == [1, 0, 2]
    ensures Calls(run) == Calls(pre).(now := Calls(pre).now + 3)
  {
    Overtaken2();
    hide HandleAll, Arrivals, InTurn, CanArrive, KvRun, Run, Snaps;
    ByApply(pre, 2, 1);
    before := pre + [Apply(2, 1)];
    assert [] + [1] == [1] && [1] + [0] == [1, 0] && [1, 0] + [2] == [1, 0, 2];
    ByApply(before, 2, 0);
    var r := before + [Apply(2, 0)];
    ByApply(r, 2, 2);
    run := r + [Apply(2, 2)];
  }

  // ---------------------------------------------------------------- the theorem

  lemma TwoInOrder(ops: seq<Operation<KvValue>>, order: seq<nat>)
    requires |ops| == 3 && Operations.Within(ops, order) && Distinct(order) && Elements(order) == {1, 2} &&
             InTime(ops, order)
    requires ops[1].ret < ops[2].call
    ensures order == [1, 2]
  {
    assert 1 in Elements(order) && 2 in Elements(order);
    var i :| 0 <= i < |order| && order[i] == 1;
    var j :| 0 <= j < |order| && order[j] == 2;
    assert i < j;
    OneOfTwo(order, 0, i, j);
    OneOfTwo(order, 1, i, j);
    if |order| > 2 {
      OneOfTwo(order, 2, i, j);
    }
  }

  lemma OneOfTwo(order: seq<nat>, k: nat, i: nat, j: nat)
    requires Distinct(order) && Elements(order) == {1, 2} && k < |order|
    requires i < |order| && order[i] == 1 && j < |order| && order[j] == 2
    ensures k == i || k == j
  {
    ElementsAt(order, k);
    SamePlace(order, k, if order[k] == 1 then i else j);
  }

  lemma WriteThenRead(ops: seq<Operation<KvValue>>)
    requires |ops| == 3 && ops[1].input == Input(1, "y", "2") && ops[2].input == Input(0, "y", "")
    requires ops[1].output.Output? && ops[2].output == Output("")
    ensures !Accepted(KeyModel(), ops, "", [1, 2])
  {
    assert [1, 2][1..] == [2];
    assert KeyStep("", ops[1].input, ops[1].output) == (true, "2");
    assert !KeyStep("2", ops[2].input, ops[2].output).0;
  }

  lemma StaleNotLinearizable(f: Front)
    requires Stale(f)
    ensures !FrontLinearizable(f)
  {
    var ops := OperationsOf(f);
    if ids :| Completed(f, ids) && MayCount(f, ids) && OpsLinearizable(StoreModel(), ops, ids) {
      hide Accepted, InTime;
      Locality.WholeToKey(ops, ids, "y");
      assert 1 in ids && 2 in ids;
      assert Locality.OnKey(ops, ids, "y") == {1, 2};
      var order :| IsLinearization(KeyModel(), ops, {1, 2}, order);
      TwoInOrder(ops, order);
      WriteThenRead(ops);
    }
  }

  lemma {:induction false} InOrderBefore(steps: seq<KvStep>, i: nat)
    requires KvSystem.InOrder(3, steps) && i <= |steps|
    ensures KvSystem.InOrder(3, steps[..i])
  {
    hide StepInTurn;
    if i == |steps| {
      assert steps[..i] == steps;
    } else {
      assert steps[..|steps| - 1][..i] == steps[..i];
      InOrderBefore(steps[..|steps| - 1], i);
    }
  }

  /**
   The order of arrival matters: there is a run of three servers in which every step is one the code
   can take, a snapshot is overtaken on its way to the service, and the clerks see a history that
   no single store explains.
   */
  lemma OrderNeeded() returns (steps: seq<KvStep>)
    ensures Admissible(3, KvRun(3, steps).trace) && !KvSystem.InOrder(3, steps)
    ensures NodeOf(3, KvRun(3, steps), 2).stream == STREAM2 && KvRun(3, steps).arrived[2] == [1, 0, 2]
    ensures !FrontLinearizable(KvRun(3, steps).front)
  {
    hide StepInTurn, KvRun, Run, FrontLinearizable, Stale;
    var before, run := StaleRead();
    steps := run;
    var upto := run[..|before| + 1];
    assert upto == before + [Apply(2, 0)];
    assert upto[..|upto| - 1] == before;
    if KvSystem.InOrder(3, run) {
      InOrderBefore(run, |upto|);
    }
    StaleNotLinearizable(Calls(run));
  }
}
