/**
 The whole service: clerks, key/value servers and the Raft cluster under them, as one transition system.

 The Raft part of a state is the run of the cluster so far. `arrived[x]` lists the messages of server
 x's stream, by position, that its service has received since it last started, in the order they
 arrived; its store is what handling them made of the snapshot it started from.
 */
module KvSystem {
  import opened KvOps
  import opened KvStore
  import opened KvFront
  import opened KvServer
  import opened KvLinearization
  import opened ApplyOrder
  import opened RaftLog
  import opened RaftSystem
  import opened RaftTheorems
  import opened RaftProvenance
  import RaftInvariant
  import RaftSnapshotSteps

  datatype KvState = KvState(trace: seq<Step>, arrived: seq<seq<nat>>, front: Front)

  datatype KvStep =
    | OfRaft(step: Step)                                          // the cluster moves by itself; includes crashes
    | Submit(x: nat, id: nat)                                     // a handler of server x proposes the request
    | Apply(x: nat, m: nat)                                       // message m of its stream reaches the service of x
    | Respond(x: nat, id: nat)                                    // a handler of x answers the request
    | Ask(client: int, typ: OpType, key: string, value: string)   // a clerk makes a call
    | Accept(id: nat, r: Reply)                                   // the clerk receives an answer

  /** The Raft server under x. */
  function NodeOf(n: nat, k: KvState, x: nat): Node
    requires x < n
  {
    Run(n, k.trace).nodes[x]
  }

  /** The messages that arrived are messages of the stream, and carry requests. */
  predicate Handleable(nd: Node, arr: seq<nat>) {
    AllCarry(nd.stream) && ApplyOrder.Within(Snaps(nd.stream), arr)
  }

  /** What the service of server x has made of its snapshot and the messages that arrived. */
  function ServerOf(n: nat, k: KvState, x: nat): Server
    requires x < n && x < |k.arrived|
  {
    var nd := NodeOf(n, k, x);
    if Handleable(nd, k.arrived[x])
    then HandleAll(Decode(FRESH, Encode(After(nd.base))), Arrivals(nd.stream, k.arrived[x]))
    else FRESH
  }

  /** The snapshots it has handed to its peer since it started, by the sizes it read behind each message. */
  function HandedOf(n: nat, k: KvState, x: nat, sizes: seq<int>, limit: int): seq<(int, Bytes)>
    requires x < n && x < |k.arrived| && |sizes| == |k.arrived[x]|
  {
    var nd := NodeOf(n, k, x);
    if Handleable(nd, k.arrived[x])
    then Handed(Decode(FRESH, Encode(After(nd.base))), Arrivals(nd.stream, k.arrived[x]), sizes, limit)
    else []
  }

  function KvInit(n: nat): KvState {
    KvState([], seq(n, _ => []), NO_CALLS)
  }

  /** One step of the service. A step that is not enabled only lets time pass. */
  function KvNext(n: nat, k: KvState, step: KvStep): (k': KvState)
    requires |k.arrived| == n
    ensures |k'.arrived| == n
  {
    match step
    case OfRaft(st) =>
      if st.Start? then k.(front := Tick(k.front))
      else KvState(k.trace + [st], if st.Crash? && st.x < n then k.arrived[st.x := []] else k.arrived, Tick(k.front))
    case Submit(x, id) =>
      if id < |k.front.calls|
      then k.(trace := k.trace + [Start(x, Request(k.front.calls[id].op))], front := Tick(k.front))
      else k.(front := Tick(k.front))
    case Apply(x, m) =>
      if x < n && CanArrive(Snaps(NodeOf(n, k, x).stream), k.arrived[x], m)
      then k.(arrived := k.arrived[x := k.arrived[x] + [m]], front := Tick(k.front))
      else k.(front := Tick(k.front))
    case Respond(x, id) =>
      if x < n then k.(front := Answer(k.front, id, ServerOf(n, k, x).store)) else k.(front := Tick(k.front))
    case Ask(client, typ, key, value) => k.(front := Invoke(k.front, client, typ, key, value))
    case Accept(id, r) => k.(front := Return(k.front, id, r))
  }

  function KvRun(n: nat, steps: seq<KvStep>): (k: KvState)
    ensures |k.arrived| == n
  {
    if steps == [] then KvInit(n) else KvNext(n, KvRun(n, steps[..|steps| - 1]), steps[|steps| - 1])
  }

  /** The step, if it hands a message to a service, does so in the message's turn. */
  predicate StepInTurn(n: nat, k: KvState, step: KvStep)
    requires |k.arrived| == n
  {
    step.Apply? && step.x < n && step.m < |NodeOf(n, k, step.x).stream| ==>
      InTurn(Snaps(NodeOf(n, k, step.x).stream), k.arrived[step.x], step.m)
  }

  /** Throughout the run, no snapshot was overtaken by what was handed over after it. */
  predicate InOrder(n: nat, steps: seq<KvStep>) {
    steps == [] ||
    (InOrder(n, steps[..|steps| - 1]) && StepInTurn(n, KvRun(n, steps[..|steps| - 1]), steps[|steps| - 1]))
  }

  /** The runs the theorems are about. */
  predicate Proper(n: nat, steps: seq<KvStep>) {
    Admissible(n, KvRun(n, steps).trace) && InOrder(n, steps)
  }

  // ---------------------------------------------------------------- invariant

  ghost function Requests(f: Front): set<Command> {
    set i | 0 <= i < |f.calls| :: Request(f.calls[i].op)
  }

  /** The log is what some server's service had received at some point of the run. */
  ghost predicate Witnessed(n: nat, trace: seq<Step>, cs: seq<Command>) {
    cs == [] || exists i: nat, x: nat :: i <= |trace| && x < n && cs == ServiceState(n, trace, i, x)
  }

  /** Everything any service has received by now is a prefix of `cs`. */
  ghost predicate Covers(n: nat, trace: seq<Step>, cs: seq<Command>) {
    forall x: nat :: x < n ==> ServiceState(n, trace, |trace|, x) <= cs
  }

  /** Every service has received messages of its stream, each in its turn. */
  ghost predicate ArrivedOK(n: nat, k: KvState) {
    && |k.arrived| == n
    && forall x: nat :: x < n ==>
         var snap := Snaps(NodeOf(n, k, x).stream);
         ApplyOrder.Within(snap, k.arrived[x]) && Orderly(snap, k.arrived[x])
  }

  ghost predicate KvOK(n: nat, k: KvState, cs: seq<Command>, marks: seq<Mark>) {
    && ArrivedOK(n, k)
    && AllIn(cs, Requests(k.front))
    && FrontOK(OpsOf(cs), k.front, marks)
    && StateIn(Run(n, k.trace), Requests(k.front))
    && Witnessed(n, k.trace, cs) && Covers(n, k.trace, cs)
  }

  lemma OpsOfRequests(cs: seq<Command>, f: Front)
    requires AllIn(cs, Requests(f))
    ensures |OpsOf(cs)| == |cs| && forall i :: 0 <= i < |cs| ==> cs[i] == Request(OpsOf(cs)[i])
    ensures forall i :: 0 <= i < |OpsOf(cs)| ==> Made(f, OpsOf(cs)[i])
  {
    forall i | 0 <= i < |cs|
      ensures cs[i].Request? && Made(f, cs[i].op)
    {
      assert cs[i] in Requests(f);
    }
    hide Made;
    forall i | 0 <= i < |OpsOf(cs)|
      ensures Made(f, OpsOf(cs)[i])
    {
      assert OpsOf(cs)[i] == cs[i].op;
    }
  }

  lemma OpsOfPrefix(cs: seq<Command>, ds: seq<Command>, f: Front)
    requires AllIn(ds, Requests(f)) && cs <= ds
    ensures OpsOf(cs) <= OpsOf(ds)
  {
    RequestsOnly(ds, f);
    OpsOfTake(cs, ds);
  }

  lemma ServiceStatePrefix(n: nat, trace: seq<Step>, st: Step, i: nat, x: nat)
    requires i <= |trace| && x < n
    ensures ServiceState(n, trace + [st], i, x) == ServiceState(n, trace, i, x)
  {
    assert (trace + [st])[..i] == trace[..i];
  }

  lemma ServiceStateNow(n: nat, trace: seq<Step>, x: nat)
    requires x < n
    ensures ServiceState(n, trace, |trace|, x) == Replay(Run(n, trace).nodes[x].base, Run(n, trace).nodes[x].stream)
  {
    assert trace[..|trace|] == trace;
  }

  /** Of what the services have received, the longest extends all the others. */
  lemma {:induction false} Longest(n: nat, trace: seq<Step>, cs: seq<Command>, upto: nat, reqs: set<Command>)
      returns (ds: seq<Command>)
    requires Admissible(n, trace) && upto <= n && Witnessed(n, trace, cs)
    requires AllIn(cs, reqs) && StateIn(Run(n, trace), reqs)
    ensures cs <= ds && Witnessed(n, trace, ds) && AllIn(ds, reqs)
    ensures forall x: nat :: x < upto ==> ServiceState(n, trace, |trace|, x) <= ds
  {
    hide Run, StateIn, AllIn, ServiceState, Admissible;
    if upto == 0 {
      ds := cs;
    } else {
      var es := Longest(n, trace, cs, upto - 1, reqs);
      var now := ServiceState(n, trace, |trace|, upto - 1);
      if es != [] {
        var i: nat, x: nat :| i <= |trace| && x < n && es == ServiceState(n, trace, i, x);
        StateMachineSafety(n, trace, i, |trace|, x, upto - 1);
      }
      ServiceIn(n, trace, upto - 1, reqs);
      ds := if now <= es then es else now;
    }
  }

  lemma ServiceIn(n: nat, trace: seq<Step>, x: nat, reqs: set<Command>)
    requires x < n && StateIn(Run(n, trace), reqs)
    ensures AllIn(ServiceState(n, trace, |trace|, x), reqs)
  {
    ServiceStateNow(n, trace, x);
    assert NodeIn(Run(n, trace).nodes[x], reqs);
    ReplayIn(Run(n, trace).nodes[x].base, Run(n, trace).nodes[x].stream, reqs);
  }

  /** The log grows to cover what the services have received after a step of the cluster. */
  lemma RaftMoves(n: nat, trace: seq<Step>, st: Step, cs: seq<Command>, f: Front, marks: seq<Mark>)
      returns (ds: seq<Command>)
    requires Admissible(n, trace + [st]) && Witnessed(n, trace, cs) && AllIn(cs, Requests(f))
    requires FrontOK(OpsOf(cs), f, marks) && StateIn(Run(n, trace), Requests(f))
    requires st.Start? ==> st.c in Requests(f)
    ensures AllIn(ds, Requests(f)) && FrontOK(OpsOf(ds), f, marks)
    ensures StateIn(Run(n, trace + [st]), Requests(f))
    ensures Witnessed(n, trace + [st], ds) && Covers(n, trace + [st], ds)
  {
    RunSnoc(n, trace, st);
    hide Run, StateIn, ServiceState, Admissible, FrontOK, OpsOf, AllIn, Requests;
    NextIn(n, Run(n, trace), st, Requests(f));
    WitnessStays(n, trace, st, cs);
    ds := Longest(n, trace + [st], cs, n, Requests(f));
    OpsOfPrefix(cs, ds, f);
    OpsOfRequests(ds, f);
    LogGrows(OpsOf(cs), OpsOf(ds), f, marks);
  }

  lemma WitnessStays(n: nat, trace: seq<Step>, st: Step, cs: seq<Command>)
    requires Witnessed(n, trace, cs)
    ensures Witnessed(n, trace + [st], cs)
  {
    hide ServiceState;
    if cs != [] {
      var i: nat, x: nat :| i <= |trace| && x < n && cs == ServiceState(n, trace, i, x);
      ServiceStatePrefix(n, trace, st, i, x);
    }
  }

  /** What a service has executed, as the requests its store is made of: a prefix of the log. */
  lemma StorePrefix(n: nat, k: KvState, cs: seq<Command>, marks: seq<Mark>, x: nat) returns (applied: seq<Op>)
    requires Admissible(n, k.trace) && KvOK(n, k, cs, marks) && x < n
    ensures applied <= OpsOf(cs) && ServerOf(n, k, x).store == Fold(applied)
  {
    hide Run, Admissible, Replay, Witnessed, FrontOK, Serial, RaftInvariant.Contiguous, Orderly, HandleAll, Fold,
         Requests, AllRequests, OpsOf;
    var nd := NodeOf(n, k, x);
    StreamFacts(n, k, cs, marks, x);
    OrderlyStore(nd.base, nd.stream, k.arrived[x]);
    var q := Reach(k.arrived[x]);
    RaftSnapshotSteps.ReplayGrows(nd.base, nd.stream, q);
    OpsOfTake(Replay(nd.base, nd.stream[..q]), cs);
    applied := OpsOf(Replay(nd.base, nd.stream[..q]));
  }

  /** What a server's stream is, in a run of the service. */
  lemma StreamFacts(n: nat, k: KvState, cs: seq<Command>, marks: seq<Mark>, x: nat)
    requires Admissible(n, k.trace) && KvOK(n, k, cs, marks) && x < n
    ensures var nd := NodeOf(n, k, x);
            var full := Replay(nd.base, nd.stream);
            && RaftInvariant.Contiguous(nd.base, nd.stream) && AllCarry(nd.stream)
            && full <= cs && AllRequests(cs) && AllRequests(full) && Serial(OpsOf(full))
            && ApplyOrder.Within(Snaps(nd.stream), k.arrived[x]) && Orderly(Snaps(nd.stream), k.arrived[x])
  {
    hide Run, Admissible, Replay, Witnessed, FrontOK, Serial, RaftInvariant.Contiguous, Orderly, Requests,
         AllRequests, OpsOf;
    var nd := NodeOf(n, k, x);
    var full := Replay(nd.base, nd.stream);
    DeliveryContiguous(n, k.trace, x);
    ServiceStateNow(n, k.trace, x);
    StreamCarries(n, k, x);
    LogSerial(OpsOf(cs), k.front, marks);
    RequestsOnly(cs, k.front);
    OpsOfTake(full, cs);
    SerialPrefix(OpsOf(cs), |full|);
  }

  lemma RequestsOnly(cs: seq<Command>, f: Front)
    requires AllIn(cs, Requests(f))
    ensures AllRequests(cs)
  {
  }

  lemma StreamCarries(n: nat, k: KvState, x: nat)
    requires x < n && StateIn(Run(n, k.trace), Requests(k.front))
    ensures AllCarry(NodeOf(n, k, x).stream)
  {
    var nd := NodeOf(n, k, x);
    assert NodeIn(nd, Requests(k.front));
    forall i | 0 <= i < |nd.stream|
      ensures Carries(nd.stream[i])
    {
      if nd.stream[i].SnapshotMsg? {
        RequestsOnly(nd.stream[i].data, k.front);
      }
    }
  }

  // ---------------------------------------------------------------- arrivals

  /** A step extends the streams it does not wipe out. */
  lemma StreamExtends(n: nat, s: State, step: Step, x: nat)
    requires |s.nodes| == n && x < n && step != Crash(x)
    ensures s.nodes[x].stream <= Next(n, s, step).nodes[x].stream
  {
    hide Replay, Position;
  }

  lemma {:induction false} OrderlyExtends(snap: seq<bool>, snap': seq<bool>, arr: seq<nat>)
    requires snap <= snap' && ApplyOrder.Within(snap, arr) && Orderly(snap, arr)
    ensures ApplyOrder.Within(snap', arr) && Orderly(snap', arr)
  {
    if arr != [] {
      OrderlyExtends(snap, snap', arr[..|arr| - 1]);
    }
  }

  lemma RaftArrived(n: nat, k: KvState, k': KvState, st: Step)
    requires ArrivedOK(n, k) && k'.trace == k.trace + [st]
    requires k'.arrived == if st.Crash? && st.x < n then k.arrived[st.x := []] else k.arrived
    ensures ArrivedOK(n, k')
  {
    RunSnoc(n, k.trace, st);
    hide Run, Next, Orderly;
    forall x: nat | x < n
      ensures var snap := Snaps(NodeOf(n, k', x).stream);
              ApplyOrder.Within(snap, k'.arrived[x]) && Orderly(snap, k'.arrived[x])
    {
      if st == Crash(x) {
        OrderlyNothing(Snaps(NodeOf(n, k', x).stream));
      } else {
        StreamExtends(n, Run(n, k.trace), st, x);
        OrderlyExtends(Snaps(NodeOf(n, k, x).stream), Snaps(NodeOf(n, k', x).stream), k.arrived[x]);
      }
    }
  }

  lemma OrderlyNothing(snap: seq<bool>)
    ensures Orderly(snap, [])
  {
  }

  lemma ApplyArrived(n: nat, k: KvState, x: nat, m: nat)
    requires ArrivedOK(n, k) && StepInTurn(n, k, Apply(x, m))
    ensures ArrivedOK(n, KvNext(n, k, Apply(x, m)))
  {
    hide Run;
    var k' := KvNext(n, k, Apply(x, m));
    if x < n && CanArrive(Snaps(NodeOf(n, k, x).stream), k.arrived[x], m) {
      assert k'.arrived[x][..|k.arrived[x]|] == k.arrived[x];
    }
  }

  lemma SameRequests(f: Front, g: Front)
    requires |f.calls| <= |g.calls| && forall j :: 0 <= j < |f.calls| ==> g.calls[j].op == f.calls[j].op
    ensures Requests(f) <= Requests(g)
  {
    forall c | c in Requests(f)
      ensures c in Requests(g)
    {
      var i :| 0 <= i < |f.calls| && c == Request(f.calls[i].op);
      assert g.calls[i].op == f.calls[i].op;
    }
  }

  /** A step of the clerks and services leaves the log as it is. */
  lemma FrontMoves(n: nat, k: KvState, k': KvState, cs: seq<Command>, marks: seq<Mark>, marks': seq<Mark>)
    requires KvOK(n, k, cs, marks) && k'.trace == k.trace && ArrivedOK(n, k')
    requires FrontOK(OpsOf(cs), k'.front, marks')
    requires |k.front.calls| <= |k'.front.calls|
    requires forall j :: 0 <= j < |k.front.calls| ==> k'.front.calls[j].op == k.front.calls[j].op
    ensures KvOK(n, k', cs, marks')
  {
    hide Run, StateIn, Witnessed, Covers, FrontOK, Requests, OpsOf;
    SameRequests(k.front, k'.front);
    MoreIn(Run(n, k.trace), Requests(k.front), Requests(k'.front));
  }

  lemma KvRaftOK(n: nat, k: KvState, k': KvState, st: Step, cs: seq<Command>, marks: seq<Mark>)
      returns (ds: seq<Command>)
    requires KvOK(n, k, cs, marks) && Admissible(n, k'.trace) && k'.trace == k.trace + [st]
    requires k'.front == Tick(k.front) && ArrivedOK(n, k') && (st.Start? ==> st.c in Requests(k.front))
    ensures KvOK(n, k', ds, marks)
  {
    hide Run, StateIn, Witnessed, Covers, FrontOK, OpsOf;
    TickOK(OpsOf(cs), k.front, marks);
    assert Requests(k'.front) == Requests(k.front);
    hide Requests;
    ds := RaftMoves(n, k.trace, st, cs, k'.front, marks);
  }

  lemma KvNextOK(n: nat, k: KvState, step: KvStep, cs: seq<Command>, marks: seq<Mark>)
    returns (ds: seq<Command>, marks': seq<Mark>)
    requires KvOK(n, k, cs, marks) && Admissible(n, k.trace) && Admissible(n, KvNext(n, k, step).trace)
    requires StepInTurn(n, k, step)
    ensures KvOK(n, KvNext(n, k, step), ds, marks')
  {
    hide Run, StateIn, Witnessed, Covers, FrontOK, OpsOf, Admissible, Orderly, AllIn;
    var k' := KvNext(n, k, step);
    var f, log := k.front, OpsOf(cs);
    ds, marks' := cs, marks;
    TickOK(log, f, marks);
    match step
    case OfRaft(st) =>
      if st.Start? {
        FrontMoves(n, k, k', cs, marks, marks);
      } else {
        RaftArrived(n, k, k', st);
        ds := KvRaftOK(n, k, k', st, cs, marks);
      }
    case Submit(x, id) =>
      if id < |f.calls| {
        RaftArrived(n, k, k', Start(x, Request(f.calls[id].op)));
        ds := KvRaftOK(n, k, k', Start(x, Request(f.calls[id].op)), cs, marks);
      } else {
        FrontMoves(n, k, k', cs, marks, marks);
      }
    case Apply(x, m) =>
      ApplyArrived(n, k, x, m);
      FrontMoves(n, k, k', cs, marks, marks);
    case Respond(x, id) =>
      RespondOK(n, k, x, id, cs, marks);
    case Ask(client, typ, key, value) =>
      marks' := InvokeOK(log, f, marks, client, typ, key, value);
      FrontMoves(n, k, k', cs, marks, marks');
    case Accept(id, r) =>
      marks' := ReturnOK(log, f, marks, id, r);
      FrontMoves(n, k, k', cs, marks, marks');
  }

  lemma RespondOK(n: nat, k: KvState, x: nat, id: nat, cs: seq<Command>, marks: seq<Mark>)
    requires KvOK(n, k, cs, marks) && Admissible(n, k.trace)
    ensures KvOK(n, KvNext(n, k, Respond(x, id)), cs, marks)
  {
    hide Run, StateIn, Witnessed, Covers, FrontOK, OpsOf, Admissible, Orderly, AllIn, ServerOf, Fold;
    var k' := KvNext(n, k, Respond(x, id));
    TickOK(OpsOf(cs), k.front, marks);
    if x < n {
      var applied := StorePrefix(n, k, cs, marks, x);
      AnswerOK(OpsOf(cs), k.front, marks, id, applied);
    }
    FrontMoves(n, k, k', cs, marks, marks);
  }

  lemma KvInitOK(n: nat)
    ensures KvOK(n, KvInit(n), [], [])
  {
    NoCallsOK();
    InitIn(n);
    assert Requests(NO_CALLS) == {};
    var none: seq<Step> := [];
    assert none[..0] == none;
  }

  lemma TraceGrows(n: nat, k: KvState, step: KvStep)
    requires |k.arrived| == n && Admissible(n, KvNext(n, k, step).trace)
    ensures Admissible(n, k.trace)
  {
    var t := KvNext(n, k, step).trace;
    assert k.trace <= t && t[..|k.trace|] == k.trace;
    AdmissiblePrefix(n, t, |k.trace|);
  }

  lemma ProperBefore(n: nat, steps: seq<KvStep>)
    requires Proper(n, steps) && steps != []
    ensures Proper(n, steps[..|steps| - 1])
  {
    hide KvNext, Admissible;
    TraceGrows(n, KvRun(n, steps[..|steps| - 1]), steps[|steps| - 1]);
  }

  lemma {:induction false} KvRunOK(n: nat, steps: seq<KvStep>) returns (cs: seq<Command>, marks: seq<Mark>)
    requires Proper(n, steps)
    ensures KvOK(n, KvRun(n, steps), cs, marks)
  {
    hide KvOK, Admissible, KvNext, StepInTurn;
    if steps == [] {
      KvInitOK(n);
      cs, marks := [], [];
    } else {
      var k := KvRun(n, steps[..|steps| - 1]);
      ProperBefore(n, steps);
      var cs0, marks0 := KvRunOK(n, steps[..|steps| - 1]);
      cs, marks := KvNextOK(n, k, steps[|steps| - 1], cs0, marks0);
    }
  }

  // ---------------------------------------------------------------- theorems

  /**
   The service is linearizable: in every run of clerks, servers and cluster, with messages lost,
   delayed and repeated, crashes, elections and snapshots, what the clerks saw can be explained by
   one store executing each of their calls once, between its start and its return.
   */
  lemma ServiceLinearizable(n: nat, steps: seq<KvStep>)
    requires Proper(n, steps)
    ensures FrontLinearizable(KvRun(n, steps).front)
  {
    hide FrontOK, FrontLinearizable, KvRun, Proper;
    var cs, marks := KvRunOK(n, steps);
    Linearization(OpsOf(cs), KvRun(n, steps).front, marks);
  }

  /**
   All services of a run hold the stores of prefixes of one log. Its entries are calls the clerks have
   made, each client's first occurring in order, and every call that has returned is in it.
   */
  lemma StoresAgree(n: nat, steps: seq<KvStep>) returns (log: seq<Op>, applied: seq<nat>)
    requires Proper(n, steps)
    ensures var k := KvRun(n, steps);
            && |applied| == n && Serial(log)
            && (forall x :: 0 <= x < n ==>
                  applied[x] <= |log| && ServerOf(n, k, x).store == Fold(log[..applied[x]]))
            && (forall i :: 0 <= i < |log| ==> Made(k.front, log[i]))
            && (forall j :: 0 <= j < |k.front.calls| && k.front.calls[j].done ==>
                  Has(log, k.front.calls[j].op.clientId, k.front.calls[j].op.seqNum))
  {
    hide FrontOK, KvRun, Admissible, InOrder, ServerOf, Fold, OpsOf, Serial, Made, Has, StateIn, Witnessed, Covers;
    var cs, marks := KvRunOK(n, steps);
    var k := KvRun(n, steps);
    log := OpsOf(cs);
    LogSerial(log, k.front, marks);
    OpsOfRequests(cs, k.front);
    applied := AppliedUpTo(n, k, cs, marks, n);
    forall j | 0 <= j < |k.front.calls| && k.front.calls[j].done
      ensures Has(log, k.front.calls[j].op.clientId, k.front.calls[j].op.seqNum)
    {
      ReturnedIsLogged(log, k.front, marks, j);
    }
  }

  lemma {:induction false} AppliedUpTo(n: nat, k: KvState, cs: seq<Command>, marks: seq<Mark>, upto: nat)
      returns (applied: seq<nat>)
    requires Admissible(n, k.trace) && KvOK(n, k, cs, marks) && upto <= n
    ensures |applied| == upto && |k.arrived| == n
    ensures forall x :: 0 <= x < upto ==>
              applied[x] <= |OpsOf(cs)| && ServerOf(n, k, x).store == Fold(OpsOf(cs)[..applied[x]])
  {
    hide FrontOK, Admissible, ServerOf, Fold, OpsOf, StateIn, Witnessed, Covers;
    if upto == 0 {
      applied := [];
    } else {
      var before := AppliedUpTo(n, k, cs, marks, upto - 1);
      var last := StorePrefix(n, k, cs, marks, upto - 1);
      applied := before + [|last|];
      assert OpsOf(cs)[..|last|] == last;
    }
  }

  lemma ReturnedIsLogged(log: seq<Op>, f: Front, marks: seq<Mark>, j: nat)
    requires FrontOK(log, f, marks) && j < |f.calls| && f.calls[j].done
    ensures Has(log, f.calls[j].op.clientId, f.calls[j].op.seqNum)
  {
    hide Has, KvFront.NextOK, RepliesOK, EntriesOK, TimesOK, Unique;
    assert CallOK(log, f, f.calls[j], marks[j]);
    assert log[..|log|] == log;
    HasGrows(log, marks[j].point, |log|, f.calls[j].op.clientId, f.calls[j].op.seqNum);
  }

  /**
   Waking a handler is answering it: in every run, when the command of a request has arrived at a
   service, which is when its handler is signalled, the service's store has executed the request.
   So every answer the code can give is one that `Respond` can give.
   */
  lemma WokenCanAnswer(n: nat, steps: seq<KvStep>, x: nat, m: nat)
    requires Proper(n, steps) && x < n && m in KvRun(n, steps).arrived[x]
    ensures var nd := NodeOf(n, KvRun(n, steps), x);
            && m < |nd.stream| && Carries(nd.stream[m])
            && (nd.stream[m].CommandMsg? ==>
                  var op := nd.stream[m].command.op;
                  op.seqNum <= LastSeq(ServerOf(n, KvRun(n, steps), x).store, op.clientId))
  {
    hide KvRun, Run, Proper, KvOK, HandleAll, Fold, Serial, RaftInvariant.Contiguous, Orderly, AllRequests, OpsOf,
         Replay, Decode, Encode, After, LastSeq;
    ProperMeans(n, steps);
    var cs, marks := KvRunOK(n, steps);
    var k := KvRun(n, steps);
    var nd := NodeOf(n, k, x);
    StreamFacts(n, k, cs, marks, x);
    if nd.stream[m].CommandMsg? {
      WokenIsExecuted(nd.base, nd.stream, k.arrived[x], m);
    }
  }

  /**
   Every snapshot a service of a run hands to its peer is one that the step `Compact` takes: the
   state after some `seen` messages of the peer's stream, under the index of the last of them.
   */
  lemma HandedIsCompact(n: nat, steps: seq<KvStep>, x: nat, sizes: seq<int>, limit: int, h: (int, Bytes))
      returns (seen: nat)
    requires Proper(n, steps) && x < n && |sizes| == |KvRun(n, steps).arrived[x]|
    requires h in HandedOf(n, KvRun(n, steps), x, sizes, limit)
    ensures var nd := NodeOf(n, KvRun(n, steps), x);
            && seen <= |nd.stream| && h.0 == Position(nd.base, nd.stream[..seen])
            && h.1 == Encode(After(Replay(nd.base, nd.stream[..seen])))
  {
    hide KvRun, Run, Proper, KvOK, HandleAll, Handed, Fold, Serial, RaftInvariant.Contiguous, Orderly, AllRequests,
         OpsOf, Replay, Position, Decode, Encode, After;
    ProperMeans(n, steps);
    var cs, marks := KvRunOK(n, steps);
    var k := KvRun(n, steps);
    var nd := NodeOf(n, k, x);
    StreamFacts(n, k, cs, marks, x);
    seen := HandedIsPrefix(nd.base, nd.stream, k.arrived[x], sizes, limit, h);
  }

  lemma ProperMeans(n: nat, steps: seq<KvStep>)
    requires Proper(n, steps)
    ensures Admissible(n, KvRun(n, steps).trace)
  {
  }
}
