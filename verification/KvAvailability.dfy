/** With any majority of the servers, a call that waits can always be answered. */
module KvAvailability {
  import opened KvOps
  import opened KvStore
  import opened KvFront
  import opened KvServer
  import opened KvSystem
  import opened ApplyOrder
  import opened RaftLog
  import opened RaftPeer
  import opened RaftSystem
  import opened RaftTheorems
  import opened RaftAvailability

  /** The step belongs to servers of `q`, or to the clerk of call `id`. */
  predicate Serves(q: set<nat>, id: nat, step: KvStep) {
    match step
    case OfRaft(st) => Among(q, st)
    case Submit(x, i) => x in q && i == id
    case Apply(x, _) => x in q
    case Respond(x, i) => x in q && i == id
    case Ask(_, _, _, _) => false
    case Accept(i, _) => i == id
  }

  ghost predicate KvGoesOn(n: nat, q: set<nat>, id: nat, steps: seq<KvStep>, end: seq<KvStep>) {
    && steps <= end && Proper(n, end)
    && forall i :: |steps| <= i < |end| ==> Serves(q, id, end[i])
  }

  lemma KvGoesOnTransitive(n: nat, q: set<nat>, id: nat, a: seq<KvStep>, b: seq<KvStep>, c: seq<KvStep>)
    requires KvGoesOn(n, q, id, a, b) && KvGoesOn(n, q, id, b, c)
    ensures KvGoesOn(n, q, id, a, c)
  {
    hide Proper, Serves;
    forall i | |a| <= i < |c|
      ensures Serves(q, id, c[i])
    {
      if i < |b| {
        assert c[i] == b[i];
      }
    }
  }

  lemma KvGoesOnSelf(n: nat, q: set<nat>, id: nat, steps: seq<KvStep>)
    requires Proper(n, steps)
    ensures KvGoesOn(n, q, id, steps, steps)
  {
  }

  lemma KvGoesOnProper(n: nat, q: set<nat>, id: nat, steps: seq<KvStep>, end: seq<KvStep>)
    requires KvGoesOn(n, q, id, steps, end)
    ensures Proper(n, end)
  {
  }

  lemma OneKvStep(n: nat, q: set<nat>, id: nat, steps: seq<KvStep>, step: KvStep)
    requires Proper(n, steps) && Serves(q, id, step) && StepInTurn(n, KvRun(n, steps), step)
    requires Admissible(n, KvNext(n, KvRun(n, steps), step).trace)
    ensures KvGoesOn(n, q, id, steps, steps + [step])
    ensures KvRun(n, steps + [step]) == KvNext(n, KvRun(n, steps), step)
  {
    hide KvNext, StepInTurn, Admissible, Serves;
    assert (steps + [step])[..|steps|] == steps;
  }

  /** No call has been made, answered or completed meanwhile. */
  predicate SameCalls(f: Front, f': Front) {
    f'.calls == f.calls && f'.replies == f.replies && f'.next == f.next
  }

  // ---------------------------------------------------------------- the cluster's part

  lemma WithBefore(n: nat, q: set<nat>, c: Command, a: seq<Step>, b: seq<Step>)
    requires GoesOnWith(n, q, c, a, b) && |a| < |b|
    ensures GoesOnWith(n, q, c, a, b[..|b| - 1])
    ensures Among(q, b[|b| - 1]) || (b[|b| - 1].Start? && b[|b| - 1].x in q && b[|b| - 1].c == c)
  {
    hide Admissible, Among;
    AdmissiblePrefix(n, b, |b| - 1);
  }

  lemma WithMeans(n: nat, q: set<nat>, c: Command, a: seq<Step>, b: seq<Step>)
    requires GoesOnWith(n, q, c, a, b)
    ensures a <= b && Admissible(n, b)
  {
  }

  /** What the cluster does by itself is part of a run of the service; the command is submitted by a handler. */
  lemma {:induction false} InTheService(n: nat, q: set<nat>, id: nat, steps: seq<KvStep>, end: seq<Step>)
      returns (kend: seq<KvStep>)
    requires Proper(n, steps) && id < |KvRun(n, steps).front.calls|
    requires GoesOnWith(n, q, Request(KvRun(n, steps).front.calls[id].op), KvRun(n, steps).trace, end)
    ensures KvGoesOn(n, q, id, steps, kend)
    ensures var k, k' := KvRun(n, steps), KvRun(n, kend);
            k'.trace == end && k'.arrived == k.arrived && SameCalls(k.front, k'.front)
    decreases |end|
  {
    hide KvRun, Proper, KvGoesOn, GoesOnWith, Admissible;
    var k := KvRun(n, steps);
    var c := Request(k.front.calls[id].op);
    WithMeans(n, q, c, k.trace, end);
    if |end| == |k.trace| {
      kend := steps;
      KvGoesOnSelf(n, q, id, steps);
    } else {
      var last := end[|end| - 1];
      WithBefore(n, q, c, k.trace, end);
      var before := InTheService(n, q, id, steps, end[..|end| - 1]);
      var step := if last.Start? then Submit(last.x, id) else OfRaft(last);
      KvGoesOnProper(n, q, id, steps, before);
      RaftStepEffect(n, KvRun(n, before), q, id, last);
      assert end[..|end| - 1] + [last] == end;
      OneKvStep(n, q, id, before, step);
      kend := before + [step];
      KvGoesOnTransitive(n, q, id, steps, before, kend);
    }
  }

  lemma RaftStepEffect(n: nat, k: KvState, q: set<nat>, id: nat, last: Step)
    requires |k.arrived| == n && id < |k.front.calls|
    requires Among(q, last) || (last.Start? && last.x in q && last.c == Request(k.front.calls[id].op))
    ensures var step := if last.Start? then Submit(last.x, id) else OfRaft(last);
            var k' := KvNext(n, k, step);
            && Serves(q, id, step) && StepInTurn(n, k, step)
            && k'.trace == k.trace + [last] && k'.arrived == k.arrived && SameCalls(k.front, k'.front)
  {
  }

  // ---------------------------------------------------------------- the service's part

  /** Everything before position `k` that can still matter has reached the service. */
  ghost predicate ArrivedUpTo(snap: seq<bool>, arr: seq<nat>, k: nat) {
    k <= |snap| && k <= Reach(arr) && forall i :: 0 <= i < k && !snap[i] ==> i in arr
  }

  /** The service takes its messages one after the other, leaving out snapshots it is ahead of. */
  lemma {:induction false} ArriveUpTo(n: nat, q: set<nat>, id: nat, steps: seq<KvStep>, x: nat, k: nat)
      returns (end: seq<KvStep>)
    requires Proper(n, steps) && x in q && x < n && k <= |NodeOf(n, KvRun(n, steps), x).stream|
    ensures KvGoesOn(n, q, id, steps, end)
    ensures var s, s' := KvRun(n, steps), KvRun(n, end);
            && s'.trace == s.trace && SameCalls(s.front, s'.front)
            && ArrivedUpTo(Snaps(NodeOf(n, s, x).stream), s'.arrived[x], k)
  {
    hide KvRun, Proper, KvGoesOn, Run, Admissible, ArrivedUpTo, Reach, Snaps;
    if k == 0 {
      end := steps;
      KvGoesOnSelf(n, q, id, steps);
      NothingArrived(Snaps(NodeOf(n, KvRun(n, steps), x).stream), KvRun(n, steps).arrived[x]);
    } else {
      var before := ArriveUpTo(n, q, id, steps, x, k - 1);
      KvGoesOnProper(n, q, id, steps, before);
      var s := KvRun(n, before);
      var snap, arr := Snaps(NodeOf(n, s, x).stream), s.arrived[x];
      if k - 1 in arr || (snap[k - 1] && Reach(arr) > k) {
        end := before;
        AlreadyPast(snap, arr, k);
      } else {
        MayArrive(snap, arr, k);
        ProperMeans(n, before);
        OneKvStep(n, q, id, before, Apply(x, k - 1));
        end := before + [Apply(x, k - 1)];
        KvGoesOnTransitive(n, q, id, steps, before, end);
      }
    }
  }

  lemma NothingArrived(snap: seq<bool>, arr: seq<nat>)
    ensures ArrivedUpTo(snap, arr, 0)
  {
  }

  lemma AlreadyPast(snap: seq<bool>, arr: seq<nat>, k: nat)
    requires 0 < k <= |snap| && ArrivedUpTo(snap, arr, k - 1) && (k - 1 in arr || (snap[k - 1] && Reach(arr) > k))
    ensures ArrivedUpTo(snap, arr, k)
  {
  }

  lemma MayArrive(snap: seq<bool>, arr: seq<nat>, k: nat)
    requires 0 < k <= |snap| && ArrivedUpTo(snap, arr, k - 1) && k - 1 !in arr && (snap[k - 1] ==> Reach(arr) <= k)
    ensures CanArrive(snap, arr, k - 1) && InTurn(snap, arr, k - 1) && ArrivedUpTo(snap, arr + [k - 1], k)
  {
    hide Reach;
    ReachNext(arr, k - 1);
    var more := arr + [k - 1];
    assert forall i :: i in arr ==> i in more;
    assert more[|arr|] == k - 1;
  }

  lemma ReachNext(arr: seq<nat>, m: nat)
    ensures Reach(arr + [m]) == if m < Reach(arr) then Reach(arr) else m + 1
  {
    assert (arr + [m])[..|arr|] == arr;
  }

  // ---------------------------------------------------------------- the theorem

  /** A call that waits is answered by a service that has executed it, and returns. */
  lemma AnswerAndReturn(n: nat, q: set<nat>, id: nat, steps: seq<KvStep>, x: nat) returns (end: seq<KvStep>)
    requires Proper(n, steps) && x in q && x < n && id < |KvRun(n, steps).front.calls|
    requires var k := KvRun(n, steps);
             var op := k.front.calls[id].op;
             !k.front.calls[id].done && op.seqNum <= LastSeq(ServerOf(n, k, x).store, op.clientId)
    ensures KvGoesOn(n, q, id, steps, end)
    ensures id < |KvRun(n, end).front.calls| && KvRun(n, end).front.calls[id].done
  {
    hide KvRun, Proper, KvGoesOn, Run, Admissible, ServerOf, LastSeq, Answered;
    ProperMeans(n, steps);
    var k := KvRun(n, steps);
    var op := k.front.calls[id].op;
    OneKvStep(n, q, id, steps, Respond(x, id));
    var answered := steps + [Respond(x, id)];
    KvGoesOnProper(n, q, id, steps, answered);
    ProperMeans(n, answered);
    var r := Answered(ServerOf(n, k, x).store, op);
    AnswersIt(ServerOf(n, k, x).store, op);
    OneKvStep(n, q, id, answered, Accept(id, r));
    end := answered + [Accept(id, r)];
    KvGoesOnTransitive(n, q, id, steps, answered, end);
  }

  lemma AnswersIt(store: Store, op: Op)
    ensures Answered(store, op).clientId == op.clientId && Answered(store, op).seqNum == op.seqNum
  {
  }

  /**
   Availability of the service: after any run, any majority of the servers can go on by itself until a
   given call that waits has been answered, with a request that it made, and has returned.
   */
  lemma CallCanComplete(n: nat, steps: seq<KvStep>, q: set<nat>, id: nat) returns (end: seq<KvStep>)
    requires Proper(n, steps) && Quorum(q, n) && n >= 2
    requires id < |KvRun(n, steps).front.calls| && !KvRun(n, steps).front.calls[id].done
    ensures KvGoesOn(n, q, id, steps, end)
    ensures id < |KvRun(n, end).front.calls| && KvRun(n, end).front.calls[id].done
  {
    hide KvRun, Proper, KvGoesOn, Run, Admissible, GoesOnWith, ArrivedUpTo;
    ProperMeans(n, steps);
    var k := KvRun(n, steps);
    var op := k.front.calls[id].op;
    var trace, x := Available(n, k.trace, q, Request(op));
    var placed := InTheService(n, q, id, steps, trace);
    KvGoesOnProper(n, q, id, steps, placed);
    var stream := NodeOf(n, KvRun(n, placed), x).stream;
    var arrived := ArriveUpTo(n, q, id, placed, x, |stream|);
    KvGoesOnTransitive(n, q, id, steps, placed, arrived);
    KvGoesOnProper(n, q, id, steps, arrived);
    LastArrived(Snaps(stream), KvRun(n, arrived).arrived[x]);
    WokenCanAnswer(n, arrived, x, |stream| - 1);
    end := AnswerAndReturn(n, q, id, arrived, x);
    KvGoesOnTransitive(n, q, id, steps, arrived, end);
  }

  lemma LastArrived(snap: seq<bool>, arr: seq<nat>)
    requires snap != [] && ArrivedUpTo(snap, arr, |snap|) && !snap[|snap| - 1]
    ensures |snap| - 1 in arr
  {
  }
}
