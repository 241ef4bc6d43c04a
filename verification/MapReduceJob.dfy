/** A whole MapReduce job: the coordinator, the workers' files, and what the outputs are at the end. */
module MapReduceJob {
  import opened MapReduce
  import C = MapReduceCoordinator

  /** The files of the job: intermediate ones by map task and bucket, and the outputs by bucket. */
  datatype World = World(
    job: C.Job,
    files: map<(nat, nat), seq<KeyValue>>,
    outs: map<nat, map<string, string>>
  )

  /** The job's parameters: what each map task emits, the hash, the reduction and the number of buckets. */
  datatype Plan = Plan(tasks: seq<seq<KeyValue>>, hash: string -> nat, reducef: (string, seq<string>) -> string,
      buckets: nat)

  datatype Step =
    | Ask(now: int)              // a worker asks for a task
    | Write(x: nat, y: nat)      // a worker given map task x writes its file for bucket y
    | Reduce(y: nat)             // a worker given reduce task y reads its files and writes the output
    | Report(a: C.Assignment)    // a worker that has written everything reports

  function Keys(kvs: seq<KeyValue>): set<string> {
    set i | 0 <= i < |kvs| :: kvs[i].key
  }

  function Reduced(reducef: (string, seq<string>) -> string, kvs: seq<KeyValue>): map<string, string> {
    map k | k in Keys(kvs) :: reducef(k, ValuesOf(kvs, k))
  }

  lemma {:induction false} KeysEmitted(kvs: seq<KeyValue>, k: string)
    ensures k in Keys(kvs) <==> Emitted(kvs, k)
  {
    if kvs != [] {
      var before, kv := kvs[..|kvs| - 1], kvs[|kvs| - 1];
      KeysEmitted(before, k);
      assert kvs == before + [kv];
      if k in Keys(before) {
        var i :| 0 <= i < |before| && before[i].key == k;
        assert kvs[i].key == k;
      }
      if k in Keys(kvs) && kv.key != k {
        var i :| 0 <= i < |kvs| && kvs[i].key == k;
        assert before[i].key == k;
      }
    }
  }

  lemma ReducedIs(reducef: (string, seq<string>) -> string, kvs: seq<KeyValue>)
    ensures Reduces(reducef, kvs, Reduced(reducef, kvs))
  {
    hide Emitted, ValuesOf, Keys;
    forall k
      ensures k in Reduced(reducef, kvs) <==> Emitted(kvs, k)
    {
      KeysEmitted(kvs, k);
    }
  }

  // ---------------------------------------------------------------- steps

  predicate Written(p: Plan, files: map<(nat, nat), seq<KeyValue>>, x: nat) {
    forall y :: 1 <= y <= p.buckets ==> (x, y) in files
  }

  predicate Readable(p: Plan, w: World, y: nat) {
    forall x :: 1 <= x <= |p.tasks| ==> (x, y) in w.files
  }

  /** What the reduce task of bucket y reads. */
  function Column(p: Plan, w: World, y: nat): seq<seq<KeyValue>>
    requires Readable(p, w, y)
  {
    seq(|p.tasks|, x requires 0 <= x < |p.tasks| => assert (x + 1, y) in w.files; w.files[(x + 1, y)])
  }

  /** A worker reports a task only when it has written all its files. */
  predicate MayReport(p: Plan, w: World, a: C.Assignment) {
    match a
    case TaskMap(x) => Written(p, w.files, x)
    case TaskReduce(y) => y in w.outs
    case _ => false
  }

  function Next(p: Plan, w: World, step: Step): World
    requires p.buckets > 0
  {
    match step
    case Ask(now) => w.(job := C.Next(w.job, C.Ask(now)))
    case Write(x, y) =>
      if C.TaskMap(x) in w.job.given && 1 <= x <= |p.tasks| && 1 <= y <= p.buckets
      then w.(files := w.files[(x, y) := Share(p.hash, p.tasks[x - 1], p.buckets, y)])
      else w
    case Reduce(y) =>
      if C.TaskReduce(y) in w.job.given && Readable(p, w, y)
      then w.(outs := w.outs[y := Reduced(p.reducef, Concat(Column(p, w, y)))])
      else w
    case Report(a) => if MayReport(p, w, a) then w.(job := C.Next(w.job, C.Finish(a))) else w
  }

  function Run(p: Plan, steps: seq<Step>): World
    requires p.buckets > 0
  {
    if steps == [] then World(C.Job(C.Start(|p.tasks|, p.buckets), {}), map[], map[])
    else Next(p, Run(p, steps[..|steps| - 1]), steps[|steps| - 1])
  }

  // ---------------------------------------------------------------- every run

  /** Every file holds its task's share of its bucket; every output is the reduction of the whole bucket. */
  ghost predicate FilesOK(p: Plan, w: World)
    requires p.buckets > 0
  {
    && (forall f :: f in w.files ==>
          1 <= f.0 <= |p.tasks| && 1 <= f.1 <= p.buckets &&
              w.files[f] == Share(p.hash, p.tasks[f.0 - 1], p.buckets, f.1))
    && (forall y :: y in w.outs ==>
          w.outs[y] == Reduced(p.reducef, Concat(MapReduce.Column(p.hash, p.tasks, p.buckets, y))))
  }

  /** What the coordinator takes for done is written. */
  ghost predicate DoneOK(p: Plan, w: World) {
    var c := w.job.coord;
    && (forall x :: 1 <= x <= |c.maps| && c.maps[x - 1].status == C.Done ==> Written(p, w.files, x))
    && (forall y :: 1 <= y <= |c.reduces| && c.reduces[y - 1].status == C.Done ==> y in w.outs)
  }

  ghost predicate WorldOK(p: Plan, w: World)
    requires p.buckets > 0
  {
    C.Sound(|p.tasks|, p.buckets, w.job) && FilesOK(p, w) && DoneOK(p, w)
  }

  lemma ColumnIs(p: Plan, w: World, y: nat)
    requires p.buckets > 0 && FilesOK(p, w) && Readable(p, w, y)
    ensures Column(p, w, y) == MapReduce.Column(p.hash, p.tasks, p.buckets, y)
  {
    var a, b := Column(p, w, y), MapReduce.Column(p.hash, p.tasks, p.buckets, y);
    forall x | 0 <= x < |p.tasks|
      ensures a[x] == b[x]
    {
      assert (x + 1, y) in w.files;
    }
  }

  /** Giving out a task makes nothing done. */
  lemma RequestDone(c: C.Coord, now: int)
    ensures var c' := C.Request(c, now).0;
            && |c'.maps| == |c.maps|
            && (forall x :: 0 <= x < |c.maps| && c'.maps[x].status == C.Done ==> c.maps[x].status == C.Done)
            && (forall y :: 0 <= y < |c'.reduces| && c'.reduces[y].status == C.Done ==>
                  y < |c.reduces| && c.reduces[y].status == C.Done)
  {
  }

  lemma AskDone(p: Plan, w: World, now: int)
    requires p.buckets > 0 && DoneOK(p, w)
    ensures DoneOK(p, Next(p, w, Ask(now)))
  {
    hide C.Request;
    RequestDone(w.job.coord, now);
    var c, c' := w.job.coord, C.Next(w.job, C.Ask(now)).coord;
    forall x | 1 <= x <= |c'.maps| && c'.maps[x - 1].status == C.Done
      ensures Written(p, w.files, x)
    {
      assert c.maps[x - 1].status == C.Done;
    }
    forall y | 1 <= y <= |c'.reduces| && c'.reduces[y - 1].status == C.Done
      ensures y in w.outs
    {
      assert c.reduces[y - 1].status == C.Done;
    }
  }

  /** A report makes one task done, whose files are there. */
  lemma ReportDone(p: Plan, w: World, a: C.Assignment)
    requires p.buckets > 0 && DoneOK(p, w) && MayReport(p, w, a)
    ensures DoneOK(p, Next(p, w, Report(a)))
  {
    var c, c' := w.job.coord, C.Next(w.job, C.Finish(a)).coord;
    forall x | 1 <= x <= |c'.maps| && c'.maps[x - 1].status == C.Done
      ensures Written(p, w.files, x)
    {
      if c.maps[x - 1].status != C.Done {
        assert a == C.TaskMap(x);
      }
    }
    forall y | 1 <= y <= |c'.reduces| && c'.reduces[y - 1].status == C.Done
      ensures y in w.outs
    {
      if c.reduces[y - 1].status != C.Done {
        assert a == C.TaskReduce(y);
      }
    }
  }

  lemma FinishSound(files: nat, nReduce: nat, j: C.Job, a: C.Assignment)
    requires C.Sound(files, nReduce, j)
    ensures C.Sound(files, nReduce, C.Next(j, C.Finish(a)))
  {
  }

  lemma ReportOK(p: Plan, w: World, a: C.Assignment)
    requires p.buckets > 0 && WorldOK(p, w)
    ensures WorldOK(p, Next(p, w, Report(a)))
  {
    hide DoneOK, FilesOK, C.Sound, C.Next;
    if MayReport(p, w, a) {
      ReportDone(p, w, a);
      FinishSound(|p.tasks|, p.buckets, w.job, a);
      SameFiles(p, w, Next(p, w, Report(a)));
    }
  }

  lemma SameFiles(p: Plan, w: World, w': World)
    requires p.buckets > 0 && FilesOK(p, w) && w'.files == w.files && w'.outs == w.outs
    ensures FilesOK(p, w')
  {
  }

  lemma WriteOK(p: Plan, w: World, x: nat, y: nat)
    requires p.buckets > 0 && WorldOK(p, w)
    ensures WorldOK(p, Next(p, w, Write(x, y)))
  {
    hide C.Sound, Share;
    var w' := Next(p, w, Write(x, y));
    forall z | 1 <= z <= |w.job.coord.maps| && w.job.coord.maps[z - 1].status == C.Done
      ensures Written(p, w'.files, z)
    {
      assert Written(p, w.files, z);
    }
  }

  lemma ReduceOK(p: Plan, w: World, y: nat)
    requires p.buckets > 0 && WorldOK(p, w)
    ensures WorldOK(p, Next(p, w, Reduce(y)))
  {
    hide C.Sound, Share, Reduced, Concat, MapReduce.Column;
    var w' := Next(p, w, Reduce(y));
    if C.TaskReduce(y) in w.job.given && Readable(p, w, y) {
      ColumnIs(p, w, y);
    }
    forall z | 1 <= z <= |w.job.coord.maps| && w.job.coord.maps[z - 1].status == C.Done
      ensures Written(p, w'.files, z)
    {
      assert Written(p, w.files, z);
    }
  }

  lemma {:induction false} RunOK(p: Plan, steps: seq<Step>)
    requires p.buckets > 0
    ensures WorldOK(p, Run(p, steps))
  {
    hide Next, C.Sound, FilesOK, DoneOK;
    if steps == [] {
      StartOK(p);
    } else {
      var w, step := Run(p, steps[..|steps| - 1]), steps[|steps| - 1];
      RunOK(p, steps[..|steps| - 1]);
      match step
      case Ask(now) => AskOK(p, w, now);
      case Write(x, y) => WriteOK(p, w, x, y);
      case Reduce(y) => ReduceOK(p, w, y);
      case Report(a) => ReportOK(p, w, a);
    }
  }

  lemma StartOK(p: Plan)
    requires p.buckets > 0
    ensures WorldOK(p, Run(p, []))
  {
    var steps: seq<C.Step> := [];
    C.RunSound(|p.tasks|, p.buckets, steps);
  }

  lemma AskOK(p: Plan, w: World, now: int)
    requires p.buckets > 0 && WorldOK(p, w)
    ensures WorldOK(p, Next(p, w, Ask(now)))
  {
    hide DoneOK, FilesOK, C.Sound, C.Next;
    AskDone(p, w, now);
    C.AskSound(|p.tasks|, p.buckets, w.job, now);
    SameFiles(p, w, Next(p, w, Ask(now)));
  }

  // ---------------------------------------------------------------- theorems

  /** A reduce task, whenever it is given out, finds every file it reads, complete. */
  lemma ReduceFindsFiles(p: Plan, steps: seq<Step>, y: nat)
    requires p.buckets > 0 && C.TaskReduce(y) in Run(p, steps).job.given
    ensures 1 <= y <= p.buckets && Readable(p, Run(p, steps), y)
    ensures Column(p, Run(p, steps), y) == MapReduce.Column(p.hash, p.tasks, p.buckets, y)
  {
    hide Run;
    RunOK(p, steps);
    var w := Run(p, steps);
    assert w.job.coord.phase >= 1;
    forall x | 1 <= x <= |p.tasks|
      ensures (x, y) in w.files
    {
      assert w.job.coord.maps[x - 1].status == C.Done;
      assert Written(p, w.files, x);
    }
    hide C.Sound, Share, MapReduce.Column;
    ColumnIs(p, w, y);
  }

  /** The outputs of all buckets, in order. */
  function Outputs(p: Plan, w: World): seq<map<string, string>>
    requires forall y :: 1 <= y <= p.buckets ==> y in w.outs
  {
    seq(p.buckets, y requires 0 <= y < p.buckets => assert y + 1 in w.outs; w.outs[y + 1])
  }

  /**
   When a worker is told to exit, every output is there, and together they are what the sequential
   program prints, exactly if the reduction does not see the order the sort left the values in:
   however tasks were timed out, given out twice, written twice or reported late.
   */
  lemma FinishedJob(p: Plan, steps: seq<Step>, sorted: seq<KeyValue>, out: map<string, string>)
    requires p.buckets > 0 && C.TaskExit in Run(p, steps).job.given
    requires multiset(sorted) == multiset(Concat(p.tasks)) && Reduces(p.reducef, sorted, out)
    ensures forall y :: 1 <= y <= p.buckets ==> y in Run(p, steps).outs
    ensures Together(Outputs(p, Run(p, steps)), out) <==> OrderFree(p.reducef, sorted, Concat(p.tasks))
  {
    hide Run, Together, Reduces, Share, Reduced, Concat, MapReduce.Column;
    RunOK(p, steps);
    var w := Run(p, steps);
    AllWritten(p, w);
    var outs := Outputs(p, w);
    forall y | 1 <= y <= p.buckets
      ensures Reduces(p.reducef, Concat(MapReduce.Column(p.hash, p.tasks, p.buckets, y)), outs[y - 1])
    {
      assert outs[y - 1] == w.outs[y];
      ReducedIs(p.reducef, Concat(MapReduce.Column(p.hash, p.tasks, p.buckets, y)));
    }
    JobExact(p.hash, p.reducef, p.tasks, p.buckets, outs, sorted, out);
  }

  lemma AllWritten(p: Plan, w: World)
    requires p.buckets > 0 && WorldOK(p, w) && C.TaskExit in w.job.given
    ensures forall y :: 1 <= y <= p.buckets ==> y in w.outs
  {
    hide FilesOK;
    forall y | 1 <= y <= p.buckets
      ensures y in w.outs
    {
      assert w.job.coord.reduces[y - 1].status == C.Done;
    }
  }

  // ---------------------------------------------------------------- no job hangs

  function Undone(ts: seq<C.Task>): nat {
    if ts == [] then 0 else Undone(ts[..|ts| - 1]) + if ts[|ts| - 1].status == C.Done then 0 else 1
  }

  lemma {:induction false} UndoneWith(ts: seq<C.Task>, i: nat, t: C.Task)
    requires i < |ts|
    ensures Undone(ts[i := t]) ==
            Undone(ts) - (if ts[i].status == C.Done then 0 else 1) + if t.status == C.Done then 0 else 1
  {
    var n := |ts| - 1;
    if i == n {
      assert ts[i := t][..n] == ts[..n];
    } else {
      UndoneWith(ts[..n], i, t);
      assert ts[i := t][..n] == ts[..n][i := t];
    }
  }

  lemma {:induction false} SomeUndone(ts: seq<C.Task>) returns (i: nat)
    requires Undone(ts) > 0
    ensures i < |ts| && ts[i].status != C.Done
  {
    if ts[|ts| - 1].status != C.Done {
      i := |ts| - 1;
    } else {
      i := SomeUndone(ts[..|ts| - 1]);
    }
  }

  lemma {:induction false} NoneUndone(ts: seq<C.Task>)
    requires Undone(ts) == 0
    ensures C.AllDone(ts)
  {
    if ts != [] {
      NoneUndone(ts[..|ts| - 1]);
    }
  }

  /** A time by which every task given out is overdue. */
  lemma {:induction false} Late(ts: seq<C.Task>) returns (now: int)
    ensures forall i :: 0 <= i < |ts| ==> now - ts[i].assignedAt > 15
  {
    now := 0;
    if ts != [] {
      var before := Late(ts[..|ts| - 1]);
      now := if before > ts[|ts| - 1].assignedAt + 16 then before else ts[|ts| - 1].assignedAt + 16;
    }
  }

  lemma RunNext(p: Plan, steps: seq<Step>, step: Step)
    requires p.buckets > 0
    ensures Run(p, steps + [step]) == Next(p, Run(p, steps), step)
  {
    assert (steps + [step])[..|steps|] == steps;
  }

  /** A worker that was given a map task writes its files, up to bucket `k`. */
  lemma {:induction false} WritesAll(p: Plan, steps: seq<Step>, x: nat, k: nat) returns (end: seq<Step>)
    requires p.buckets > 0 && 1 <= x <= |p.tasks| && k <= p.buckets && C.TaskMap(x) in Run(p, steps).job.given
    ensures steps <= end && Run(p, end).job == Run(p, steps).job
    ensures forall y :: 1 <= y <= k ==> (x, y) in Run(p, end).files
  {
    hide Run;
    end := steps;
    if k > 0 {
      var before := WritesAll(p, steps, x, k - 1);
      RunNext(p, before, Write(x, k));
      end := before + [Write(x, k)];
    }
  }

  /** One more map task is done: asked for when it is overdue, written, and reported. */
  lemma MapDone(p: Plan, steps: seq<Step>) returns (end: seq<Step>)
    requires p.buckets > 0 && Run(p, steps).job.coord.phase == 0 && Undone(Run(p, steps).job.coord.maps) > 0
    ensures steps <= end
    ensures Run(p, end).job.coord.phase == 0
    ensures Undone(Run(p, end).job.coord.maps) < Undone(Run(p, steps).job.coord.maps)
  {
    hide Run, WorldOK, C.Request, C.Report;
    var c := Run(p, steps).job.coord;
    var i := SomeUndone(c.maps);
    var now := Late(c.maps);
    C.MapGiven(c, now, i);
    var (c1, a) := C.Request(c, now);
    RunNext(p, steps, Ask(now));
    var asked := steps + [Ask(now)];
    RunOK(p, asked);
    GivenInRange(p, Run(p, asked), a);
    var written := WritesAll(p, asked, a.x, p.buckets);
    RunNext(p, written, Report(a));
    end := written + [Report(a)];
    C.ReportExact(c1, a.x, 0);
    var c2 := C.Report(c1, a.x, 0);
    UndoneWith(c.maps, a.x - 1, C.Task(C.Doing, now));
    UndoneWith(c1.maps, a.x - 1, c1.maps[a.x - 1].(status := C.Done));
    assert c2.maps == c1.maps[a.x - 1 := c1.maps[a.x - 1].(status := C.Done)];
  }

  lemma GivenInRange(p: Plan, w: World, a: C.Assignment)
    requires p.buckets > 0 && WorldOK(p, w) && a in w.job.given
    ensures a.TaskMap? ==> 1 <= a.x <= |p.tasks| && a.x <= |w.job.coord.maps|
    ensures a.TaskReduce? ==> 1 <= a.y <= p.buckets && a.y <= |w.job.coord.reduces|
  {
  }

  lemma ReduceDone(p: Plan, steps: seq<Step>) returns (end: seq<Step>)
    requires p.buckets > 0 && Run(p, steps).job.coord.phase == 1 && Undone(Run(p, steps).job.coord.reduces) > 0
    ensures steps <= end
    ensures Run(p, end).job.coord.phase == 1
    ensures Undone(Run(p, end).job.coord.reduces) < Undone(Run(p, steps).job.coord.reduces)
  {
    hide Run, WorldOK, C.Request, C.Report, Reduced, Readable, Column;
    var c := Run(p, steps).job.coord;
    var i := SomeUndone(c.reduces);
    var now := Late(c.reduces);
    C.ReduceGiven(c, now, i);
    var (c1, a) := C.Request(c, now);
    RunNext(p, steps, Ask(now));
    var asked := steps + [Ask(now)];
    RunOK(p, asked);
    GivenInRange(p, Run(p, asked), a);
    ReduceFindsFiles(p, asked, a.y);
    RunNext(p, asked, Reduce(a.y));
    var written := asked + [Reduce(a.y)];
    RunNext(p, written, Report(a));
    end := written + [Report(a)];
    C.ReportExact(c1, 0, a.y);
    var c2 := C.Report(c1, 0, a.y);
    UndoneWith(c.reduces, a.y - 1, C.Task(C.Doing, now));
    UndoneWith(c1.reduces, a.y - 1, c1.reduces[a.y - 1].(status := C.Done));
    assert c2.reduces == c1.reduces[a.y - 1 := c1.reduces[a.y - 1].(status := C.Done)];
  }

  lemma {:induction false} MapsEnd(p: Plan, steps: seq<Step>) returns (end: seq<Step>)
    requires p.buckets > 0
    ensures steps <= end && 1 <= Run(p, end).job.coord.phase <= 2
    decreases Undone(Run(p, steps).job.coord.maps)
  {
    hide Run, C.Request;
    RunOK(p, steps);
    var c := Run(p, steps).job.coord;
    if c.phase > 0 {
      end := steps;
    } else if Undone(c.maps) > 0 {
      var more := MapDone(p, steps);
      end := MapsEnd(p, more);
    } else {
      NoneUndone(c.maps);
      C.PhaseExact(c, 0);
      RunNext(p, steps, Ask(0));
      end := steps + [Ask(0)];
      RunOK(p, end);
    }
  }

  lemma {:induction false} ReducesEnd(p: Plan, steps: seq<Step>) returns (end: seq<Step>)
    requires p.buckets > 0 && 1 <= Run(p, steps).job.coord.phase <= 2
    ensures steps <= end && C.TaskExit in Run(p, end).job.given
    decreases Undone(Run(p, steps).job.coord.reduces)
  {
    hide Run, C.Request;
    var c := Run(p, steps).job.coord;
    if c.phase == 1 && Undone(c.reduces) > 0 {
      var more := ReduceDone(p, steps);
      end := ReducesEnd(p, more);
    } else {
      if c.phase == 1 {
        NoneUndone(c.reduces);
      }
      C.PhaseExact(c, 0);
      RunNext(p, steps, Ask(0));
      end := steps + [Ask(0)];
    }
  }

  /**
   No job hangs: whatever has happened to workers, tasks and reports, the run can go on to the end,
   because a task that is not reported in time is given out again.
   */
  lemma CanFinish(p: Plan, steps: seq<Step>) returns (end: seq<Step>)
    requires p.buckets > 0
    ensures steps <= end && C.TaskExit in Run(p, end).job.given
    ensures forall y :: 1 <= y <= p.buckets ==> y in Run(p, end).outs
  {
    var maps := MapsEnd(p, steps);
    end := ReducesEnd(p, maps);
    RunOK(p, end);
    AllWritten(p, Run(p, end));
  }
}
