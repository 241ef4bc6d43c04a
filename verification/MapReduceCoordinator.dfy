/** The MapReduce coordinator: which task a worker is given, and when the job may move on. */
module MapReduceCoordinator {
  datatype Status = Todo | Doing | Done

  datatype Task = Task(status: Status, assignedAt: int)

  const MAP_LIMIT := 15       // seconds after which a task is given out again
  const REDUCE_LIMIT := 10

  /** Task numbers start at 1: task x is `maps[x - 1]`. The reduce tasks exist from phase 1 on. */
  datatype Coord = Coord(phase: nat, maps: seq<Task>, reduces: seq<Task>, capY: nat)

  datatype Assignment = TaskNone | TaskMap(x: nat) | TaskReduce(y: nat) | TaskExit

  function Start(files: nat, nReduce: nat): Coord {
    Coord(0, seq(files, _ => Task(Todo, 0)), [], nReduce)
  }

  predicate Open(t: Task, now: int, limit: int) {
    t.status == Todo || (t.status == Doing && now - t.assignedAt > limit)
  }

  predicate AllDone(ts: seq<Task>) {
    forall i :: 0 <= i < |ts| ==> ts[i].status == Done
  }

  /** The number of the first task that may be given out, or 0. */
  function FirstOpen(ts: seq<Task>, now: int, limit: int): (x: nat)
    ensures x <= |ts|
    ensures x > 0 ==> Open(ts[x - 1], now, limit) && forall i :: 0 <= i < x - 1 ==> !Open(ts[i], now, limit)
    ensures x == 0 ==> forall i :: 0 <= i < |ts| ==> !Open(ts[i], now, limit)
  {
    if ts == [] then 0
    else
      var x := FirstOpen(ts[..|ts| - 1], now, limit);
      if x > 0 then x else if Open(ts[|ts| - 1], now, limit) then |ts| else 0
  }

  function Assign(ts: seq<Task>, x: nat, now: int): seq<Task>
    requires 1 <= x <= |ts|
  {
    ts[x - 1 := Task(Doing, now)]
  }

  /** A worker asks for work. Finishing a phase and looking at the next one happen in the same call. */
  function Request(c: Coord, now: int): (Coord, Assignment) {
    var x := if c.phase == 0 then FirstOpen(c.maps, now, MAP_LIMIT) else 0;
    var c := if c.phase == 0 && x == 0 && AllDone(c.maps)
        then c.(phase := 1, reduces := seq(c.capY, _ => Task(Todo, 0))) else c;
    var y := if c.phase == 1 then FirstOpen(c.reduces, now, REDUCE_LIMIT) else 0;
    var c := if c.phase == 1 && y == 0 && AllDone(c.reduces) then c.(phase := 2) else c;
    if c.phase == 2 then (c, TaskExit)
    else if x > 0 then (c.(maps := Assign(c.maps, x, now)), TaskMap(x))
    else if y > 0 then (c.(reduces := Assign(c.reduces, y, now)), TaskReduce(y))
    else (c, TaskNone)
  }

  /** The task numbers a report may carry, 0 standing for none. */
  predicate Reportable(c: Coord, x: nat, y: nat) {
    x <= |c.maps| && y <= |c.reduces|
  }

  /** A worker reports a task done, possibly long after it was given to another. */
  function Report(c: Coord, x: nat, y: nat): Coord
    requires Reportable(c, x, y)
  {
    if x != 0 && c.maps[x - 1].status != Done then c.(maps := c.maps[x - 1 := c.maps[x - 1].(status := Done)])
    else if y != 0 && c.reduces[y - 1].status != Done
        then c.(reduces := c.reduces[y - 1 := c.reduces[y - 1].(status := Done)])
    else c
  }

  // ---------------------------------------------------------------- what a worker is told

  /** While maps are to be done, one not begun, or begun over 15 seconds ago, is given out: the first such. */
  lemma MapGiven(c: Coord, now: int, i: nat)
    requires c.phase == 0 && i < |c.maps|
    requires c.maps[i].status == Todo || (c.maps[i].status == Doing && now - c.maps[i].assignedAt > 15)
    ensures var (c', a) := Request(c, now);
            && a.TaskMap? && 1 <= a.x <= i + 1 && c' == c.(maps := c.maps[a.x - 1 := Task(Doing, now)])
            && var t := c.maps[a.x - 1];
               t.status == Todo || (t.status == Doing && now - t.assignedAt > 15)
  {
    assert Open(c.maps[i], now, MAP_LIMIT);
  }

  /** The same for reduce tasks, after 10 seconds. */
  lemma ReduceGiven(c: Coord, now: int, i: nat)
    requires c.phase == 1 && i < |c.reduces|
    requires c.reduces[i].status == Todo || (c.reduces[i].status == Doing && now - c.reduces[i].assignedAt > 10)
    ensures var (c', a) := Request(c, now);
            && a.TaskReduce? && 1 <= a.y <= i + 1 && c' == c.(reduces := c.reduces[a.y - 1 := Task(Doing, now)])
            && var t := c.reduces[a.y - 1];
               t.status == Todo || (t.status == Doing && now - t.assignedAt > 10)
  {
    assert Open(c.reduces[i], now, REDUCE_LIMIT);
  }

  /** A worker is sent away without a task only if every unfinished one is in hand and within its time. */
  lemma WaitsExact(c: Coord, now: int)
    requires c.phase <= 2
    ensures Request(c, now).1 == TaskNone <==>
            && c.phase < 2
            && var (ts, seconds) := if c.phase == 0 then (c.maps, 15) else (c.reduces, 10);
               && (exists i :: 0 <= i < |ts| && ts[i].status != Done)
               && forall i :: 0 <= i < |ts| && ts[i].status != Done ==>
                    ts[i].status == Doing && now - ts[i].assignedAt <= seconds
    ensures Request(c, now).1 == TaskNone ==> Request(c, now).0 == c
  {
    if c.phase == 0 && FirstOpen(c.maps, now, MAP_LIMIT) == 0 && AllDone(c.maps) && c.capY > 0 {
      FreshFirst(c.capY, now);
    }
  }

  /** Phases end exactly when their last task is done; with no reduce tasks at all the job ends at once. */
  lemma PhaseExact(c: Coord, now: int)
    requires c.phase <= 2
    ensures var (c', a) := Request(c, now);
            && (c'.phase == 0 <==> c.phase == 0 && exists i :: 0 <= i < |c.maps| && c.maps[i].status != Done)
            && (c.phase == 0 && c'.phase == 1 ==>
                  a == TaskReduce(1) && c'.maps == c.maps && |c'.reduces| == c.capY &&
                  forall i :: 1 <= i < c.capY ==> c'.reduces[i].status == Todo)
            && (c.phase == 0 && c'.phase == 2 ==> c.capY == 0)
            && (c.phase == 1 ==> (c'.phase == 2 <==> forall i :: 0 <= i < |c.reduces| ==> c.reduces[i].status == Done))
            && (a == TaskExit <==> c'.phase == 2)
            && (c.phase == 2 ==> c' == c)
  {
    if c.phase == 0 && FirstOpen(c.maps, now, MAP_LIMIT) == 0 && AllDone(c.maps) && c.capY > 0 {
      FreshFirst(c.capY, now);
    }
  }

  lemma FreshFirst(n: nat, now: int)
    requires n > 0
    ensures FirstOpen(seq(n, _ => Task(Todo, 0)), now, REDUCE_LIMIT) == 1
  {
    var ts := seq(n, _ => Task(Todo, 0));
    assert Open(ts[0], now, REDUCE_LIMIT);
  }

  /** A report finishes the task it names, whoever it was given to since, and touches no other. */
  lemma ReportExact(c: Coord, x: nat, y: nat)
    requires Reportable(c, x, y) && (x == 0 || y == 0)
    ensures var c' := Report(c, x, y);
            && c'.phase == c.phase && |c'.maps| == |c.maps| && |c'.reduces| == |c.reduces|
            && (forall i :: 0 <= i < |c.maps| ==>
                  c'.maps[i] == if i == x - 1 then c.maps[i].(status := Done) else c.maps[i])
            && (forall i :: 0 <= i < |c.reduces| ==>
                  c'.reduces[i] == if i == y - 1 then c.reduces[i].(status := Done) else c.reduces[i])
  {
  }

  // ---------------------------------------------------------------- every run

  datatype Step = Ask(now: int) | Finish(a: Assignment)

  /** The coordinator, and every assignment it has made. */
  datatype Job = Job(coord: Coord, given: set<Assignment>)

  function XOf(a: Assignment): nat { if a.TaskMap? then a.x else 0 }

  function YOf(a: Assignment): nat { if a.TaskReduce? then a.y else 0 }

  function Next(j: Job, step: Step): Job {
    match step
    case Ask(now) => var (c, a) := Request(j.coord, now); Job(c, j.given + {a})
    case Finish(a) =>
      if a in j.given && Reportable(j.coord, XOf(a), YOf(a)) then j.(coord := Report(j.coord, XOf(a), YOf(a))) else j
  }

  function Run(files: nat, nReduce: nat, steps: seq<Step>): Job {
    if steps == [] then Job(Start(files, nReduce), {})
    else Next(Run(files, nReduce, steps[..|steps| - 1]), steps[|steps| - 1])
  }

  ghost predicate Sound(files: nat, nReduce: nat, j: Job) {
    var c := j.coord;
    && c.phase <= 2 && |c.maps| == files && c.capY == nReduce
    && (c.phase == 0 ==> c.reduces == [])
    && (c.phase >= 1 ==> AllDone(c.maps) && |c.reduces| == nReduce)
    && (c.phase == 2 ==> AllDone(c.reduces))
    && (forall a :: a in j.given ==>
          match a
          case TaskNone => true
          case TaskMap(x) => 1 <= x <= files
          case TaskReduce(y) => 1 <= y <= nReduce && c.phase >= 1
          case TaskExit => c.phase == 2)
  }

  lemma {:induction false} RunSound(files: nat, nReduce: nat, steps: seq<Step>)
    ensures Sound(files, nReduce, Run(files, nReduce, steps))
  {
    if steps != [] {
      var before, step := Run(files, nReduce, steps[..|steps| - 1]), steps[|steps| - 1];
      RunSound(files, nReduce, steps[..|steps| - 1]);
      if step.Ask? {
        AskSound(files, nReduce, before, step.now);
      }
    }
  }

  lemma AskSound(files: nat, nReduce: nat, j: Job, now: int)
    requires Sound(files, nReduce, j)
    ensures Sound(files, nReduce, Next(j, Ask(now)))
  {
    var (c, a) := Request(j.coord, now);
    assert j.coord.phase <= c.phase;
  }

  /**
   The barriers: a reduce task is given out only when every map task is done, and workers are told
   to exit only when every task of both kinds is; every report names a task that exists.
   */
  lemma Barriers(files: nat, nReduce: nat, steps: seq<Step>, a: Assignment)
    requires a in Run(files, nReduce, steps).given
    ensures var c := Run(files, nReduce, steps).coord;
            && Reportable(c, XOf(a), YOf(a))
            && (a.TaskReduce? ==> AllDone(c.maps))
            && (a.TaskExit? ==> AllDone(c.maps) && AllDone(c.reduces) && |c.reduces| == nReduce)
  {
    RunSound(files, nReduce, steps);
  }

  /** Tasks stay, and what was done in `c` is done in `d`. */
  ghost predicate Kept(c: Coord, d: Coord) {
    && |c.maps| <= |d.maps| && |c.reduces| <= |d.reduces|
    && (forall x :: 0 <= x < |c.maps| && c.maps[x].status == Done ==> d.maps[x].status == Done)
    && (forall y :: 0 <= y < |c.reduces| && c.reduces[y].status == Done ==> d.reduces[y].status == Done)
  }

  lemma StepKeeps(files: nat, nReduce: nat, j: Job, step: Step)
    requires Sound(files, nReduce, j)
    ensures Kept(j.coord, Next(j, step).coord)
  {
  }

  lemma KeptTransitive(a: Coord, b: Coord, c: Coord)
    requires Kept(a, b) && Kept(b, c)
    ensures Kept(a, c)
  {
  }

  /** A finished task stays finished, whatever is reported late or given out twice. */
  lemma {:induction false} DoneStays(files: nat, nReduce: nat, steps: seq<Step>, i: nat)
    requires i <= |steps|
    ensures Kept(Run(files, nReduce, steps[..i]).coord, Run(files, nReduce, steps).coord)
  {
    hide Next, Sound;
    if i == |steps| {
      assert steps[..i] == steps;
    } else {
      hide Kept;
      var before := steps[..|steps| - 1];
      assert before[..i] == steps[..i];
      DoneStays(files, nReduce, before, i);
      RunSound(files, nReduce, before);
      StepKeeps(files, nReduce, Run(files, nReduce, before), steps[|steps| - 1]);
      KeptTransitive(Run(files, nReduce, steps[..i]).coord, Run(files, nReduce, before).coord,
          Run(files, nReduce, steps).coord);
    }
  }

  // ---------------------------------------------------------------- the object

  class Coordinator {
    var phase: nat
    var mapTask: seq<Task>
    var reduceTask: seq<Task>
    const capX: nat
    const capY: nat

    predicate Valid()
      reads this
    {
      |mapTask| == capX && (phase == 1 ==> |reduceTask| == capY)
    }

    function View(): Coord
      reads this
    {
      Coord(phase, mapTask, reduceTask, capY)
    }

    constructor (files: nat, nReduce: nat)
      ensures Valid() && View() == Start(files, nReduce)
    {
      capX, capY := files, nReduce;
      phase := 0;
      mapTask := seq(files, _ => Task(Todo, 0));
      reduceTask := [];
    }

    /** The scan both phases share: the first task that is open, and how many are not done. */
    static method Scan(ts: seq<Task>, now: int, limit: int) returns (x: nat, left: nat)
      ensures x == FirstOpen(ts, now, limit)
      ensures x > 0 ==> ts[x - 1].status == Todo || (ts[x - 1].status == Doing && now - ts[x - 1].assignedAt > limit)
      ensures forall i :: 0 <= i < (if x > 0 then x - 1 else |ts|) ==>
                ts[i].status == Done || (ts[i].status == Doing && now - ts[i].assignedAt <= limit)
      ensures x == 0 ==> (left == 0 <==> AllDone(ts))
    {
      left := |ts|;
      x := 0;
      var i := 0;
      while i < |ts|
        invariant 0 <= i <= |ts| && |ts| - i <= left
        invariant forall j :: 0 <= j < i ==> !Open(ts[j], now, limit)
        invariant left == |ts| - i <==> AllDone(ts[..i])
      {
        assert ts[..i + 1] == ts[..i] + [ts[i]];
        match ts[i].status {
          case Todo => x := i + 1; return;
          case Doing => if now - ts[i].assignedAt > limit { x := i + 1; return; }
          case Done => left := left - 1;
        }
        i := i + 1;
      }
      assert ts[..i] == ts;
    }

    method FetchMap(now: int) returns (x: nat)
      requires Valid() && phase == 0
      modifies this
      ensures Valid() && x == FirstOpen(old(mapTask), now, MAP_LIMIT) && mapTask == old(mapTask)
      ensures var finished := x == 0 && AllDone(old(mapTask));
              && phase == (if finished then 1 else 0)
              && reduceTask == (if finished then seq(capY, _ => Task(Todo, 0)) else old(reduceTask))
    {
      var left;
      x, left := Scan(mapTask, now, MAP_LIMIT);
      if x == 0 && left == 0 {
        phase := 1;
        reduceTask := seq(capY, _ => Task(Todo, 0));
      }
    }

    method FetchReduce(now: int) returns (y: nat)
      requires Valid() && phase == 1
      modifies this`phase
      ensures Valid() && y == FirstOpen(reduceTask, now, REDUCE_LIMIT)
      ensures phase == if y == 0 && AllDone(reduceTask) then 2 else 1
    {
      var left;
      y, left := Scan(reduceTask, now, REDUCE_LIMIT);
      if y == 0 && left == 0 {
        phase := 2;
      }
    }

    method RequestTask(now: int) returns (a: Assignment)
      requires Valid()
      modifies this
      ensures Valid() && (View(), a) == Request(old(View()), now)
    {
      hide FirstOpen, AllDone;
      var x, y := 0, 0;
      if phase == 0 {
        x := FetchMap(now);
      }
      if phase == 1 {
        y := FetchReduce(now);
      }
      if phase == 2 {
        return TaskExit;
      }
      if x > 0 {
        mapTask := mapTask[x - 1 := Task(Doing, now)];
        return TaskMap(x);
      }
      if y > 0 {
        reduceTask := reduceTask[y - 1 := Task(Doing, now)];
        return TaskReduce(y);
      }
      return TaskNone;
    }

    method ResponseTask(lowerX: nat, lowerY: nat)
      requires Valid() && Reportable(View(), lowerX, lowerY)
      modifies this
      ensures Valid() && View() == Report(old(View()), lowerX, lowerY)
    {
      if lowerX != 0 && mapTask[lowerX - 1].status != Done {
        mapTask := mapTask[lowerX - 1 := mapTask[lowerX - 1].(status := Done)];
        return;
      }
      if lowerY != 0 && reduceTask[lowerY - 1].status != Done {
        reduceTask := reduceTask[lowerY - 1 := reduceTask[lowerY - 1].(status := Done)];
      }
    }
  }
}
