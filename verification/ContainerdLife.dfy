/**
 The whole life of containers in containerd: their records are made by
 `prepare`, and dropped again by `killAndDeleteContainer`.
 */
module ContainerdLife {
  import opened ContainerWorld
  import opened CellRuns
  import opened BenchmarkPhases
  import opened BenchmarkStarts
  import opened BenchmarkTeardown
  import opened BenchmarkDriver
  import opened BenchmarkResults
  import opened DriverProofs

  const PREPARE := CtrdCommand("prepare")
  const KILL_TASK := CtrdCommand("kill")
  const DELETE_CONTAINER := CtrdCommand("killAndDeleteContainer")

  lemma LifePrograms()
    ensures Program(PREPARE) == [Try(MakeRecord)] && Program(KILL_TASK) == [Try(Task(Kill))]
    ensures Program(DELETE_CONTAINER) == [Try(Task(Kill)), Try(Task(Delete)), Try(DropRecord)]
  {
  }

  // ---- one invocation, from any cell ----

  /** A record is there afterwards, whether or not it was before; nothing else is touched. */
  lemma PrepareStep(c: Cell, f: seq<Exits>)
    requires |f| == 2
    ensures FitsProgram(Program(PREPARE), f)
    ensures Through(c, Program(PREPARE), f) == Cell(c.mounts, LaterStatus(c.status, Union(f)).(record := true))
  {
    LifePrograms();
    ThroughOne(c, Try(MakeRecord), f);
  }

  /** The task is killed if it can be, and stays. */
  lemma KillTaskStep(c: Cell, f: seq<Exits>)
    requires |f| == 2
    ensures FitsProgram(Program(KILL_TASK), f)
    ensures var s := LaterStatus(c.status, Union(f));
            Through(c, Program(KILL_TASK), f)
            == Cell(c.mounts,
                    if c.status.record then s.(task := Later(AfterKill(Later(c.status.task, f[0].task)), f[1].task))
                    else s)
  {
    LifePrograms();
    ThroughOne(c, Try(Task(Kill)), f);
  }

  lemma ThreeRequests(c: Cell, e0: Exits, e1: Exits, e2: Exits, e3: Exits)
    ensures var d := LaterCell(Perform(LaterCell(c, e0), Task(Kill)), e1);
            var e := LaterCell(Perform(d, Task(Delete)), e2);
            var s := LaterStatus(c.status, Both(Both(Both(e0, e1), e2), e3));
            LaterCell(Perform(e, DropRecord), e3)
            == Cell(c.mounts,
                    if c.status.record then
                      s.(record := false, task := TornDown(c.status.task, e0.task, e1.task, e2.task || e3.task))
                    else s)
  {
  }

  /** The task is killed, deleted if its process is gone by then, and the record is dropped in any case. */
  lemma DeleteContainerStep(c: Cell, f: seq<Exits>)
    requires |f| == 4
    ensures FitsProgram(Program(DELETE_CONTAINER), f)
    ensures var s := LaterStatus(c.status, Union(f));
            Through(c, Program(DELETE_CONTAINER), f)
            == Cell(c.mounts,
                    if c.status.record then
                      s.(record := false,
                         task := TornDown(c.status.task, f[0].task, f[1].task, f[2].task || f[3].task))
                    else s)
  {
    LifePrograms();
    ThroughThree(c, Try(Task(Kill)), Try(Task(Delete)), Try(DropRecord), f);
    ThreeRequests(c, f[0], f[1], f[2], f[3]);
  }

  // ---- preparing ----

  ghost predicate NothingThere(w: World, cs: seq<Container>) {
    forall i :: 0 <= i < |cs| ==> StatusOf(w, cs[i].name) == NOTHING
  }

  /** Preparing on a machine that has nothing under the names makes the machine that a test begins with. */
  lemma PreparesAll(plan: Plan, w: World, d: Driver)
    requires Complete(plan, w, d) && plan.batches == [PREPARE] && NothingThere(w, plan.cs)
    ensures IsPrepared(d.cur.world, plan.cs) && SameElsewhere(w, d.cur.world, plan.cs)
    ensures forall i :: 0 <= i < |plan.cs| ==>
              MountsAt(d.cur.world, plan.cs[i].rootfs) == MountsAt(w, plan.cs[i].rootfs)
  {
    var h := History(plan, d);
    CompleteResult(plan, w, d);
    WentEach(w, plan.cs, h);
    LifePrograms();
    forall i | 0 <= i < |plan.cs|
      ensures CellOf(d.cur.world, plan.cs[i])
              == Cell(MountsAt(w, plan.cs[i].rootfs), Status(Absent, true, Absent))
    {
      HistoryOne(CellOf(w, plan.cs[i]), h, i, |plan.cs|);
      PrepareStep(CellOf(w, plan.cs[i]), h[0].exits[i]);
    }
  }

  // ---- the whole life ----

  const LIFE := [PREPARE, CTRD_CREATE, CTRD_START, DELETE_CONTAINER]

  /** Whether the killed process of container i was gone before its task was to be deleted. */
  function GoneInTime(past: seq<Went>, i: nat, n: nat): bool
    requires i < n && IsHistory(n, past, LIFE)
  {
    LifePrograms();
    past[3].exits[i][1].task
  }

  /** There was no record, and either no task, whose process was gone in time, or a killed one that never goes. */
  predicate LivesAndLeaves(s: Status, inTime: bool, ever: Exits) {
    && !s.record
    && ((s.task == Absent && inTime) || (s.task == Killed && !ever.task))
    && (s.crun == Killed ==> !ever.crun)
  }

  /** Prepared and started: the record is there, and the task runs unless something stood in the way. */
  lemma StartedLife(c: Cell, past: seq<Went>, i: nat, n: nat)
    requires i < n && IsHistory(n, past, LIFE)
    ensures var e := Ever(past[..3], i, n);
            WentCell(c, past[..3], i, n) == Cell(c.mounts, TaskStarted(c.status.(record := true), e))
  {
    LifePrograms();
    CtrdPrograms();
    HistoryThree(c, past[..3], i, n);
    var f, g, h := past[0].exits[i], past[1].exits[i], past[2].exits[i];
    PrepareStep(c, f);
    var d := Through(c, Program(PREPARE), f);
    CtrdCreateStep(d, g);
    CtrdStartStep(Through(d, Program(CTRD_CREATE), g), h);
    LaterThrice(c.status.(record := true), Union(f), Union(g), Union(h));
  }

  lemma LifeCell(c: Cell, past: seq<Went>, i: nat, n: nat)
    requires i < n && IsHistory(n, past, LIFE)
    ensures WentCell(c, past, i, n) == c <==> LivesAndLeaves(c.status, GoneInTime(past, i, n), Ever(past, i, n))
  {
    LifePrograms();
    StartedLife(c, past, i, n);
    var e, f, s := Ever(past[..3], i, n), past[3].exits[i], c.status.(record := true);
    DeleteContainerStep(Cell(c.mounts, TaskStarted(s, e)), f);
    ThroughThree(Cell(c.mounts, TaskStarted(s, e)), Try(Task(Kill)), Try(Task(Delete)), Try(DropRecord), f);
    TaskLifeBack(s, e, f[0].task, f[1].task, f[2].task || f[3].task);
  }

  /** The containers come and go without a trace exactly if nothing of them was there, and all went in time. */
  lemma LifeRestores(plan: Plan, w: World, d: Driver)
    requires Complete(plan, w, d) && plan.batches == LIFE
    ensures IsHistory(|plan.cs|, History(plan, d), LIFE)
    ensures d.cur.world == w
            <==> forall i :: 0 <= i < |plan.cs| ==>
                   LivesAndLeaves(StatusOf(w, plan.cs[i].name), GoneInTime(History(plan, d), i, |plan.cs|),
                                  Ever(History(plan, d), i, |plan.cs|))
  {
    var h := History(plan, d);
    CompleteResult(plan, w, d);
    BackExactly(w, plan.cs, h);
    forall i | 0 <= i < |plan.cs|
      ensures WentCell(CellOf(w, plan.cs[i]), h, i, |plan.cs|) == CellOf(w, plan.cs[i])
              <==> LivesAndLeaves(StatusOf(w, plan.cs[i].name), GoneInTime(h, i, |plan.cs|), Ever(h, i, |plan.cs|))
    {
      LifeCell(CellOf(w, plan.cs[i]), h, i, |plan.cs|);
    }
  }

  lemma LifeFromNothing(plan: Plan, w: World, d: Driver)
    requires Complete(plan, w, d) && plan.batches == LIFE && NothingThere(w, plan.cs)
    ensures IsHistory(|plan.cs|, History(plan, d), LIFE)
    ensures d.cur.world == w <==> forall i :: 0 <= i < |plan.cs| ==> GoneInTime(History(plan, d), i, |plan.cs|)
  {
    LifeRestores(plan, w, d);
  }
}
