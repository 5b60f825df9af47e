/** Every batch ends, whichever forks fail and whichever processes go away. */
module LauncherTermination {
  import opened ContainerWorld
  import opened CellRuns
  import opened Launcher
  import opened LauncherProofs

  function MainWeight(pc: Pc): nat {
    match pc
    case Forking(n) => if n < 0 then 2 else 2 * n + 4
    case Forked(n, _) => if n < 0 then 0 else 2 * n + 3
    case Waiting => 1
    case _ => 0
  }

  function KilledIn(c: Cell): nat {
    (if c.status.crun == Killed then 1 else 0) + (if c.status.task == Killed then 1 else 0)
  }

  function StageWeight(c: Config, s: State, i: int): nat
    requires c.main in s.procs && 0 <= i < |c.jobs| == |s.procs[c.main].pids|
  {
    match StageOf(c, s, i)
    case Unborn | Fresh => 2 * |c.jobs[i].program| + 3
    case Busy(todo) => 2 * |todo| + 2
    case Done => if Pid(c, s, i) in s.procs then 1 else 0
  }

  function Weight(c: Config, s: State, i: int): nat
    requires c.main in s.procs && 0 <= i < |c.jobs| == |s.procs[c.main].pids|
  {
    StageWeight(c, s, i) + KilledIn(CellOf(s.world, c.jobs[i].at))
  }

  function WeightFrom(c: Config, s: State, i: nat): nat
    requires c.main in s.procs && i <= |c.jobs| == |s.procs[c.main].pids|
    decreases |c.jobs| - i
  {
    if i == |c.jobs| then 0 else Weight(c, s, i) + WeightFrom(c, s, i + 1)
  }

  function Measure(c: Config, s: State): nat
    requires c.main in s.procs && |c.jobs| == |s.procs[c.main].pids|
  {
    MainWeight(s.procs[c.main].pc) + WeightFrom(c, s, 0)
  }

  lemma {:induction false} WeightsShrink(c: Config, s: State, s': State, i: nat, n: int)
    requires c.main in s.procs && c.main in s'.procs
    requires i <= |c.jobs| == |s.procs[c.main].pids| == |s'.procs[c.main].pids|
    requires forall j :: i <= j < |c.jobs| ==> Weight(c, s', j) <= Weight(c, s, j)
    requires i <= n < |c.jobs| ==> Weight(c, s', n) < Weight(c, s, n)
    ensures WeightFrom(c, s', i) <= WeightFrom(c, s, i)
    ensures i <= n < |c.jobs| ==> WeightFrom(c, s', i) < WeightFrom(c, s, i)
    decreases |c.jobs| - i
  {
    if i < |c.jobs| {
      WeightsShrink(c, s, s', i + 1, n);
    }
  }

  lemma ReapShrinks(c: Config, s: State, child: int)
    requires TableInv(c, s) && Enabled(c, s, Reap(c.main, child))
    ensures Measure(c, Apply(c, s, Reap(c.main, child))) < Measure(c, s)
  {
    OnlyMainForksOrWaits(c, s, Reap(c.main, child));
    assert ChildInv(c, s.procs[child], s.procs[c.main].pids, child);
    WeightsShrink(c, s, Apply(c, s, Reap(c.main, child)), 0, s.procs[child].pc.n);
  }

  lemma ForkFailsShrinks(c: Config, s: State)
    requires TableInv(c, s) && ForkInv(c, s.procs[c.main]) && Enabled(c, s, ForkFails(c.main))
    ensures Measure(c, Apply(c, s, ForkFails(c.main))) < Measure(c, s)
  {
    WeightsShrink(c, s, Apply(c, s, ForkFails(c.main)), 0, -1);
  }

  lemma ForkShrinks(c: Config, s: State, child: int)
    requires TableInv(c, s) && ForkInv(c, s.procs[c.main]) && Enabled(c, s, Fork(c.main, child))
    ensures Measure(c, ForkApply(s, c.main, child)) < Measure(c, s)
  {
    var s', n := ForkApply(s, c.main, child), s.procs[c.main].pc.n;
    ForkKeepsStages(c, s, child);
    forall i | 0 <= i < |c.jobs| ensures Weight(c, s', i) == Weight(c, s, i) {
      assert i != n ==> StageOf(c, s', i) == StageOf(c, s, i) && Pid(c, s', i) == Pid(c, s, i);
    }
    WeightsShrink(c, s, s', 0, -1);
  }

  lemma MainShrinks(c: Config, s: State)
    requires TableInv(c, s) && ForkInv(c, s.procs[c.main]) && Enabled(c, s, Go(c.main))
    ensures Measure(c, GoApply(c, s, c.main)) < Measure(c, s)
  {
    var s' := GoApply(c, s, c.main);
    MainStays(c, s);
    forall i | 0 <= i < |c.jobs| ensures Weight(c, s', i) == Weight(c, s, i) {
      assert Pid(c, s', i) == Pid(c, s, i) && StageOf(c, s', i) == StageOf(c, s, i);
    }
    WeightsShrink(c, s, s', 0, -1);
  }

  lemma MainStays(c: Config, s: State)
    requires TableInv(c, s) && ForkInv(c, s.procs[c.main]) && Enabled(c, s, Go(c.main))
    ensures var s' := GoApply(c, s, c.main);
            && s'.world == s.world && s'.procs == s.procs[c.main := s'.procs[c.main]]
            && s'.procs[c.main].pids == s.procs[c.main].pids
            && MainWeight(s'.procs[c.main].pc) < MainWeight(s.procs[c.main].pc)
  {
  }

  lemma OpKills(c: Cell, op: Op)
    ensures KilledIn(Perform(c, op)) <= KilledIn(c) + 1
  {
  }

  lemma LessToDo(c: Config, s: State, s': State, n: int, todo: seq<Instr>)
    requires TableInv(c, s) && TableInv(c, s') && 0 <= n < |c.jobs| && todo != []
    requires StageOf(c, s, n) == Busy(todo) && (StageOf(c, s', n) == Busy(todo[1..]) || StageOf(c, s', n) == Done)
    requires KilledIn(CellOf(s'.world, c.jobs[n].at)) <= KilledIn(CellOf(s.world, c.jobs[n].at)) + 1
    ensures Weight(c, s', n) < Weight(c, s, n)
  {
  }

  lemma WorkShrinks(c: Config, s: State, pid: int, n: int, todo: seq<Instr>)
    requires Independent(c.jobs) && TableInv(c, s) && Enabled(c, s, Go(pid)) && pid != c.main
    requires s.procs[pid].pc == Working(n, todo) && todo != []
    ensures TableInv(c, GoApply(c, s, pid)) && Measure(c, GoApply(c, s, pid)) < Measure(c, s)
  {
    var s' := GoApply(c, s, pid);
    ChildStages(c, s, pid);
    WorkElsewhere(c, s, pid, n, todo);
    WorkLeft(c, s, pid, n, todo);
    OpKills(CellOf(s.world, c.jobs[n].at), todo[0].op);
    forall i | 0 <= i < |c.jobs| && i != n ensures Weight(c, s', i) == Weight(c, s, i) {
      assert StageOf(c, s', i) == StageOf(c, s, i);
    }
    LessToDo(c, s, s', n, todo);
    WeightsShrink(c, s, s', 0, n);
  }

  lemma ChildShrinks(c: Config, s: State, pid: int)
    requires Independent(c.jobs) && TableInv(c, s) && Enabled(c, s, Go(pid)) && pid != c.main
    ensures TableInv(c, GoApply(c, s, pid)) && Measure(c, GoApply(c, s, pid)) < Measure(c, s)
  {
    var s', pc := GoApply(c, s, pid), s.procs[pid].pc;
    ChildMoves(c, s, pid);
    ChildStages(c, s, pid);
    if pc.Working? && pc.todo != [] {
      WorkShrinks(c, s, pid, pc.n, pc.todo);
    } else {
      forall i | 0 <= i < |c.jobs| && i != pc.n ensures Weight(c, s', i) == Weight(c, s, i) {
        assert StageOf(c, s', i) == StageOf(c, s, i);
      }
      assert Weight(c, s', pc.n) < Weight(c, s, pc.n);
      WeightsShrink(c, s, s', 0, pc.n);
    }
  }

  lemma VanishShrinks(c: Config, s: State, i: int, task: bool)
    requires Independent(c.jobs) && TableInv(c, s) && Enabled(c, s, Vanish(i, task))
    ensures Measure(c, VanishApply(c, s, i, ExitOf(task))) < Measure(c, s)
  {
    var s', at := VanishApply(c, s, i, ExitOf(task)), c.jobs[i].at;
    VanishElsewhere(c, s, i, ExitOf(task));
    forall j | 0 <= j < |c.jobs| && j != i ensures Weight(c, s', j) == Weight(c, s, j) {
      assert StageOf(c, s', j) == StageOf(c, s, j);
    }
    assert StageOf(c, s', i) == StageOf(c, s, i);
    WeightsShrink(c, s, s', 0, i);
  }

  /** Every step, also a failing fork and a process that goes away, brings the batch nearer to its end. */
  lemma StepShrinks(c: Config, s: State, a: Action, w0: World)
    requires Independent(c.jobs) && Inv(c, s, w0) && Enabled(c, s, a)
    ensures Inv(c, Apply(c, s, a), w0) && Measure(c, Apply(c, s, a)) < Measure(c, s)
  {
    StepKeepsInv(c, s, a, w0);
    if !a.Go? && !a.Vanish? { OnlyMainForksOrWaits(c, s, a); }
    match a
    case Fork(_, child) => ForkShrinks(c, s, child);
    case ForkFails(_) => ForkFailsShrinks(c, s);
    case Reap(_, child) => ReapShrinks(c, s, child);
    case Go(pid) => if pid == c.main { MainShrinks(c, s); } else { ChildShrinks(c, s, pid); }
    case Vanish(i, task) => VanishShrinks(c, s, i, task);
  }

  lemma {:induction false} RunShrinks(c: Config, s: State, schedule: seq<Action>, w0: World)
    requires Independent(c.jobs) && Inv(c, s, w0) && Valid(c, s, schedule)
    ensures Inv(c, Run(c, s, schedule), w0)
    ensures |schedule| <= Measure(c, s) - Measure(c, Run(c, s, schedule))
    decreases |schedule|
  {
    if schedule != [] {
      StepShrinks(c, s, schedule[0], w0);
      RunShrinks(c, Apply(c, s, schedule[0]), schedule[1..], w0);
    }
  }

  lemma QuietChildEnded(c: Config, s: State, q: int)
    requires TableInv(c, s) && |s.tracks| == |c.jobs| && q in s.procs && q != c.main && !Enabled(c, s, Go(q))
    ensures s.procs[q].pc.Ended? && s.procs[q].parent == c.main
  {
    assert ChildInv(c, s.procs[q], s.procs[c.main].pids, q);
  }

  /** No process of the manager can move any more. */
  ghost predicate Quiet(c: Config, s: State) { forall a :: Enabled(c, s, a) ==> a.Vanish? }

  lemma QuietMeans(c: Config, s: State, q: int)
    requires Quiet(c, s)
    ensures !Enabled(c, s, ForkFails(c.main)) && !Enabled(c, s, Go(q)) && !Enabled(c, s, Reap(c.main, q))
  {
    assert !ForkFails(c.main).Vanish? && !Go(q).Vanish? && !Reap(c.main, q).Vanish?;
  }

  /**
   No interleaving is longer than the measure of the start, and when only
   processes of containers can still go away, everyone is done.
   */
  lemma BatchTerminates(c: Config, w: World, log: seq<Event>, schedule: seq<Action>)
    requires c.main > 0 && FreshLog(c, log) && Independent(c.jobs)
    requires Valid(c, Launch(c, w, log), schedule)
    ensures |schedule| <= Measure(c, Launch(c, w, log))
    ensures var s := Run(c, Launch(c, w, log), schedule);
            Quiet(c, s) ==>
              && (forall q :: q in s.procs ==> s.procs[q].pc.Ended?)
              && (!c.native ==> s.procs.Keys == {c.main})
  {
    LaunchInv(c, w, log);
    RunShrinks(c, Launch(c, w, log), schedule, w);
    var s := Run(c, Launch(c, w, log), schedule);
    if Quiet(c, s) {
      QuietEnded(c, s, w);
    }
  }

  lemma QuietEnded(c: Config, s: State, w0: World)
    requires Inv(c, s, w0) && Quiet(c, s)
    ensures forall q :: q in s.procs ==> s.procs[q].pc.Ended?
    ensures !c.native ==> s.procs.Keys == {c.main}
  {
    forall q | q in s.procs && q != c.main ensures s.procs[q].pc.Ended? && s.procs[q].parent == c.main {
      QuietMeans(c, s, q);
      QuietChildEnded(c, s, q);
    }
    QuietMeans(c, s, c.main);
    if s.procs[c.main].pc.Waiting? { WaitingMoves(c, s); }
  }

  /** main does not wait for ever when its children have ended. */
  lemma WaitingMoves(c: Config, s: State)
    requires c.main in s.procs && s.procs[c.main].pc.Waiting?
    requires forall q :: q in s.procs && s.procs[q].parent == c.main ==> s.procs[q].pc.Ended?
    ensures !Quiet(c, s)
  {
    if HasChild(s, c.main) {
      var q :| q in s.procs && s.procs[q].parent == c.main;
      assert Enabled(c, s, Reap(c.main, q));
    } else {
      assert Enabled(c, s, Go(c.main));
    }
  }
}
