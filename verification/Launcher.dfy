/**
 The batch launcher: `fork_rec`, the work of each child, and the wait loop in
 `main`, as a table of processes that move one step at a time in any order.

 `fork` and `wait` behave as POSIX.1 (System Interfaces) describes them: fork
 returns the new process id to the caller and 0 to the copy, or -1 and makes no
 process; wait removes one ended child, blocks while there are only live ones,
 and fails when there is none.  Every process runs the same program, so a child
 would fork too if its program counter ever came back to fork_rec.  At any time
 a killed process of a container may go away.
 */
module Launcher {
  import opened ContainerWorld
  import opened CellRuns

  datatype Pc =
    | Forking(n: int)                       // fork_rec(n) begins
    | Forked(n: int, ret: int)              // fork() has returned ret
    | Working(n: int, todo: seq<Instr>)     // the command of entry n
    | Waiting                               // main, in the wait loop
    | Ended(n: int)                         // after the command of entry n, or main (-1)

  /** pids is the process's own copy of the array; 0 also stands for an entry never written. */
  datatype Proc = Proc(parent: int, pc: Pc, pids: seq<int>)

  datatype Event = Begin(batch: nat, n: int) | End(batch: nat, n: int)

  /** tracks remember how far the program of each entry has come, and when processes of its container went away. */
  datatype State = State(procs: map<int, Proc>, world: World, log: seq<Event>, tracks: seq<Track>)

  /** One invocation of the execution manager. */
  datatype Config = Config(batch: nat, jobs: seq<Job>, native: bool, main: int)

  datatype Action =
    | Go(pid: int)
    | Fork(pid: int, child: int)
    | ForkFails(pid: int)
    | Reap(pid: int, child: int)
    | Vanish(i: int, task: bool)            // the process of crun's container, or of containerd's task

  function Launch(c: Config, w: World, log: seq<Event>): State {
    State(map[c.main := Proc(0, Forking(|c.jobs| - 1), seq(|c.jobs|, _ => 0))], w, log, FreshTracks(c.jobs))
  }

  function FreshTracks(jobs: seq<Job>): (tracks: seq<Track>)
    ensures |tracks| == |jobs| && forall i :: 0 <= i < |tracks| ==> tracks[i] == FreshTrack(jobs[i].program)
  {
    seq(|jobs|, i requires 0 <= i < |jobs| => FreshTrack(jobs[i].program))
  }

  function ExitOf(task: bool): Exits { Exits(!task, task) }

  function LifeIn(c: Cell, task: bool): Life { if task then c.status.task else c.status.crun }

  predicate AtFork(c: Config, p: Proc) { p.pc.Forking? && 0 <= p.pc.n < |p.pids| && |p.pids| == |c.jobs| }

  predicate HasChild(s: State, pid: int) { exists q :: q in s.procs && s.procs[q].parent == pid }

  predicate Enabled(c: Config, s: State, a: Action) {
    match a
    case Fork(pid, child) => pid in s.procs && AtFork(c, s.procs[pid]) && child > 0 && child !in s.procs
    case ForkFails(pid) => pid in s.procs && AtFork(c, s.procs[pid])
    case Reap(pid, child) =>
      pid in s.procs && s.procs[pid].pc.Waiting?
      && child in s.procs && s.procs[child].parent == pid && s.procs[child].pc.Ended?
    case Go(pid) => pid in s.procs && CanGo(c, s, pid, s.procs[pid].pc)
    case Vanish(i, task) =>
      0 <= i < |c.jobs| == |s.tracks| && s.tracks[i].done < |s.tracks[i].exits|
      && LifeIn(CellOf(s.world, c.jobs[i].at), task) == Killed
  }

  predicate CanGo(c: Config, s: State, pid: int, pc: Pc) {
    match pc
    case Forking(n) => n < 0
    case Forked(n, _) => 0 <= n < |c.jobs|
    case Working(n, _) => 0 <= n < |c.jobs| == |s.tracks|
    case Waiting => !HasChild(s, pid)
    case Ended(_) => false
  }

  function Apply(c: Config, s: State, a: Action): State
    requires Enabled(c, s, a)
  {
    match a
    case Fork(pid, child) => ForkApply(s, pid, child)
    case ForkFails(pid) =>
      var p := s.procs[pid];
      SetProc(s, pid, p.(pc := Forked(p.pc.n, -1), pids := p.pids[p.pc.n := -1]))
    case Reap(_, child) => s.(procs := s.procs - {child})
    case Go(pid) => GoApply(c, s, pid)
    case Vanish(i, task) => VanishApply(c, s, i, ExitOf(task))
  }

  function VanishApply(c: Config, s: State, i: int, e: Exits): State
    requires 0 <= i < |c.jobs| == |s.tracks| && s.tracks[i].done < |s.tracks[i].exits|
  {
    var at := c.jobs[i].at;
    s.(world := WithCell(s.world, at, LaterCell(CellOf(s.world, at), e)),
       tracks := s.tracks[i := Vanished(s.tracks[i], e)])
  }

  function ForkApply(s: State, pid: int, child: int): State
    requires pid in s.procs && s.procs[pid].pc.Forking? && 0 <= s.procs[pid].pc.n < |s.procs[pid].pids|
  {
    var p := s.procs[pid];
    var n := p.pc.n;
    s.(procs := s.procs[pid := p.(pc := Forked(n, child), pids := p.pids[n := child])]
                       [child := Proc(pid, Forked(n, 0), p.pids[n := 0])])
  }

  function GoApply(c: Config, s: State, pid: int): State
    requires Enabled(c, s, Go(pid))
  {
    var p := s.procs[pid];
    match p.pc
    case Forking(_) => SetProc(s, pid, p.(pc := AfterForks(c)))
    case Forked(n, ret) =>
      if ret < 0 then SetProc(s, pid, p.(pc := AfterForks(c)))
      else if ret == 0 then
        SetProc(s, pid, p.(pc := Working(n, c.jobs[n].program))).(log := s.log + [Begin(c.batch, n)])
      else SetProc(s, pid, p.(pc := Forking(n - 1)))
    case Working(n, todo) =>
      if todo == [] then Finish(c, s, pid, n) else WorkApply(c, s, pid, n, todo)
    case Waiting => SetProc(s, pid, p.(pc := Ended(-1)))
  }

  /** The next operation of the command; if it fails and must not, the process ends. */
  function WorkApply(c: Config, s: State, pid: int, n: int, todo: seq<Instr>): State
    requires pid in s.procs && 0 <= n < |c.jobs| == |s.tracks| && todo != []
  {
    var job := c.jobs[n];
    var cell := CellOf(s.world, job.at);
    var aborted := Aborts(cell, todo[0]);
    var s' := s.(world := WithCell(s.world, job.at, Perform(cell, todo[0].op)),
                 tracks := s.tracks[n := Did(s.tracks[n], job.program, aborted)]);
    if aborted then Finish(c, s', pid, n)
    else SetProc(s', pid, s.procs[pid].(pc := Working(n, todo[1..])))
  }

  function Finish(c: Config, s: State, pid: int, n: int): State
    requires pid in s.procs
  {
    SetProc(s, pid, s.procs[pid].(pc := Ended(n))).(log := s.log + [End(c.batch, n)])
  }

  function SetProc(s: State, pid: int, p: Proc): State { s.(procs := s.procs[pid := p]) }

  /** Back in main: the native manager does not wait. */
  function AfterForks(c: Config): Pc { if c.native then Ended(-1) else Waiting }

  predicate Valid(c: Config, s: State, schedule: seq<Action>)
    decreases |schedule|
  {
    schedule != [] ==> Enabled(c, s, schedule[0]) && Valid(c, Apply(c, s, schedule[0]), schedule[1..])
  }

  function Run(c: Config, s: State, schedule: seq<Action>): State
    requires Valid(c, s, schedule)
    decreases |schedule|
  {
    if schedule == [] then s else Run(c, Apply(c, s, schedule[0]), schedule[1..])
  }
}
