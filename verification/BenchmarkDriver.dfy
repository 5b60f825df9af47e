/**
 Whole runs of the driver: invocation k of the execution manager is started,
 moves in any interleaving of its processes until main has exited, and only
 then the driver goes on with invocation k + 1.  Processes of containers may
 go away at any time, also while no invocation is under way.
 */
module BenchmarkDriver {
  import opened ContainerWorld
  import opened CellRuns
  import opened BenchmarkPhases
  import opened Launcher
  import opened BatchLog
  import P = LauncherProofs

  /** What is run, in this order; mains[k] is the process id of invocation k. */
  datatype Plan = Plan(cs: seq<Container>, batches: seq<Command>, mains: seq<int>)

  /** past and start remember how the current invocation came about. */
  datatype Driver = Driver(k: nat, cur: State, start: World, past: seq<Went>)

  datatype DriverAction = Inner(a: Action) | Proceed

  predicate WellFormed(plan: Plan) {
    && Distinct(plan.cs)
    && 0 < |plan.batches| == |plan.mains|
    && forall k :: 0 <= k < |plan.mains| ==> plan.mains[k] > 0
  }

  function ConfigOf(plan: Plan, k: nat): Config
    requires k < |plan.batches| == |plan.mains|
  {
    Config(k, Jobs(plan.cs, plan.batches[k]), false, plan.mains[k])
  }

  function FirstInvocation(plan: Plan, w: World): Driver
    requires 0 < |plan.batches| == |plan.mains|
  {
    Driver(0, Launch(ConfigOf(plan, 0), w, []), w, [])
  }

  predicate MainGone(plan: Plan, d: Driver) {
    && d.k < |plan.mains| == |plan.batches|
    && plan.mains[d.k] in d.cur.procs && d.cur.procs[plan.mains[d.k]].pc.Ended?
  }

  /** What has happened in the current invocation, up to now. */
  function Current(plan: Plan, d: Driver): Went
    requires MainGone(plan, d)
  {
    Went(plan.batches[d.k], P.ExitsOf(d.cur.tracks), P.FirstLaunched(d.cur.procs[plan.mains[d.k]].pids))
  }

  function History(plan: Plan, d: Driver): seq<Went>
    requires MainGone(plan, d)
  {
    d.past + [Current(plan, d)]
  }

  predicate NoForkFailed(plan: Plan, d: Driver)
    requires MainGone(plan, d)
  {
    (forall i :: 0 <= i < |d.past| ==> d.past[i].first == 0) && -1 !in d.cur.procs[plan.mains[d.k]].pids
  }

  predicate DEnabled(plan: Plan, d: Driver, a: DriverAction) {
    && d.k < |plan.batches| == |plan.mains|
    && match a
       case Inner(a) => Enabled(ConfigOf(plan, d.k), d.cur, a)
       case Proceed => d.k + 1 < |plan.batches| && MainGone(plan, d)
  }

  /** The next invocation begins on the machine as it is. */
  function Next(plan: Plan, d: Driver, went: Went): Driver
    requires d.k + 1 < |plan.batches| == |plan.mains|
  {
    Driver(d.k + 1, Launch(ConfigOf(plan, d.k + 1), d.cur.world, d.cur.log), d.cur.world, d.past + [went])
  }

  function DApply(plan: Plan, d: Driver, a: DriverAction): Driver
    requires DEnabled(plan, d, a)
  {
    match a
    case Inner(a) => d.(cur := Apply(ConfigOf(plan, d.k), d.cur, a))
    case Proceed => Next(plan, d, Current(plan, d))
  }

  predicate DValid(plan: Plan, d: Driver, schedule: seq<DriverAction>)
    decreases |schedule|
  {
    schedule != [] ==> DEnabled(plan, d, schedule[0]) && DValid(plan, DApply(plan, d, schedule[0]), schedule[1..])
  }

  function DRun(plan: Plan, d: Driver, schedule: seq<DriverAction>): Driver
    requires DValid(plan, d, schedule)
    decreases |schedule|
  {
    if schedule == [] then d else DRun(plan, DApply(plan, d, schedule[0]), schedule[1..])
  }

  ghost predicate DReaches(plan: Plan, w: World, d: Driver)
    requires WellFormed(plan)
  {
    exists schedule :: DValid(plan, FirstInvocation(plan, w), schedule)
      && DRun(plan, FirstInvocation(plan, w), schedule) == d
  }

  /** The driver is through. */
  ghost predicate Finished(plan: Plan, w: World, d: Driver) {
    WellFormed(plan) && DReaches(plan, w, d) && d.k + 1 == |plan.batches| && MainGone(plan, d)
  }

  /** The driver is through and no fork has failed. */
  ghost predicate Complete(plan: Plan, w: World, d: Driver) {
    Finished(plan, w, d) && NoForkFailed(plan, d)
  }

  // ---- what every run keeps ----

  predicate PastOf(plan: Plan, d: Driver) {
    && |d.past| == d.k < |plan.batches| && AllFit(|plan.cs|, d.past)
    && forall i :: 0 <= i < d.k ==> d.past[i].command == plan.batches[i]
  }

  ghost predicate Inv(plan: Plan, d: Driver, w0: World)
    requires WellFormed(plan)
  {
    && PastOf(plan, d)
    && LogShape(d.cur.log, d.k)
    && P.Inv(ConfigOf(plan, d.k), d.cur, d.start)
    && d.start == WentWorld(w0, plan.cs, d.past)
  }
}
