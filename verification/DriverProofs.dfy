/**
 What every interleaving of a whole run of the driver keeps, and what that says
 about the order of the entries and about the machine at the end.
 */
module DriverProofs {
  import opened ContainerWorld
  import opened CellRuns
  import opened BenchmarkPhases
  import opened BenchmarkStarts
  import opened Launcher
  import opened BatchLog
  import opened BenchmarkDriver
  import P = LauncherProofs

  lemma StepLogs(c: Config, s: State, a: Action)
    requires Enabled(c, s, a)
    ensures var log := Apply(c, s, a).log;
            log == s.log || (|log| == |s.log| + 1 && log == s.log + [log[|s.log|]] && log[|s.log|].batch == c.batch)
  {
  }

  lemma InnerKeepsInv(plan: Plan, d: Driver, a: Action, w0: World)
    requires WellFormed(plan) && Inv(plan, d, w0) && Enabled(ConfigOf(plan, d.k), d.cur, a)
    ensures Inv(plan, DApply(plan, d, Inner(a)), w0)
  {
    var c := ConfigOf(plan, d.k);
    JobsIndependent(plan.cs, plan.batches[d.k]);
    P.StepKeepsInv(c, d.cur, a, d.start);
    StepLogs(c, d.cur, a);
    var log := Apply(c, d.cur, a).log;
    if log != d.cur.log {
      AppendKeepsShape(d.cur.log, log[|d.cur.log|], d.k);
    }
  }

  /** When main is gone, its batch is closed, and what has happened fits and explains the machine. */
  lemma BatchClosed(plan: Plan, d: Driver, w0: World)
    requires WellFormed(plan) && Inv(plan, d, w0) && MainGone(plan, d)
    ensures Closed(d.cur.log, d.k + 1)
    ensures var g := Current(plan, d);
            && Fits(|plan.cs|, g) && (g.first > 0 <==> -1 in d.cur.procs[plan.mains[d.k]].pids)
            && d.cur.world == RunAll(d.start, Jobs(plan.cs, g.command), g.exits, g.first)
  {
    var c := ConfigOf(plan, d.k);
    JobsIndependent(plan.cs, plan.batches[d.k]);
    var first := P.FinalStages(c, d.cur, d.start);
    P.FinalWorld(c, d.cur, d.start, first);
    EachRanIsRunAll(d.start, d.cur.world, c.jobs, P.ExitsOf(d.cur.tracks), first);
    CurrentFits(plan, d);
    forall e | e in d.cur.log && e.Begin? && e.batch == d.k ensures End(e.batch, e.n) in d.cur.log {
      assert multiset(d.cur.log)[Begin(c.batch, e.n)] > 0;
      assert P.StageOf(c, d.cur, e.n).Done?;
      assert multiset(d.cur.log)[End(c.batch, e.n)] == 1;
    }
  }

  lemma CurrentFits(plan: Plan, d: Driver)
    requires MainGone(plan, d) && FitsJobs(Jobs(plan.cs, plan.batches[d.k]), P.ExitsOf(d.cur.tracks))
    requires Current(plan, d).first <= |plan.cs|
    ensures Fits(|plan.cs|, Current(plan, d))
  {
    var jobs := Jobs(plan.cs, plan.batches[d.k]);
    forall i | 0 <= i < |plan.cs| ensures FitsProgram(Program(plan.batches[d.k]), Current(plan, d).exits[i]) {
      assert FitsProgram(jobs[i].program, P.ExitsOf(d.cur.tracks)[i]);
    }
  }

  lemma HistoryWorld(plan: Plan, d: Driver, w0: World)
    requires WellFormed(plan) && Inv(plan, d, w0) && MainGone(plan, d)
    ensures AllFit(|plan.cs|, History(plan, d)) && d.cur.world == WentWorld(w0, plan.cs, History(plan, d))
  {
    BatchClosed(plan, d, w0);
    OneMore(w0, plan.cs, d.past, Current(plan, d));
  }

  lemma NextLaunches(plan: Plan, k: nat, w: World, log: seq<Event>)
    requires WellFormed(plan) && k < |plan.batches| && forall e :: e in log ==> e.batch != k
    ensures P.Inv(ConfigOf(plan, k), Launch(ConfigOf(plan, k), w, log), w)
  {
    P.LaunchInv(ConfigOf(plan, k), w, log);
  }

  lemma NextPast(plan: Plan, d: Driver, g: Went)
    requires WellFormed(plan) && PastOf(plan, d)
    requires d.k + 1 < |plan.batches| && g.command == plan.batches[d.k] && AllFit(|plan.cs|, d.past + [g])
    ensures PastOf(plan, Next(plan, d, g))
  {
  }

  lemma Assemble(plan: Plan, d: Driver, w0: World)
    requires WellFormed(plan) && PastOf(plan, d) && LogShape(d.cur.log, d.k)
    requires P.Inv(ConfigOf(plan, d.k), d.cur, d.start) && d.start == WentWorld(w0, plan.cs, d.past)
    ensures Inv(plan, d, w0)
  {
  }

  lemma ProceedKeepsInv(plan: Plan, d: Driver, w0: World)
    requires WellFormed(plan) && Inv(plan, d, w0) && DEnabled(plan, d, Proceed)
    ensures Inv(plan, DApply(plan, d, Proceed), w0)
  {
    BatchClosed(plan, d, w0);
    HistoryWorld(plan, d, w0);
    NextKeepsInv(plan, d, Current(plan, d), w0);
  }

  lemma NextKeepsInv(plan: Plan, d: Driver, g: Went, w0: World)
    requires WellFormed(plan) && PastOf(plan, d) && LogShape(d.cur.log, d.k) && Closed(d.cur.log, d.k + 1)
    requires d.k + 1 < |plan.batches| && g.command == plan.batches[d.k] && AllFit(|plan.cs|, d.past + [g])
    requires d.cur.world == WentWorld(w0, plan.cs, d.past + [g])
    ensures Inv(plan, Next(plan, d, g), w0)
  {
    NextPast(plan, d, g);
    NextShape(d.cur.log, d.k);
    NextLaunches(plan, d.k + 1, d.cur.world, d.cur.log);
    Assemble(plan, Next(plan, d, g), w0);
  }

  lemma {:induction false} RunKeepsInv(plan: Plan, d: Driver, schedule: seq<DriverAction>, w0: World)
    requires WellFormed(plan) && Inv(plan, d, w0) && DValid(plan, d, schedule)
    ensures Inv(plan, DRun(plan, d, schedule), w0)
    decreases |schedule|
  {
    if schedule != [] {
      match schedule[0] {
        case Inner(a) => InnerKeepsInv(plan, d, a, w0);
        case Proceed => ProceedKeepsInv(plan, d, w0);
      }
      RunKeepsInv(plan, DApply(plan, d, schedule[0]), schedule[1..], w0);
    }
  }

  lemma ReachesInv(plan: Plan, w: World, d: Driver)
    requires WellFormed(plan) && DReaches(plan, w, d)
    ensures Inv(plan, d, w)
  {
    var schedule :| DValid(plan, FirstInvocation(plan, w), schedule)
                    && DRun(plan, FirstInvocation(plan, w), schedule) == d;
    NextLaunches(plan, 0, w, []);
    RunKeepsInv(plan, FirstInvocation(plan, w), schedule, w);
  }

  // ---- the main results ----

  /** When an entry begins, every entry that any earlier batch ever begins has begun and ended. */
  lemma PhaseBarrier(plan: Plan, w: World, d: Driver, q: nat, e: Event)
    requires WellFormed(plan) && DReaches(plan, w, d)
    requires q < |d.cur.log| && d.cur.log[q].Begin?
    requires e in d.cur.log && e.Begin? && e.batch < d.cur.log[q].batch
    ensures e in d.cur.log[..q] && End(e.batch, e.n) in d.cur.log[..q]
  {
    ReachesInv(plan, w, d);
    BarrierMeans(d.cur.log, q);
  }

  lemma FirstsOf(plan: Plan, d: Driver)
    requires PastOf(plan, d) && MainGone(plan, d)
    requires Current(plan, d).first > 0 <==> -1 in d.cur.procs[plan.mains[d.k]].pids
    ensures var h := History(plan, d);
            && |h| == d.k + 1 && (forall k :: 0 <= k < |h| ==> h[k].command == plan.batches[k])
            && (NoForkFailed(plan, d) <==> forall k :: 0 <= k < |h| ==> h[k].first == 0)
  {
    var h := History(plan, d);
    assert forall k :: 0 <= k < d.k ==> h[k] == d.past[k];
    assert h[d.k] == Current(plan, d);
  }

  /**
   Every interleaving of every invocation, with any forks failing and any killed
   processes going away at any time, ends in the machine that the batches give
   one entry after the other, each batch from its first launched entry on; that
   is the first of all exactly if no fork failed.
   */
  lemma DriverResult(plan: Plan, w: World, d: Driver)
    requires Finished(plan, w, d)
    ensures var h := History(plan, d);
            && |h| == |plan.batches| && AllFit(|plan.cs|, h)
            && (forall k :: 0 <= k < |h| ==> h[k].command == plan.batches[k])
            && d.cur.world == WentWorld(w, plan.cs, h)
            && (NoForkFailed(plan, d) <==> forall k :: 0 <= k < |h| ==> h[k].first == 0)
  {
    ReachesInv(plan, w, d);
    BatchClosed(plan, d, w);
    FirstsOf(plan, d);
    HistoryWorld(plan, d, w);
  }

  lemma CompleteResult(plan: Plan, w: World, d: Driver)
    requires Complete(plan, w, d)
    ensures IsHistory(|plan.cs|, History(plan, d), plan.batches)
    ensures d.cur.world == WentWorld(w, plan.cs, History(plan, d))
  {
    DriverResult(plan, w, d);
  }
}
