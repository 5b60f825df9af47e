/**
 The driver can always get through: whatever the plan, and whoever is to go away
 after which invocation, some interleaving without a failing fork completes it.
 */
module Completion {
  import opened ContainerWorld
  import opened CellRuns
  import opened BenchmarkPhases
  import opened Launcher
  import opened BenchmarkDriver
  import opened DriverProofs
  import P = LauncherProofs
  import T = LauncherTermination

  predicate Unfailed(c: Config, s: State) { c.main in s.procs && -1 !in s.procs[c.main].pids }

  lemma {:induction false} UnusedPid(used: set<int>) returns (pid: int)
    ensures pid > 0 && forall q :: q in used ==> q < pid
  {
    if q :| q in used {
      var p := UnusedPid(used - {q});
      pid := if q < p then p else q + 1;
      forall r | r in used ensures r < pid {
        assert r == q || r in used - {q};
      }
    } else {
      pid := 1;
    }
  }

  // ---- to the end of a batch, nobody going away ----

  /** Until main has exited there is always a next step of the manager that is not a failing fork. */
  lemma NextStep(c: Config, s: State, w0: World) returns (a: Action)
    requires P.Inv(c, s, w0) && !c.native && Unfailed(c, s) && !s.procs[c.main].pc.Ended?
    ensures Enabled(c, s, a) && !a.Vanish? && Unfailed(c, Apply(c, s, a))
  {
    a := Go(c.main);
    var pc := s.procs[c.main].pc;
    if pc.Forking? && pc.n >= 0 {
      var child := UnusedPid(s.procs.Keys);
      a := Fork(c.main, child);
    } else if pc.Waiting? && HasChild(s, c.main) {
      var q :| q in s.procs && s.procs[q].parent == c.main;
      a := if s.procs[q].pc.Ended? then Reap(c.main, q) else Go(q);
      if !Enabled(c, s, Go(q)) { T.QuietChildEnded(c, s, q); }
    }
  }

  lemma ManagerKeepsExits(c: Config, s: State, a: Action)
    requires Enabled(c, s, a) && !a.Vanish?
    ensures P.ExitsOf(Apply(c, s, a).tracks) == P.ExitsOf(s.tracks)
  {
  }

  lemma {:induction false} FinishBatch(c: Config, s: State, w0: World) returns (schedule: seq<Action>)
    requires Independent(c.jobs) && P.Inv(c, s, w0) && !c.native && Unfailed(c, s)
    ensures Valid(c, s, schedule) && Unfailed(c, Run(c, s, schedule))
    ensures Run(c, s, schedule).procs[c.main].pc.Ended?
    ensures P.ExitsOf(Run(c, s, schedule).tracks) == P.ExitsOf(s.tracks)
    decreases T.Measure(c, s)
  {
    if s.procs[c.main].pc.Ended? {
      schedule := [];
    } else {
      var a := NextStep(c, s, w0);
      T.StepShrinks(c, s, a, w0);
      ManagerKeepsExits(c, s, a);
      var rest := FinishBatch(c, Apply(c, s, a), w0);
      schedule := [a] + rest;
      assert schedule[1..] == rest;
    }
  }

  // ---- any fork may be the one that fails ----

  /** On the way to a batch whose entries from k on are launched. */
  predicate Aiming(c: Config, s: State, k: nat) {
    && c.main in s.procs
    && match s.procs[c.main].pc
       case Forking(n) => k - 1 <= n
       case Forked(n, ret) => if ret > 0 then k <= n else n == k - 1
       case _ => P.FirstLaunched(s.procs[c.main].pids) == k
  }

  lemma {:induction false} FirstLaunchedIs(pids: seq<int>, k: nat)
    requires k <= |pids| && (forall i :: 0 <= i < k ==> pids[i] <= 0) && (k < |pids| ==> pids[k] > 0)
    ensures P.FirstLaunched(pids) == k
  {
    if k > 0 { FirstLaunchedIs(pids[1..], k - 1); }
  }

  lemma AimedFork(c: Config, s: State, k: nat) returns (a: Action)
    requires P.TableInv(c, s) && P.ForkInv(c, s.procs[c.main]) && Aiming(c, s, k) && k <= |c.jobs|
    requires s.procs[c.main].pc.Forking? && s.procs[c.main].pc.n >= 0
    ensures Enabled(c, s, a) && !a.Vanish? && Aiming(c, Apply(c, s, a), k)
  {
    if s.procs[c.main].pc.n == k - 1 {
      a := ForkFails(c.main);
    } else {
      var child := UnusedPid(s.procs.Keys);
      a := Fork(c.main, child);
    }
  }

  lemma AimedMain(c: Config, s: State, k: nat)
    requires P.TableInv(c, s) && P.ForkInv(c, s.procs[c.main]) && Aiming(c, s, k) && k <= |c.jobs| && !c.native
    requires var pc := s.procs[c.main].pc; (pc.Forking? && pc.n < 0) || pc.Forked?
    ensures Enabled(c, s, Go(c.main)) && Aiming(c, Apply(c, s, Go(c.main)), k)
  {
    var m := s.procs[c.main];
    if m.pc.Forking? || m.pc.ret < 0 {
      FirstLaunchedIs(m.pids, k);
    }
  }

  lemma AimedWait(c: Config, s: State, w0: World, k: nat) returns (a: Action)
    requires P.Inv(c, s, w0) && !c.native && Aiming(c, s, k) && s.procs[c.main].pc.Waiting?
    ensures Enabled(c, s, a) && !a.Vanish? && Aiming(c, Apply(c, s, a), k)
  {
    a := Go(c.main);
    if HasChild(s, c.main) {
      var q :| q in s.procs && s.procs[q].parent == c.main;
      a := if s.procs[q].pc.Ended? then Reap(c.main, q) else Go(q);
      if !Enabled(c, s, Go(q)) { T.QuietChildEnded(c, s, q); }
    }
  }

  lemma AimedStep(c: Config, s: State, w0: World, k: nat) returns (a: Action)
    requires P.Inv(c, s, w0) && !c.native && Aiming(c, s, k) && k <= |c.jobs| && !s.procs[c.main].pc.Ended?
    ensures Enabled(c, s, a) && !a.Vanish? && Aiming(c, Apply(c, s, a), k)
  {
    var pc := s.procs[c.main].pc;
    if pc.Forking? && pc.n >= 0 {
      a := AimedFork(c, s, k);
    } else if pc.Forking? || pc.Forked? {
      a := Go(c.main);
      AimedMain(c, s, k);
    } else {
      a := AimedWait(c, s, w0, k);
    }
  }

  lemma {:induction false} AimedRun(c: Config, s: State, w0: World, k: nat) returns (schedule: seq<Action>)
    requires Independent(c.jobs) && P.Inv(c, s, w0) && !c.native && Aiming(c, s, k) && k <= |c.jobs|
    ensures Valid(c, s, schedule) && P.IsOver(c, Run(c, s, schedule))
    ensures P.FirstLaunched(Run(c, s, schedule).procs[c.main].pids) == k
    decreases T.Measure(c, s)
  {
    if s.procs[c.main].pc.Ended? {
      schedule := [];
    } else {
      var a := AimedStep(c, s, w0, k);
      T.StepShrinks(c, s, a, w0);
      P.StepKeepsInv(c, s, a, w0);
      var rest := AimedRun(c, Apply(c, s, a), w0, k);
      schedule := [a] + rest;
      assert schedule[1..] == rest;
    }
  }

  /** For every k some run of a batch launches exactly the entries from k on. */
  lemma EverySuffixHappens(c: Config, w: World, log: seq<Event>, k: nat) returns (s: State)
    requires c.main > 0 && P.FreshLog(c, log) && Independent(c.jobs) && !c.native && k <= |c.jobs|
    ensures P.Reaches(c, w, log, s) && P.IsOver(c, s) && P.FirstLaunched(s.procs[c.main].pids) == k
  {
    P.LaunchInv(c, w, log);
    var schedule := AimedRun(c, Launch(c, w, log), w, k);
    s := Run(c, Launch(c, w, log), schedule);
  }

  // ---- the chosen go away ----

  predicate NothingKilled(c: Cell) { c.status.crun != Killed && c.status.task != Killed }

  /** s' is s but for the exits of entry i, and what they do to its container. */
  ghost predicate OnlyExits(c: Config, s: State, s': State, i: int)
    requires |s.tracks| == |c.jobs|
  {
    && s'.procs == s.procs && s'.log == s.log && |s'.tracks| == |c.jobs|
    && forall j :: 0 <= j < |c.jobs| && j != i ==>
         s'.tracks[j] == s.tracks[j] && CellOf(s'.world, c.jobs[j].at) == CellOf(s.world, c.jobs[j].at)
  }

  predicate OneGone(before: Cell, after: Cell, task: bool) {
    LifeIn(after, task) != Killed && LifeIn(after, !task) == LifeIn(before, !task)
  }

  lemma VanishStep(c: Config, s: State, w0: World, i: nat, task: bool)
    requires Independent(c.jobs) && P.Inv(c, s, w0) && i < |c.jobs|
    requires LifeIn(CellOf(s.world, c.jobs[i].at), task) == Killed
    ensures Enabled(c, s, Vanish(i, task)) && P.Inv(c, Apply(c, s, Vanish(i, task)), w0)
    ensures Apply(c, s, Vanish(i, task)) == VanishApply(c, s, i, ExitOf(task))
  {
    assert P.EntryInv(c, s, w0, i);
    P.VanishKeepsInv(c, s, i, task, w0);
  }

  lemma VanishMeans(c: Config, s: State, i: nat, task: bool)
    requires Independent(c.jobs) && i < |c.jobs| == |s.tracks| && s.tracks[i].done < |s.tracks[i].exits|
    ensures var s' := VanishApply(c, s, i, ExitOf(task));
            OnlyExits(c, s, s', i) && OneGone(CellOf(s.world, c.jobs[i].at), CellOf(s'.world, c.jobs[i].at), task)
  {
    P.VanishElsewhere(c, s, i, ExitOf(task));
  }

  lemma VanishOne(c: Config, s: State, w0: World, i: nat, task: bool) returns (schedule: seq<Action>)
    requires Independent(c.jobs) && P.Inv(c, s, w0) && i < |c.jobs|
    ensures Valid(c, s, schedule) && P.Inv(c, Run(c, s, schedule), w0)
    ensures OnlyExits(c, s, Run(c, s, schedule), i)
    ensures OneGone(CellOf(s.world, c.jobs[i].at), CellOf(Run(c, s, schedule).world, c.jobs[i].at), task)
  {
    schedule := [];
    if LifeIn(CellOf(s.world, c.jobs[i].at), task) == Killed {
      VanishStep(c, s, w0, i, task);
      VanishMeans(c, s, i, task);
      schedule := [Vanish(i, task)];
      assert Run(c, s, schedule) == Run(c, VanishApply(c, s, i, ExitOf(task)), []);
    }
  }

  lemma {:induction false} RunOn(c: Config, s: State, a: seq<Action>, b: seq<Action>)
    requires Valid(c, s, a) && Valid(c, Run(c, s, a), b)
    ensures Valid(c, s, a + b) && Run(c, s, a + b) == Run(c, Run(c, s, a), b)
    decreases |a|
  {
    if a == [] {
      assert a + b == b;
    } else {
      assert (a + b)[1..] == a[1..] + b;
      RunOn(c, Apply(c, s, a[0]), a[1..], b);
    }
  }

  lemma VanishBoth(c: Config, s: State, w0: World, i: nat) returns (schedule: seq<Action>)
    requires Independent(c.jobs) && P.Inv(c, s, w0) && i < |c.jobs|
    ensures Valid(c, s, schedule) && P.Inv(c, Run(c, s, schedule), w0)
    ensures OnlyExits(c, s, Run(c, s, schedule), i)
    ensures NothingKilled(CellOf(Run(c, s, schedule).world, c.jobs[i].at))
  {
    var a := VanishOne(c, s, w0, i, false);
    var b := VanishOne(c, Run(c, s, a), w0, i, true);
    RunOn(c, s, a, b);
    schedule := a + b;
  }

  /** What became of entry j: gone as chosen, or left as it was. */
  ghost predicate AsChosen(c: Config, s: State, s': State, gone: set<string>, j: int)
    requires 0 <= j < |c.jobs| == |s.tracks| && |s'.tracks| == |c.jobs|
  {
    && (c.jobs[j].at.name in gone ==> NothingKilled(CellOf(s'.world, c.jobs[j].at)))
    && (c.jobs[j].at.name !in gone ==> s'.tracks[j] == s.tracks[j])
  }

  ghost predicate ChosenFrom(c: Config, s: State, s': State, gone: set<string>, i: int)
    requires |s.tracks| == |c.jobs| == |s'.tracks|
  {
    forall j :: 0 <= i <= j < |c.jobs| ==> AsChosen(c, s, s', gone, j)
  }

  ghost predicate SameBelow(c: Config, s: State, s': State, i: int)
    requires |s.tracks| == |c.jobs| == |s'.tracks|
  {
    forall j :: 0 <= j < i && j < |c.jobs| ==>
      s'.tracks[j] == s.tracks[j] && CellOf(s'.world, c.jobs[j].at) == CellOf(s.world, c.jobs[j].at)
  }

  /** Entry i first, then the others. */
  lemma ThenTheOthers(c: Config, s: State, m: State, s': State, gone: set<string>, i: nat)
    requires i < |c.jobs| == |s.tracks| == |m.tracks| == |s'.tracks|
    requires OnlyExits(c, s, m, i) && AsChosen(c, s, m, gone, i)
    requires ChosenFrom(c, m, s', gone, i + 1) && SameBelow(c, m, s', i + 1)
    ensures ChosenFrom(c, s, s', gone, i) && SameBelow(c, s, s', i)
  {
    forall j | i <= j < |c.jobs| ensures AsChosen(c, s, s', gone, j) {
      if j > i { assert AsChosen(c, m, s', gone, j); }
    }
  }

  lemma VanishIfChosen(c: Config, s: State, w0: World, gone: set<string>, i: nat) returns (schedule: seq<Action>)
    requires Independent(c.jobs) && P.Inv(c, s, w0) && i < |c.jobs|
    ensures Valid(c, s, schedule) && P.Inv(c, Run(c, s, schedule), w0)
    ensures OnlyExits(c, s, Run(c, s, schedule), i) && AsChosen(c, s, Run(c, s, schedule), gone, i)
  {
    schedule := [];
    if c.jobs[i].at.name in gone {
      schedule := VanishBoth(c, s, w0, i);
    }
  }

  lemma {:induction false} VanishFrom(c: Config, s: State, w0: World, gone: set<string>, i: nat)
    returns (schedule: seq<Action>)
    requires Independent(c.jobs) && P.Inv(c, s, w0) && i <= |c.jobs|
    ensures Valid(c, s, schedule) && P.Inv(c, Run(c, s, schedule), w0)
    ensures Run(c, s, schedule).procs == s.procs
    ensures ChosenFrom(c, s, Run(c, s, schedule), gone, i) && SameBelow(c, s, Run(c, s, schedule), i)
    decreases |c.jobs| - i
  {
    if i == |c.jobs| {
      schedule := [];
    } else {
      var one := VanishIfChosen(c, s, w0, gone, i);
      var m := Run(c, s, one);
      var rest := VanishFrom(c, m, w0, gone, i + 1);
      RunOn(c, s, one, rest);
      ThenTheOthers(c, s, m, Run(c, m, rest), gone, i);
      schedule := one + rest;
    }
  }

  // ---- the same, seen from the driver ----

  function Inners(schedule: seq<Action>): (r: seq<DriverAction>)
    ensures |r| == |schedule| && forall i :: 0 <= i < |r| ==> r[i] == Inner(schedule[i])
  {
    seq(|schedule|, i requires 0 <= i < |schedule| => Inner(schedule[i]))
  }

  lemma {:induction false} InnersRun(plan: Plan, d: Driver, schedule: seq<Action>)
    requires d.k < |plan.batches| == |plan.mains| && Valid(ConfigOf(plan, d.k), d.cur, schedule)
    ensures DValid(plan, d, Inners(schedule))
    ensures DRun(plan, d, Inners(schedule)) == d.(cur := Run(ConfigOf(plan, d.k), d.cur, schedule))
    decreases |schedule|
  {
    if schedule != [] {
      assert Inners(schedule)[1..] == Inners(schedule[1..]);
      InnersRun(plan, DApply(plan, d, Inner(schedule[0])), schedule[1..]);
    }
  }

  lemma {:induction false} DRunOn(plan: Plan, d: Driver, a: seq<DriverAction>, b: seq<DriverAction>)
    requires DValid(plan, d, a) && DValid(plan, DRun(plan, d, a), b)
    ensures DValid(plan, d, a + b) && DRun(plan, d, a + b) == DRun(plan, DRun(plan, d, a), b)
    decreases |a|
  {
    if a == [] {
      assert a + b == b;
    } else {
      assert (a + b)[1..] == a[1..] + b;
      DRunOn(plan, DApply(plan, d, a[0]), a[1..], b);
    }
  }

  lemma ReachesOn(plan: Plan, w: World, d: Driver, more: seq<DriverAction>)
    requires WellFormed(plan) && DReaches(plan, w, d) && DValid(plan, d, more)
    ensures DReaches(plan, w, DRun(plan, d, more))
  {
    var schedule :| DValid(plan, FirstInvocation(plan, w), schedule)
                    && DRun(plan, FirstInvocation(plan, w), schedule) == d;
    DRunOn(plan, FirstInvocation(plan, w), schedule, more);
  }

  lemma ReachesInner(plan: Plan, w: World, d: Driver, schedule: seq<Action>) returns (e: Driver)
    requires WellFormed(plan) && DReaches(plan, w, d) && d.k < |plan.batches|
    requires Valid(ConfigOf(plan, d.k), d.cur, schedule)
    ensures e == d.(cur := Run(ConfigOf(plan, d.k), d.cur, schedule)) && DReaches(plan, w, e)
  {
    InnersRun(plan, d, schedule);
    ReachesOn(plan, w, d, Inners(schedule));
    e := DRun(plan, d, Inners(schedule));
  }

  predicate NobodyGone(f: seq<Exits>) { forall j :: 0 <= j < |f| ==> f[j] == NONE }

  /** An invocation has just begun, and no fork failed so far. */
  ghost predicate JustBegun(plan: Plan, w: World, d: Driver) {
    && WellFormed(plan) && DReaches(plan, w, d) && d.k < |plan.batches|
    && Unfailed(ConfigOf(plan, d.k), d.cur)
    && (forall i :: 0 <= i < |d.past| ==> d.past[i].first == 0)
    && |d.cur.tracks| == |plan.cs| && forall i :: 0 <= i < |plan.cs| ==> NobodyGone(d.cur.tracks[i].exits)
  }

  /** In invocation k exactly the chosen went away, those that were killed by then. */
  ghost predicate WentAsChosen(plan: Plan, w: World, h: seq<Went>, gone: seq<set<string>>, k: int)
    requires 0 <= k < |gone| && k < |h| && AllFit(|plan.cs|, h)
  {
    forall i :: 0 <= i < |plan.cs| ==>
      && (plan.cs[i].name in gone[k] ==> NothingKilled(CellOf(WentWorld(w, plan.cs, h[..k + 1]), plan.cs[i])))
      && (plan.cs[i].name !in gone[k] ==> NobodyGone(h[k].exits[i]))
  }

  lemma EndOfBatch(plan: Plan, w: World, d: Driver) returns (e: Driver)
    requires JustBegun(plan, w, d)
    ensures DReaches(plan, w, e) && e.k == d.k && e.past == d.past && MainGone(plan, e) && NoForkFailed(plan, e)
    ensures |e.cur.tracks| == |plan.cs| && forall i :: 0 <= i < |plan.cs| ==> NobodyGone(e.cur.tracks[i].exits)
  {
    ReachesInv(plan, w, d);
    var c := ConfigOf(plan, d.k);
    JobsIndependent(plan.cs, plan.batches[d.k]);
    var schedule := FinishBatch(c, d.cur, d.start);
    e := ReachesInner(plan, w, d, schedule);
    ReachesInv(plan, w, e);
    SameExits(d.cur.tracks, e.cur.tracks);
  }

  lemma SameExits(a: seq<Track>, b: seq<Track>)
    requires P.ExitsOf(a) == P.ExitsOf(b)
    ensures |a| == |b| && forall i :: 0 <= i < |a| ==> a[i].exits == b[i].exits
  {
    assert |P.ExitsOf(a)| == |P.ExitsOf(b)|;
    forall i | 0 <= i < |a| ensures a[i].exits == b[i].exits {
      assert P.ExitsOf(a)[i] == P.ExitsOf(b)[i];
    }
  }

  lemma ChosenGo(plan: Plan, w: World, d: Driver, gone: set<string>) returns (e: Driver)
    requires WellFormed(plan) && DReaches(plan, w, d) && MainGone(plan, d) && |d.cur.tracks| == |plan.cs|
    ensures DReaches(plan, w, e) && e.k == d.k && e.past == d.past && e.cur.procs == d.cur.procs
    ensures MainGone(plan, e) && |e.cur.tracks| == |plan.cs|
    ensures ChosenFrom(ConfigOf(plan, d.k), d.cur, e.cur, gone, 0)
  {
    ReachesInv(plan, w, d);
    JobsIndependent(plan.cs, plan.batches[d.k]);
    var schedule := VanishFrom(ConfigOf(plan, d.k), d.cur, d.start, gone, 0);
    e := ReachesInner(plan, w, d, schedule);
  }

  lemma FinishInvocation(plan: Plan, w: World, d: Driver, gone: seq<set<string>>) returns (e: Driver)
    requires JustBegun(plan, w, d) && d.k < |gone|
    ensures DReaches(plan, w, e) && e.k == d.k && e.past == d.past
    ensures MainGone(plan, e) && NoForkFailed(plan, e) && |History(plan, e)| == d.k + 1
    ensures AllFit(|plan.cs|, History(plan, e)) && WentAsChosen(plan, w, History(plan, e), gone, d.k)
  {
    var f := EndOfBatch(plan, w, d);
    e := ChosenGo(plan, w, f, gone[d.k]);
    ReachesInv(plan, w, e);
    HistoryWorld(plan, e, w);
    ChosenInHistory(plan, w, f, e, gone);
  }

  lemma ChosenInHistory(plan: Plan, w: World, f: Driver, e: Driver, gone: seq<set<string>>)
    requires f.k == e.k < |gone| && MainGone(plan, e) && |e.past| == e.k && AllFit(|plan.cs|, History(plan, e))
    requires |f.cur.tracks| == |plan.cs| == |e.cur.tracks|
    requires forall i :: 0 <= i < |plan.cs| ==> NobodyGone(f.cur.tracks[i].exits)
    requires ChosenFrom(ConfigOf(plan, e.k), f.cur, e.cur, gone[e.k], 0)
    requires e.cur.world == WentWorld(w, plan.cs, History(plan, e))
    ensures WentAsChosen(plan, w, History(plan, e), gone, e.k)
  {
    var h := History(plan, e);
    assert h[..e.k + 1] == h;
    forall i | 0 <= i < |plan.cs|
      ensures plan.cs[i].name in gone[e.k] ==> NothingKilled(CellOf(WentWorld(w, plan.cs, h), plan.cs[i]))
      ensures plan.cs[i].name !in gone[e.k] ==> NobodyGone(h[e.k].exits[i])
    {
      assert AsChosen(ConfigOf(plan, e.k), f.cur, e.cur, gone[e.k], i);
    }
  }

  lemma NothingSkipped(plan: Plan, w: World, d: Driver)
    requires WellFormed(plan) && DReaches(plan, w, d) && MainGone(plan, d) && NoForkFailed(plan, d)
    ensures Current(plan, d).first == 0
  {
    ReachesInv(plan, w, d);
    BatchClosed(plan, d, w);
  }

  lemma NextInvocation(plan: Plan, w: World, d: Driver) returns (e: Driver)
    requires WellFormed(plan) && DReaches(plan, w, d) && d.k + 1 < |plan.batches|
    requires MainGone(plan, d) && NoForkFailed(plan, d)
    ensures JustBegun(plan, w, e) && e.k == d.k + 1 && e.past == History(plan, d)
  {
    NothingSkipped(plan, w, d);
    e := DApply(plan, d, Proceed);
    assert DRun(plan, d, [Proceed]) == DRun(plan, e, []);
    ReachesOn(plan, w, d, [Proceed]);
  }

  ghost predicate AllAsChosen(plan: Plan, w: World, h: seq<Went>, gone: seq<set<string>>)
    requires |h| <= |gone| && AllFit(|plan.cs|, h)
  {
    forall k :: 0 <= k < |h| ==> WentAsChosen(plan, w, h, gone, k)
  }

  lemma OneMoreAsChosen(plan: Plan, w: World, h: seq<Went>, g: Went, gone: seq<set<string>>)
    requires |h| < |gone| && AllFit(|plan.cs|, h + [g]) && AllFit(|plan.cs|, h)
    requires AllAsChosen(plan, w, h, gone) && WentAsChosen(plan, w, h + [g], gone, |h|)
    ensures AllAsChosen(plan, w, h + [g], gone)
  {
    forall k | 0 <= k < |h| ensures WentAsChosen(plan, w, h + [g], gone, k) {
      assert (h + [g])[..k + 1] == h[..k + 1] && (h + [g])[k] == h[k];
      assert WentAsChosen(plan, w, h, gone, k);
    }
  }

  lemma {:induction false} GetsThrough(plan: Plan, w: World, gone: seq<set<string>>, k: nat) returns (d: Driver)
    requires WellFormed(plan) && |gone| == |plan.batches| && k < |gone|
    ensures DReaches(plan, w, d) && d.k == k && MainGone(plan, d) && NoForkFailed(plan, d)
    ensures |History(plan, d)| == k + 1 && AllFit(|plan.cs|, History(plan, d))
    ensures AllAsChosen(plan, w, History(plan, d), gone)
    decreases k
  {
    if k == 0 {
      d := FirstInvocation(plan, w);
      assert DValid(plan, d, []) && DRun(plan, d, []) == d;
      d := FinishInvocation(plan, w, d, gone);
    } else {
      var before := GetsThrough(plan, w, gone, k - 1);
      d := NextInvocation(plan, w, before);
      d := FinishInvocation(plan, w, d, gone);
      OneMoreAsChosen(plan, w, History(plan, before), Current(plan, d), gone);
    }
  }

  /** Every plan can be completed, with any choice of who goes away after which invocation. */
  lemma EveryPlanCompletes(plan: Plan, w: World, gone: seq<set<string>>) returns (d: Driver)
    requires WellFormed(plan) && |gone| == |plan.batches|
    ensures Complete(plan, w, d)
    ensures |History(plan, d)| == |gone| && AllFit(|plan.cs|, History(plan, d))
    ensures AllAsChosen(plan, w, History(plan, d), gone)
  {
    d := GetsThrough(plan, w, gone, |gone| - 1);
  }
}
