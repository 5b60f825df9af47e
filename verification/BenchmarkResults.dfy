/**
 What the driver's functions leave behind in all their interleavings: the two
 ways to start, the start with the kill after it, and the whole test loop.
 */
module BenchmarkResults {
  import opened ContainerWorld
  import opened BenchmarkPhases
  import opened BenchmarkStarts
  import opened BenchmarkTeardown
  import opened BenchmarkDriver
  import opened DriverProofs

  // ---- the two ways to start ----

  /**
   run_sequentiell and run leave the same machine, in all their interleavings, unless a container was
   created before, or a process that was left killed went away in one of them only.
   */
  lemma SequentialRunEqualsRun(a: Plan, b: Plan, w: World, d: Driver, e: Driver)
    requires Complete(a, w, d) && Complete(b, w, e) && a.cs == b.cs
    requires a.batches == SEQUENTIAL && b.batches == ONE_SHOT
    ensures AllFit(|a.cs|, History(a, d)) && AllFit(|a.cs|, History(b, e))
    ensures d.cur.world == e.cur.world
            <==> forall i :: 0 <= i < |a.cs| ==>
                   var s := StatusOf(w, a.cs[i].name);
                   s.crun != Created && GoAlike(s, Ever(History(a, d), i, |a.cs|), Ever(History(b, e), i, |a.cs|))
  {
    CompleteResult(a, w, d);
    CompleteResult(b, w, e);
    SequentialEqualsOneShot(w, a.cs, History(a, d), History(b, e));
  }

  /** For containerd only a process that was left killed makes a difference. */
  lemma CtrdSequentialRunEqualsRun(a: Plan, b: Plan, w: World, d: Driver, e: Driver)
    requires Complete(a, w, d) && Complete(b, w, e) && a.cs == b.cs
    requires a.batches == CTRD_SEQUENTIAL && b.batches == CTRD_ONE_SHOT
    ensures AllFit(|a.cs|, History(a, d)) && AllFit(|a.cs|, History(b, e))
    ensures d.cur.world == e.cur.world
            <==> forall i :: 0 <= i < |a.cs| ==>
                   GoAlike(StatusOf(w, a.cs[i].name),
                           Ever(History(a, d), i, |a.cs|), Ever(History(b, e), i, |a.cs|))
  {
    CompleteResult(a, w, d);
    CompleteResult(b, w, e);
    CtrdSequentialEqualsOneShot(w, a.cs, History(a, d), History(b, e));
  }

  // ---- a start, some time, and the kill after it ----

  /** One iteration of one runtime. */
  datatype Round = Round(kind: RoundKind, plan: Plan, end: Driver)

  ghost predicate IsRound(w: World, cs: seq<Container>, r: Round) {
    && Complete(r.plan, w, r.end) && r.plan.cs == cs
    && r.plan.batches == StartCommands(r.kind) + StopCommands(r.kind)
  }

  /** Every container comes back, given which processes went away when. */
  ghost predicate AllComeBack(w: World, cs: seq<Container>, kind: RoundKind, h: seq<Went>) {
    var m := |StartCommands(kind)|;
    && |h| >= m && AllFit(|cs|, h) && IsRoundHistory(|cs|, kind, h[..m], h[m..])
    && forall i :: 0 <= i < |cs| ==>
         ComesBack(kind, StatusOf(w, cs[i].name), GoneBeforeDelete(kind, h[m..], i, |cs|), Ever(h, i, |cs|))
  }

  lemma SplitHistory(n: nat, kind: RoundKind, h: seq<Went>)
    requires IsHistory(n, h, StartCommands(kind) + StopCommands(kind))
    ensures |h| >= |StartCommands(kind)|
    ensures IsRoundHistory(n, kind, h[..|StartCommands(kind)|], h[|StartCommands(kind)|..])
  {
  }

  lemma PartsRestore(w: World, cs: seq<Container>, kind: RoundKind, up: seq<Went>, down: seq<Went>)
    requires Distinct(cs) && IsRoundHistory(|cs|, kind, up, down)
    ensures AllFit(|cs|, up + down)
    ensures WentWorld(w, cs, up + down) == w <==> AllComeBack(w, cs, kind, up + down)
  {
    assert (up + down)[..|StartCommands(kind)|] == up && (up + down)[|StartCommands(kind)|..] == down;
    RoundRestores(w, cs, kind, up, down);
  }

  lemma HistoryRestores(w: World, cs: seq<Container>, kind: RoundKind, h: seq<Went>)
    requires Distinct(cs) && IsHistory(|cs|, h, StartCommands(kind) + StopCommands(kind))
    ensures WentWorld(w, cs, h) == w <==> AllComeBack(w, cs, kind, h)
  {
    var m := |StartCommands(kind)|;
    SplitHistory(|cs|, kind, h);
    PartsRestore(w, cs, kind, h[..m], h[m..]);
    assert h[..m] + h[m..] == h;
  }

  /** A start and the kill after it, from any machine and in all interleavings: when the machine is as before. */
  lemma StartThenKillRestores(w: World, cs: seq<Container>, r: Round)
    requires IsRound(w, cs, r)
    ensures r.end.cur.world == w <==> AllComeBack(w, cs, r.kind, History(r.plan, r.end))
  {
    CompleteResult(r.plan, w, r.end);
    HistoryRestores(w, cs, r.kind, History(r.plan, r.end));
  }

  /** The machine that a test begins with: containerd has a record of every container, and nothing else is there. */
  ghost predicate IsPrepared(w: World, cs: seq<Container>) {
    forall i :: 0 <= i < |cs| ==> StatusOf(w, cs[i].name) == Status(Absent, true, Absent)
  }

  /** From there any round restores the machine exactly when every killed process is gone before its delete. */
  lemma PreparedComesBack(w: World, cs: seq<Container>, r: Round)
    requires IsRound(w, cs, r) && IsPrepared(w, cs)
    ensures var h, m := History(r.plan, r.end), |StartCommands(r.kind)|;
            && |h| >= m && IsHistory(|cs|, h[m..], StopCommands(r.kind))
            && (r.end.cur.world == w <==> forall i :: 0 <= i < |cs| ==> GoneBeforeDelete(r.kind, h[m..], i, |cs|))
  {
    CompleteResult(r.plan, w, r.end);
    SplitHistory(|cs|, r.kind, History(r.plan, r.end));
    StartThenKillRestores(w, cs, r);
  }

  // ---- the test loop ----

  /** The machine before round k, and after the last one. */
  function Boundary(w: World, rounds: seq<Round>, k: nat): World
    requires k <= |rounds|
  {
    if k == 0 then w else rounds[k - 1].end.cur.world
  }

  /** Rounds of any of the runtimes, one after the other. */
  ghost predicate IsTestLoop(w: World, cs: seq<Container>, rounds: seq<Round>) {
    forall k :: 0 <= k < |rounds| ==> IsRound(Boundary(w, rounds, k), cs, rounds[k])
  }

  ghost predicate AlwaysBack(w: World, rounds: seq<Round>) {
    forall k :: 0 <= k <= |rounds| ==> Boundary(w, rounds, k) == w
  }

  predicate HasEnded(r: Round) { MainGone(r.plan, r.end) }

  ghost predicate AllRoundsBack(w: World, cs: seq<Container>, rounds: seq<Round>) {
    forall k :: 0 <= k < |rounds| ==>
      HasEnded(rounds[k]) && AllComeBack(w, cs, rounds[k].kind, History(rounds[k].plan, rounds[k].end))
  }

  lemma FrontBoundary(w: World, rounds: seq<Round>, k: nat)
    requires k < |rounds|
    ensures Boundary(w, rounds[..|rounds| - 1], k) == Boundary(w, rounds, k)
  {
  }

  lemma FrontIsTestLoop(w: World, cs: seq<Container>, rounds: seq<Round>)
    requires rounds != [] && IsTestLoop(w, cs, rounds)
    ensures IsTestLoop(w, cs, rounds[..|rounds| - 1])
    ensures IsRound(Boundary(w, rounds, |rounds| - 1), cs, rounds[|rounds| - 1])
  {
    var front := rounds[..|rounds| - 1];
    forall k | 0 <= k < |front| ensures IsRound(Boundary(w, front, k), cs, front[k]) {
      FrontBoundary(w, rounds, k);
      assert IsRound(Boundary(w, rounds, k), cs, rounds[k]);
    }
  }

  lemma FrontAlwaysBack(w: World, rounds: seq<Round>)
    requires rounds != []
    ensures AlwaysBack(w, rounds) <==> AlwaysBack(w, rounds[..|rounds| - 1]) && Boundary(w, rounds, |rounds|) == w
  {
    var front := rounds[..|rounds| - 1];
    forall k | 0 <= k <= |front| ensures Boundary(w, front, k) == Boundary(w, rounds, k) {
      FrontBoundary(w, rounds, k);
    }
  }

  lemma FrontAllRoundsBack(w: World, cs: seq<Container>, rounds: seq<Round>)
    requires rounds != [] && HasEnded(rounds[|rounds| - 1])
    ensures var r := rounds[|rounds| - 1];
            AllRoundsBack(w, cs, rounds)
            <==> AllRoundsBack(w, cs, rounds[..|rounds| - 1]) && AllComeBack(w, cs, r.kind, History(r.plan, r.end))
  {
    var front := rounds[..|rounds| - 1];
    assert forall k :: 0 <= k < |front| ==> front[k] == rounds[k];
  }

  /** All iterations of a test start on the same machine exactly when every container comes back in each of them. */
  lemma {:induction false} TestLoopRestores(w: World, cs: seq<Container>, rounds: seq<Round>)
    requires IsTestLoop(w, cs, rounds)
    ensures AlwaysBack(w, rounds) <==> AllRoundsBack(w, cs, rounds)
  {
    if rounds != [] {
      var last := |rounds| - 1;
      FrontIsTestLoop(w, cs, rounds);
      FrontAlwaysBack(w, rounds);
      FrontAllRoundsBack(w, cs, rounds);
      TestLoopRestores(w, cs, rounds[..last]);
      if AlwaysBack(w, rounds[..last]) {
        FrontBoundary(w, rounds, last);
        StartThenKillRestores(w, cs, rounds[last]);
      }
    }
  }
}
