/**
 A program on one container, while killed processes go away at any time: the
 exits are noted by how many operations had been done when they happened.
 */
module CellRuns {
  import opened ContainerWorld

  /** One set of exits before each operation, and one after the last. */
  predicate FitsProgram(p: seq<Instr>, f: seq<Exits>) { |f| == |p| + 1 }

  /** Where a container is, and whether its program has ended with an error. */
  datatype Spot = Spot(cell: Cell, failed: bool)

  /** After the first n operations; with an error the rest of the program is not done. */
  function Reached(c: Cell, p: seq<Instr>, f: seq<Exits>, n: nat): Spot
    requires FitsProgram(p, f) && n <= |p|
  {
    if n == 0 then Spot(LaterCell(c, f[0]), false)
    else
      var before := Reached(c, p, f, n - 1);
      if before.failed then Spot(LaterCell(before.cell, f[n]), true) else OpDone(before.cell, p[n - 1], f[n])
  }

  function OpDone(c: Cell, i: Instr, e: Exits): Spot { Spot(LaterCell(Perform(c, i.op), e), Aborts(c, i)) }

  /** The whole program with its exits. */
  function Through(c: Cell, p: seq<Instr>, f: seq<Exits>): Cell
    requires FitsProgram(p, f)
  {
    Reached(c, p, f, |p|).cell
  }

  // ---- a program that is under way ----

  /** How many operations are done, or all with an error, and the exits so far. */
  datatype Track = Track(done: nat, exits: seq<Exits>)

  function FreshTrack(p: seq<Instr>): Track { Track(0, seq(|p| + 1, _ => NONE)) }

  /** Container c was c0 when the program began; `left` is still to be done. */
  ghost predicate Tracked(c0: Cell, p: seq<Instr>, t: Track, c: Cell, left: seq<Instr>) {
    && FitsProgram(p, t.exits) && t.done <= |p|
    && (forall j :: t.done < j <= |p| ==> t.exits[j] == NONE)
    && var s := Reached(c0, p, t.exits, t.done);
    && s.cell == c
    && (if s.failed then t.done == |p| && left == [] else left == p[t.done..])
  }

  lemma LaterNone(c: Cell)
    ensures LaterCell(c, NONE) == c
  {
  }

  lemma TrackedStart(c0: Cell, p: seq<Instr>)
    ensures Tracked(c0, p, FreshTrack(p), c0, p)
  {
    LaterNone(c0);
  }

  /** An operation of the process. */
  function Did(t: Track, p: seq<Instr>, aborted: bool): Track {
    t.(done := if aborted then |p| else t.done + 1)
  }

  lemma {:induction false} StaysFailed(c: Cell, p: seq<Instr>, f: seq<Exits>, m: nat, n: nat)
    requires FitsProgram(p, f) && m <= n <= |p| && Reached(c, p, f, m).failed
    requires forall j :: m < j <= n ==> f[j] == NONE
    ensures Reached(c, p, f, n) == Reached(c, p, f, m)
  {
    if m < n {
      StaysFailed(c, p, f, m, n - 1);
      LaterNone(Reached(c, p, f, m).cell);
    }
  }

  lemma ReachedNext(c0: Cell, p: seq<Instr>, f: seq<Exits>, n: nat, c: Cell)
    requires FitsProgram(p, f) && n < |p| && Reached(c0, p, f, n) == Spot(c, false)
    ensures Reached(c0, p, f, n + 1) == OpDone(c, p[n], f[n + 1])
  {
  }

  lemma OpDoneQuietly(c: Cell, i: Instr)
    ensures OpDone(c, i, NONE) == Spot(Perform(c, i.op), Aborts(c, i))
  {
    LaterNone(Perform(c, i.op));
  }

  lemma TrackedOp(c0: Cell, p: seq<Instr>, t: Track, c: Cell, left: seq<Instr>)
    requires Tracked(c0, p, t, c, left) && left != []
    ensures var aborted := Aborts(c, left[0]);
            Tracked(c0, p, Did(t, p, aborted), Perform(c, left[0].op), if aborted then [] else left[1..])
  {
    ReachedNext(c0, p, t.exits, t.done, c);
    OpDoneQuietly(c, p[t.done]);
    if Aborts(c, left[0]) {
      StaysFailed(c0, p, t.exits, t.done + 1, |p|);
    }
  }

  /** A process that goes away. */
  function Vanished(t: Track, e: Exits): Track
    requires t.done < |t.exits|
  {
    t.(exits := t.exits[t.done := Both(t.exits[t.done], e)])
  }

  lemma LaterTwice(c: Cell, a: Exits, b: Exits)
    ensures LaterCell(LaterCell(c, a), b) == LaterCell(c, Both(a, b))
  {
  }

  lemma {:induction false} SamePrefix(c: Cell, p: seq<Instr>, f: seq<Exits>, g: seq<Exits>, n: nat)
    requires FitsProgram(p, f) && FitsProgram(p, g) && n <= |p| && forall j :: 0 <= j <= n ==> f[j] == g[j]
    ensures Reached(c, p, g, n) == Reached(c, p, f, n)
  {
    if n > 0 { SamePrefix(c, p, f, g, n - 1); }
  }

  lemma VanishNow(c0: Cell, p: seq<Instr>, f: seq<Exits>, g: seq<Exits>, n: nat, e: Exits)
    requires FitsProgram(p, f) && n <= |p| && g == f[n := Both(f[n], e)]
    ensures var s := Reached(c0, p, f, n); Reached(c0, p, g, n) == Spot(LaterCell(s.cell, e), s.failed)
  {
    if n == 0 {
      LaterTwice(c0, f[0], e);
    } else {
      SamePrefix(c0, p, f, g, n - 1);
      var before := Reached(c0, p, f, n - 1);
      LaterTwice(if before.failed then before.cell else Perform(before.cell, p[n - 1].op), f[n], e);
    }
  }

  lemma TrackedVanish(c0: Cell, p: seq<Instr>, t: Track, c: Cell, left: seq<Instr>, e: Exits)
    requires Tracked(c0, p, t, c, left)
    ensures Tracked(c0, p, Vanished(t, e), LaterCell(c, e), left)
  {
    VanishNow(c0, p, t.exits, Vanished(t, e).exits, t.done, e);
  }

  lemma TrackedEnd(c0: Cell, p: seq<Instr>, t: Track, c: Cell)
    requires Tracked(c0, p, t, c, [])
    ensures FitsProgram(p, t.exits) && c == Through(c0, p, t.exits)
  {
    assert |p[t.done..]| == |p| - t.done;
  }

  lemma TrackedUnbegun(c0: Cell, p: seq<Instr>, t: Track, c: Cell)
    requires Tracked(c0, p, t, c, p)
    ensures FitsProgram(p, t.exits) && c == LaterCell(c0, t.exits[0])
  {
    assert |p[t.done..]| == |p| - t.done;
    assert Reached(c0, p, t.exits, 0) == Spot(LaterCell(c0, t.exits[0]), false);
  }

  // ---- all containers of a batch ----

  predicate Independent(jobs: seq<Job>) {
    forall i, j :: 0 <= i < j < |jobs| ==>
      jobs[i].at.name != jobs[j].at.name && jobs[i].at.rootfs != jobs[j].at.rootfs
  }

  predicate FitsJobs(jobs: seq<Job>, exits: seq<seq<Exits>>) {
    |exits| == |jobs| && forall i :: 0 <= i < |jobs| ==> FitsProgram(jobs[i].program, exits[i])
  }

  /** What becomes of a container, depending on whether its entry was launched. */
  function JobCell(c: Cell, p: seq<Instr>, f: seq<Exits>, launched: bool): Cell
    requires FitsProgram(p, f)
  {
    if launched then Through(c, p, f) else LaterCell(c, f[0])
  }

  function AfterEntry(w: World, jobs: seq<Job>, exits: seq<seq<Exits>>, first: nat, i: nat): World
    requires FitsJobs(jobs, exits) && i < |jobs|
  {
    WithCell(w, jobs[i].at, JobCell(CellOf(w, jobs[i].at), jobs[i].program, exits[i], first <= i))
  }

  /** The entries from index i on, one by one; those before `first` were not launched. */
  function RunFrom(w: World, jobs: seq<Job>, exits: seq<seq<Exits>>, first: nat, i: nat): World
    requires FitsJobs(jobs, exits) && i <= |jobs|
    decreases |jobs| - i
  {
    if i == |jobs| then w else RunFrom(AfterEntry(w, jobs, exits, first, i), jobs, exits, first, i + 1)
  }

  function RunAll(w: World, jobs: seq<Job>, exits: seq<seq<Exits>>, first: nat): World
    requires FitsJobs(jobs, exits)
  {
    RunFrom(w, jobs, exits, first, 0)
  }

  function Places(jobs: seq<Job>): (cs: seq<Container>)
    ensures |cs| == |jobs| && forall i :: 0 <= i < |cs| ==> cs[i] == jobs[i].at
  {
    seq(|jobs|, i requires 0 <= i < |jobs| => jobs[i].at)
  }

  /** v is w except that each entry has gone through its own part. */
  ghost predicate EachRan(w: World, v: World, jobs: seq<Job>, exits: seq<seq<Exits>>, first: nat)
    requires FitsJobs(jobs, exits)
  {
    && (forall i :: 0 <= i < |jobs| ==>
          CellOf(v, jobs[i].at) == JobCell(CellOf(w, jobs[i].at), jobs[i].program, exits[i], first <= i))
    && SameElsewhere(w, v, Places(jobs))
  }

  lemma OneEntry(w: World, jobs: seq<Job>, exits: seq<seq<Exits>>, first: nat, i: nat)
    requires Independent(jobs) && FitsJobs(jobs, exits) && i < |jobs|
    ensures var v := AfterEntry(w, jobs, exits, first, i);
            && CellOf(v, jobs[i].at) == JobCell(CellOf(w, jobs[i].at), jobs[i].program, exits[i], first <= i)
            && (forall j :: 0 <= j < |jobs| && j != i ==> CellOf(v, jobs[j].at) == CellOf(w, jobs[j].at))
            && SameElsewhere(w, v, Places(jobs))
  {
    WithCellReads(w, jobs[i].at, JobCell(CellOf(w, jobs[i].at), jobs[i].program, exits[i], first <= i));
    assert Places(jobs)[i] == jobs[i].at;
  }

  lemma {:induction false} RunFromRunsEach(w: World, jobs: seq<Job>, exits: seq<seq<Exits>>, first: nat, i: nat)
    requires Independent(jobs) && FitsJobs(jobs, exits) && i <= |jobs|
    ensures var v := RunFrom(w, jobs, exits, first, i);
            && (forall j :: i <= j < |jobs| ==>
                  CellOf(v, jobs[j].at) == JobCell(CellOf(w, jobs[j].at), jobs[j].program, exits[j], first <= j))
            && (forall j :: 0 <= j < i ==> CellOf(v, jobs[j].at) == CellOf(w, jobs[j].at))
            && SameElsewhere(w, v, Places(jobs))
    decreases |jobs| - i
  {
    if i < |jobs| {
      var w1 := AfterEntry(w, jobs, exits, first, i);
      OneEntry(w, jobs, exits, first, i);
      RunFromRunsEach(w1, jobs, exits, first, i + 1);
      ElsewhereTrans(w, w1, RunFrom(w1, jobs, exits, first, i + 1), Places(jobs));
    }
  }

  lemma RunAllRunsEach(w: World, jobs: seq<Job>, exits: seq<seq<Exits>>, first: nat)
    requires Independent(jobs) && FitsJobs(jobs, exits)
    ensures EachRan(w, RunAll(w, jobs, exits, first), jobs, exits, first)
  {
    RunFromRunsEach(w, jobs, exits, first, 0);
  }

  /** Being run cell by cell determines the result. */
  lemma EachRanIsRunAll(w: World, v: World, jobs: seq<Job>, exits: seq<seq<Exits>>, first: nat)
    requires Independent(jobs) && FitsJobs(jobs, exits) && EachRan(w, v, jobs, exits, first)
    ensures v == RunAll(w, jobs, exits, first)
  {
    var u := RunAll(w, jobs, exits, first);
    RunAllRunsEach(w, jobs, exits, first);
    assert SameElsewhere(v, u, Places(jobs));
    SameCells(v, u, Places(jobs));
  }
}
