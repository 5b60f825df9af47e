/**
 Stopping what was started (`kill`), and from which machines a start and the
 stop after it lead back to the same machine.
 */
module BenchmarkTeardown {
  import opened ContainerWorld
  import opened CellRuns
  import opened BenchmarkPhases
  import opened BenchmarkStarts

  const TEARDOWN := [KILL, DELETE, UMOUNT]
  const CTRD_TEARDOWN := [CTRD_KILL]

  // ---- one invocation ----

  function AfterKill(life: Life): Life { if life == Created || life == Running then Killed else life }

  function AfterDelete(life: Life): Life { if life == Stopped then Absent else life }

  lemma KillStep(c: Cell, f: seq<Exits>)
    requires |f| == 2
    ensures FitsProgram(Program(KILL), f)
    ensures var s := LaterStatus(c.status, Union(f));
            Through(c, Program(KILL), f)
            == Cell(c.mounts, s.(crun := Later(AfterKill(Later(c.status.crun, f[0].crun)), f[1].crun)))
  {
    CrunPrograms();
    ThroughOne(c, Must(Crun(Kill)), f);
  }

  lemma DeleteStep(c: Cell, f: seq<Exits>)
    requires |f| == 2
    ensures FitsProgram(Program(DELETE), f)
    ensures var s := LaterStatus(c.status, Union(f));
            Through(c, Program(DELETE), f)
            == Cell(c.mounts, s.(crun := Later(AfterDelete(Later(c.status.crun, f[0].crun)), f[1].crun)))
  {
    CrunPrograms();
    ThroughOne(c, Must(Crun(Delete)), f);
  }

  lemma UmountStep(c: Cell, f: seq<Exits>)
    requires |f| == 2
    ensures FitsProgram(Program(UMOUNT), f)
    ensures Through(c, Program(UMOUNT), f)
            == Cell(if c.mounts > 0 then c.mounts - 1 else 0, LaterStatus(c.status, Union(f)))
  {
    CrunPrograms();
    ThroughOne(c, Must(Umount), f);
  }

  lemma CtrdKillStep(c: Cell, f: seq<Exits>)
    requires |f| == 3
    ensures FitsProgram(Program(CTRD_KILL), f)
    ensures var s := LaterStatus(c.status, Union(f));
            var killed := Later(AfterKill(Later(c.status.task, f[0].task)), f[1].task);
            Through(c, Program(CTRD_KILL), f)
            == Cell(c.mounts, if c.status.record then s.(task := Later(AfterDelete(killed), f[2].task)) else s)
  {
    CtrdPrograms();
    ThroughTwo(c, Try(Task(Kill)), Try(Task(Delete)), f);
  }

  // ---- which invocations end with an error ----

  /** Whether the process of one entry ends with an error, whoever goes away meanwhile. */
  predicate EndsWithError(c: Cell, command: Command, f: seq<Exits>)
    requires FitsProgram(Program(command), f)
  {
    Reached(c, Program(command), f, |Program(command)|).failed
  }

  lemma OneFails(c: Cell, x: Instr, f: seq<Exits>)
    requires |f| == 2
    ensures Reached(c, [x], f, 1).failed <==> Aborts(LaterCell(c, f[0]), x)
  {
    assert Reached(c, [x], f, 1) == OpDone(LaterCell(c, f[0]), x, f[1]);
  }

  /** The single commands of crun: what has to be there; life is what the container is when the command is done. */
  lemma SingleCommandFails(c: Cell, f: seq<Exits>)
    requires |f| == 2
    ensures |Program(MOUNT)| == |Program(CREATE)| == |Program(START)| == |Program(KILL)| == |Program(DELETE)| == 1
    ensures |Program(UMOUNT)| == 1
    ensures var life := Later(c.status.crun, f[0].crun);
            && !EndsWithError(c, MOUNT, f)
            && (EndsWithError(c, UMOUNT, f) <==> c.mounts == 0)
            && (EndsWithError(c, CREATE, f) <==> life != Absent || c.mounts == 0)
            && (EndsWithError(c, START, f) <==> life != Created)
            && (EndsWithError(c, KILL, f) <==> life == Absent || life == Stopped)
            && (EndsWithError(c, DELETE, f) <==> life != Stopped)
  {
    CrunPrograms();
    OneFails(c, Must(Mount), f);
    OneFails(c, Must(Umount), f);
    OneFails(c, Must(Crun(Create)), f);
    OneFails(c, Must(Crun(Start)), f);
    OneFails(c, Must(Crun(Kill)), f);
    OneFails(c, Must(Crun(Delete)), f);
  }

  /** Starting in one go fails exactly if there was a container before. */
  lemma RunFails(c: Cell, f: seq<Exits>)
    requires |f| == 4
    ensures |Program(RUN)| == 3 && (EndsWithError(c, RUN, f) <==> c.status.crun != Absent)
  {
    CrunPrograms();
    var p := [Try(Mount), Must(Crun(Create)), Must(Crun(Start))];
    var d := LaterCell(Perform(LaterCell(c, f[0]), Mount), f[1]);
    assert Reached(c, p, f, 1) == Spot(d, false);
    assert Reached(c, p, f, 2) == OpDone(d, p[1], f[2]);
    if c.status.crun == Absent {
      assert Reached(c, p, f, 3) == OpDone(Reached(c, p, f, 2).cell, p[2], f[3]);
    } else {
      assert Reached(c, p, f, 3).failed;
    }
  }

  // ---- the teardown of crun ----

  /** Whether crun's process of container i went away after its kill and before its delete. */
  function GoneBetween(past: seq<Went>, i: nat, n: nat): bool
    requires i < n && IsHistory(n, past, TEARDOWN)
  {
    CrunPrograms();
    past[0].exits[i][1].crun || past[1].exits[i][0].crun
  }

  function GoneBefore(past: seq<Went>, i: nat, n: nat): bool
    requires i < n && IsHistory(n, past, TEARDOWN)
  {
    past[0].exits[i][0].crun
  }

  function GoneAfter(past: seq<Went>, i: nat, n: nat): bool
    requires i < n && IsHistory(n, past, TEARDOWN)
  {
    CrunPrograms();
    past[1].exits[i][1].crun || Union(past[2].exits[i]).crun
  }

  function TornDown(life: Life, before: bool, between: bool, after: bool): Life {
    Later(AfterDelete(Later(AfterKill(Later(life, before)), between)), after)
  }

  lemma TeardownCell(c: Cell, past: seq<Went>, i: nat, n: nat)
    requires i < n && IsHistory(n, past, TEARDOWN) && c.mounts > 0
    ensures WentCell(c, past, i, n)
            == Cell(c.mounts - 1,
                    LaterStatus(c.status, Ever(past, i, n)).(
                      crun := TornDown(c.status.crun, GoneBefore(past, i, n),
                                       GoneBetween(past, i, n), GoneAfter(past, i, n))))
    ensures Ever(past, i, n).crun == (GoneBefore(past, i, n) || GoneBetween(past, i, n) || GoneAfter(past, i, n))
  {
    CrunPrograms();
    HistoryThree(c, past, i, n);
    var f, g, h := past[0].exits[i], past[1].exits[i], past[2].exits[i];
    KillStep(c, f);
    ThroughOne(c, Must(Crun(Kill)), f);
    var d := Through(c, Program(KILL), f);
    DeleteStep(d, g);
    ThroughOne(d, Must(Crun(Delete)), g);
    UmountStep(Through(d, Program(DELETE), g), h);
    LaterThrice(c.status, Union(f), Union(g), Union(h));
    LaterBoth(AfterKill(Later(c.status.crun, f[0].crun)), f[1].crun, g[0].crun);
    LaterBoth(AfterDelete(Later(d.status.crun, g[0].crun)), g[1].crun, Union(h).crun);
  }

  lemma LaterBoth(life: Life, a: bool, b: bool)
    ensures Later(Later(life, a), b) == Later(life, a || b)
  {
  }

  // ---- up and down ----

  lemma {:induction false} HistoryConcat(c: Cell, a: seq<Went>, b: seq<Went>, i: nat, n: nat)
    requires i < n && AllFit(n, a) && AllFit(n, b)
    ensures AllFit(n, a + b)
    ensures WentCell(c, a + b, i, n) == WentCell(WentCell(c, a, i, n), b, i, n)
    ensures Ever(a + b, i, n) == Both(Ever(a, i, n), Ever(b, i, n))
  {
    if b == [] {
      assert a + b == a;
    } else {
      var front := b[..|b| - 1];
      HistoryConcat(c, a, front, i, n);
      assert (a + b)[..|a + b| - 1] == a + front && (a + b)[|a + b| - 1] == b[|b| - 1];
    }
  }

  /** The four ways of one iteration of a test: how it starts, and with which runtime. */
  datatype RoundKind = CrunPhased | CrunOneShot | CtrdPhased | CtrdOneShot

  function StartCommands(kind: RoundKind): seq<Command> {
    match kind
    case CrunPhased => SEQUENTIAL
    case CrunOneShot => ONE_SHOT
    case CtrdPhased => CTRD_SEQUENTIAL
    case CtrdOneShot => CTRD_ONE_SHOT
  }

  predicate IsCrun(kind: RoundKind) { kind.CrunPhased? || kind.CrunOneShot? }

  function StopCommands(kind: RoundKind): seq<Command> { if IsCrun(kind) then TEARDOWN else CTRD_TEARDOWN }

  ghost predicate IsRoundHistory(n: nat, kind: RoundKind, up: seq<Went>, down: seq<Went>) {
    IsHistory(n, up, StartCommands(kind)) && IsHistory(n, down, StopCommands(kind))
  }

  /** Whether the killed process of container i was gone before the delete. */
  function GoneBeforeDelete(kind: RoundKind, down: seq<Went>, i: nat, n: nat): bool
    requires i < n && IsHistory(n, down, StopCommands(kind))
  {
    if IsCrun(kind) then GoneBetween(down, i, n)
    else
      CtrdPrograms();
      down[0].exits[i][1].task
  }

  /**
   What came back of the runtime that was used: nothing was there, and the
   process was gone before the delete; or something was left killed, and it
   never went away.  Without its record containerd answers no request.  What is
   not touched is as before unless a process that was left killed went away.
   */
  predicate ComesBack(kind: RoundKind, s: Status, beforeDelete: bool, ever: Exits) {
    if IsCrun(kind) then
      && ((s.crun == Absent && beforeDelete) || (s.crun == Killed && !ever.crun))
      && (s.task == Killed ==> !ever.task)
    else
      && (if s.record then (s.task == Absent && beforeDelete) || (s.task == Killed && !ever.task)
          else s.task == Killed ==> !ever.task)
      && (s.crun == Killed ==> !ever.crun)
  }

  lemma CrunLifeBack(s: Status, phased: bool, e: Exits, before: bool, between: bool, after: bool)
    ensures TornDown(CrunStarted(s, phased, e).crun, before, between, after) == s.crun
            <==> (s.crun == Absent && between) || (s.crun == Killed && !(e.crun || before || between || after))
  {
  }

  lemma CrunUpCell(kind: RoundKind, c: Cell, up: seq<Went>, i: nat, n: nat)
    requires IsCrun(kind) && i < n && IsHistory(n, up, StartCommands(kind))
    ensures WentCell(c, up, i, n) == Cell(c.mounts + 1, CrunStarted(c.status, kind.CrunPhased?, Ever(up, i, n)))
  {
    if kind.CrunPhased? { SequentialCell(c, up, i, n); } else { OneShotCell(c, up, i, n); }
  }

  lemma CrunDownCell(s: Status, t: Status, mounts: nat, down: seq<Went>, i: nat, n: nat)
    requires i < n && IsHistory(n, down, TEARDOWN)
    ensures WentCell(Cell(mounts + 1, t), down, i, n) == Cell(mounts, s)
            <==> s == LaterStatus(t, Ever(down, i, n)).(
                        crun := TornDown(t.crun, GoneBefore(down, i, n),
                                         GoneBetween(down, i, n), GoneAfter(down, i, n)))
    ensures Ever(down, i, n).crun == (GoneBefore(down, i, n) || GoneBetween(down, i, n) || GoneAfter(down, i, n))
  {
    TeardownCell(Cell(mounts + 1, t), down, i, n);
  }

  lemma CrunRoundCell(kind: RoundKind, c: Cell, up: seq<Went>, down: seq<Went>, i: nat, n: nat)
    requires IsCrun(kind) && i < n && IsRoundHistory(n, kind, up, down)
    ensures AllFit(n, up + down)
    ensures WentCell(c, up + down, i, n) == c
            <==> ComesBack(kind, c.status, GoneBeforeDelete(kind, down, i, n), Ever(up + down, i, n))
  {
    HistoryConcat(c, up, down, i, n);
    var e, phased := Ever(up, i, n), kind.CrunPhased?;
    CrunUpCell(kind, c, up, i, n);
    CrunDownCell(c.status, CrunStarted(c.status, phased, e), c.mounts, down, i, n);
    CrunLifeBack(c.status, phased, e, GoneBefore(down, i, n), GoneBetween(down, i, n), GoneAfter(down, i, n));
  }

  lemma TaskLifeBack(s: Status, e: Exits, before: bool, between: bool, after: bool)
    ensures s.record ==>
              (TornDown(TaskStarted(s, e).task, before, between, after) == s.task
               <==> (s.task == Absent && between) || (s.task == Killed && !(e.task || before || between || after)))
    ensures !s.record ==> TaskStarted(s, e) == LaterStatus(s, e)
  {
  }

  lemma CtrdRoundCell(kind: RoundKind, c: Cell, up: seq<Went>, down: seq<Went>, i: nat, n: nat)
    requires !IsCrun(kind) && i < n && IsRoundHistory(n, kind, up, down)
    ensures AllFit(n, up + down)
    ensures WentCell(c, up + down, i, n) == c
            <==> ComesBack(kind, c.status, GoneBeforeDelete(kind, down, i, n), Ever(up + down, i, n))
  {
    HistoryConcat(c, up, down, i, n);
    CtrdPrograms();
    var e, f := Ever(up, i, n), down[0].exits[i];
    if kind.CtrdPhased? { CtrdSequentialCell(c, up, i, n); } else { CtrdOneShotCell(c, up, i, n); }
    var d := Cell(c.mounts, TaskStarted(c.status, e));
    HistoryOne(d, down, i, n);
    CtrdKillStep(d, f);
    ThroughTwo(d, Try(Task(Kill)), Try(Task(Delete)), f);
    TaskLifeBack(c.status, e, f[0].task, f[1].task, f[2].task);
  }

  /** A start and the stop after it, from any machine: when the machine is as before. */
  lemma RoundRestores(w: World, cs: seq<Container>, kind: RoundKind, up: seq<Went>, down: seq<Went>)
    requires Distinct(cs) && IsRoundHistory(|cs|, kind, up, down)
    ensures AllFit(|cs|, up + down)
    ensures WentWorld(w, cs, up + down) == w
            <==> forall i :: 0 <= i < |cs| ==>
                   ComesBack(kind, StatusOf(w, cs[i].name),
                             GoneBeforeDelete(kind, down, i, |cs|), Ever(up + down, i, |cs|))
  {
    BackExactly(w, cs, up + down);
    forall i | 0 <= i < |cs|
      ensures WentCell(CellOf(w, cs[i]), up + down, i, |cs|) == CellOf(w, cs[i])
              <==> ComesBack(kind, StatusOf(w, cs[i].name),
                             GoneBeforeDelete(kind, down, i, |cs|), Ever(up + down, i, |cs|))
    {
      if IsCrun(kind) {
        CrunRoundCell(kind, CellOf(w, cs[i]), up, down, i, |cs|);
      } else {
        CtrdRoundCell(kind, CellOf(w, cs[i]), up, down, i, |cs|);
      }
    }
  }
}
