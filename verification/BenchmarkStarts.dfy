/**
 Starting in phases (mount, create, start, or create, start for containerd) and
 starting in one go: what each does to a container, and when they agree.
 */
module BenchmarkStarts {
  import opened ContainerWorld
  import opened CellRuns
  import opened BenchmarkPhases

  /** All entries of these commands were launched, in this order. */
  ghost predicate IsHistory(n: nat, past: seq<Went>, commands: seq<Command>) {
    && Launched(n, past) && |past| == |commands|
    && forall k :: 0 <= k < |past| ==> past[k].command == commands[k]
  }

  const SEQUENTIAL := [MOUNT, CREATE, START]
  const ONE_SHOT := [RUN]
  const CTRD_SEQUENTIAL := [CTRD_CREATE, CTRD_START]
  const CTRD_ONE_SHOT := [CTRD_RUN]

  // ---- the history of one container ----

  lemma HistoryOne(c: Cell, past: seq<Went>, i: nat, n: nat)
    requires i < n && Launched(n, past) && |past| == 1
    ensures WentCell(c, past, i, n) == Through(c, Program(past[0].command), past[0].exits[i])
    ensures Ever(past, i, n) == Union(past[0].exits[i])
  {
    assert past[..0] == [];
  }

  lemma HistoryTwo(c: Cell, past: seq<Went>, i: nat, n: nat)
    requires i < n && Launched(n, past) && |past| == 2
    ensures var d := Through(c, Program(past[0].command), past[0].exits[i]);
            WentCell(c, past, i, n) == Through(d, Program(past[1].command), past[1].exits[i])
    ensures Ever(past, i, n) == Both(Union(past[0].exits[i]), Union(past[1].exits[i]))
  {
    HistoryOne(c, past[..1], i, n);
  }

  lemma HistoryThree(c: Cell, past: seq<Went>, i: nat, n: nat)
    requires i < n && Launched(n, past) && |past| == 3
    ensures var d := Through(c, Program(past[0].command), past[0].exits[i]);
            var e := Through(d, Program(past[1].command), past[1].exits[i]);
            WentCell(c, past, i, n) == Through(e, Program(past[2].command), past[2].exits[i])
    ensures Ever(past, i, n)
            == Both(Both(Union(past[0].exits[i]), Union(past[1].exits[i])), Union(past[2].exits[i]))
  {
    HistoryTwo(c, past[..2], i, n);
  }

  // ---- one invocation ----

  function LaterStatus(s: Status, e: Exits): Status { Status(Later(s.crun, e.crun), s.record, Later(s.task, e.task)) }

  lemma MountStep(c: Cell, f: seq<Exits>)
    requires |f| == 2
    ensures FitsProgram(Program(MOUNT), f)
    ensures Through(c, Program(MOUNT), f) == Cell(c.mounts + 1, LaterStatus(c.status, Union(f)))
  {
    CrunPrograms();
    ThroughOne(c, Must(Mount), f);
  }

  lemma CreateStep(c: Cell, f: seq<Exits>)
    requires |f| == 2
    ensures FitsProgram(Program(CREATE), f)
    ensures var s := LaterStatus(c.status, Union(f));
            Through(c, Program(CREATE), f)
            == Cell(c.mounts, if c.status.crun == Absent && c.mounts > 0 then s.(crun := Created) else s)
  {
    CrunPrograms();
    ThroughOne(c, Must(Crun(Create)), f);
  }

  lemma StartStep(c: Cell, f: seq<Exits>)
    requires |f| == 2
    ensures FitsProgram(Program(START), f)
    ensures var s := LaterStatus(c.status, Union(f));
            Through(c, Program(START), f)
            == Cell(c.mounts, if c.status.crun == Created then s.(crun := Running) else s)
  {
    CrunPrograms();
    ThroughOne(c, Must(Crun(Start)), f);
  }

  lemma RunStep(c: Cell, f: seq<Exits>)
    requires |f| == 4
    ensures FitsProgram(Program(RUN), f)
    ensures var s := LaterStatus(c.status, Union(f));
            Through(c, Program(RUN), f)
            == Cell(c.mounts + 1, if c.status.crun == Absent then s.(crun := Running) else s)
  {
    CrunPrograms();
    ThroughThree(c, Try(Mount), Must(Crun(Create)), Must(Crun(Start)), f);
  }

  lemma CtrdCreateStep(c: Cell, f: seq<Exits>)
    requires |f| == 2
    ensures FitsProgram(Program(CTRD_CREATE), f)
    ensures var s := LaterStatus(c.status, Union(f));
            Through(c, Program(CTRD_CREATE), f)
            == Cell(c.mounts, if c.status.task == Absent && c.status.record then s.(task := Created) else s)
  {
    CtrdPrograms();
    ThroughOne(c, Try(Task(Create)), f);
  }

  lemma CtrdStartStep(c: Cell, f: seq<Exits>)
    requires |f| == 2
    ensures FitsProgram(Program(CTRD_START), f)
    ensures var s := LaterStatus(c.status, Union(f));
            Through(c, Program(CTRD_START), f)
            == Cell(c.mounts, if c.status.task == Created && c.status.record then s.(task := Running) else s)
  {
    CtrdPrograms();
    ThroughOne(c, Try(Task(Start)), f);
  }

  lemma CtrdRunStep(c: Cell, f: seq<Exits>)
    requires |f| == 3
    ensures FitsProgram(Program(CTRD_RUN), f)
    ensures var s := LaterStatus(c.status, Union(f));
            Through(c, Program(CTRD_RUN), f) == Cell(c.mounts, if TaskStarts(c.status) then s.(task := Running) else s)
  {
    CtrdPrograms();
    ThroughTwo(c, Try(Task(Create)), Try(Task(Start)), f);
  }

  // ---- the two ways to start ----

  predicate CrunStarts(s: Status, phased: bool) { s.crun == Absent || (phased && s.crun == Created) }

  predicate TaskStarts(s: Status) { s.record && (s.task == Absent || s.task == Created) }

  /** What a start of crun leaves of a container, and when it is done in phases of a created one, too. */
  function CrunStarted(s: Status, phased: bool, e: Exits): Status {
    var t := LaterStatus(s, e);
    if CrunStarts(s, phased) then t.(crun := Running) else t
  }

  function TaskStarted(s: Status, e: Exits): Status {
    var t := LaterStatus(s, e);
    if TaskStarts(s) then t.(task := Running) else t
  }

  lemma SequentialCell(c: Cell, past: seq<Went>, i: nat, n: nat)
    requires i < n && IsHistory(n, past, SEQUENTIAL)
    ensures WentCell(c, past, i, n) == Cell(c.mounts + 1, CrunStarted(c.status, true, Ever(past, i, n)))
  {
    CrunPrograms();
    HistoryThree(c, past, i, n);
    var f, g, h := past[0].exits[i], past[1].exits[i], past[2].exits[i];
    MountStep(c, f);
    var d := Cell(c.mounts + 1, LaterStatus(c.status, Union(f)));
    CreateStep(d, g);
    StartStep(Through(d, Program(CREATE), g), h);
    LaterThrice(c.status, Union(f), Union(g), Union(h));
  }

  lemma LaterThrice(s: Status, a: Exits, b: Exits, c: Exits)
    ensures LaterStatus(LaterStatus(LaterStatus(s, a), b), c) == LaterStatus(s, Both(Both(a, b), c))
  {
  }

  lemma OneShotCell(c: Cell, past: seq<Went>, i: nat, n: nat)
    requires i < n && IsHistory(n, past, ONE_SHOT)
    ensures WentCell(c, past, i, n) == Cell(c.mounts + 1, CrunStarted(c.status, false, Ever(past, i, n)))
  {
    CrunPrograms();
    HistoryOne(c, past, i, n);
    RunStep(c, past[0].exits[i]);
  }

  lemma CtrdSequentialCell(c: Cell, past: seq<Went>, i: nat, n: nat)
    requires i < n && IsHistory(n, past, CTRD_SEQUENTIAL)
    ensures WentCell(c, past, i, n) == Cell(c.mounts, TaskStarted(c.status, Ever(past, i, n)))
  {
    CtrdPrograms();
    HistoryTwo(c, past, i, n);
    CtrdCreateStep(c, past[0].exits[i]);
    CtrdStartStep(Through(c, Program(CTRD_CREATE), past[0].exits[i]), past[1].exits[i]);
  }

  lemma CtrdOneShotCell(c: Cell, past: seq<Went>, i: nat, n: nat)
    requires i < n && IsHistory(n, past, CTRD_ONE_SHOT)
    ensures WentCell(c, past, i, n) == Cell(c.mounts, TaskStarted(c.status, Ever(past, i, n)))
  {
    CtrdPrograms();
    HistoryOne(c, past, i, n);
    CtrdRunStep(c, past[0].exits[i]);
  }

  // ---- when the two agree ----

  /** What was left killed goes away in both or in neither. */
  predicate GoAlike(s: Status, a: Exits, b: Exits) {
    (s.crun == Killed ==> a.crun == b.crun) && (s.task == Killed ==> a.task == b.task)
  }

  lemma StartedAlike(s: Status, a: Exits, b: Exits)
    ensures CrunStarted(s, true, a) == CrunStarted(s, false, b) <==> s.crun != Created && GoAlike(s, a, b)
    ensures TaskStarted(s, a) == TaskStarted(s, b) <==> GoAlike(s, a, b)
  {
  }

  /** The phased start and the one-shot start agree unless some container was created before. */
  lemma SequentialEqualsOneShot(w: World, cs: seq<Container>, a: seq<Went>, b: seq<Went>)
    requires Distinct(cs) && IsHistory(|cs|, a, SEQUENTIAL) && IsHistory(|cs|, b, ONE_SHOT)
    ensures WentWorld(w, cs, a) == WentWorld(w, cs, b)
            <==> forall i :: 0 <= i < |cs| ==>
                   var s := StatusOf(w, cs[i].name);
                   s.crun != Created && GoAlike(s, Ever(a, i, |cs|), Ever(b, i, |cs|))
  {
    SameHistories(w, cs, a, b);
    forall i | 0 <= i < |cs|
      ensures WentCell(CellOf(w, cs[i]), a, i, |cs|) == WentCell(CellOf(w, cs[i]), b, i, |cs|)
              <==> var s := StatusOf(w, cs[i].name);
                   s.crun != Created && GoAlike(s, Ever(a, i, |cs|), Ever(b, i, |cs|))
    {
      SequentialCell(CellOf(w, cs[i]), a, i, |cs|);
      OneShotCell(CellOf(w, cs[i]), b, i, |cs|);
      StartedAlike(StatusOf(w, cs[i].name), Ever(a, i, |cs|), Ever(b, i, |cs|));
    }
  }

  /** The containerd manager sends the start request whatever became of the create request. */
  lemma CtrdSequentialEqualsOneShot(w: World, cs: seq<Container>, a: seq<Went>, b: seq<Went>)
    requires Distinct(cs) && IsHistory(|cs|, a, CTRD_SEQUENTIAL) && IsHistory(|cs|, b, CTRD_ONE_SHOT)
    ensures WentWorld(w, cs, a) == WentWorld(w, cs, b)
            <==> forall i :: 0 <= i < |cs| ==>
                   GoAlike(StatusOf(w, cs[i].name), Ever(a, i, |cs|), Ever(b, i, |cs|))
  {
    SameHistories(w, cs, a, b);
    forall i | 0 <= i < |cs|
      ensures WentCell(CellOf(w, cs[i]), a, i, |cs|) == WentCell(CellOf(w, cs[i]), b, i, |cs|)
              <==> GoAlike(StatusOf(w, cs[i].name), Ever(a, i, |cs|), Ever(b, i, |cs|))
    {
      CtrdSequentialCell(CellOf(w, cs[i]), a, i, |cs|);
      CtrdOneShotCell(CellOf(w, cs[i]), b, i, |cs|);
      StartedAlike(StatusOf(w, cs[i].name), Ever(a, i, |cs|), Ever(b, i, |cs|));
    }
  }

  // ---- what is up after a start ----

  ghost predicate AllUp(w: World, cs: seq<Container>) {
    forall i :: 0 <= i < |cs| ==> StatusOf(w, cs[i].name).crun == Running
  }

  ghost predicate AllTasksUp(w: World, cs: seq<Container>) {
    forall i :: 0 <= i < |cs| ==> StatusOf(w, cs[i].name).task == Running
  }

  /** Which containers a start of crun brings up, whatever containerd has under their names. */
  lemma StartsExactly(w: World, cs: seq<Container>, past: seq<Went>)
    requires Distinct(cs) && (IsHistory(|cs|, past, SEQUENTIAL) || IsHistory(|cs|, past, ONE_SHOT))
    ensures AllUp(WentWorld(w, cs, past), cs)
            <==> forall i :: 0 <= i < |cs| ==>
                   var crun := StatusOf(w, cs[i].name).crun;
                   crun == Absent || crun == Running || (crun == Created && |past| == 3)
  {
    WentEach(w, cs, past);
    forall i | 0 <= i < |cs|
      ensures var crun := StatusOf(w, cs[i].name).crun;
              CellOf(WentWorld(w, cs, past), cs[i]).status.crun == Running
              <==> crun == Absent || crun == Running || (crun == Created && |past| == 3)
    {
      if |past| == 3 {
        SequentialCell(CellOf(w, cs[i]), past, i, |cs|);
      } else {
        OneShotCell(CellOf(w, cs[i]), past, i, |cs|);
      }
    }
  }

  /** The same for containerd, whatever crun has. */
  lemma CtrdStartsExactly(w: World, cs: seq<Container>, past: seq<Went>)
    requires Distinct(cs) && (IsHistory(|cs|, past, CTRD_SEQUENTIAL) || IsHistory(|cs|, past, CTRD_ONE_SHOT))
    ensures AllTasksUp(WentWorld(w, cs, past), cs)
            <==> forall i :: 0 <= i < |cs| ==>
                   var s := StatusOf(w, cs[i].name); s.task == Running || TaskStarts(s)
  {
    WentEach(w, cs, past);
    forall i | 0 <= i < |cs|
      ensures var s := StatusOf(w, cs[i].name);
              CellOf(WentWorld(w, cs, past), cs[i]).status.task == Running <==> s.task == Running || TaskStarts(s)
    {
      if |past| == 2 {
        CtrdSequentialCell(CellOf(w, cs[i]), past, i, |cs|);
      } else {
        CtrdOneShotCell(CellOf(w, cs[i]), past, i, |cs|);
      }
    }
  }
}
