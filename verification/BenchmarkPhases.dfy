/**
 The benchmark driver: one invocation of the execution manager after the other,
 each awaited before the next (`run`, `run_sequentiell`, `kill`), and what that
 does to each container while killed processes go away at any time.
 */
module BenchmarkPhases {
  import opened ContainerWorld
  import opened CellRuns

  /** The command of a configuration, for a crun manager or for the containerd manager. */
  datatype Command = CrunCommand(name: string) | CtrdCommand(name: string)

  function Program(command: Command): seq<Instr> {
    match command
    case CrunCommand(name) => CrunProgram(name)
    case CtrdCommand(name) => CtrdProgram(name)
  }

  /** What happened in one invocation: from which entry on it was launched, and when processes went away. */
  datatype Went = Went(command: Command, exits: seq<seq<Exits>>, first: nat)

  function Jobs(cs: seq<Container>, command: Command): (jobs: seq<Job>)
    ensures |jobs| == |cs| && forall i :: 0 <= i < |cs| ==> jobs[i] == Job(cs[i], Program(command))
  {
    seq(|cs|, i requires 0 <= i < |cs| => Job(cs[i], Program(command)))
  }

  predicate Fits(n: nat, g: Went) {
    && g.first <= n && |g.exits| == n
    && forall i :: 0 <= i < n ==> FitsProgram(Program(g.command), g.exits[i])
  }

  predicate AllFit(n: nat, past: seq<Went>) { forall k :: 0 <= k < |past| ==> Fits(n, past[k]) }

  // ---- invocations, one container and all containers ----

  function WentWorld(w: World, cs: seq<Container>, past: seq<Went>): World
    requires AllFit(|cs|, past)
  {
    if past == [] then w
    else
      var g := past[|past| - 1];
      RunAll(WentWorld(w, cs, past[..|past| - 1]), Jobs(cs, g.command), g.exits, g.first)
  }

  /** The part of container i. */
  function WentCell(c: Cell, past: seq<Went>, i: nat, n: nat): Cell
    requires i < n && AllFit(n, past)
  {
    if past == [] then c
    else
      var g := past[|past| - 1];
      JobCell(WentCell(c, past[..|past| - 1], i, n), Program(g.command), g.exits[i], g.first <= i)
  }

  lemma OneMore(w: World, cs: seq<Container>, past: seq<Went>, g: Went)
    requires AllFit(|cs|, past) && Fits(|cs|, g)
    ensures AllFit(|cs|, past + [g])
    ensures WentWorld(w, cs, past + [g]) == RunAll(WentWorld(w, cs, past), Jobs(cs, g.command), g.exits, g.first)
  {
    assert (past + [g])[..|past|] == past;
  }

  lemma JobsIndependent(cs: seq<Container>, command: Command)
    requires Distinct(cs)
    ensures Independent(Jobs(cs, command)) && Places(Jobs(cs, command)) == cs
  {
  }

  lemma {:induction false} WentEach(w: World, cs: seq<Container>, past: seq<Went>)
    requires Distinct(cs) && AllFit(|cs|, past)
    ensures SameElsewhere(w, WentWorld(w, cs, past), cs)
    ensures forall i :: 0 <= i < |cs| ==>
              CellOf(WentWorld(w, cs, past), cs[i]) == WentCell(CellOf(w, cs[i]), past, i, |cs|)
  {
    if past != [] {
      var front, g := past[..|past| - 1], past[|past| - 1];
      WentEach(w, cs, front);
      JobsIndependent(cs, g.command);
      RunAllRunsEach(WentWorld(w, cs, front), Jobs(cs, g.command), g.exits, g.first);
      ElsewhereTrans(w, WentWorld(w, cs, front), WentWorld(w, cs, past), cs);
    }
  }

  /** Two histories end in the same machine exactly when they do the same to every container. */
  lemma SameHistories(w: World, cs: seq<Container>, a: seq<Went>, b: seq<Went>)
    requires Distinct(cs) && AllFit(|cs|, a) && AllFit(|cs|, b)
    ensures WentWorld(w, cs, a) == WentWorld(w, cs, b)
            <==> forall i :: 0 <= i < |cs| ==>
                   WentCell(CellOf(w, cs[i]), a, i, |cs|) == WentCell(CellOf(w, cs[i]), b, i, |cs|)
  {
    var u, v := WentWorld(w, cs, a), WentWorld(w, cs, b);
    WentEach(w, cs, a);
    WentEach(w, cs, b);
    if forall i :: 0 <= i < |cs| ==>
         WentCell(CellOf(w, cs[i]), a, i, |cs|) == WentCell(CellOf(w, cs[i]), b, i, |cs|) {
      assert SameElsewhere(u, v, cs);
      SameCells(u, v, cs);
    } else {
      assert exists i :: 0 <= i < |cs| && CellOf(u, cs[i]) != CellOf(v, cs[i]);
    }
  }

  /** A history leads back to where it began exactly when it does so for every container. */
  lemma BackExactly(w: World, cs: seq<Container>, past: seq<Went>)
    requires Distinct(cs) && AllFit(|cs|, past)
    ensures WentWorld(w, cs, past) == w
            <==> forall i :: 0 <= i < |cs| ==> WentCell(CellOf(w, cs[i]), past, i, |cs|) == CellOf(w, cs[i])
  {
    SameHistories(w, cs, past, []);
  }

  // ---- when all entries were launched ----

  ghost predicate Launched(n: nat, past: seq<Went>) {
    AllFit(n, past) && forall k :: 0 <= k < |past| ==> past[k].first == 0
  }

  /** Whether a process of container i went away at any time. */
  function Union(f: seq<Exits>): Exits {
    if f == [] then NONE else Both(Union(f[..|f| - 1]), f[|f| - 1])
  }

  function Ever(past: seq<Went>, i: nat, n: nat): Exits
    requires i < n && AllFit(n, past)
  {
    if past == [] then NONE else Both(Ever(past[..|past| - 1], i, n), Union(past[|past| - 1].exits[i]))
  }

  const MOUNT := CrunCommand("mount")
  const CREATE := CrunCommand("create")
  const START := CrunCommand("start")
  const RUN := CrunCommand("run")
  const KILL := CrunCommand("kill")
  const DELETE := CrunCommand("delete")
  const UMOUNT := CrunCommand("umount")
  const CTRD_CREATE := CtrdCommand("create")
  const CTRD_START := CtrdCommand("start")
  const CTRD_RUN := CtrdCommand("run")
  const CTRD_KILL := CtrdCommand("killAndDeleteTask")

  lemma CrunPrograms()
    ensures Program(MOUNT) == [Must(Mount)] && Program(UMOUNT) == [Must(Umount)]
    ensures Program(CREATE) == [Must(Crun(Create))] && Program(START) == [Must(Crun(Start))]
    ensures Program(KILL) == [Must(Crun(Kill))] && Program(DELETE) == [Must(Crun(Delete))]
    ensures Program(RUN) == [Try(Mount), Must(Crun(Create)), Must(Crun(Start))]
  {
  }

  lemma CtrdPrograms()
    ensures Program(CTRD_CREATE) == [Try(Task(Create))] && Program(CTRD_START) == [Try(Task(Start))]
    ensures Program(CTRD_RUN) == [Try(Task(Create)), Try(Task(Start))]
    ensures Program(CTRD_KILL) == [Try(Task(Kill)), Try(Task(Delete))]
  {
  }

  lemma UnionOne(a: Exits)
    ensures Union([a]) == a
  {
    assert [a][..0] == [];
  }

  lemma UnionTwo(a: Exits, b: Exits)
    ensures Union([a, b]) == Both(a, b)
  {
    UnionOne(a);
    assert [a, b][..1] == [a];
  }

  lemma UnionThree(a: Exits, b: Exits, c: Exits)
    ensures Union([a, b, c]) == Both(Both(a, b), c)
  {
    UnionTwo(a, b);
    assert [a, b, c][..2] == [a, b];
  }

  lemma UnionFour(a: Exits, b: Exits, c: Exits, d: Exits)
    ensures Union([a, b, c, d]) == Both(Both(Both(a, b), c), d)
  {
    UnionThree(a, b, c);
    assert [a, b, c, d][..3] == [a, b, c];
  }

  // ---- one program, with exits ----

  lemma ThroughOne(c: Cell, x: Instr, f: seq<Exits>)
    requires |f| == 2
    ensures Through(c, [x], f) == LaterCell(Perform(LaterCell(c, f[0]), x.op), f[1])
    ensures Union(f) == Both(f[0], f[1])
  {
    assert Reached(c, [x], f, 1) == OpDone(LaterCell(c, f[0]), x, f[1]);
    assert f == [f[0], f[1]];
    UnionTwo(f[0], f[1]);
  }

  lemma ThroughTwo(c: Cell, x: Instr, y: Instr, f: seq<Exits>)
    requires |f| == 3 && x.Try?
    ensures var d := LaterCell(Perform(LaterCell(c, f[0]), x.op), f[1]);
            Through(c, [x, y], f) == LaterCell(Perform(d, y.op), f[2])
    ensures Union(f) == Both(Both(f[0], f[1]), f[2])
  {
    var d := LaterCell(Perform(LaterCell(c, f[0]), x.op), f[1]);
    assert Reached(c, [x, y], f, 1) == Spot(d, false);
    assert Reached(c, [x, y], f, 2) == OpDone(d, y, f[2]);
    assert f == [f[0], f[1], f[2]];
    UnionThree(f[0], f[1], f[2]);
  }

  lemma ThroughThree(c: Cell, x: Instr, y: Instr, z: Instr, f: seq<Exits>)
    requires |f| == 4 && x.Try?
    ensures var d := LaterCell(Perform(LaterCell(c, f[0]), x.op), f[1]);
            var e := LaterCell(Perform(d, y.op), f[2]);
            Through(c, [x, y, z], f) == LaterCell(if Aborts(d, y) then e else Perform(e, z.op), f[3])
    ensures Union(f) == Both(Both(Both(f[0], f[1]), f[2]), f[3])
  {
    var p, d := [x, y, z], LaterCell(Perform(LaterCell(c, f[0]), x.op), f[1]);
    assert Reached(c, p, f, 1) == Spot(d, false);
    assert Reached(c, p, f, 2) == OpDone(d, y, f[2]);
    assert f == [f[0], f[1], f[2], f[3]];
    UnionFour(f[0], f[1], f[2], f[3]);
  }
}
