/**
 What one batch command does to the containers of the machine.

 The machine is two maps: how often an overlay is mounted on a directory, and
 what goes by each container name.  The conditions under which an operation is
 an error are those of the "Operations" section of runtime.md of the OCI Runtime
 Specification; a container's root directory is empty until its overlay is
 mounted, so creating it with crun before that is an error as well.  containerd
 looks up the record of a container before it does anything with its task.
 */
module ContainerWorld {

  /** Killed is a running process that has the signal but has not exited. */
  datatype Life = Absent | Created | Running | Killed | Stopped

  /**
   What goes by one name.  The runtimes do not know of each other: crun has its
   container, containerd has a record of its own and, apart from that, a task.
   */
  datatype Status = Status(crun: Life, record: bool, task: Life)

  const NOTHING := Status(Absent, false, Absent)

  type Depth = n: nat | n > 0 witness 1
  type Present = s: Status | s != NOTHING witness Status(Created, false, Absent)

  datatype World = World(mounts: map<string, Depth>, status: map<string, Present>)

  /** What can be asked for a container of crun, or for a task of containerd. */
  datatype Request = Create | Start | Kill | Delete

  /** The operations of the managers. */
  datatype Op =
    | Mount | Umount
    | Crun(request: Request)
    | Task(request: Request)
    | MakeRecord | DropRecord

  /** Must: the process exits with an error if the operation fails.  Try: it goes on. */
  datatype Instr = Must(op: Op) | Try(op: Op)

  datatype Container = Container(name: string, rootfs: string)

  /** One entry of a configuration: which container, and what its process does. */
  datatype Job = Job(at: Container, program: seq<Instr>)

  /** The part of the machine that belongs to one container. */
  datatype Cell = Cell(mounts: nat, status: Status)

  // ---- the commands ----

  /** command_container of the crun managers; `run` mounts first and ignores that result. */
  function CrunProgram(command: string): seq<Instr> {
    if command == "mount" then [Must(Mount)]
    else if command == "umount" then [Must(Umount)]
    else if command == "create" then [Must(Crun(Create))]
    else if command == "start" then [Must(Crun(Start))]
    else if command == "run" then [Try(Mount), Must(Crun(Create)), Must(Crun(Start))]
    else if command == "kill" then [Must(Crun(Kill))]
    else if command == "delete" then [Must(Crun(Delete))]
    else []
  }

  /** command of the containerd manager: a failed request is logged and the next one is sent. */
  function CtrdProgram(command: string): seq<Instr> {
    if command == "prepare" then [Try(MakeRecord)]
    else if command == "create" then [Try(Task(Create))]
    else if command == "run" then [Try(Task(Create)), Try(Task(Start))]
    else if command == "start" then [Try(Task(Start))]
    else if command == "kill" then [Try(Task(Kill))]
    else if command == "killAndDeleteTask" then [Try(Task(Kill)), Try(Task(Delete))]
    else if command == "killAndDeleteContainer" then [Try(Task(Kill)), Try(Task(Delete)), Try(DropRecord)]
    else []
  }

  // ---- one container ----

  /** ready: what creating needs is there. */
  predicate Allowed(life: Life, request: Request, ready: bool) {
    match request
    case Create => life == Absent && ready
    case Start => life == Created
    case Kill => life == Created || life == Running || life == Killed
    case Delete => life == Stopped
  }

  function Granted(life: Life, request: Request, ready: bool): Life {
    if !Allowed(life, request, ready) then life
    else
      match request
      case Create => Created
      case Start => Running
      case Kill => Killed
      case Delete => Absent
  }

  predicate Possible(c: Cell, op: Op) {
    match op
    case Mount => true
    case Umount => c.mounts > 0
    case Crun(request) => Allowed(c.status.crun, request, c.mounts > 0)
    case Task(request) => c.status.record && Allowed(c.status.task, request, true)
    case MakeRecord => !c.status.record
    case DropRecord => c.status.record
  }

  /** The cell after the operation; one that is not possible changes nothing. */
  function Perform(c: Cell, op: Op): Cell {
    match op
    case Mount => c.(mounts := c.mounts + 1)
    case Umount => if c.mounts > 0 then c.(mounts := c.mounts - 1) else c
    case Crun(request) => c.(status := c.status.(crun := Granted(c.status.crun, request, c.mounts > 0)))
    case Task(request) =>
      if c.status.record then c.(status := c.status.(task := Granted(c.status.task, request, true))) else c
    case MakeRecord => c.(status := c.status.(record := true))
    case DropRecord => c.(status := c.status.(record := false))
  }

  /** Except for killing, an operation is refused exactly if it would change nothing. */
  lemma RefusedChangesNothing(c: Cell, op: Op)
    requires op != Crun(Kill) && op != Task(Kill)
    ensures Possible(c, op) <==> Perform(c, op) != c
  {
  }

  predicate Aborts(c: Cell, i: Instr) { i.Must? && !Possible(c, i.op) }

  // ---- processes that go away by themselves ----

  /** Which of the two processes of a name have exited. */
  datatype Exits = Exits(crun: bool, task: bool)

  const NONE := Exits(false, false)

  function Both(a: Exits, b: Exits): Exits { Exits(a.crun || b.crun, a.task || b.task) }

  function Later(life: Life, gone: bool): Life { if life == Killed && gone then Stopped else life }

  function LaterCell(c: Cell, e: Exits): Cell {
    c.(status := Status(Later(c.status.crun, e.crun), c.status.record, Later(c.status.task, e.task)))
  }

  // ---- cells in the machine ----

  function MountsAt(w: World, dir: string): nat { if dir in w.mounts then w.mounts[dir] else 0 }

  function StatusOf(w: World, name: string): Status { if name in w.status then w.status[name] else NOTHING }

  function CellOf(w: World, at: Container): Cell { Cell(MountsAt(w, at.rootfs), StatusOf(w, at.name)) }

  function WithCell(w: World, at: Container, c: Cell): World {
    World(
      if c.mounts == 0 then w.mounts - {at.rootfs} else w.mounts[at.rootfs := c.mounts],
      if c.status == NOTHING then w.status - {at.name} else w.status[at.name := c.status])
  }

  lemma WithCellReads(w: World, at: Container, c: Cell)
    ensures CellOf(WithCell(w, at, c), at) == c
    ensures forall k: Container :: k.name != at.name && k.rootfs != at.rootfs ==>
              CellOf(WithCell(w, at, c), k) == CellOf(w, k)
    ensures forall dir :: dir != at.rootfs ==> MountsAt(WithCell(w, at, c), dir) == MountsAt(w, dir)
    ensures forall name :: name != at.name ==> StatusOf(WithCell(w, at, c), name) == StatusOf(w, name)
  {
  }

  /** Worlds that look the same are the same. */
  lemma SameWorld(v: World, w: World)
    requires forall dir :: MountsAt(v, dir) == MountsAt(w, dir)
    requires forall name :: StatusOf(v, name) == StatusOf(w, name)
    ensures v == w
  {
    forall dir ensures dir in v.mounts <==> dir in w.mounts {
      assert MountsAt(v, dir) == MountsAt(w, dir);
    }
    forall dir | dir in v.mounts ensures v.mounts[dir] == w.mounts[dir] {
      assert MountsAt(v, dir) == MountsAt(w, dir);
    }
    assert v.mounts == w.mounts;
    forall name ensures name in v.status <==> name in w.status {
      assert StatusOf(v, name) == StatusOf(w, name);
    }
    forall name | name in v.status ensures v.status[name] == w.status[name] {
      assert StatusOf(v, name) == StatusOf(w, name);
    }
    assert v.status == w.status;
  }

  // ---- several containers ----

  predicate Distinct(cs: seq<Container>) {
    forall i, j :: 0 <= i < j < |cs| ==> cs[i].name != cs[j].name && cs[i].rootfs != cs[j].rootfs
  }

  /** Nothing but the listed containers is different. */
  ghost predicate SameElsewhere(w: World, v: World, cs: seq<Container>) {
    && (forall dir :: (forall i :: 0 <= i < |cs| ==> cs[i].rootfs != dir) ==> MountsAt(v, dir) == MountsAt(w, dir))
    && (forall name :: (forall i :: 0 <= i < |cs| ==> cs[i].name != name) ==> StatusOf(v, name) == StatusOf(w, name))
  }

  /** Machines that differ in the listed containers only are the same if these are. */
  lemma SameCells(u: World, v: World, cs: seq<Container>)
    requires SameElsewhere(u, v, cs) && forall i :: 0 <= i < |cs| ==> CellOf(u, cs[i]) == CellOf(v, cs[i])
    ensures u == v
  {
    forall dir ensures MountsAt(u, dir) == MountsAt(v, dir) {
      if i :| 0 <= i < |cs| && cs[i].rootfs == dir { assert CellOf(u, cs[i]) == CellOf(v, cs[i]); }
    }
    forall name ensures StatusOf(u, name) == StatusOf(v, name) {
      if i :| 0 <= i < |cs| && cs[i].name == name { assert CellOf(u, cs[i]) == CellOf(v, cs[i]); }
    }
    SameWorld(u, v);
  }

  lemma ElsewhereTrans(u: World, v: World, w: World, cs: seq<Container>)
    requires SameElsewhere(u, v, cs) && SameElsewhere(v, w, cs)
    ensures SameElsewhere(u, w, cs)
  {
    forall dir | forall i :: 0 <= i < |cs| ==> cs[i].rootfs != dir ensures MountsAt(w, dir) == MountsAt(u, dir) {
      assert MountsAt(v, dir) == MountsAt(u, dir);
    }
    forall name | forall i :: 0 <= i < |cs| ==> cs[i].name != name ensures StatusOf(w, name) == StatusOf(u, name) {
      assert StatusOf(v, name) == StatusOf(u, name);
    }
  }
}
