/**
 What every interleaving of one batch keeps, and what that makes of a whole
 batch: each launched entry is executed exactly once, by one child, the others
 not at all, and the containers end up as if the entries had run one by one.
 */
module LauncherProofs {
  import opened ContainerWorld
  import opened CellRuns
  import opened Launcher

  /** How far entry i has come. */
  datatype Stage = Unborn | Fresh | Busy(todo: seq<Instr>) | Done

  function Pid(c: Config, s: State, i: int): int
    requires c.main in s.procs && 0 <= i < |s.procs[c.main].pids|
  {
    s.procs[c.main].pids[i]
  }

  function StageOf(c: Config, s: State, i: int): Stage
    requires c.main in s.procs && 0 <= i < |s.procs[c.main].pids|
  {
    var q := Pid(c, s, i);
    if q <= 0 then Unborn
    else if q !in s.procs then Done
    else
      match s.procs[q].pc
      case Forked(_, _) => Fresh
      case Working(_, todo) => Busy(todo)
      case _ => Done
  }

  /** What entry i still has to do. */
  function Left(c: Config, s: State, i: int): seq<Instr>
    requires c.main in s.procs && 0 <= i < |c.jobs| == |s.procs[c.main].pids|
  {
    match StageOf(c, s, i)
    case Unborn | Fresh => c.jobs[i].program
    case Busy(todo) => todo
    case Done => []
  }

  /** Every process but main is a child of main, made for one entry; it never is in fork_rec. */
  ghost predicate TableInv(c: Config, s: State) {
    && c.main > 0 && c.main in s.procs
    && var m := s.procs[c.main];
    && m.parent != c.main && |m.pids| == |c.jobs|
    && (forall i :: 0 <= i < |m.pids| ==> m.pids[i] != c.main)
    && (forall i, j :: 0 <= i < j < |m.pids| && m.pids[i] > 0 ==> m.pids[i] != m.pids[j])
    && (m.pc.Forking? || m.pc.Forked? ==> forall i :: 0 <= i < |m.pids| && m.pids[i] > 0 ==> m.pids[i] in s.procs)
    && (forall q :: q in s.procs && q != c.main ==> ChildInv(c, s.procs[q], m.pids, q))
    && (m.pc.Ended? && !c.native ==> s.procs.Keys == {c.main})
  }

  ghost predicate ChildInv(c: Config, p: Proc, pids: seq<int>, q: int) {
    && p.parent == c.main
    && (p.pc.Working? || p.pc.Ended? || (p.pc.Forked? && p.pc.ret == 0))
    && 0 <= p.pc.n < |pids| && pids[p.pc.n] == q && q > 0
  }

  /** Which entries of main's array are written. */
  ghost predicate ForkInv(c: Config, m: Proc) {
    match m.pc
    case Forking(n) =>
      && -1 <= n < |m.pids|
      && (forall i :: 0 <= i <= n ==> m.pids[i] == 0)
      && (forall i :: n < i < |m.pids| ==> m.pids[i] > 0)
    case Forked(n, ret) =>
      && 0 <= n < |m.pids| && ret != 0 && m.pids[n] == ret && ret >= -1
      && (forall i :: 0 <= i < n ==> m.pids[i] == 0)
      && (forall i :: n < i < |m.pids| ==> m.pids[i] > 0)
    case Working(_, _) => false
    case _ =>
      && (m.pc.Waiting? ==> !c.native)
      && (forall i, j :: 0 <= i < j < |m.pids| && m.pids[i] != 0 ==> m.pids[j] > 0)
      && ((forall i :: 0 <= i < |m.pids| ==> m.pids[i] > 0) || -1 in m.pids)
  }

  predicate Begun(g: Stage) { g.Busy? || g.Done? }

  ghost predicate LogInv(c: Config, s: State)
    requires TableInv(c, s)
  {
    && (forall i :: 0 <= i < |c.jobs| ==>
          multiset(s.log)[Begin(c.batch, i)] == if Begun(StageOf(c, s, i)) then 1 else 0)
    && (forall i :: 0 <= i < |c.jobs| ==>
          multiset(s.log)[End(c.batch, i)] == if StageOf(c, s, i).Done? then 1 else 0)
    && (forall e :: e in s.log && e.batch == c.batch ==> 0 <= e.n < |c.jobs|)
  }

  ghost predicate WorldInv(c: Config, s: State, w0: World)
    requires TableInv(c, s)
  {
    && |s.tracks| == |c.jobs|
    && (forall i :: 0 <= i < |c.jobs| ==> EntryInv(c, s, w0, i))
    && SameElsewhere(w0, s.world, Places(c.jobs))
  }

  ghost predicate EntryInv(c: Config, s: State, w0: World, i: int)
    requires TableInv(c, s) && 0 <= i < |c.jobs| == |s.tracks|
  {
    var job := c.jobs[i];
    Tracked(CellOf(w0, job.at), job.program, s.tracks[i], CellOf(s.world, job.at), Left(c, s, i))
  }

  ghost predicate Inv(c: Config, s: State, w0: World) {
    TableInv(c, s) && ForkInv(c, s.procs[c.main]) && LogInv(c, s) && WorldInv(c, s, w0)
  }

  /** A batch starts with no event of its own in the log. */
  predicate FreshLog(c: Config, log: seq<Event>) { forall e :: e in log ==> e.batch != c.batch }

  lemma LaunchInv(c: Config, w: World, log: seq<Event>)
    requires c.main > 0 && FreshLog(c, log)
    ensures Inv(c, Launch(c, w, log), w)
  {
    var s := Launch(c, w, log);
    forall i | 0 <= i < |c.jobs|
      ensures multiset(log)[Begin(c.batch, i)] == 0 && multiset(log)[End(c.batch, i)] == 0
    {
      assert Begin(c.batch, i) !in log && End(c.batch, i) !in log;
    }
    LaunchWorld(c, w, log);
  }

  lemma LaunchWorld(c: Config, w: World, log: seq<Event>)
    requires TableInv(c, Launch(c, w, log))
    ensures WorldInv(c, Launch(c, w, log), w)
  {
    var s := Launch(c, w, log);
    forall i | 0 <= i < |c.jobs| ensures EntryInv(c, s, w, i) {
      assert Left(c, s, i) == c.jobs[i].program;
      TrackedStart(CellOf(w, c.jobs[i].at), c.jobs[i].program);
    }
  }

  // ---- main's steps ----

  lemma OnlyMainForksOrWaits(c: Config, s: State, a: Action)
    requires TableInv(c, s) && Enabled(c, s, a) && !a.Go? && !a.Vanish?
    ensures a.pid == c.main && (a.Reap? ==> a.child != c.main)
  {
    assert a.pid != c.main ==> ChildInv(c, s.procs[a.pid], s.procs[c.main].pids, a.pid);
  }

  lemma ForkKeepsTable(c: Config, s: State, child: int)
    requires TableInv(c, s) && ForkInv(c, s.procs[c.main])
    requires AtFork(c, s.procs[c.main]) && child > 0 && child !in s.procs
    ensures TableInv(c, ForkApply(s, c.main, child))
  {
    var m, s' := s.procs[c.main], ForkApply(s, c.main, child);
    var m' := s'.procs[c.main];
    assert forall i :: 0 <= i < |m.pids| && m.pids[i] > 0 ==> m.pids[i] in s.procs && m.pids[i] != child;
    forall q | q in s'.procs && q != c.main ensures ChildInv(c, s'.procs[q], m'.pids, q) {
      assert q != child ==> ChildInv(c, s.procs[q], m.pids, q);
    }
  }

  lemma ForkKeepsStages(c: Config, s: State, child: int)
    requires TableInv(c, s) && ForkInv(c, s.procs[c.main])
    requires AtFork(c, s.procs[c.main]) && child > 0 && child !in s.procs
    ensures TableInv(c, ForkApply(s, c.main, child)) && ForkInv(c, ForkApply(s, c.main, child).procs[c.main])
    ensures var s', n := ForkApply(s, c.main, child), s.procs[c.main].pc.n;
            && StageOf(c, s, n) == Unborn && StageOf(c, s', n) == Fresh
            && forall i :: 0 <= i < |c.jobs| && i != n ==> StageOf(c, s', i) == StageOf(c, s, i)
  {
    ForkKeepsTable(c, s, child);
    var m := s.procs[c.main];
    assert forall i :: 0 <= i < |m.pids| && m.pids[i] > 0 ==> m.pids[i] in s.procs && m.pids[i] != child;
  }

  lemma ForkKeepsInv(c: Config, s: State, a: Action, w0: World)
    requires Inv(c, s, w0) && Enabled(c, s, a) && a.Fork?
    ensures Inv(c, Apply(c, s, a), w0)
  {
    OnlyMainForksOrWaits(c, s, a);
    ForkKeepsStages(c, s, a.child);
    SameProgress(c, s, Apply(c, s, a));
  }

  lemma ForkFailsKeepsTable(c: Config, s: State)
    requires TableInv(c, s) && ForkInv(c, s.procs[c.main]) && Enabled(c, s, ForkFails(c.main))
    ensures TableInv(c, Apply(c, s, ForkFails(c.main))) && ForkInv(c, Apply(c, s, ForkFails(c.main)).procs[c.main])
  {
    var m, s' := s.procs[c.main], Apply(c, s, ForkFails(c.main));
    assert s'.procs == s.procs[c.main := s'.procs[c.main]];
    forall q | q in s.procs && q != c.main ensures ChildInv(c, s'.procs[q], s'.procs[c.main].pids, q) {
      assert ChildInv(c, s.procs[q], m.pids, q);
    }
  }

  lemma ForkFailsKeepsInv(c: Config, s: State, a: Action, w0: World)
    requires Inv(c, s, w0) && Enabled(c, s, a) && a.ForkFails?
    ensures Inv(c, Apply(c, s, a), w0)
  {
    OnlyMainForksOrWaits(c, s, a);
    ForkFailsKeepsTable(c, s);
    SameProgress(c, s, Apply(c, s, a));
  }

  lemma ReapKeepsInv(c: Config, s: State, a: Action, w0: World)
    requires Inv(c, s, w0) && Enabled(c, s, a) && a.Reap?
    ensures Inv(c, Apply(c, s, a), w0)
  {
    var s' := Apply(c, s, a);
    OnlyMainForksOrWaits(c, s, a);
    assert TableInv(c, s');
    SameProgress(c, s, s');
  }

  lemma MainKeepsTable(c: Config, s: State)
    requires TableInv(c, s) && ForkInv(c, s.procs[c.main]) && Enabled(c, s, Go(c.main))
    ensures TableInv(c, GoApply(c, s, c.main))
  {
    var m, s' := s.procs[c.main], GoApply(c, s, c.main);
    assert s'.procs == s.procs[c.main := s'.procs[c.main]];
    forall q | q in s.procs && q != c.main ensures ChildInv(c, s'.procs[q], s'.procs[c.main].pids, q) {
      assert ChildInv(c, s.procs[q], m.pids, q);
    }
  }

  lemma MainKeepsForks(c: Config, s: State)
    requires TableInv(c, s) && ForkInv(c, s.procs[c.main]) && Enabled(c, s, Go(c.main))
    ensures ForkInv(c, GoApply(c, s, c.main).procs[c.main])
  {
  }

  lemma MainKeepsInv(c: Config, s: State, w0: World)
    requires Inv(c, s, w0) && Enabled(c, s, Go(c.main))
    ensures Inv(c, Apply(c, s, Go(c.main)), w0)
  {
    var s' := GoApply(c, s, c.main);
    MainKeepsTable(c, s);
    MainKeepsForks(c, s);
    SameProgress(c, s, s');
  }

  /** Steps that neither write the log nor touch a container, and begin or end no entry. */
  lemma SameProgress(c: Config, s: State, s': State)
    requires TableInv(c, s) && TableInv(c, s') && s'.log == s.log && s'.world == s.world && s'.tracks == s.tracks
    requires forall i :: 0 <= i < |c.jobs| ==>
               StageOf(c, s', i) == StageOf(c, s, i) || (StageOf(c, s, i) == Unborn && StageOf(c, s', i) == Fresh)
    ensures LogInv(c, s) ==> LogInv(c, s')
    ensures forall w0 :: WorldInv(c, s, w0) ==> WorldInv(c, s', w0)
  {
    SameLog(c, s, s');
    forall w0 | WorldInv(c, s, w0) ensures WorldInv(c, s', w0) {
      forall i | 0 <= i < |c.jobs| ensures EntryInv(c, s', w0, i) {
        assert EntryInv(c, s, w0, i) && Left(c, s', i) == Left(c, s, i);
      }
    }
  }

  lemma SameLog(c: Config, s: State, s': State)
    requires TableInv(c, s) && TableInv(c, s') && s'.log == s.log
    requires forall i :: 0 <= i < |c.jobs| ==> Begun(StageOf(c, s', i)) == Begun(StageOf(c, s, i))
    requires forall i :: 0 <= i < |c.jobs| ==> StageOf(c, s', i).Done? == StageOf(c, s, i).Done?
    ensures LogInv(c, s) ==> LogInv(c, s')
  {
  }

  // ---- processes of containers that go away ----

  /** One process going away changes one container, and its track. */
  lemma VanishElsewhere(c: Config, s: State, i: int, e: Exits)
    requires Independent(c.jobs) && 0 <= i < |c.jobs| == |s.tracks| && s.tracks[i].done < |s.tracks[i].exits|
    ensures var s', at := VanishApply(c, s, i, e), c.jobs[i].at;
            && s'.procs == s.procs && s'.log == s.log
            && CellOf(s'.world, at) == LaterCell(CellOf(s.world, at), e)
            && (forall j :: 0 <= j < |c.jobs| && j != i ==>
                  CellOf(s'.world, c.jobs[j].at) == CellOf(s.world, c.jobs[j].at))
            && SameElsewhere(s.world, s'.world, Places(c.jobs))
  {
    WithCellReads(s.world, c.jobs[i].at, LaterCell(CellOf(s.world, c.jobs[i].at), e));
    assert Places(c.jobs)[i] == c.jobs[i].at;
  }

  lemma VanishKeepsTable(c: Config, s: State, i: int, e: Exits)
    requires TableInv(c, s) && 0 <= i < |c.jobs| == |s.tracks| && s.tracks[i].done < |s.tracks[i].exits|
    ensures var s' := VanishApply(c, s, i, e);
            && TableInv(c, s') && |s'.tracks| == |c.jobs|
            && forall j :: 0 <= j < |c.jobs| ==> Left(c, s', j) == Left(c, s, j)
  {
    var s' := VanishApply(c, s, i, e);
    assert s'.procs == s.procs;
    forall j | 0 <= j < |c.jobs| ensures Left(c, s', j) == Left(c, s, j) {
      assert StageOf(c, s', j) == StageOf(c, s, j);
    }
  }

  lemma VanishKeepsEntry(c: Config, s: State, i: int, e: Exits, w0: World, j: int)
    requires Independent(c.jobs) && TableInv(c, s) && WorldInv(c, s, w0) && 0 <= i < |c.jobs| && 0 <= j < |c.jobs|
    requires s.tracks[i].done < |s.tracks[i].exits|
    ensures var s' := VanishApply(c, s, i, e); TableInv(c, s') && |s'.tracks| == |c.jobs| && EntryInv(c, s', w0, j)
  {
    VanishKeepsTable(c, s, i, e);
    VanishElsewhere(c, s, i, e);
    assert EntryInv(c, s, w0, j);
    if j == i {
      var at := c.jobs[i].at;
      TrackedVanish(CellOf(w0, at), c.jobs[i].program, s.tracks[i], CellOf(s.world, at), Left(c, s, i), e);
    }
  }

  lemma VanishKeepsWorld(c: Config, s: State, i: int, e: Exits, w0: World)
    requires Independent(c.jobs) && TableInv(c, s) && WorldInv(c, s, w0) && 0 <= i < |c.jobs|
    requires s.tracks[i].done < |s.tracks[i].exits|
    ensures TableInv(c, VanishApply(c, s, i, e)) && WorldInv(c, VanishApply(c, s, i, e), w0)
  {
    var s' := VanishApply(c, s, i, e);
    VanishKeepsTable(c, s, i, e);
    VanishElsewhere(c, s, i, e);
    forall j | 0 <= j < |c.jobs| ensures EntryInv(c, s', w0, j) {
      VanishKeepsEntry(c, s, i, e, w0, j);
    }
    ElsewhereTrans(w0, s.world, s'.world, Places(c.jobs));
  }

  lemma VanishKeepsLog(c: Config, s: State, i: int, e: Exits)
    requires TableInv(c, s) && LogInv(c, s) && 0 <= i < |c.jobs| == |s.tracks| && s.tracks[i].done < |s.tracks[i].exits|
    ensures TableInv(c, VanishApply(c, s, i, e)) && LogInv(c, VanishApply(c, s, i, e))
  {
    var s' := VanishApply(c, s, i, e);
    assert s'.procs == s.procs;
    forall j | 0 <= j < |c.jobs| ensures StageOf(c, s', j) == StageOf(c, s, j) {
    }
    SameLog(c, s, s');
  }

  lemma VanishKeepsInv(c: Config, s: State, i: int, task: bool, w0: World)
    requires Independent(c.jobs) && Inv(c, s, w0) && Enabled(c, s, Vanish(i, task))
    ensures Inv(c, VanishApply(c, s, i, ExitOf(task)), w0)
  {
    VanishKeepsLog(c, s, i, ExitOf(task));
    VanishKeepsWorld(c, s, i, ExitOf(task), w0);
  }

  // ---- a child's steps ----

  lemma ChildMoves(c: Config, s: State, pid: int)
    requires TableInv(c, s) && Enabled(c, s, Go(pid)) && pid != c.main
    ensures var s', p := GoApply(c, s, pid), s.procs[pid];
            && ChildInv(c, p, s.procs[c.main].pids, pid)
            && pid in s'.procs && s'.procs == s.procs[pid := s'.procs[pid]]
            && var p' := s'.procs[pid];
            && p'.parent == p.parent && p'.pc.n == p.pc.n && (p'.pc.Working? || p'.pc.Ended?)
  {
    assert ChildInv(c, s.procs[pid], s.procs[c.main].pids, pid);
  }

  lemma ChildStages(c: Config, s: State, pid: int)
    requires TableInv(c, s) && Enabled(c, s, Go(pid)) && pid != c.main
    ensures var s', n := GoApply(c, s, pid), s.procs[pid].pc.n;
            && TableInv(c, s') && s'.procs[c.main] == s.procs[c.main]
            && 0 <= n < |c.jobs| && Pid(c, s, n) == pid
            && (forall i :: 0 <= i < |c.jobs| && i != n ==> StageOf(c, s', i) == StageOf(c, s, i))
  {
    ChildMoves(c, s, pid);
    var s', m := GoApply(c, s, pid), s.procs[c.main];
    forall q | q in s'.procs && q != c.main ensures ChildInv(c, s'.procs[q], m.pids, q) {
      assert ChildInv(c, s.procs[q], m.pids, q);
    }
  }

  lemma ChildLogs(c: Config, s: State, pid: int)
    requires TableInv(c, s) && Enabled(c, s, Go(pid)) && pid != c.main
    ensures TableInv(c, GoApply(c, s, pid)) && 0 <= s.procs[pid].pc.n < |c.jobs|
    ensures var s', n := GoApply(c, s, pid), s.procs[pid].pc.n;
            var before, after := StageOf(c, s, n), StageOf(c, s', n);
            || (before == Fresh && after.Busy? && s'.log == s.log + [Begin(c.batch, n)])
            || (before.Busy? && after.Done? && s'.log == s.log + [End(c.batch, n)])
            || (before.Busy? && after.Busy? && s'.log == s.log)
  {
    ChildStages(c, s, pid);
  }

  lemma ChildKeepsLog(c: Config, s: State, pid: int)
    requires TableInv(c, s) && LogInv(c, s) && Enabled(c, s, Go(pid)) && pid != c.main
    ensures TableInv(c, GoApply(c, s, pid)) && LogInv(c, GoApply(c, s, pid))
  {
    ChildStages(c, s, pid);
    ChildLogs(c, s, pid);
    LogFollows(c, s, GoApply(c, s, pid), s.procs[pid].pc.n);
  }

  lemma LogFollows(c: Config, s: State, s': State, n: int)
    requires TableInv(c, s) && TableInv(c, s') && LogInv(c, s) && 0 <= n < |c.jobs|
    requires forall i :: 0 <= i < |c.jobs| && i != n ==> StageOf(c, s', i) == StageOf(c, s, i)
    requires var before, after := StageOf(c, s, n), StageOf(c, s', n);
             || (before == Fresh && after.Busy? && s'.log == s.log + [Begin(c.batch, n)])
             || (before.Busy? && after.Done? && s'.log == s.log + [End(c.batch, n)])
             || (before.Busy? && after.Busy? && s'.log == s.log)
    ensures LogInv(c, s')
  {
    if s'.log != s.log {
      var e := s'.log[|s.log|];
      assert s'.log == s.log + [e];
      assert multiset(s'.log) == multiset(s.log) + multiset{e};
    }
  }

  /** One operation changes one container, and its track. */
  lemma WorkElsewhere(c: Config, s: State, pid: int, n: int, todo: seq<Instr>)
    requires Independent(c.jobs) && pid in s.procs && 0 <= n < |c.jobs| == |s.tracks| && todo != []
    ensures var s', cell := WorkApply(c, s, pid, n, todo), CellOf(s.world, c.jobs[n].at);
            && CellOf(s'.world, c.jobs[n].at) == Perform(cell, todo[0].op)
            && s'.tracks == s.tracks[n := Did(s.tracks[n], c.jobs[n].program, Aborts(cell, todo[0]))]
            && (forall i :: 0 <= i < |c.jobs| && i != n ==>
                  CellOf(s'.world, c.jobs[i].at) == CellOf(s.world, c.jobs[i].at))
            && SameElsewhere(s.world, s'.world, Places(c.jobs))
  {
    WithCellReads(s.world, c.jobs[n].at, Perform(CellOf(s.world, c.jobs[n].at), todo[0].op));
    assert Places(c.jobs)[n] == c.jobs[n].at;
  }

  lemma WorkLeft(c: Config, s: State, pid: int, n: int, todo: seq<Instr>)
    requires TableInv(c, s) && Enabled(c, s, Go(pid)) && pid != c.main
    requires s.procs[pid].pc == Working(n, todo) && todo != []
    ensures TableInv(c, GoApply(c, s, pid)) && 0 <= n < |c.jobs| && Left(c, s, n) == todo
    ensures Left(c, GoApply(c, s, pid), n)
            == if Aborts(CellOf(s.world, c.jobs[n].at), todo[0]) then [] else todo[1..]
  {
    ChildStages(c, s, pid);
  }

  lemma WorkKeepsWorld(c: Config, s: State, pid: int, n: int, todo: seq<Instr>, w0: World)
    requires Independent(c.jobs) && TableInv(c, s) && WorldInv(c, s, w0) && Enabled(c, s, Go(pid)) && pid != c.main
    requires s.procs[pid].pc == Working(n, todo) && todo != []
    ensures TableInv(c, GoApply(c, s, pid)) && WorldInv(c, GoApply(c, s, pid), w0)
  {
    var s' := GoApply(c, s, pid);
    ChildStages(c, s, pid);
    WorkElsewhere(c, s, pid, n, todo);
    WorkLeft(c, s, pid, n, todo);
    forall i | 0 <= i < |c.jobs| ensures EntryInv(c, s', w0, i) {
      assert EntryInv(c, s, w0, i);
      if i == n {
        TrackedOp(CellOf(w0, c.jobs[n].at), c.jobs[n].program, s.tracks[n], CellOf(s.world, c.jobs[n].at), todo);
      }
    }
    ElsewhereTrans(w0, s.world, s'.world, Places(c.jobs));
  }

  lemma ChildKeepsWorld(c: Config, s: State, pid: int, w0: World)
    requires Independent(c.jobs) && TableInv(c, s) && WorldInv(c, s, w0) && Enabled(c, s, Go(pid)) && pid != c.main
    ensures TableInv(c, GoApply(c, s, pid)) && WorldInv(c, GoApply(c, s, pid), w0)
  {
    var s', p := GoApply(c, s, pid), s.procs[pid];
    if p.pc.Working? && p.pc.todo != [] {
      WorkKeepsWorld(c, s, pid, p.pc.n, p.pc.todo, w0);
    } else {
      ChildStages(c, s, pid);
      forall i | 0 <= i < |c.jobs| ensures EntryInv(c, s', w0, i) {
        assert EntryInv(c, s, w0, i) && Left(c, s', i) == Left(c, s, i);
      }
    }
  }

  // ---- all steps, all runs ----

  lemma StepKeepsInv(c: Config, s: State, a: Action, w0: World)
    requires Independent(c.jobs) && Inv(c, s, w0) && Enabled(c, s, a)
    ensures Inv(c, Apply(c, s, a), w0)
  {
    match a
    case Fork(_, _) => ForkKeepsInv(c, s, a, w0);
    case ForkFails(_) => ForkFailsKeepsInv(c, s, a, w0);
    case Reap(_, _) => ReapKeepsInv(c, s, a, w0);
    case Vanish(i, task) => VanishKeepsInv(c, s, i, task, w0);
    case Go(pid) =>
      if pid == c.main {
        MainKeepsInv(c, s, w0);
      } else {
        ChildStages(c, s, pid);
        ChildKeepsLog(c, s, pid);
        ChildKeepsWorld(c, s, pid, w0);
      }
  }

  lemma {:induction false} RunKeepsInv(c: Config, s: State, schedule: seq<Action>, w0: World)
    requires Independent(c.jobs) && Inv(c, s, w0) && Valid(c, s, schedule)
    ensures Inv(c, Run(c, s, schedule), w0)
    decreases |schedule|
  {
    if schedule != [] {
      StepKeepsInv(c, s, schedule[0], w0);
      RunKeepsInv(c, Apply(c, s, schedule[0]), schedule[1..], w0);
    }
  }

  // ---- a finished batch ----

  /** The state after some interleaving of a whole invocation, from world w and log. */
  ghost predicate Reaches(c: Config, w: World, log: seq<Event>, s: State) {
    exists schedule :: Valid(c, Launch(c, w, log), schedule) && Run(c, Launch(c, w, log), schedule) == s
  }

  lemma ReachesInv(c: Config, w: World, log: seq<Event>, s: State)
    requires c.main > 0 && FreshLog(c, log) && Independent(c.jobs) && Reaches(c, w, log, s)
    ensures Inv(c, s, w)
  {
    var schedule :| Valid(c, Launch(c, w, log), schedule) && Run(c, Launch(c, w, log), schedule) == s;
    LaunchInv(c, w, log);
    RunKeepsInv(c, Launch(c, w, log), schedule, w);
  }

  /** The first entry that has a child. */
  function FirstLaunched(pids: seq<int>): (k: nat)
    ensures k <= |pids| && (forall i :: 0 <= i < k ==> pids[i] <= 0) && (k < |pids| ==> pids[k] > 0)
  {
    if pids == [] || pids[0] > 0 then 0 else 1 + FirstLaunched(pids[1..])
  }

  /** All later ones have one, too; the one before is the one whose fork failed, and no earlier one was tried. */
  predicate IsSuffix(pids: seq<int>, k: nat) {
    && k <= |pids|
    && (forall i :: 0 <= i < |pids| ==> (pids[i] > 0 <==> k <= i))
    && (k > 0 <==> -1 in pids)
    && forall i :: 0 <= i < k ==> pids[i] == if i == k - 1 then -1 else 0
  }

  lemma LaunchedSuffix(pids: seq<int>)
    requires forall i, j :: 0 <= i < j < |pids| && pids[i] != 0 ==> pids[j] > 0
    requires (forall i :: 0 <= i < |pids| ==> pids[i] > 0) || -1 in pids
    ensures IsSuffix(pids, FirstLaunched(pids))
  {
    var k := FirstLaunched(pids);
    if k > 0 {
      var m :| 0 <= m < |pids| && pids[m] == -1;
      assert m == k - 1;
    }
  }

  /** main has exited; a native main exits first, so its children must have ended as well. */
  ghost predicate IsOver(c: Config, s: State) {
    && c.main in s.procs && s.procs[c.main].pc.Ended?
    && (c.native ==> forall q :: q in s.procs ==> s.procs[q].pc.Ended?)
  }

  lemma FinalStages(c: Config, s: State, w0: World) returns (k: nat)
    requires Inv(c, s, w0) && IsOver(c, s)
    ensures k == FirstLaunched(s.procs[c.main].pids) && IsSuffix(s.procs[c.main].pids, k)
    ensures k <= |c.jobs| && (!c.native ==> s.procs.Keys == {c.main})
    ensures forall i :: 0 <= i < |c.jobs| ==> StageOf(c, s, i) == if k <= i then Done else Unborn
  {
    var pids := s.procs[c.main].pids;
    LaunchedSuffix(pids);
    k := FirstLaunched(pids);
    forall i | 0 <= i < |c.jobs| ensures StageOf(c, s, i) == if k <= i then Done else Unborn {
      assert pids[i] > 0 <==> k <= i;
    }
  }

  function ExitsOf(tracks: seq<Track>): (exits: seq<seq<Exits>>)
    ensures |exits| == |tracks| && forall i :: 0 <= i < |exits| ==> exits[i] == tracks[i].exits
  {
    seq(|tracks|, i requires 0 <= i < |tracks| => tracks[i].exits)
  }

  lemma FinalWorld(c: Config, s: State, w0: World, k: nat)
    requires TableInv(c, s) && WorldInv(c, s, w0) && k <= |c.jobs|
    requires forall i :: 0 <= i < |c.jobs| ==> StageOf(c, s, i) == if k <= i then Done else Unborn
    ensures FitsJobs(c.jobs, ExitsOf(s.tracks)) && EachRan(w0, s.world, c.jobs, ExitsOf(s.tracks), k)
  {
    forall i | 0 <= i < |c.jobs|
      ensures FitsProgram(c.jobs[i].program, s.tracks[i].exits)
      ensures CellOf(s.world, c.jobs[i].at)
              == JobCell(CellOf(w0, c.jobs[i].at), c.jobs[i].program, s.tracks[i].exits, k <= i)
    {
      var p, c0, c1 := c.jobs[i].program, CellOf(w0, c.jobs[i].at), CellOf(s.world, c.jobs[i].at);
      assert EntryInv(c, s, w0, i);
      if k <= i {
        assert Left(c, s, i) == [];
        TrackedEnd(c0, p, s.tracks[i], c1);
      } else {
        assert Left(c, s, i) == p;
        TrackedUnbegun(c0, p, s.tracks[i], c1);
      }
    }
  }

  /**
   When main has left its wait loop, or all native processes have ended: the
   entries from some k on were executed once and are over, the others not at
   all; k is 0 unless a fork failed, which then was the one for entry k - 1, the
   last that was tried; and the machine is as after running exactly those
   entries one by one, with the same processes going away at the same places of
   the programs.
   */
  lemma BatchResult(c: Config, w: World, log: seq<Event>, s: State) returns (k: nat)
    requires c.main > 0 && FreshLog(c, log) && Independent(c.jobs) && Reaches(c, w, log, s)
    requires IsOver(c, s)
    ensures k <= |c.jobs| && (!c.native ==> s.procs.Keys == {c.main})
    ensures forall i :: 0 <= i < |c.jobs| ==>
              multiset(s.log)[Begin(c.batch, i)] == multiset(s.log)[End(c.batch, i)] == if k <= i then 1 else 0
    ensures forall e :: e in s.log && e.batch == c.batch ==> k <= e.n < |c.jobs|
    ensures k == FirstLaunched(s.procs[c.main].pids) && IsSuffix(s.procs[c.main].pids, k)
    ensures FitsJobs(c.jobs, ExitsOf(s.tracks)) && s.world == RunAll(w, c.jobs, ExitsOf(s.tracks), k)
  {
    ReachesInv(c, w, log, s);
    k := FinalStages(c, s, w);
    forall i | 0 <= i < |c.jobs| ensures Begun(StageOf(c, s, i)) <==> k <= i {
      assert StageOf(c, s, i) == if k <= i then Done else Unborn;
    }
    forall e | e in s.log && e.batch == c.batch ensures k <= e.n {
      assert multiset(s.log)[e] > 0;
    }
    FinalWorld(c, s, w, k);
    EachRanIsRunAll(w, s.world, c.jobs, ExitsOf(s.tracks), k);
  }

  /** Native or not: a process other than the first never comes to a fork, and serves one entry only. */
  lemma ChildrenNeverFork(c: Config, w: World, log: seq<Event>, s: State, pid: int) returns (n: nat)
    requires c.main > 0 && FreshLog(c, log) && Independent(c.jobs) && Reaches(c, w, log, s)
    requires pid in s.procs && pid != c.main
    ensures !s.procs[pid].pc.Forking? && !s.procs[pid].pc.Waiting?
    ensures c.main in s.procs && n < |s.procs[c.main].pids| == |c.jobs|
    ensures forall i :: 0 <= i < |c.jobs| ==> (s.procs[c.main].pids[i] == pid <==> i == n)
  {
    ReachesInv(c, w, log, s);
    assert ChildInv(c, s.procs[pid], s.procs[c.main].pids, pid);
    n := s.procs[pid].pc.n;
  }
}
