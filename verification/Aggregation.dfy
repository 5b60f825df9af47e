/**
 The analysis of one test: a single pass over the directory walk with counters
 and shared lists, against the plain grouping of the same tree.

 The tree is test / runtime / number of containers / iteration; only iteration
 directories hold files.  A file is known by what the two searches return for
 each pattern (0 without a match); numbers are reals.
 */
module Aggregation {
  import opened Options
  import opened Statistics
  import opened Timestamps

  datatype File = File(name: string, first: map<string, real>, last: map<string, real>)

  datatype NumberDir = NumberDir(num: string, iterations: seq<seq<File>>)
  datatype RuntimeDir = RuntimeDir(name: string, numbers: seq<NumberDir>)

  /** One step of the walk: a directory with its path below the test, its subdirectories, its files. */
  datatype Visit =
    | TestVisit(dirs: nat)
    | RuntimeVisit(runtime: string, dirs: nat)
    | NumberVisit(runtime: string, num: string, dirs: nat)
    | IterationVisit(runtime: string, num: string, files: seq<File>)

  /** The search patterns of a runtime. */
  datatype Patterns = Patterns(mount: string, create: string, start: string)

  /** What one iteration contributes; outside sequential tests only `start` is used. */
  datatype Sample = Sample(mount: real, create: real, start: real)

  datatype Row = Row(num: string, values: seq<real>)

  const RUNTIMES := {"crun", "crun_batch", "ctrd", "native"}
  const REGISTERED := "is registered"

  function PatternsOf(runtime: string, sequential: bool): Patterns
    requires runtime in RUNTIMES
  {
    if sequential then
      if runtime == "ctrd" then Patterns("dummy mount string", " /tasks/create ", " /tasks/start ")
      else if runtime == "native" then Patterns("dummy mount string", "dummy create string", " run application ")
      else Patterns(" mount ", " create ", " start ")
    else
      if runtime == "ctrd" then Patterns("", "", "/tasks/create")
      else if runtime == "native" then Patterns("", "", "run application")
      else Patterns("", "", "run container")
  }

  // ---- one iteration ----

  function First(f: File, pattern: string): real { if pattern in f.first then f.first[pattern] else 0.0 }

  function Last(f: File, pattern: string): real { if pattern in f.last then f.last[pattern] else 0.0 }

  /** The log of the manager; the other files are the logs of the applications. */
  predicate IsManagerLog(f: File, runtime: string) { Contains(f.name, runtime) }

  /** Place i holds a manager log, and no later place does. */
  predicate LastLogAt(files: seq<File>, runtime: string, i: int) {
    0 <= i < |files| && IsManagerLog(files[i], runtime) && NoLogFrom(files, runtime, i + 1)
  }

  predicate NoLogFrom(files: seq<File>, runtime: string, i: nat) {
    forall j :: i <= j < |files| ==> !IsManagerLog(files[j], runtime)
  }

  lemma NoLogAtEnd(files: seq<File>, runtime: string)
    requires files != [] && !IsManagerLog(files[|files| - 1], runtime)
    ensures NoLogFrom(files[..|files| - 1], runtime, 0) <==> NoLogFrom(files, runtime, 0)
    ensures forall i :: LastLogAt(files[..|files| - 1], runtime, i) ==>
              LastLogAt(files, runtime, i) && files[i] == files[..|files| - 1][i]
  {
    var front := files[..|files| - 1];
    forall i | LastLogAt(front, runtime, i) ensures LastLogAt(files, runtime, i) {
      assert NoLogFrom(front, runtime, i + 1);
      assert forall j :: i < j < |front| ==> !IsManagerLog(front[j], runtime);
    }
    if NoLogFrom(front, runtime, 0) {
      assert forall j :: 0 <= j < |front| ==> !IsManagerLog(front[j], runtime);
    }
  }

  /** The manager log that is listed last. */
  function ManagerLog(files: seq<File>, runtime: string): (f: Option<File>)
    ensures f == None <==> NoLogFrom(files, runtime, 0)
    ensures f.Some? ==> exists i :: LastLogAt(files, runtime, i) && files[i] == f.value
  {
    if files == [] then None
    else
      var front, last := files[..|files| - 1], files[|files| - 1];
      if IsManagerLog(last, runtime) then
        assert LastLogAt(files, runtime, |files| - 1);
        Some(last)
      else
        NoLogAtEnd(files, runtime);
        ManagerLog(front, runtime)
  }

  /** When the last application was registered: the maximum over their logs, at least 0. */
  function LastRegistered(files: seq<File>, runtime: string): (end: real)
    ensures end >= 0.0
    ensures forall i :: 0 <= i < |files| && !IsManagerLog(files[i], runtime) ==> First(files[i], REGISTERED) <= end
    ensures end == 0.0
            || exists i :: 0 <= i < |files| && !IsManagerLog(files[i], runtime) && First(files[i], REGISTERED) == end
  {
    if files == [] then 0.0
    else
      var end, last := LastRegistered(files[..|files| - 1], runtime), files[|files| - 1];
      if !IsManagerLog(last, runtime) && First(last, REGISTERED) > end then First(last, REGISTERED) else end
  }

  function FirstIn(f: Option<File>, pattern: string): real {
    match f
    case None => 0.0
    case Some(f) => First(f, pattern)
  }

  function LastIn(f: Option<File>, pattern: string): real {
    match f
    case None => 0.0
    case Some(f) => Last(f, pattern)
  }

  function SampleOf(files: seq<File>, runtime: string, sequential: bool): Sample
    requires runtime in RUNTIMES
  {
    var p, log := PatternsOf(runtime, sequential), ManagerLog(files, runtime);
    Sample(
      if sequential then LastIn(log, p.mount) - FirstIn(log, p.mount) else 0.0,
      if sequential then LastIn(log, p.create) - FirstIn(log, p.create) else 0.0,
      LastRegistered(files, runtime) - FirstIn(log, p.start))
  }

  /** The loop over the files of one iteration. */
  method MeasureIteration(files: seq<File>, runtime: string, sequential: bool) returns (s: Sample)
    requires runtime in RUNTIMES
    ensures s == SampleOf(files, runtime, sequential)
  {
    var p := PatternsOf(runtime, sequential);
    var mountStart, mountEnd, createStart, createEnd, start, end := 0.0, 0.0, 0.0, 0.0, 0.0, 0.0;
    var i := 0;
    while i < |files|
      invariant 0 <= i <= |files|
      invariant var log := ManagerLog(files[..i], runtime);
                && start == FirstIn(log, p.start)
                && (if sequential
                    then mountStart == FirstIn(log, p.mount) && mountEnd == LastIn(log, p.mount)
                         && createStart == FirstIn(log, p.create) && createEnd == LastIn(log, p.create)
                    else mountStart == mountEnd == createStart == createEnd == 0.0)
      invariant end == LastRegistered(files[..i], runtime)
    {
      assert files[..i + 1][..i] == files[..i];
      if Contains(files[i].name, runtime) {
        if sequential {
          mountStart, mountEnd := First(files[i], p.mount), Last(files[i], p.mount);
          createStart, createEnd := First(files[i], p.create), Last(files[i], p.create);
        }
        start := First(files[i], p.start);
      } else {
        var registered := First(files[i], REGISTERED);
        if registered > end {
          end := registered;
        }
      }
      i := i + 1;
    }
    assert files[..i] == files;
    s := Sample(mountEnd - mountStart, createEnd - createStart, end - start);
  }

  // ---- one row ----

  function Mounts(samples: seq<Sample>): (ls: seq<real>)
    ensures |ls| == |samples|
  {
    seq(|samples|, i requires 0 <= i < |samples| => samples[i].mount)
  }

  function Creates(samples: seq<Sample>): (ls: seq<real>)
    ensures |ls| == |samples|
  {
    seq(|samples|, i requires 0 <= i < |samples| => samples[i].create)
  }

  function Starts(samples: seq<Sample>): (ls: seq<real>)
    ensures |ls| == |samples|
  {
    seq(|samples|, i requires 0 <= i < |samples| => samples[i].start)
  }

  lemma ColumnsGrow(samples: seq<Sample>, s: Sample)
    ensures Mounts(samples + [s]) == Mounts(samples) + [s.mount]
    ensures Creates(samples + [s]) == Creates(samples) + [s.create]
    ensures Starts(samples + [s]) == Starts(samples) + [s.start]
    ensures Mounts([]) == Creates([]) == Starts([]) == []
  {
  }

  lemma NoSamples(samples: seq<Sample>)
    ensures samples == [] <==> Mounts(samples) == []
    ensures samples == [] <==> Creates(samples) == []
    ensures samples == [] <==> Starts(samples) == []
  {
  }

  function ErrorMinus(ls: seq<real>): real requires ls != [] { Mean(ls) - Min(ls) }

  function ErrorPlus(ls: seq<real>): real requires ls != [] { Max(ls) - Mean(ls) }

  function SingleRow(num: string, s: seq<real>): Row
    requires s != []
  {
    Row(num, [Min(s), Mean(s), Max(s), ErrorMinus(s), ErrorPlus(s)])
  }

  function SequentialRow(num: string, m: seq<real>, c: seq<real>, s: seq<real>): Row
    requires m != [] && c != [] && s != []
  {
    Row(num, [Min(m), Mean(m), Max(m), Min(c), Mean(c), Max(c), Min(s), Mean(s), Max(s),
              ErrorMinus(m) + ErrorMinus(c) + ErrorMinus(s), ErrorPlus(m) + ErrorPlus(c) + ErrorPlus(s)])
  }

  function RowOf(num: string, samples: seq<Sample>, sequential: bool): Row
    requires samples != []
  {
    if sequential then SequentialRow(num, Mounts(samples), Creates(samples), Starts(samples))
    else SingleRow(num, Starts(samples))
  }

  /** The error bars of every row, also the three-way sums, are not negative. */
  lemma ErrorBars(num: string, samples: seq<Sample>, sequential: bool)
    requires samples != []
    ensures var v := RowOf(num, samples, sequential).values; v[|v| - 2] >= 0.0 && v[|v| - 1] >= 0.0
  {
    MeanBetween(Mounts(samples));
    MeanBetween(Creates(samples));
    MeanBetween(Starts(samples));
  }

  /** The columns of a sequential row, in terms of the samples. */
  lemma SequentialColumns(num: string, samples: seq<Sample>, m: seq<real>, c: seq<real>, s: seq<real>)
    requires samples != [] && |m| == |c| == |s| == |samples|
    requires forall i :: 0 <= i < |samples| ==> samples[i] == Sample(m[i], c[i], s[i])
    ensures var row := RowOf(num, samples, true); row.num == num && |row.values| == 11
    ensures var v := RowOf(num, samples, true).values;
            && Describes(m, v[0], v[1], v[2]) && Describes(c, v[3], v[4], v[5]) && Describes(s, v[6], v[7], v[8])
            && v[9] == (v[1] - v[0]) + (v[4] - v[3]) + (v[7] - v[6])
            && v[10] == (v[2] - v[1]) + (v[5] - v[4]) + (v[8] - v[7])
  {
    assert Mounts(samples) == m && Creates(samples) == c && Starts(samples) == s;
    DescribesList(m);
    DescribesList(c);
    DescribesList(s);
  }

  lemma SingleColumns(num: string, samples: seq<Sample>, s: seq<real>)
    requires samples != [] && |s| == |samples| && forall i :: 0 <= i < |samples| ==> samples[i].start == s[i]
    ensures var row := RowOf(num, samples, false); row.num == num && |row.values| == 5
    ensures var v := RowOf(num, samples, false).values;
            Describes(s, v[0], v[1], v[2]) && v[3] == v[1] - v[0] && v[4] == v[2] - v[1]
  {
    assert Starts(samples) == s;
    DescribesList(s);
  }

  // ---- the pass over the walk ----

  /** Rows go to the last frame; pending are the samples in the shared lists. */
  datatype Acc = Acc(frames: seq<seq<Row>>, nIter: nat, cIter: nat, pending: seq<Sample>)

  function AddRow(frames: seq<seq<Row>>, row: Row): seq<seq<Row>> {
    if frames == [] then frames else frames[..|frames| - 1] + [frames[|frames| - 1] + [row]]
  }

  predicate Known(v: Visit) { v.IterationVisit? ==> v.runtime in RUNTIMES }

  function Append(acc: Acc, s: Sample): Acc { acc.(cIter := acc.cIter + 1, pending := acc.pending + [s]) }

  /** With the last sample of its group the row is made and the lists are emptied. */
  function Flush(acc: Acc, num: string, sequential: bool): Acc {
    if acc.cIter == acc.nIter && acc.pending != [] then
      Acc(AddRow(acc.frames, RowOf(num, acc.pending, sequential)), acc.nIter, 0, [])
    else acc
  }

  function Step(acc: Acc, v: Visit, sequential: bool): Acc
    requires Known(v)
  {
    match v
    case TestVisit(_) => acc
    case RuntimeVisit(_, dirs) => if dirs > 0 then acc.(frames := acc.frames + [[]]) else acc
    case NumberVisit(_, _, dirs) => if dirs > 0 then acc.(nIter := dirs, cIter := 0) else acc
    case IterationVisit(runtime, num, files) =>
      if files == [] then acc else Flush(Append(acc, SampleOf(files, runtime, sequential)), num, sequential)
  }

  function Fold(acc: Acc, visits: seq<Visit>, sequential: bool): Acc
    requires forall i :: 0 <= i < |visits| ==> Known(visits[i])
  {
    if visits == [] then acc
    else Step(Fold(acc, visits[..|visits| - 1], sequential), visits[|visits| - 1], sequential)
  }

  lemma FoldNext(acc: Acc, visits: seq<Visit>, i: nat, sequential: bool)
    requires i < |visits| && forall j :: 0 <= j < |visits| ==> Known(visits[j])
    ensures Fold(acc, visits[..i + 1], sequential) == Step(Fold(acc, visits[..i], sequential), visits[i], sequential)
  {
    assert visits[..i + 1][..i] == visits[..i];
  }

  const EMPTY := Acc([], 0, 0, [])

  /** A runtime directory with subdirectories comes before the first iteration with files. */
  ghost predicate Ordered(visits: seq<Visit>) {
    forall i :: 0 <= i < |visits| && visits[i].IterationVisit? ==>
      exists j :: 0 <= j < i && visits[j].RuntimeVisit? && visits[j].dirs > 0
  }

  /** The variables of the main loop. */
  class Analysis {
    const sequential: bool
    var frames: seq<seq<Row>>
    var iRuntime: nat
    var nIter: nat
    var cIter: nat
    var diffs: seq<real>
    var mountDiffs: seq<real>
    var createDiffs: seq<real>
    var startDiffs: seq<real>
    ghost var acc: Acc

    ghost predicate Valid()
      reads this
    {
      && acc == Acc(frames, nIter, cIter, acc.pending)
      && iRuntime == (if frames == [] then 0 else |frames| - 1)
      && if sequential
         then mountDiffs == Mounts(acc.pending) && createDiffs == Creates(acc.pending)
           && startDiffs == Starts(acc.pending)
         else diffs == Starts(acc.pending)
    }

    constructor (sequential: bool)
      ensures Valid() && acc == EMPTY && this.sequential == sequential
    {
      this.sequential := sequential;
      frames, iRuntime, nIter, cIter := [], 0, 0, 0;
      diffs, mountDiffs, createDiffs, startDiffs := [], [], [], [];
      acc := EMPTY;
    }

    method EnterDirectory(v: Visit)
      requires Valid() && !v.IterationVisit?
      modifies this
      ensures Valid() && acc == Step(old(acc), v, sequential)
      ensures old(frames) != [] || (v.RuntimeVisit? && v.dirs > 0) ==> frames != []
    {
      if v.RuntimeVisit? && v.dirs > 0 {
        frames := frames + [[]];
        iRuntime := |frames| - 1;
      } else if v.NumberVisit? && v.dirs > 0 {
        nIter := v.dirs;
        cIter := 0;
      }
      acc := Step(acc, v, sequential);
    }

    /** pd.concat of the row to the frame of the current runtime. */
    method PutRow(row: Row)
      requires frames != [] && iRuntime == |frames| - 1
      modifies this`frames
      ensures frames == AddRow(old(frames), row) && |frames| == |old(frames)|
    {
      frames := frames[iRuntime := frames[iRuntime] + [row]];
    }

    method AppendSample(s: Sample)
      requires Valid()
      modifies this
      ensures Valid() && acc == Append(old(acc), s)
    {
      cIter := cIter + 1;
      if sequential {
        mountDiffs, createDiffs, startDiffs := mountDiffs + [s.mount], createDiffs + [s.create], startDiffs + [s.start];
      } else {
        diffs := diffs + [s.start];
      }
      ColumnsGrow(acc.pending, s);
      acc := Append(acc, s);
    }

    method FlushSequential(num: string)
      requires Valid() && sequential && frames != []
      modifies this
      ensures Valid() && frames != [] && acc == Flush(old(acc), num, sequential)
    {
      NoSamples(acc.pending);
      acc := Flush(acc, num, sequential);
      if cIter == nIter && mountDiffs != [] && createDiffs != [] && startDiffs != [] {
        PutRow(SequentialRow(num, mountDiffs, createDiffs, startDiffs));
        mountDiffs, createDiffs, startDiffs := [], [], [];
        cIter := 0;
      }
    }

    method FlushSingle(num: string)
      requires Valid() && !sequential && frames != []
      modifies this
      ensures Valid() && frames != [] && acc == Flush(old(acc), num, sequential)
    {
      acc := Flush(acc, num, sequential);
      if cIter == nIter && diffs != [] {
        PutRow(SingleRow(num, diffs));
        diffs := [];
        cIter := 0;
      }
    }

    method EnterIteration(v: Visit)
      requires Valid() && v.IterationVisit? && v.files != [] && Known(v) && frames != []
      modifies this
      ensures Valid() && frames != [] && acc == Step(old(acc), v, sequential)
    {
      var s := MeasureIteration(v.files, v.runtime, sequential);
      AppendSample(s);
      if sequential {
        FlushSequential(v.num);
      } else {
        FlushSingle(v.num);
      }
    }

    /** The main loop over the walk. */
    method Analyse(visits: seq<Visit>)
      requires Valid() && acc == EMPTY
      requires Ordered(visits) && forall i :: 0 <= i < |visits| ==> Known(visits[i])
      modifies this
      ensures frames == Fold(EMPTY, visits, sequential).frames
    {
      var i := 0;
      while i < |visits|
        invariant 0 <= i <= |visits| && Valid()
        invariant acc == Fold(EMPTY, visits[..i], sequential)
        invariant forall j :: 0 <= j < i && visits[j].RuntimeVisit? && visits[j].dirs > 0 ==> frames != []
      {
        FoldNext(EMPTY, visits, i, sequential);
        var v := visits[i];
        if !v.IterationVisit? {
          EnterDirectory(v);
        } else if v.files != [] {
          EnterIteration(v);
        }
        i := i + 1;
      }
      assert visits[..i] == visits;
    }
  }
}
