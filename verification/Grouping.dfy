/**
 The plain grouping that the analysis is meant to compute - one row for each
 number of containers, from exactly the samples of that directory - and when
 the single pass with its shared lists computes it.
 */
module Grouping {
  import opened Aggregation

  // ---- the walk over a tree, top down ----

  function WalkIterations(runtime: string, n: NumberDir, k: nat): (visits: seq<Visit>)
    requires k <= |n.iterations|
  {
    if k == 0 then [] else WalkIterations(runtime, n, k - 1) + [IterationVisit(runtime, n.num, n.iterations[k - 1])]
  }

  function WalkNumber(runtime: string, n: NumberDir): seq<Visit> {
    [NumberVisit(runtime, n.num, |n.iterations|)] + WalkIterations(runtime, n, |n.iterations|)
  }

  function WalkNumbers(runtime: string, ns: seq<NumberDir>): seq<Visit> {
    if ns == [] then [] else WalkNumbers(runtime, ns[..|ns| - 1]) + WalkNumber(runtime, ns[|ns| - 1])
  }

  function WalkRuntime(r: RuntimeDir): seq<Visit> {
    [RuntimeVisit(r.name, |r.numbers|)] + WalkNumbers(r.name, r.numbers)
  }

  function WalkRuntimes(rs: seq<RuntimeDir>): seq<Visit> {
    if rs == [] then [] else WalkRuntimes(rs[..|rs| - 1]) + WalkRuntime(rs[|rs| - 1])
  }

  function Walk(tree: seq<RuntimeDir>): seq<Visit> { [TestVisit(|tree|)] + WalkRuntimes(tree) }

  ghost predicate KnownTree(rs: seq<RuntimeDir>) { forall i :: 0 <= i < |rs| ==> rs[i].name in RUNTIMES }

  ghost predicate AllKnown(visits: seq<Visit>) { forall i :: 0 <= i < |visits| ==> Known(visits[i]) }

  lemma {:induction false} IterationsKnown(runtime: string, n: NumberDir, k: nat)
    requires runtime in RUNTIMES && k <= |n.iterations|
    ensures AllKnown(WalkIterations(runtime, n, k))
  {
    if k > 0 { IterationsKnown(runtime, n, k - 1); }
  }

  lemma {:induction false} NumbersKnown(runtime: string, ns: seq<NumberDir>)
    requires runtime in RUNTIMES
    ensures AllKnown(WalkNumbers(runtime, ns))
  {
    if ns != [] {
      NumbersKnown(runtime, ns[..|ns| - 1]);
      IterationsKnown(runtime, ns[|ns| - 1], |ns[|ns| - 1].iterations|);
    }
  }

  lemma {:induction false} RuntimesKnown(rs: seq<RuntimeDir>)
    requires KnownTree(rs)
    ensures AllKnown(WalkRuntimes(rs))
  {
    if rs != [] {
      RuntimesKnown(rs[..|rs| - 1]);
      NumbersKnown(rs[|rs| - 1].name, rs[|rs| - 1].numbers);
    }
  }

  // ---- the grouping ----

  /** The samples of the first k iterations; an iteration without files has none. */
  function Samples(runtime: string, n: NumberDir, k: nat, sequential: bool): (samples: seq<Sample>)
    requires runtime in RUNTIMES && k <= |n.iterations|
    ensures |samples| <= k
  {
    if k == 0 then []
    else
      var before := Samples(runtime, n, k - 1, sequential);
      if n.iterations[k - 1] == [] then before else before + [SampleOf(n.iterations[k - 1], runtime, sequential)]
  }

  function AllSamples(runtime: string, n: NumberDir, sequential: bool): seq<Sample>
    requires runtime in RUNTIMES
  {
    Samples(runtime, n, |n.iterations|, sequential)
  }

  function GroupRows(runtime: string, ns: seq<NumberDir>, sequential: bool): seq<Row>
    requires runtime in RUNTIMES
  {
    if ns == [] then []
    else
      var before, n := GroupRows(runtime, ns[..|ns| - 1], sequential), ns[|ns| - 1];
      var samples := AllSamples(runtime, n, sequential);
      if samples == [] then before else before + [RowOf(n.num, samples, sequential)]
  }

  /** One frame for each runtime directory with subdirectories. */
  function GroupBy(rs: seq<RuntimeDir>, sequential: bool): seq<seq<Row>>
    requires KnownTree(rs)
  {
    if rs == [] then []
    else
      var before, r := GroupBy(rs[..|rs| - 1], sequential), rs[|rs| - 1];
      if r.numbers == [] then before else before + [GroupRows(r.name, r.numbers, sequential)]
  }

  /** Either every iteration of the group has files or none has. */
  predicate Even(n: NumberDir) {
    AllFull(n.iterations, |n.iterations|) || AllEmpty(n.iterations, |n.iterations|)
  }

  ghost predicate EvenTree(rs: seq<RuntimeDir>) {
    forall i, j :: 0 <= i < |rs| && 0 <= j < |rs[i].numbers| ==> Even(rs[i].numbers[j])
  }

  predicate AllFull(its: seq<seq<File>>, k: nat)
    requires k <= |its|
  {
    forall i :: 0 <= i < k ==> its[i] != []
  }

  predicate AllEmpty(its: seq<seq<File>>, k: nat)
    requires k <= |its|
  {
    forall i :: 0 <= i < k ==> its[i] == []
  }

  lemma OneMore(its: seq<seq<File>>, k: nat)
    requires 0 < k <= |its|
    ensures AllFull(its, k) <==> AllFull(its, k - 1) && its[k - 1] != []
    ensures AllEmpty(its, k) <==> AllEmpty(its, k - 1) && its[k - 1] == []
  {
  }

  lemma SamplesStep(runtime: string, n: NumberDir, k: nat, sequential: bool)
    requires runtime in RUNTIMES && 0 < k <= |n.iterations|
    ensures |Samples(runtime, n, k, sequential)|
            == |Samples(runtime, n, k - 1, sequential)| + if n.iterations[k - 1] == [] then 0 else 1
  {
  }

  lemma {:induction false} SamplesCount(runtime: string, n: NumberDir, k: nat, sequential: bool)
    requires runtime in RUNTIMES && k <= |n.iterations|
    ensures |Samples(runtime, n, k, sequential)| == k <==> AllFull(n.iterations, k)
    ensures |Samples(runtime, n, k, sequential)| == 0 <==> AllEmpty(n.iterations, k)
  {
    if k > 0 {
      SamplesCount(runtime, n, k - 1, sequential);
      SamplesStep(runtime, n, k, sequential);
      OneMore(n.iterations, k);
    }
  }

  // ---- the pass, directory by directory ----

  lemma {:induction false} FoldConcat(acc: Acc, a: seq<Visit>, b: seq<Visit>, sequential: bool)
    requires AllKnown(a) && AllKnown(b)
    ensures AllKnown(a + b) && Fold(acc, a + b, sequential) == Fold(Fold(acc, a, sequential), b, sequential)
  {
    if b == [] {
      assert a + b == a;
    } else {
      var front := b[..|b| - 1];
      FoldConcat(acc, a, front, sequential);
      assert (a + b)[..|a + b| - 1] == a + front;
    }
  }

  lemma FoldSnoc(acc: Acc, visits: seq<Visit>, v: Visit, sequential: bool)
    requires AllKnown(visits) && Known(v)
    ensures AllKnown(visits + [v])
    ensures Fold(acc, visits + [v], sequential) == Step(Fold(acc, visits, sequential), v, sequential)
  {
    assert (visits + [v])[..|visits|] == visits;
  }

  lemma FoldOne(acc: Acc, v: Visit, sequential: bool)
    requires Known(v)
    ensures Fold(acc, [v], sequential) == Step(acc, v, sequential)
  {
    assert [v][..0] == [];
  }

  /** The state after a group: its row if all its iterations had files, else what stays in the lists. */
  function AfterSamples(acc: Acc, num: string, samples: seq<Sample>, sequential: bool): Acc {
    var pending := acc.pending + samples;
    if |samples| == acc.nIter && samples != [] then
      Acc(AddRow(acc.frames, RowOf(num, pending, sequential)), acc.nIter, 0, [])
    else Acc(acc.frames, acc.nIter, |samples|, pending)
  }

  /** Taking one more sample when the group is not complete yet. */
  lemma NextSample(acc: Acc, num: string, before: seq<Sample>, s: Sample, sequential: bool)
    requires |before| < acc.nIter && acc.cIter == 0
    ensures Flush(Append(AfterSamples(acc, num, before, sequential), s), num, sequential)
            == AfterSamples(acc, num, before + [s], sequential)
  {
    assert acc.pending + before + [s] == acc.pending + (before + [s]);
  }

  lemma IterationStep(acc: Acc, runtime: string, n: NumberDir, k: nat, sequential: bool)
    requires runtime in RUNTIMES && 0 < k <= |n.iterations| == acc.nIter && acc.cIter == 0
    ensures Step(AfterSamples(acc, n.num, Samples(runtime, n, k - 1, sequential), sequential),
                 IterationVisit(runtime, n.num, n.iterations[k - 1]), sequential)
            == AfterSamples(acc, n.num, Samples(runtime, n, k, sequential), sequential)
  {
    var before, files := Samples(runtime, n, k - 1, sequential), n.iterations[k - 1];
    if files != [] {
      NextSample(acc, n.num, before, SampleOf(files, runtime, sequential), sequential);
    }
  }

  lemma NextIteration(acc: Acc, runtime: string, n: NumberDir, k: nat, sequential: bool)
    requires runtime in RUNTIMES && 0 < k <= |n.iterations| && AllKnown(WalkIterations(runtime, n, k - 1))
    ensures AllKnown(WalkIterations(runtime, n, k))
    ensures Fold(acc, WalkIterations(runtime, n, k), sequential)
            == Step(Fold(acc, WalkIterations(runtime, n, k - 1), sequential),
                    IterationVisit(runtime, n.num, n.iterations[k - 1]), sequential)
  {
    FoldSnoc(acc, WalkIterations(runtime, n, k - 1), IterationVisit(runtime, n.num, n.iterations[k - 1]), sequential);
  }

  lemma {:induction false} IterationsFold(acc: Acc, runtime: string, n: NumberDir, k: nat, sequential: bool)
    requires runtime in RUNTIMES && k <= |n.iterations| == acc.nIter && acc.cIter == 0
    ensures AllKnown(WalkIterations(runtime, n, k))
    ensures Fold(acc, WalkIterations(runtime, n, k), sequential)
            == AfterSamples(acc, n.num, Samples(runtime, n, k, sequential), sequential)
  {
    IterationsKnown(runtime, n, k);
    if k > 0 {
      IterationsFold(acc, runtime, n, k - 1, sequential);
      NextIteration(acc, runtime, n, k, sequential);
      IterationStep(acc, runtime, n, k, sequential);
    } else {
      assert acc.pending + [] == acc.pending;
    }
  }

  lemma NumberFold(acc: Acc, runtime: string, n: NumberDir, sequential: bool)
    requires runtime in RUNTIMES
    ensures AllKnown(WalkNumber(runtime, n))
    ensures Fold(acc, WalkNumber(runtime, n), sequential)
            == if n.iterations == [] then acc
               else AfterSamples(acc.(nIter := |n.iterations|, cIter := 0), n.num,
                                 AllSamples(runtime, n, sequential), sequential)
  {
    var v, its := NumberVisit(runtime, n.num, |n.iterations|), WalkIterations(runtime, n, |n.iterations|);
    IterationsKnown(runtime, n, |n.iterations|);
    FoldConcat(acc, [v], its, sequential);
    FoldOne(acc, v, sequential);
    if n.iterations != [] {
      IterationsFold(acc.(nIter := |n.iterations|, cIter := 0), runtime, n, |n.iterations|, sequential);
    }
  }

  /** frames plus these rows at the end of the last frame. */
  function AddRows(frames: seq<seq<Row>>, rows: seq<Row>): seq<seq<Row>> {
    if frames == [] then frames else frames[..|frames| - 1] + [frames[|frames| - 1] + rows]
  }

  predicate Full(runtime: string, n: NumberDir, sequential: bool)
    requires runtime in RUNTIMES
  {
    n.iterations != [] && |AllSamples(runtime, n, sequential)| == |n.iterations|
  }

  /** The rows that the pass makes of these directories when `pending` is already in the lists, and what it leaves. */
  function PassRows(runtime: string, ns: seq<NumberDir>, pending: seq<Sample>, sequential: bool)
    : (seq<Row>, seq<Sample>)
    requires runtime in RUNTIMES
  {
    if ns == [] then ([], pending)
    else
      var (rows, left), n := PassRows(runtime, ns[..|ns| - 1], pending, sequential), ns[|ns| - 1];
      var samples := left + AllSamples(runtime, n, sequential);
      if Full(runtime, n, sequential) then (rows + [RowOf(n.num, samples, sequential)], []) else (rows, samples)
  }

  lemma {:induction false} NumbersFold(acc: Acc, runtime: string, ns: seq<NumberDir>, sequential: bool)
    requires runtime in RUNTIMES && acc.frames != []
    ensures AllKnown(WalkNumbers(runtime, ns))
    ensures var (rows, left) := PassRows(runtime, ns, acc.pending, sequential);
            var end := Fold(acc, WalkNumbers(runtime, ns), sequential);
            end.frames == AddRows(acc.frames, rows) && end.pending == left
  {
    NumbersKnown(runtime, ns);
    if ns == [] {
      AddNone(acc.frames);
    } else {
      var front, n := ns[..|ns| - 1], ns[|ns| - 1];
      NumbersKnown(runtime, front);
      NumbersFold(acc, runtime, front, sequential);
      var mid := Fold(acc, WalkNumbers(runtime, front), sequential);
      NumberFold(mid, runtime, n, sequential);
      FoldConcat(acc, WalkNumbers(runtime, front), WalkNumber(runtime, n), sequential);
      var rows := PassRows(runtime, front, acc.pending, sequential).0;
      if Full(runtime, n, sequential) {
        var row := RowOf(n.num, mid.pending + AllSamples(runtime, n, sequential), sequential);
        AddOneMore(acc.frames, rows, row);
      }
      if n.iterations == [] { assert mid.pending + [] == mid.pending; }
    }
  }

  lemma AddNone(frames: seq<seq<Row>>)
    ensures AddRows(frames, []) == frames
  {
    if frames != [] {
      assert frames[|frames| - 1] + [] == frames[|frames| - 1];
    }
  }

  lemma AddOneMore(frames: seq<seq<Row>>, rows: seq<Row>, row: Row)
    ensures AddRow(AddRows(frames, rows), row) == AddRows(frames, rows + [row])
  {
    if frames != [] {
      var last := frames[|frames| - 1];
      assert last + rows + [row] == last + (rows + [row]);
      assert AddRows(frames, rows)[..|frames| - 1] == frames[..|frames| - 1];
    }
  }

  /** The frames that the pass makes of a whole tree. */
  function PassFrames(rs: seq<RuntimeDir>, sequential: bool): (seq<seq<Row>>, seq<Sample>)
    requires KnownTree(rs)
  {
    if rs == [] then ([], [])
    else
      var (frames, left), r := PassFrames(rs[..|rs| - 1], sequential), rs[|rs| - 1];
      var (rows, left') := PassRows(r.name, r.numbers, left, sequential);
      if r.numbers == [] then (frames, left) else (frames + [rows], left')
  }

  lemma RuntimeFold(acc: Acc, r: RuntimeDir, sequential: bool)
    requires r.name in RUNTIMES
    ensures AllKnown(WalkRuntime(r))
    ensures var (rows, left) := PassRows(r.name, r.numbers, acc.pending, sequential);
            var end := Fold(acc, WalkRuntime(r), sequential);
            if r.numbers == [] then end == acc else end.frames == acc.frames + [rows] && end.pending == left
  {
    var v := RuntimeVisit(r.name, |r.numbers|);
    NumbersKnown(r.name, r.numbers);
    FoldConcat(acc, [v], WalkNumbers(r.name, r.numbers), sequential);
    FoldOne(acc, v, sequential);
    if r.numbers != [] {
      var frames := acc.frames + [[]];
      NumbersFold(acc.(frames := frames), r.name, r.numbers, sequential);
      assert frames[..|acc.frames|] == acc.frames;
      var rows := PassRows(r.name, r.numbers, acc.pending, sequential).0;
      assert [] + rows == rows;
    }
  }

  lemma {:induction false} RuntimesFold(rs: seq<RuntimeDir>, sequential: bool)
    requires KnownTree(rs)
    ensures AllKnown(WalkRuntimes(rs))
    ensures var (frames, left), end := PassFrames(rs, sequential), Fold(EMPTY, WalkRuntimes(rs), sequential);
            end.frames == frames && end.pending == left
  {
    RuntimesKnown(rs);
    if rs != [] {
      var front, r := rs[..|rs| - 1], rs[|rs| - 1];
      RuntimesKnown(front);
      RuntimesFold(front, sequential);
      RuntimeFold(Fold(EMPTY, WalkRuntimes(front), sequential), r, sequential);
      FoldConcat(EMPTY, WalkRuntimes(front), WalkRuntime(r), sequential);
    }
  }

  // ---- when the pass is the grouping ----

  lemma EvenStep(ns: seq<NumberDir>)
    requires ns != []
    ensures var front := ns[..|ns| - 1];
            (forall j :: 0 <= j < |ns| ==> Even(ns[j]))
            <==> Even(ns[|ns| - 1]) && forall j :: 0 <= j < |front| ==> Even(front[j])
  {
    var front := ns[..|ns| - 1];
    assert forall j :: 0 <= j < |front| ==> front[j] == ns[j];
  }

  lemma EvenOrNot(runtime: string, n: NumberDir, sequential: bool)
    requires runtime in RUNTIMES
    ensures Full(runtime, n, sequential) ==> AllSamples(runtime, n, sequential) != []
    ensures Even(n) <==> (Full(runtime, n, sequential) <==> AllSamples(runtime, n, sequential) != [])
  {
    SamplesCount(runtime, n, |n.iterations|, sequential);
  }

  lemma RowsStep(runtime: string, ns: seq<NumberDir>, pending: seq<Sample>, sequential: bool)
    requires runtime in RUNTIMES && ns != []
    ensures var front, n := ns[..|ns| - 1], ns[|ns| - 1];
            && |PassRows(runtime, ns, pending, sequential).0|
               == |PassRows(runtime, front, pending, sequential).0| + (if Full(runtime, n, sequential) then 1 else 0)
            && |GroupRows(runtime, ns, sequential)|
               == |GroupRows(runtime, front, sequential)| + if AllSamples(runtime, n, sequential) == [] then 0 else 1
  {
  }

  /** The pass never makes more rows than the grouping, and fewer as soon as a group is uneven. */
  lemma {:induction false} RowCounts(runtime: string, ns: seq<NumberDir>, pending: seq<Sample>, sequential: bool)
    requires runtime in RUNTIMES
    ensures |PassRows(runtime, ns, pending, sequential).0| <= |GroupRows(runtime, ns, sequential)|
    ensures |PassRows(runtime, ns, pending, sequential).0| == |GroupRows(runtime, ns, sequential)|
            <==> forall j :: 0 <= j < |ns| ==> Even(ns[j])
  {
    if ns != [] {
      var front, n := ns[..|ns| - 1], ns[|ns| - 1];
      RowCounts(runtime, front, pending, sequential);
      RowsStep(runtime, ns, pending, sequential);
      EvenOrNot(runtime, n, sequential);
      EvenStep(ns);
    }
  }

  /** If all groups are even, the lists are empty at every group boundary and every row is its group's row. */
  lemma {:induction false} EvenRows(runtime: string, ns: seq<NumberDir>, sequential: bool)
    requires runtime in RUNTIMES && forall j :: 0 <= j < |ns| ==> Even(ns[j])
    ensures PassRows(runtime, ns, [], sequential) == (GroupRows(runtime, ns, sequential), [])
  {
    if ns != [] {
      var n := ns[|ns| - 1];
      EvenRows(runtime, ns[..|ns| - 1], sequential);
      SamplesCount(runtime, n, |n.iterations|, sequential);
      assert [] + AllSamples(runtime, n, sequential) == AllSamples(runtime, n, sequential);
    }
  }

  lemma {:induction false} EvenFrames(rs: seq<RuntimeDir>, sequential: bool)
    requires KnownTree(rs) && EvenTree(rs)
    ensures PassFrames(rs, sequential) == (GroupBy(rs, sequential), [])
  {
    if rs != [] {
      var front, r := rs[..|rs| - 1], rs[|rs| - 1];
      EvenFrames(front, sequential);
      EvenRows(r.name, r.numbers, sequential);
    }
  }

  lemma SameEnds<T>(a: seq<T>, x: T, b: seq<T>, y: T)
    requires a + [x] == b + [y]
    ensures a == b && x == y
  {
    assert |a| == |b|;
    assert a == (a + [x])[..|a|] && b == (b + [y])[..|b|];
    assert x == (a + [x])[|a|] && y == (b + [y])[|b|];
  }

  lemma EvenFrontAndLast(rs: seq<RuntimeDir>, r: RuntimeDir)
    requires rs != [] && EvenTree(rs[..|rs| - 1]) && r == rs[|rs| - 1]
    requires forall j :: 0 <= j < |r.numbers| ==> Even(r.numbers[j])
    ensures EvenTree(rs)
  {
    forall i, j | 0 <= i < |rs| && 0 <= j < |rs[i].numbers| ensures Even(rs[i].numbers[j]) {
      if i < |rs| - 1 { assert rs[i] == rs[..|rs| - 1][i]; }
    }
  }

  lemma {:induction false} SameFramesEven(rs: seq<RuntimeDir>, sequential: bool)
    requires KnownTree(rs) && PassFrames(rs, sequential).0 == GroupBy(rs, sequential)
    ensures EvenTree(rs)
  {
    if rs != [] {
      var front, r := rs[..|rs| - 1], rs[|rs| - 1];
      if r.numbers != [] {
        var (frames, left) := PassFrames(front, sequential);
        SameEnds(frames, PassRows(r.name, r.numbers, left, sequential).0,
                 GroupBy(front, sequential), GroupRows(r.name, r.numbers, sequential));
        RowCounts(r.name, r.numbers, left, sequential);
      }
      SameFramesEven(front, sequential);
      EvenFrontAndLast(rs, r);
    }
  }

  /** The single pass is the grouping exactly on the trees whose groups are even. */
  lemma PassIsGroupBy(tree: seq<RuntimeDir>, sequential: bool)
    requires KnownTree(tree)
    ensures AllKnown(Walk(tree))
    ensures Fold(EMPTY, Walk(tree), sequential).frames == GroupBy(tree, sequential) <==> EvenTree(tree)
    ensures EvenTree(tree) ==> Fold(EMPTY, Walk(tree), sequential).pending == []
  {
    var v := TestVisit(|tree|);
    RuntimesKnown(tree);
    FoldConcat(EMPTY, [v], WalkRuntimes(tree), sequential);
    FoldOne(EMPTY, v, sequential);
    RuntimesFold(tree, sequential);
    if EvenTree(tree) {
      EvenFrames(tree, sequential);
    } else if PassFrames(tree, sequential).0 == GroupBy(tree, sequential) {
      SameFramesEven(tree, sequential);
    }
  }

  // ---- the analysis of a tree ----

  lemma {:induction false} NoIterations(runtime: string, ns: seq<NumberDir>)
    ensures forall i :: 0 <= i < |WalkNumbers(runtime, ns)| && WalkNumbers(runtime, ns)[i].IterationVisit? ==> ns != []
  {
  }

  lemma {:induction false} RuntimesOrdered(rs: seq<RuntimeDir>)
    ensures Ordered(WalkRuntimes(rs))
  {
    if rs != [] {
      var front, r, visits := rs[..|rs| - 1], rs[|rs| - 1], WalkRuntimes(rs);
      var k := |WalkRuntimes(front)|;
      RuntimesOrdered(front);
      NoIterations(r.name, r.numbers);
      forall i | 0 <= i < |visits| && visits[i].IterationVisit?
        ensures exists j :: 0 <= j < i && visits[j].RuntimeVisit? && visits[j].dirs > 0
      {
        if i < k {
          assert visits[i] == WalkRuntimes(front)[i];
          var j :| 0 <= j < i && WalkRuntimes(front)[j].RuntimeVisit? && WalkRuntimes(front)[j].dirs > 0;
          assert visits[j] == WalkRuntimes(front)[j];
        } else {
          assert visits[k] == RuntimeVisit(r.name, |r.numbers|);
          assert i > k && visits[i] == WalkNumbers(r.name, r.numbers)[i - k - 1];
        }
      }
    }
  }

  lemma WalkOrdered(tree: seq<RuntimeDir>)
    ensures Ordered(Walk(tree))
  {
    RuntimesOrdered(tree);
    var visits := Walk(tree);
    forall i | 0 <= i < |visits| && visits[i].IterationVisit?
      ensures exists j :: 0 <= j < i && visits[j].RuntimeVisit? && visits[j].dirs > 0
    {
      var j :| 0 <= j < i - 1 && WalkRuntimes(tree)[j].RuntimeVisit? && WalkRuntimes(tree)[j].dirs > 0;
      assert visits[j + 1] == WalkRuntimes(tree)[j];
    }
  }

  /** The loop over the walk of a tree yields the grouping exactly if the tree is even. */
  method AnalyseTree(tree: seq<RuntimeDir>, sequential: bool) returns (frames: seq<seq<Row>>)
    requires KnownTree(tree)
    ensures frames == GroupBy(tree, sequential) <==> EvenTree(tree)
  {
    PassIsGroupBy(tree, sequential);
    WalkOrdered(tree);
    var analysis := new Analysis(sequential);
    analysis.Analyse(Walk(tree));
    frames := analysis.frames;
  }
}
