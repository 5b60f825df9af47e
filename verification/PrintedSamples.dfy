/**
 From what the managers print to what the analysis makes of it: the entries of
 a sample, in terms of the messages in the log and of the times they were
 printed at.
 */
module PrintedSamples {
  import opened Options
  import opened Timestamps
  import opened Aggregation
  import opened LogSamples
  import opened LogLines
  import opened LogPhases

  datatype Entry = Entry(date: string, time: Time, message: Message)

  function LinesOf(runtime: string, entries: seq<Entry>): (lines: seq<string>)
    ensures |lines| == |entries|
    ensures forall i :: 0 <= i < |lines| ==>
              lines[i] == Line(runtime, entries[i].date, entries[i].time, entries[i].message)
  {
    seq(|entries|, i requires 0 <= i < |entries| =>
      Line(runtime, entries[i].date, entries[i].time, entries[i].message))
  }

  /** A log of this runtime's manager, in the order of time and within one day. */
  ghost predicate IsManagerRun(runtime: string, entries: seq<Entry>) {
    && (forall i :: 0 <= i < |entries| ==>
          IsDate(entries[i].date) && IsTime(entries[i].time) && Prints(runtime, entries[i].message))
    && (forall i, j :: 0 <= i < j < |entries| ==> Nanos(entries[i].time) <= Nanos(entries[j].time))
  }

  function MicrosOf(e: Entry): nat { Nanos(e.time) / 1000 }

  predicate IsFirstOf(entries: seq<Entry>, sequential: bool, phase: Phase, i: int) {
    && 0 <= i < |entries| && Announces(sequential, phase, entries[i].message)
    && forall k :: 0 <= k < i ==> !Announces(sequential, phase, entries[k].message)
  }

  predicate IsLastOf(entries: seq<Entry>, sequential: bool, phase: Phase, i: int) {
    && 0 <= i < |entries| && Announces(sequential, phase, entries[i].message)
    && forall k :: i < k < |entries| ==> !Announces(sequential, phase, entries[k].message)
  }

  predicate NoneOf(entries: seq<Entry>, sequential: bool, phase: Phase) {
    forall k :: 0 <= k < |entries| ==> !Announces(sequential, phase, entries[k].message)
  }

  // ---- one line ----

  lemma LineRead(runtime: string, e: Entry)
    requires IsDate(e.date) && IsTime(e.time)
    ensures ReadLine(Line(runtime, e.date, e.time, e.message)) == Some(MicrosOf(e))
  {
    BothPrinters(e.date, e.time, "info", Text(e.message) + "\n");
  }

  lemma FloorsInOrder(a: nat, b: nat)
    requires a <= b
    ensures a / 1000 <= b / 1000
  {
  }

  /** The whole log is in order, for every search. */
  lemma RunInOrder(runtime: string, entries: seq<Entry>, p: string)
    requires IsManagerRun(runtime, entries)
    ensures Chronological(LinesOf(runtime, entries), p)
    ensures forall i :: 0 <= i < |entries| ==> ReadLine(LinesOf(runtime, entries)[i]) == Some(MicrosOf(entries[i]))
  {
    var lines := LinesOf(runtime, entries);
    forall i | 0 <= i < |entries| ensures ReadLine(lines[i]) == Some(MicrosOf(entries[i])) {
      LineRead(runtime, entries[i]);
    }
    forall i, j | 0 <= i < j < |entries| ensures MicrosOf(entries[i]) <= MicrosOf(entries[j]) {
      FloorsInOrder(Nanos(entries[i].time), Nanos(entries[j].time));
    }
  }

  // ---- searching a log ----

  lemma SearchedFor(runtime: string, sequential: bool, phase: Phase, entries: seq<Entry>)
    requires runtime in RUNTIMES && IsManagerRun(runtime, entries) && (sequential || phase == Starting)
    ensures var lines, p := LinesOf(runtime, entries), PatternOf(runtime, sequential, phase);
            forall i :: 0 <= i < |entries| ==>
              (Contains(lines[i], p) <==> Announces(sequential, phase, entries[i].message))
  {
    forall i | 0 <= i < |entries|
      ensures Contains(LinesOf(runtime, entries)[i], PatternOf(runtime, sequential, phase))
              <==> Announces(sequential, phase, entries[i].message)
    {
      PatternMeansPhase(runtime, sequential, phase, entries[i].date, entries[i].time, entries[i].message);
    }
  }

  lemma NoneMeans(runtime: string, sequential: bool, phase: Phase, entries: seq<Entry>)
    requires runtime in RUNTIMES && IsManagerRun(runtime, entries) && (sequential || phase == Starting)
    requires NoneOf(entries, sequential, phase)
    ensures NoMatch(LinesOf(runtime, entries), PatternOf(runtime, sequential, phase))
  {
    SearchedFor(runtime, sequential, phase, entries);
  }

  lemma FirstMeans(runtime: string, sequential: bool, phase: Phase, entries: seq<Entry>, i: int)
    requires runtime in RUNTIMES && IsManagerRun(runtime, entries) && (sequential || phase == Starting)
    requires IsFirstOf(entries, sequential, phase, i)
    ensures IsFirst(LinesOf(runtime, entries), PatternOf(runtime, sequential, phase), i)
  {
    SearchedFor(runtime, sequential, phase, entries);
  }

  lemma LastMeans(runtime: string, sequential: bool, phase: Phase, entries: seq<Entry>, i: int)
    requires runtime in RUNTIMES && IsManagerRun(runtime, entries) && (sequential || phase == Starting)
    requires IsLastOf(entries, sequential, phase, i)
    ensures IsLast(LinesOf(runtime, entries), PatternOf(runtime, sequential, phase), i)
  {
    SearchedFor(runtime, sequential, phase, entries);
  }

  lemma PhaseKnown(runtime: string, sequential: bool, phase: Phase)
    requires runtime in RUNTIMES && (sequential || phase == Starting)
    ensures PatternOf(runtime, sequential, phase) in PATTERNS
  {
    PatternsKnown(runtime, sequential);
  }

  lemma RunIsInOrder(log: Log, runtime: string, entries: seq<Entry>)
    requires IsManagerRun(runtime, entries) && log.lines == LinesOf(runtime, entries)
    ensures InOrder(log)
  {
    forall p | p in PATTERNS ensures Chronological(log.lines, p) {
      RunInOrder(runtime, entries, p);
    }
  }

  lemma BaseCancels(base: nat, a: nat, b: nat)
    ensures Seconds(base + b) - Seconds(base + a) == Seconds(b) - Seconds(a)
  {
  }

  /** d is the time in seconds from the first to the last message about a phase, 0 without one. */
  ghost predicate TimeBetween(entries: seq<Entry>, phase: Phase, d: real) {
    && (NoneOf(entries, true, phase) ==> d == 0.0)
    && (forall i, j :: IsFirstOf(entries, true, phase, i) && IsLastOf(entries, true, phase, j) ==>
          d == Seconds(MicrosOf(entries[j])) - Seconds(MicrosOf(entries[i])))
  }

  lemma SpanOfRun(log: Log, runtime: string, phase: Phase, entries: seq<Entry>, base: nat)
    requires runtime in RUNTIMES && IsManagerRun(runtime, entries) && log.lines == LinesOf(runtime, entries)
    ensures var f, p := FileOf(log, base), PatternOf(runtime, true, phase);
            TimeBetween(entries, phase, Last(f, p) - First(f, p))
  {
    var f, p := FileOf(log, base), PatternOf(runtime, true, phase);
    RunIsInOrder(log, runtime, entries);
    PhaseKnown(runtime, true, phase);
    SpanInOrder(log, p, base);
    if NoneOf(entries, true, phase) {
      NoneMeans(runtime, true, phase, entries);
    }
    RunInOrder(runtime, entries, p);
    forall i, j | IsFirstOf(entries, true, phase, i) && IsLastOf(entries, true, phase, j)
      ensures Last(f, p) - First(f, p) == Seconds(MicrosOf(entries[j])) - Seconds(MicrosOf(entries[i]))
    {
      FirstMeans(runtime, true, phase, entries, i);
      LastMeans(runtime, true, phase, entries, j);
      assert TimeAt(log.lines, i) == MicrosOf(entries[i]) && TimeAt(log.lines, j) == MicrosOf(entries[j]);
      BaseCancels(base, MicrosOf(entries[i]), MicrosOf(entries[j]));
    }
  }

  lemma FirstReads(log: Log, p: string, base: nat, i: int, v: nat)
    requires p in PATTERNS && IsFirst(log.lines, p, i) && ReadLine(log.lines[i]) == Some(v)
    ensures First(FileOf(log, base), p) == Seconds(base + v)
  {
    FirstTimeIs(log.lines, p, base, i);
    Present(FileOf(log, base), log, p, base);
  }

  lemma FirstStart(log: Log, runtime: string, sequential: bool, entries: seq<Entry>, base: nat, i: int)
    requires runtime in RUNTIMES && IsManagerRun(runtime, entries) && log.lines == LinesOf(runtime, entries)
    requires IsFirstOf(entries, sequential, Starting, i)
    ensures First(FileOf(log, base), PatternOf(runtime, sequential, Starting)) == Seconds(base + MicrosOf(entries[i]))
  {
    PhaseKnown(runtime, sequential, Starting);
    FirstMeans(runtime, sequential, Starting, entries, i);
    LineRead(runtime, entries[i]);
    FirstReads(log, PatternOf(runtime, sequential, Starting), base, i, MicrosOf(entries[i]));
  }

  lemma NoStart(log: Log, runtime: string, sequential: bool, entries: seq<Entry>, base: nat)
    requires runtime in RUNTIMES && IsManagerRun(runtime, entries) && log.lines == LinesOf(runtime, entries)
    requires NoneOf(entries, sequential, Starting)
    ensures First(FileOf(log, base), PatternOf(runtime, sequential, Starting)) == 0.0
  {
    var p := PatternOf(runtime, sequential, Starting);
    PhaseKnown(runtime, sequential, Starting);
    Present(FileOf(log, base), log, p, base);
    NoneMeans(runtime, sequential, Starting, entries);
    NoTime(log.lines, p, base);
  }

  // ---- the last registration ----

  predicate RegisteredAt(log: Log, r: nat, k: int) {
    IsFirst(log.lines, REGISTERED, k) && ReadLine(log.lines[k]) == Some(r)
  }

  /** r is the latest of the times at which the applications were registered. */
  ghost predicate IsLatest(logs: seq<Log>, runtime: string, r: nat) {
    && (exists j, k :: 0 <= j < |logs| && !Contains(logs[j].name, runtime) && RegisteredAt(logs[j], r, k))
    && (forall j, k, q: nat :: 0 <= j < |logs| && !Contains(logs[j].name, runtime) && RegisteredAt(logs[j], q, k) ==>
          q <= r)
  }

  ghost predicate NoneRegistered(logs: seq<Log>, runtime: string) {
    forall j :: 0 <= j < |logs| && !Contains(logs[j].name, runtime) ==> NoMatch(logs[j].lines, REGISTERED)
  }

  /** What the search for the registration returns for a log with one. */
  lemma RegisteredTime(log: Log, base: nat) returns (k: int)
    requires InOrder(log) && !NoMatch(log.lines, REGISTERED)
    ensures IsFirst(log.lines, REGISTERED, k) && ReadLine(log.lines[k]).Some?
    ensures First(FileOf(log, base), REGISTERED) == Seconds(base + TimeAt(log.lines, k))
  {
    var j;
    k, j := Places(log.lines, REGISTERED);
    FirstRead(log, k);
    FirstTimeIs(log.lines, REGISTERED, base, k);
    Present(FileOf(log, base), log, REGISTERED, base);
  }

  lemma FirstRead(log: Log, k: int)
    requires InOrder(log) && IsFirst(log.lines, REGISTERED, k)
    ensures ReadLine(log.lines[k]).Some?
  {
    assert Chronological(log.lines, REGISTERED);
  }

  lemma NoRegistration(log: Log, base: nat)
    requires NoMatch(log.lines, REGISTERED)
    ensures First(FileOf(log, base), REGISTERED) == 0.0
  {
    Present(FileOf(log, base), log, REGISTERED, base);
    NoTime(log.lines, REGISTERED, base);
  }

  lemma LatestRegistered(logs: seq<Log>, runtime: string, base: nat, r: nat)
    requires AllInOrder(logs) && base > 0 && IsLatest(logs, runtime, r)
    ensures LastRegistered(Files(logs, base), runtime) == Seconds(base + r)
  {
    var files := Files(logs, base);
    var end := LastRegistered(files, runtime);
    var j, k :| 0 <= j < |logs| && !Contains(logs[j].name, runtime) && RegisteredAt(logs[j], r, k);
    assert RegisteredFrom(logs[j], r) by { assert TimeAt(logs[j].lines, k) >= r; }
    LastRegistration(logs, runtime, base, r);
    assert end >= Seconds(base + r) > 0.0;
    var i :| 0 <= i < |files| && !IsManagerLog(files[i], runtime) && First(files[i], REGISTERED) == end;
    if NoMatch(logs[i].lines, REGISTERED) { NoRegistration(logs[i], base); }
    var n := RegisteredTime(logs[i], base);
    assert RegisteredAt(logs[i], TimeAt(logs[i].lines, n), n);
  }

  lemma NothingRegistered(logs: seq<Log>, runtime: string, base: nat)
    requires AllInOrder(logs) && NoneRegistered(logs, runtime)
    ensures LastRegistered(Files(logs, base), runtime) == 0.0
  {
    var files := Files(logs, base);
    forall i | 0 <= i < |files| && !IsManagerLog(files[i], runtime) ensures First(files[i], REGISTERED) == 0.0 {
      NoRegistration(logs[i], base);
    }
  }

  // ---- the sample ----

  /** d is the time in seconds from the first announcement of a start to the latest registration. */
  ghost predicate TimeToLast(logs: seq<Log>, runtime: string, entries: seq<Entry>, sequential: bool,
                             base: nat, d: real) {
    && (forall i, r: nat :: IsFirstOf(entries, sequential, Starting, i) && IsLatest(logs, runtime, r) ==>
          d == Seconds(r) - Seconds(MicrosOf(entries[i])))
    && (forall i :: IsFirstOf(entries, sequential, Starting, i) && NoneRegistered(logs, runtime) ==>
          d == -Seconds(base + MicrosOf(entries[i])))
    && (NoneOf(entries, sequential, Starting) && NoneRegistered(logs, runtime) ==> d == 0.0)
  }

  lemma StartOfRun(logs: seq<Log>, m: nat, runtime: string, sequential: bool, entries: seq<Entry>, base: nat)
    requires runtime in RUNTIMES && base > 0 && AllInOrder(logs) && m < |logs|
    requires IsManagerRun(runtime, entries) && logs[m].lines == LinesOf(runtime, entries)
    ensures TimeToLast(logs, runtime, entries, sequential, base,
                       LastRegistered(Files(logs, base), runtime)
                       - First(FileOf(logs[m], base), PatternOf(runtime, sequential, Starting)))
  {
    if NoneOf(entries, sequential, Starting) {
      NoStart(logs[m], runtime, sequential, entries, base);
    }
    forall i | IsFirstOf(entries, sequential, Starting, i)
      ensures First(FileOf(logs[m], base), PatternOf(runtime, sequential, Starting))
              == Seconds(base + MicrosOf(entries[i]))
    {
      FirstStart(logs[m], runtime, sequential, entries, base, i);
    }
    if NoneRegistered(logs, runtime) {
      NothingRegistered(logs, runtime, base);
    }
    forall r: nat | IsLatest(logs, runtime, r) ensures LastRegistered(Files(logs, base), runtime) == Seconds(base + r) {
      LatestRegistered(logs, runtime, base, r);
    }
  }

  lemma LogIs(logs: seq<Log>, m: nat, runtime: string, base: nat)
    requires ManagerAt(logs, runtime, m)
    ensures ManagerLog(Files(logs, base), runtime) == Some(FileOf(logs[m], base))
  {
    var i := TheManagerLog(logs, runtime, base);
  }

  lemma SampleIs(files: seq<File>, f: File, runtime: string, sequential: bool)
    requires runtime in RUNTIMES && ManagerLog(files, runtime) == Some(f)
    ensures var s := SampleOf(files, runtime, sequential);
            var p, q := PatternOf(runtime, sequential, Mounting), PatternOf(runtime, sequential, Creating);
            && s.mount == (if sequential then Last(f, p) - First(f, p) else 0.0)
            && s.create == (if sequential then Last(f, q) - First(f, q) else 0.0)
            && s.start == LastRegistered(files, runtime) - First(f, PatternOf(runtime, sequential, Starting))
  {
  }

  lemma AllRunsInOrder(logs: seq<Log>, m: nat, runtime: string, entries: seq<Entry>)
    requires m < |logs| && IsManagerRun(runtime, entries) && logs[m].lines == LinesOf(runtime, entries)
    requires forall j :: 0 <= j < |logs| && j != m ==> InOrder(logs[j])
    ensures AllInOrder(logs)
  {
    RunIsInOrder(logs[m], runtime, entries);
  }

  lemma SpansOfSample(files: seq<File>, log: Log, runtime: string, sequential: bool, entries: seq<Entry>, base: nat)
    requires runtime in RUNTIMES && IsManagerRun(runtime, entries) && log.lines == LinesOf(runtime, entries)
    requires ManagerLog(files, runtime) == Some(FileOf(log, base))
    ensures var s := SampleOf(files, runtime, sequential);
            && (sequential ==> TimeBetween(entries, Mounting, s.mount) && TimeBetween(entries, Creating, s.create))
            && (!sequential ==> s.mount == s.create == 0.0)
  {
    SampleIs(files, FileOf(log, base), runtime, sequential);
    if sequential {
      SpanOfRun(log, runtime, Mounting, entries, base);
      SpanOfRun(log, runtime, Creating, entries, base);
    }
  }

  lemma StartOfSample(logs: seq<Log>, m: nat, runtime: string, sequential: bool, entries: seq<Entry>, base: nat)
    requires runtime in RUNTIMES && base > 0 && AllInOrder(logs) && m < |logs|
    requires IsManagerRun(runtime, entries) && logs[m].lines == LinesOf(runtime, entries)
    requires ManagerLog(Files(logs, base), runtime) == Some(FileOf(logs[m], base))
    ensures TimeToLast(logs, runtime, entries, sequential, base,
                       SampleOf(Files(logs, base), runtime, sequential).start)
  {
    SampleIs(Files(logs, base), FileOf(logs[m], base), runtime, sequential);
    StartOfRun(logs, m, runtime, sequential, entries, base);
  }

  /**
   The sample of an iteration, from what the manager printed: mount and create
   are the times from the first to the last message about that phase, start is
   the time from the first message about starting to the latest registration.
   */
  lemma SampleOfRun(logs: seq<Log>, m: nat, runtime: string, sequential: bool, entries: seq<Entry>, base: nat)
    requires runtime in RUNTIMES && base > 0 && ManagerAt(logs, runtime, m)
    requires IsManagerRun(runtime, entries) && logs[m].lines == LinesOf(runtime, entries)
    requires forall j :: 0 <= j < |logs| && j != m ==> InOrder(logs[j])
    ensures var s := SampleOf(Files(logs, base), runtime, sequential);
            && (sequential ==> TimeBetween(entries, Mounting, s.mount) && TimeBetween(entries, Creating, s.create))
            && (!sequential ==> s.mount == s.create == 0.0)
            && TimeToLast(logs, runtime, entries, sequential, base, s.start)
  {
    AllRunsInOrder(logs, m, runtime, entries);
    LogIs(logs, m, runtime, base);
    SpansOfSample(Files(logs, base), logs[m], runtime, sequential, entries, base);
    StartOfSample(logs, m, runtime, sequential, entries, base);
  }
}
