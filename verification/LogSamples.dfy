/**
 From the lines of the log files to what an iteration contributes: the two
 searches over each log of an iteration, and what logs in order make of them.
 */
module LogSamples {
  import opened Options
  import opened Timestamps
  import opened Aggregation

  datatype Log = Log(name: string, lines: seq<string>)

  const PATTERNS := {" mount ", " create ", " start ", "dummy mount string", "dummy create string",
                     " /tasks/create ", " /tasks/start ", " run application ",
                     "run container", "/tasks/create", "run application", REGISTERED}

  /** No search fails on a line without a time, and time does not run backwards. */
  ghost predicate InOrder(log: Log) { forall p :: p in PATTERNS ==> Chronological(log.lines, p) }

  ghost predicate AllInOrder(logs: seq<Log>) { forall i :: 0 <= i < |logs| ==> InOrder(logs[i]) }

  function Seconds(micros: nat): real { micros as real / 1_000_000.0 }

  lemma SecondsAndMicros(micros: nat)
    ensures Seconds(micros) * 1_000_000.0 == micros as real
  {
  }

  function Searched(time: Option<nat>): real { if time.Some? then Seconds(time.value) else 0.0 }

  /** What get_timestamp and get_last_timestamp return for a log. */
  function FileOf(log: Log, base: nat): File {
    File(log.name,
         map p | p in PATTERNS :: Searched(FirstTime(log.lines, p, base)),
         map p | p in PATTERNS :: Searched(LastTime(log.lines, p, base)))
  }

  function Files(logs: seq<Log>, base: nat): (files: seq<File>)
    ensures |files| == |logs| && forall i :: 0 <= i < |logs| ==> files[i] == FileOf(logs[i], base)
  {
    seq(|logs|, i requires 0 <= i < |logs| => FileOf(logs[i], base))
  }

  function TimeAt(lines: seq<string>, i: int): nat
    requires 0 <= i < |lines| && ReadLine(lines[i]).Some?
  {
    ReadLine(lines[i]).value
  }

  lemma Present(f: File, log: Log, p: string, base: nat)
    requires f == FileOf(log, base) && p in PATTERNS
    ensures First(f, p) == Searched(FirstTime(log.lines, p, base))
    ensures Last(f, p) == Searched(LastTime(log.lines, p, base))
  {
  }

  /** A pattern that occurs has a first and a last place. */
  lemma Places(lines: seq<string>, p: string) returns (i: int, j: int)
    requires !NoMatch(lines, p)
    ensures IsFirst(lines, p, i) && IsLast(lines, p, j) && i <= j
  {
    var at :| 0 <= at < |lines| && Contains(lines[at], p);
    i := FirstExists(lines, p, at);
    j := LastExists(lines, p, at);
  }

  /** Both searches of a pattern, if it occurs. */
  lemma BothSearches(lines: seq<string>, p: string, base: nat) returns (i: int, j: int)
    requires Chronological(lines, p) && !NoMatch(lines, p)
    ensures IsFirst(lines, p, i) && IsLast(lines, p, j)
    ensures ReadLine(lines[i]).Some? && ReadLine(lines[j]).Some? && TimeAt(lines, i) <= TimeAt(lines, j)
    ensures FirstTime(lines, p, base) == Some(base + TimeAt(lines, i))
    ensures LastTime(lines, p, base) == Some(base + TimeAt(lines, j))
  {
    i, j := Places(lines, p);
    FirstTimeIs(lines, p, base, i);
    LastTimeIs(lines, p, base, j);
  }

  /** From the first to the last line with a pattern, in a log in order. */
  lemma SpanInOrder(log: Log, p: string, base: nat)
    requires InOrder(log) && p in PATTERNS
    ensures Last(FileOf(log, base), p) - First(FileOf(log, base), p) >= 0.0
    ensures NoMatch(log.lines, p) ==> First(FileOf(log, base), p) == Last(FileOf(log, base), p) == 0.0
    ensures forall i, j :: IsFirst(log.lines, p, i) && IsLast(log.lines, p, j)
                           && ReadLine(log.lines[i]).Some? && ReadLine(log.lines[j]).Some? ==>
              Last(FileOf(log, base), p) - First(FileOf(log, base), p)
              == Seconds(base + TimeAt(log.lines, j)) - Seconds(base + TimeAt(log.lines, i))
  {
    Present(FileOf(log, base), log, p, base);
    if NoMatch(log.lines, p) {
      NoTime(log.lines, p, base);
    } else {
      assert Chronological(log.lines, p);
      var i, j := BothSearches(log.lines, p, base);
      assert forall k :: IsFirst(log.lines, p, k) ==> k == i;
      assert forall k :: IsLast(log.lines, p, k) ==> k == j;
    }
  }

  // ---- one iteration ----

  /** Place i holds the manager log that is listed last. */
  predicate ManagerAt(logs: seq<Log>, runtime: string, i: int) {
    && 0 <= i < |logs| && Contains(logs[i].name, runtime)
    && forall j :: i < j < |logs| ==> !Contains(logs[j].name, runtime)
  }

  /** The first registration in this log comes no earlier than t. */
  ghost predicate RegisteredFrom(log: Log, t: nat) {
    exists k :: IsFirst(log.lines, REGISTERED, k) && ReadLine(log.lines[k]).Some? && TimeAt(log.lines, k) >= t
  }

  ghost predicate SomeRegisteredFrom(logs: seq<Log>, runtime: string, t: nat) {
    exists j :: 0 <= j < |logs| && !Contains(logs[j].name, runtime) && RegisteredFrom(logs[j], t)
  }

  /** If the manager has logged a start, some application was registered no earlier than the first of them. */
  ghost predicate StartAnswered(logs: seq<Log>, runtime: string, pattern: string) {
    forall i, k :: ManagerAt(logs, runtime, i) && IsFirst(logs[i].lines, pattern, k)
                   && ReadLine(logs[i].lines[k]).Some? ==>
      SomeRegisteredFrom(logs, runtime, TimeAt(logs[i].lines, k))
  }

  lemma RegistrationTime(log: Log, base: nat, t: nat)
    requires InOrder(log) && base > 0
    ensures First(FileOf(log, base), REGISTERED) >= Seconds(base + t) <==> RegisteredFrom(log, t)
  {
    Present(FileOf(log, base), log, REGISTERED, base);
    if NoMatch(log.lines, REGISTERED) {
      NoTime(log.lines, REGISTERED, base);
    } else {
      assert Chronological(log.lines, REGISTERED);
      var i, _ := BothSearches(log.lines, REGISTERED, base);
      assert forall k :: IsFirst(log.lines, REGISTERED, k) ==> k == i;
    }
  }

  lemma LastRegistration(logs: seq<Log>, runtime: string, base: nat, t: nat)
    requires AllInOrder(logs) && base > 0
    ensures LastRegistered(Files(logs, base), runtime) >= Seconds(base + t) <==> SomeRegisteredFrom(logs, runtime, t)
  {
    var files := Files(logs, base);
    forall j | 0 <= j < |logs|
      ensures First(files[j], REGISTERED) >= Seconds(base + t) <==> RegisteredFrom(logs[j], t)
    {
      RegistrationTime(logs[j], base, t);
    }
    assert forall j :: 0 <= j < |logs| ==> (IsManagerLog(files[j], runtime) <==> Contains(logs[j].name, runtime));
  }

  /** The log that the loop over the files ends with. */
  lemma TheManagerLog(logs: seq<Log>, runtime: string, base: nat) returns (i: int)
    ensures var f := ManagerLog(Files(logs, base), runtime);
            if f == None then forall j :: !ManagerAt(logs, runtime, j)
            else ManagerAt(logs, runtime, i) && f.value == FileOf(logs[i], base)
                 && forall j :: ManagerAt(logs, runtime, j) ==> j == i
  {
    var files := Files(logs, base);
    var f := ManagerLog(files, runtime);
    i := 0;
    if f == None {
      assert NoLogFrom(files, runtime, 0);
      assert forall j :: 0 <= j < |logs| ==> !IsManagerLog(files[j], runtime);
    } else {
      i :| LastLogAt(files, runtime, i) && files[i] == f.value;
      forall j | i < j < |logs| ensures !Contains(logs[j].name, runtime) {
        assert !IsManagerLog(files[j], runtime);
      }
    }
  }

  lemma PatternsKnown(runtime: string, sequential: bool)
    requires runtime in RUNTIMES
    ensures PatternsOf(runtime, sequential).start in PATTERNS
    ensures sequential ==>
              PatternsOf(runtime, sequential).mount in PATTERNS && PatternsOf(runtime, sequential).create in PATTERNS
  {
  }

  /** Mounting and creating never take less than no time. */
  lemma SpansNotNegative(logs: seq<Log>, runtime: string, sequential: bool, base: nat)
    requires runtime in RUNTIMES && AllInOrder(logs)
    ensures var s := SampleOf(Files(logs, base), runtime, sequential); s.mount >= 0.0 && s.create >= 0.0
  {
    PatternsKnown(runtime, sequential);
    var i := TheManagerLog(logs, runtime, base);
    if ManagerLog(Files(logs, base), runtime).Some? && sequential {
      SpanInOrder(logs[i], PatternsOf(runtime, sequential).mount, base);
      SpanInOrder(logs[i], PatternsOf(runtime, sequential).create, base);
    }
  }

  /** The start time is negative exactly if a start was logged and no application was registered after it. */
  lemma StartNotNegative(logs: seq<Log>, runtime: string, sequential: bool, base: nat)
    requires runtime in RUNTIMES && AllInOrder(logs) && base > 0
    ensures SampleOf(Files(logs, base), runtime, sequential).start >= 0.0
            <==> StartAnswered(logs, runtime, PatternsOf(runtime, sequential).start)
  {
    var p := PatternsOf(runtime, sequential).start;
    PatternsKnown(runtime, sequential);
    var i := TheManagerLog(logs, runtime, base);
    if ManagerLog(Files(logs, base), runtime).Some? {
      var log := logs[i];
      Present(FileOf(log, base), log, p, base);
      if NoMatch(log.lines, p) {
        NoTime(log.lines, p, base);
      } else {
        assert Chronological(log.lines, p);
        var k, _ := BothSearches(log.lines, p, base);
        assert forall k' :: IsFirst(log.lines, p, k') ==> k' == k;
        LastRegistration(logs, runtime, base, TimeAt(log.lines, k));
      }
    }
  }
}
