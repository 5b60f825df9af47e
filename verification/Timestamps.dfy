/**
 The times in the log files: how the managers print them, how the analysis
 reads them back from columns 11 to 26 of a line, and its two searches.
 Times read back are microseconds; `base` stands for the dummy day the analysis
 puts in front (mktime of midnight, a positive number).
 */
module Timestamps {

  import opened Options
  import opened Decimal
  import opened Division

  // ---- printing ----

  datatype Time = Time(hour: nat, minute: nat, second: nat, nanos: nat)

  predicate IsTime(t: Time) { t.hour < 24 && t.minute < 60 && t.second < 60 && t.nanos < 1_000_000_000 }

  function Nanos(t: Time): nat { ((t.hour * 60 + t.minute) * 60 + t.second) * 1_000_000_000 + t.nanos }

  function Clock(t: Time): string {
    Pad(t.hour, 2) + ":" + Pad(t.minute, 2) + ":" + Pad(t.second, 2)
  }

  function TimeText(t: Time): string { Clock(t) + "." + Pad(t.nanos, 9) }

  /** The stamp of the crun manager, before the message; date is the ten characters of the date. */
  function CrunStamp(date: string, t: Time): string { date + "T" + TimeText(t) + "Z: " }

  /** What the containerd manager and the applications print before the message. */
  function CtrdStamp(date: string, t: Time, level: string): string { date + " " + TimeText(t) + " [" + level + "] " }

  predicate StartsAt(buffer: array<char>, text: string)
    reads buffer
  {
    |text| < buffer.Length && buffer[..|text|] == text && buffer[|text|] == '\0'
  }

  /** sprintf of text at position `at`, with the terminating zero. */
  method Sprintf(buffer: array<char>, at: nat, text: string)
    requires at + |text| < buffer.Length
    modifies buffer
    ensures buffer[..] == old(buffer[..at]) + text + ['\0'] + old(buffer[at + |text| + 1..])
  {
    var i := 0;
    while i < |text|
      invariant 0 <= i <= |text|
      invariant forall k :: 0 <= k < buffer.Length ==>
                  buffer[k] == if at <= k < at + i then text[k - at] else old(buffer[k])
    {
      buffer[at + i] := text[i];
      i := i + 1;
    }
    buffer[at + i] := '\0';
  }

  /** get_timestamp fills its 64 characters in two steps, the second over the end of the first. */
  method GetStamp(buffer: array<char>, date: string, t: Time)
    requires buffer.Length == 64 && |date| == 10
    modifies buffer
    ensures StartsAt(buffer, CrunStamp(date, t))
  {
    var first := date + "T" + Clock(t);
    Sprintf(buffer, 0, first);
    var second := "." + Pad(t.nanos, 9) + "Z: ";
    assert buffer[..19] == first;
    Sprintf(buffer, 19, second);
    assert CrunStamp(date, t) == first + second;
  }

  // ---- reading back ----

  function Micros(hour: nat, minute: nat, second: nat, micros: nat): nat {
    ((hour * 60 + minute) * 60 + second) * 1_000_000 + micros
  }

  /** The fifteen columns, if they are HH:MM:SS.ffffff. */
  function ReadClock(s: string): Option<nat> {
    if |s| == 15 && s[2] == ':' && s[5] == ':' && s[8] == '.'
       && AllDigits(s[..2]) && AllDigits(s[3..5]) && AllDigits(s[6..8]) && AllDigits(s[9..])
       && Number(s[..2]) < 24 && Number(s[3..5]) < 60 && Number(s[6..8]) < 60
    then Some(Micros(Number(s[..2]), Number(s[3..5]), Number(s[6..8]), Number(s[9..])))
    else None
  }

  function ReadLine(line: string): Option<nat> {
    ReadClock(if |line| < 11 then "" else if |line| < 26 then line[11..] else line[11..26])
  }

  lemma Between(a: string, b: string, c: string)
    ensures (a + b + c)[|a|..|a| + |b|] == b
  {
  }

  lemma Columns(t: Time)
    ensures var s := TimeText(t)[..15];
            && s[2] == ':' && s[5] == ':' && s[8] == '.'
            && s[..2] == Pad(t.hour, 2) && s[3..5] == Pad(t.minute, 2) && s[6..8] == Pad(t.second, 2)
            && s[9..] == Pad(t.nanos, 9)[..6]
  {
    var h, m, s, n := Pad(t.hour, 2), Pad(t.minute, 2), Pad(t.second, 2), Pad(t.nanos, 9);
    assert TimeText(t)[..15] == h + ":" + m + ":" + s + "." + n[..6];
    Between("", h, ":" + m + ":" + s + "." + n[..6]);
    Between(h + ":", m, ":" + s + "." + n[..6]);
    Between(h + ":" + m + ":", s, "." + n[..6]);
    Between(h + ":" + m + ":" + s + ".", n[..6], "");
  }

  lemma Fields(t: Time)
    requires IsTime(t)
    ensures Number(Pad(t.hour, 2)) == t.hour && Number(Pad(t.minute, 2)) == t.minute
            && Number(Pad(t.second, 2)) == t.second
    ensures AllDigits(Pad(t.nanos, 9)[..6]) && Number(Pad(t.nanos, 9)[..6]) == t.nanos / 1000
  {
    assert Pow10(2) == 100 && Pow10(3) == 1000 && Pow10(6) == 1_000_000;
    PadNumber(t.hour, 2);
    PadNumber(t.minute, 2);
    PadNumber(t.second, 2);
    PadPrefix(t.nanos, 9, 3);
    PadNumber(t.nanos / 1000, 6);
  }

  lemma ReadsClock(s: string, hour: nat, minute: nat, second: nat, micros: nat)
    requires |s| == 15 && s[2] == ':' && s[5] == ':' && s[8] == '.' && hour < 24 && minute < 60 && second < 60
    requires AllDigits(s[..2]) && Number(s[..2]) == hour && AllDigits(s[3..5]) && Number(s[3..5]) == minute
    requires AllDigits(s[6..8]) && Number(s[6..8]) == second && AllDigits(s[9..]) && Number(s[9..]) == micros
    ensures ReadClock(s) == Some(Micros(hour, minute, second, micros))
  {
  }

  lemma NanosToMicros(t: Time)
    ensures Nanos(t) / 1000 == Micros(t.hour, t.minute, t.second, t.nanos / 1000)
  {
    QuotientIs(Nanos(t), 1000, Micros(t.hour, t.minute, t.second, t.nanos / 1000), t.nanos % 1000);
  }

  lemma ReadsColumns(prefix: string, clock: string, rest: string)
    requires |prefix| == 11 && |clock| == 15
    ensures ReadLine(prefix + clock + rest) == ReadClock(clock)
  {
    Between(prefix, clock, rest);
  }

  lemma ReadsTime(t: Time)
    requires IsTime(t)
    ensures ReadClock(TimeText(t)[..15]) == Some(Micros(t.hour, t.minute, t.second, t.nanos / 1000))
  {
    Columns(t);
    Fields(t);
    ReadsClock(TimeText(t)[..15], t.hour, t.minute, t.second, t.nanos / 1000);
  }

  lemma ReadsNanos(t: Time)
    requires IsTime(t)
    ensures ReadClock(TimeText(t)[..15]) == Some(Nanos(t) / 1000)
  {
    ReadsTime(t);
    NanosToMicros(t);
  }

  lemma CutBehind(prefix: string, text: string, rest: string)
    requires |text| >= 15
    ensures prefix + text + rest == prefix + text[..15] + (text[15..] + rest)
  {
    assert text == text[..15] + text[15..];
  }

  /** Whatever eleven characters come first and whatever follows: the time is read, floored to microseconds. */
  lemma RoundTrip(prefix: string, t: Time, rest: string)
    requires |prefix| == 11 && IsTime(t)
    ensures ReadLine(prefix + TimeText(t) + rest) == Some(Nanos(t) / 1000)
  {
    ReadsNanos(t);
    ReadsColumns(prefix, TimeText(t)[..15], TimeText(t)[15..] + rest);
    CutBehind(prefix, TimeText(t), rest);
  }

  lemma Thousandfold(n: nat)
    ensures Pad(n * 1000, 9)[..6] == Pad(n, 6)
  {
    assert Pow10(3) == 1000;
    PadPrefix(n * 1000, 9, 3);
    QuotientIs(n * 1000, 1000, n, 0);
  }

  lemma Million()
    ensures Pow10(6) == 1_000_000
  {
    assert Pow10(3) == 1000;
  }

  lemma MicrosText(s: string)
    requires AllDigits(s) && |s| == 6
    ensures Number(s) < 1_000_000 && Pad(Number(s) * 1000, 9)[..6] == s
  {
    PadBack(s);
    Million();
    Thousandfold(Number(s));
  }

  lemma InPieces(s: string)
    requires |s| == 15
    ensures s == s[..2] + [s[2]] + s[3..5] + [s[5]] + s[6..8] + [s[8]] + s[9..]
  {
  }

  lemma ClockText(s: string, t: Time)
    requires |s| == 15 && s[2] == ':' && s[5] == ':' && s[8] == '.'
    requires s[..2] == Pad(t.hour, 2) && s[3..5] == Pad(t.minute, 2) && s[6..8] == Pad(t.second, 2)
    requires s[9..] == Pad(t.nanos, 9)[..6]
    ensures s == TimeText(t)[..15]
  {
    Columns(t);
    InPieces(s);
    InPieces(TimeText(t)[..15]);
  }

  /** What is read as a time is what some time of the day prints, cut to microseconds. */
  lemma ReadsOnlyTimes(s: string) returns (t: Time)
    requires ReadClock(s).Some?
    ensures IsTime(t) && s == TimeText(t)[..15] && ReadClock(s) == Some(Nanos(t) / 1000)
  {
    t := Time(Number(s[..2]), Number(s[3..5]), Number(s[6..8]), Number(s[9..]) * 1000);
    PadBack(s[..2]);
    PadBack(s[3..5]);
    PadBack(s[6..8]);
    MicrosText(s[9..]);
    ClockText(s, t);
    ReadsNanos(t);
  }

  lemma BothPrinters(date: string, t: Time, level: string, message: string)
    requires |date| == 10 && IsTime(t)
    ensures ReadLine(CrunStamp(date, t) + message) == Some(Nanos(t) / 1000)
    ensures ReadLine(CtrdStamp(date, t, level) + message) == Some(Nanos(t) / 1000)
  {
    RoundTrip(date + "T", t, "Z: " + message);
    assert CrunStamp(date, t) + message == date + "T" + TimeText(t) + ("Z: " + message);
    RoundTrip(date + " ", t, " [" + level + "] " + message);
    assert CtrdStamp(date, t, level) + message == date + " " + TimeText(t) + (" [" + level + "] " + message);
  }

  /** The difference of two logged times is off by less than a microsecond, and order is kept. */
  lemma LoggedDifference(p: string, t: Time, message: string, q: string, u: Time, message': string)
    requires |p| == 11 && IsTime(t) && |q| == 11 && IsTime(u)
    ensures var a, b := ReadLine(p + TimeText(t) + message), ReadLine(q + TimeText(u) + message');
            && a.Some? && b.Some?
            && -1000 < (b.value - a.value) * 1000 - (Nanos(u) - Nanos(t)) < 1000
            && (Nanos(t) <= Nanos(u) ==> a.value <= b.value)
  {
    RoundTrip(p, t, message);
    RoundTrip(q, u, message');
  }

  // ---- the two searches ----

  /** str.find(pattern) != -1. */
  predicate Contains(line: string, pattern: string) {
    exists i :: 0 <= i <= |line| - |pattern| && OccursAt(line, pattern, i)
  }

  predicate OccursAt(line: string, pattern: string, i: nat)
    requires i <= |line| - |pattern|
  {
    line[i..i + |pattern|] == pattern
  }

  /** What a search returns: 0 without a match; None stands for the exception on a line without a time. */
  function ReadMatch(line: string, base: nat): Option<nat> {
    match ReadLine(line) { case Some(t) => Some(base + t) case None => None }
  }

  predicate IsFirst(lines: seq<string>, pattern: string, i: int) {
    0 <= i < |lines| && Contains(lines[i], pattern) && forall k :: 0 <= k < i ==> !Contains(lines[k], pattern)
  }

  predicate IsLast(lines: seq<string>, pattern: string, i: int) {
    0 <= i < |lines| && Contains(lines[i], pattern) && forall k :: i < k < |lines| ==> !Contains(lines[k], pattern)
  }

  predicate NoMatch(lines: seq<string>, pattern: string) {
    forall i :: 0 <= i < |lines| ==> !Contains(lines[i], pattern)
  }

  function FirstTime(lines: seq<string>, pattern: string, base: nat): Option<nat> {
    if lines == [] then Some(0)
    else if Contains(lines[0], pattern) then ReadMatch(lines[0], base)
    else FirstTime(lines[1..], pattern, base)
  }

  function LastTime(lines: seq<string>, pattern: string, base: nat): Option<nat> {
    if lines == [] then Some(0)
    else
      var front, last := lines[..|lines| - 1], lines[|lines| - 1];
      if Contains(last, pattern) then ReadMatch(last, base) else LastTime(front, pattern, base)
  }

  method FirstTimestamp(lines: seq<string>, pattern: string, base: nat) returns (r: Option<nat>)
    ensures r == FirstTime(lines, pattern, base)
    ensures forall i :: IsFirst(lines, pattern, i) ==> r == ReadMatch(lines[i], base)
    ensures NoMatch(lines, pattern) ==> r == Some(0)
  {
    var i := 0;
    while i < |lines|
      invariant 0 <= i <= |lines| && forall k :: 0 <= k < i ==> !Contains(lines[k], pattern)
      invariant FirstTime(lines, pattern, base) == FirstTime(lines[i..], pattern, base)
    {
      if Contains(lines[i], pattern) {
        return ReadMatch(lines[i], base);
      }
      i := i + 1;
    }
    return Some(0);
  }

  method LastTimestamp(lines: seq<string>, pattern: string, base: nat) returns (r: Option<nat>)
    ensures r == LastTime(lines, pattern, base)
    ensures forall i :: IsLast(lines, pattern, i) ==> r == ReadMatch(lines[i], base)
    ensures NoMatch(lines, pattern) ==> r == Some(0)
  {
    var i := |lines|;
    assert lines[..i] == lines;
    while i > 0
      invariant 0 <= i <= |lines| && forall k :: i <= k < |lines| ==> !Contains(lines[k], pattern)
      invariant LastTime(lines, pattern, base) == LastTime(lines[..i], pattern, base)
    {
      i := i - 1;
      assert lines[..i + 1][..i] == lines[..i];
      if Contains(lines[i], pattern) {
        return ReadMatch(lines[i], base);
      }
    }
    return Some(0);
  }

  lemma {:induction false} FirstTimeIs(lines: seq<string>, pattern: string, base: nat, i: nat)
    requires IsFirst(lines, pattern, i)
    ensures FirstTime(lines, pattern, base) == ReadMatch(lines[i], base)
  {
    if i > 0 {
      FirstTimeIs(lines[1..], pattern, base, i - 1);
    }
  }

  lemma {:induction false} LastTimeIs(lines: seq<string>, pattern: string, base: nat, i: nat)
    requires IsLast(lines, pattern, i)
    ensures LastTime(lines, pattern, base) == ReadMatch(lines[i], base)
  {
    if i < |lines| - 1 {
      LastTimeIs(lines[..|lines| - 1], pattern, base, i);
    }
  }

  lemma {:induction false} NoTime(lines: seq<string>, pattern: string, base: nat)
    requires NoMatch(lines, pattern)
    ensures FirstTime(lines, pattern, base) == LastTime(lines, pattern, base) == Some(0)
  {
    if lines != [] {
      NoTime(lines[1..], pattern, base);
      NoTime(lines[..|lines| - 1], pattern, base);
    }
  }

  /** The lines that match have a time, and time does not run backwards. */
  ghost predicate Chronological(lines: seq<string>, pattern: string) {
    && (forall i :: 0 <= i < |lines| && Contains(lines[i], pattern) ==> ReadLine(lines[i]).Some?)
    && (forall i, j :: 0 <= i < j < |lines| && Contains(lines[i], pattern) && Contains(lines[j], pattern) ==>
          ReadLine(lines[i]).value <= ReadLine(lines[j]).value)
  }

  lemma FirstExists(lines: seq<string>, pattern: string, at: nat) returns (i: nat)
    requires at < |lines| && Contains(lines[at], pattern)
    ensures IsFirst(lines, pattern, i) && i <= at
  {
    i := 0;
    while !Contains(lines[i], pattern)
      invariant i <= at && forall k :: 0 <= k < i ==> !Contains(lines[k], pattern)
      decreases at - i
    {
      i := i + 1;
    }
  }

  lemma LastExists(lines: seq<string>, pattern: string, at: nat) returns (i: nat)
    requires at < |lines| && Contains(lines[at], pattern)
    ensures IsLast(lines, pattern, i) && at <= i
  {
    i := |lines| - 1;
    while !Contains(lines[i], pattern)
      invariant at <= i < |lines| && forall k :: i < k < |lines| ==> !Contains(lines[k], pattern)
      decreases i
    {
      i := i - 1;
    }
  }

  /** Last minus first: never negative on a chronological log, and 0 without a match. */
  method Duration(lines: seq<string>, pattern: string, base: nat) returns (d: int)
    requires Chronological(lines, pattern)
    ensures d >= 0
    ensures NoMatch(lines, pattern) ==> d == 0
    ensures forall i, j :: IsFirst(lines, pattern, i) && IsLast(lines, pattern, j) ==>
              d == ReadLine(lines[j]).value - ReadLine(lines[i]).value
    ensures forall i, j :: 0 <= i < j < |lines| && Contains(lines[i], pattern) && Contains(lines[j], pattern) ==>
              ReadLine(lines[j]).value - ReadLine(lines[i]).value <= d
  {
    var first := FirstTimestamp(lines, pattern, base);
    var last := LastTimestamp(lines, pattern, base);
    if at :| 0 <= at < |lines| && Contains(lines[at], pattern) {
      ghost var i := FirstExists(lines, pattern, at);
      ghost var j := LastExists(lines, pattern, at);
      assert first == ReadMatch(lines[i], base) && last == ReadMatch(lines[j], base);
    } else {
      assert NoMatch(lines, pattern);
    }
    d := last.value - first.value;
  }
}
