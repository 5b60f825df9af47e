/**
 The lines that the managers print, word by word, and which of the analysis'
 search patterns occur in which of them.
 */
module LogLines {
  import opened Decimal
  import opened Names
  import opened Joining
  import opened Timestamps
  import opened Aggregation

  // ---- what is printed ----

  datatype Message =
    | Command(command: string, i: nat, finished: bool)   // crun managers
    | Application(i: nat)                                // native manager
    | Request(path: string, i: nat, finished: bool)      // containerd manager
    | Other(text: string)

  function Text(m: Message): string {
    match m
    case Command(command, i, finished) => command + " container " + Name(i) + if finished then " finished" else ""
    case Application(i) => "run application " + Name(i)
    case Request(path, i, finished) => path + " request for " + Name(i) + if finished then " finished" else " started"
    case Other(text) => text
  }

  function Stamp(runtime: string, date: string, t: Time): string {
    if runtime == "ctrd" then CtrdStamp(date, t, "info") else CrunStamp(date, t)
  }

  function Line(runtime: string, date: string, t: Time, m: Message): string {
    Stamp(runtime, date, t) + (Text(m) + "\n")
  }

  const COMMANDS := {"mount", "umount", "create", "start", "run", "kill", "delete"}

  /** A word of some other message that no search is looking for. */
  predicate Harmless(w: string) {
    && w !in {"mount", "create", "start", "application", "/tasks/create", "/tasks/start"}
    && !EndsWith(w, "run") && !Contains(w, "/tasks/create")
  }

  /** What the manager of this runtime prints. */
  ghost predicate Prints(runtime: string, m: Message) {
    match m
    case Command(command, _, _) => (runtime == "crun" || runtime == "crun_batch") && command in COMMANDS
    case Application(_) => runtime == "native"
    case Request(path, _, _) => runtime == "ctrd" && path in {"/tasks/create", "/tasks/start"}
    case Other(text) => var words := Split(text + "\n", ' '); forall k :: 0 <= k < |words| ==> Harmless(words[k])
  }

  predicate IsDate(date: string) { |date| == 10 && ' ' !in date }

  // ---- words ----

  predicate EndsWith(w: string, s: string) { |s| <= |w| && w[|w| - |s|..] == s }

  /** The pieces of a pattern stand in the words from i on: the outer ones at an end, the others as whole words. */
  predicate StandAt(words: seq<string>, pieces: seq<string>, i: int)
    requires |pieces| >= 2
  {
    && 0 <= i <= |words| - |pieces|
    && EndsWith(words[i], pieces[0]) && pieces[|pieces| - 1] <= words[i + |pieces| - 1]
    && forall k :: 0 < k < |pieces| - 1 ==> words[i + k] == pieces[k]
  }

  /** Where a text contains another one. */
  lemma Occurrence(line: string, pattern: string) returns (a: string, b: string)
    requires Contains(line, pattern)
    ensures line == a + pattern + b
  {
    var at :| 0 <= at <= |line| - |pattern| && OccursAt(line, pattern, at);
    a, b := line[..at], line[at + |pattern|..];
  }

  lemma SplitThree(a: string, p: string, b: string)
    ensures Split(a + p + b, ' ') == Glued(Glued(Split(a, ' '), Split(p, ' ')), Split(b, ' '))
  {
    SplitConcat(a, p, ' ');
    SplitConcat(a + p, b, ' ');
  }

  lemma GluedStands(a: seq<string>, p: seq<string>, b: seq<string>)
    requires a != [] && |p| >= 2 && b != []
    ensures StandAt(Glued(Glued(a, p), b), p, |a| - 1)
  {
  }

  lemma FoundInWords(line: string, pattern: string) returns (i: int)
    requires Contains(line, pattern) && |Split(pattern, ' ')| >= 2
    ensures StandAt(Split(line, ' '), Split(pattern, ' '), i)
  {
    var a, b := Occurrence(line, pattern);
    SplitThree(a, pattern, b);
    GluedStands(Split(a, ' '), Split(pattern, ' '), Split(b, ' '));
    i := |Split(a, ' ')| - 1;
  }

  lemma GluedOne(a: seq<string>, p: string, b: seq<string>)
    requires a != [] && b != []
    ensures Glued(Glued(a, [p]), b)[|a| - 1] == a[|a| - 1] + p + b[0]
  {
  }

  lemma FoundInWord(line: string, pattern: string) returns (i: int)
    requires Contains(line, pattern) && ' ' !in pattern
    ensures 0 <= i < |Split(line, ' ')| && Contains(Split(line, ' ')[i], pattern)
  {
    var a, b := Occurrence(line, pattern);
    SplitThree(a, pattern, b);
    SplitClean(pattern, ' ');
    var left, right := Split(a, ' '), Split(b, ' ');
    GluedOne(left, pattern, right);
    i := |left| - 1;
    assert OccursAt(left[|left| - 1] + pattern + right[0], pattern, |left[|left| - 1]|);
  }

  lemma PutTogether(a: string, pattern: string, b: string)
    ensures Contains(a + pattern + b, pattern)
  {
    assert OccursAt(a + pattern + b, pattern, |a|);
  }

  // ---- the words of the patterns ----

  lemma InnerWord(x: string)
    requires ' ' !in x
    ensures Split(" " + x + " ", ' ') == ["", x, ""]
  {
    SplitFirst(x, "", ' ');
    SplitFirst("", x + " ", ' ');
    assert x + [' '] + "" == x + " " && "" + [' '] + (x + " ") == " " + x + " ";
  }

  lemma TwoWords(x: string, y: string)
    requires ' ' !in x && ' ' !in y
    ensures Split(x + " " + y, ' ') == [x, y]
  {
    SplitFirst(x, y, ' ');
    SplitClean(y, ' ');
  }

  lemma ThreeWords(x: string, y: string, z: string)
    requires ' ' !in x && ' ' !in y && ' ' !in z
    ensures Split(x + " " + y + " " + z, ' ') == [x, y, z]
  {
    TwoWords(x, y);
    SplitPart(x + " " + y, z, ' ');
  }

  /** A word with spaces around it is found as an inner word only. */
  lemma InnerFound(line: string, x: string) returns (k: int)
    requires ' ' !in x && Contains(line, " " + x + " ")
    ensures 0 < k < |Split(line, ' ')| - 1 && Split(line, ' ')[k] == x
  {
    InnerWord(x);
    var i := FoundInWords(line, " " + x + " ");
    k := i + 1;
    assert Split(line, ' ')[i + 1] == ["", x, ""][1];
  }

  lemma TwoFound(line: string, x: string, y: string) returns (k: int)
    requires ' ' !in x && ' ' !in y && Contains(line, x + " " + y)
    ensures 0 <= k < |Split(line, ' ')| - 1 && EndsWith(Split(line, ' ')[k], x) && y <= Split(line, ' ')[k + 1]
  {
    TwoWords(x, y);
    k := FoundInWords(line, x + " " + y);
  }

  lemma ThreeFound(line: string, x: string, y: string, z: string) returns (k: int)
    requires ' ' !in x && ' ' !in y && ' ' !in z && Contains(line, x + " " + y + " " + z)
    ensures 0 < k < |Split(line, ' ')| - 1 && Split(line, ' ')[k] == y
  {
    ThreeWords(x, y, z);
    var i := FoundInWords(line, x + " " + y + " " + z);
    k := i + 1;
    assert Split(line, ' ')[i + 1] == [x, y, z][1];
  }

  // ---- the words of the lines ----

  lemma NameWord(i: nat)
    ensures ' ' !in Name(i) && '/' !in Name(i) && IsDigit(Name(i)[0]) && IsDigit(Name(i)[|Name(i)| - 1])
  {
    assert forall k :: 0 <= k < |Name(i)| ==> IsDigit(Name(i)[k]);
  }

  lemma TimeWord(t: Time)
    ensures ' ' !in TimeText(t) && '/' !in TimeText(t) && |TimeText(t)| == 18
  {
    var h, m, s, n := Pad(t.hour, 2), Pad(t.minute, 2), Pad(t.second, 2), Pad(t.nanos, 9);
    assert TimeText(t) == h + ":" + m + ":" + s + "." + n;
    forall k | 0 <= k < |TimeText(t)| ensures IsDigit(TimeText(t)[k]) || TimeText(t)[k] in {':', '.'} {
    }
  }

  lemma Ending(x: string)
    ensures x + " finished" + "\n" == x + [' '] + "finished\n" && x + " started" + "\n" == x + [' '] + "started\n"
  {
    assert " finished" + "\n" == [' '] + "finished\n" && " started" + "\n" == [' '] + "started\n";
  }

  lemma CommandText(c: string, name: string)
    ensures c + " container " + name == c + " " + "container" + " " + name
  {
    assert " container " == " " + "container" + " ";
  }

  lemma CommandWords(c: string, i: nat, finished: bool)
    requires ' ' !in c
    ensures Split(Text(Command(c, i, finished)) + "\n", ' ')
            == if finished then [c, "container", Name(i), "finished\n"] else [c, "container", Name(i) + "\n"]
  {
    NameWord(i);
    if finished {
      ThreeWords(c, "container", Name(i));
      CommandText(c, Name(i));
      Ending(c + " container " + Name(i));
      SplitPart(c + " container " + Name(i), "finished\n", ' ');
    } else {
      ThreeWords(c, "container", Name(i) + "\n");
      CommandText(c, Name(i) + "\n");
      assert c + " container " + (Name(i) + "\n") == c + " container " + Name(i) + "" + "\n";
    }
  }

  lemma ApplicationText(name: string)
    ensures "run application " + name + "\n" == "run" + " " + "application" + " " + (name + "\n")
  {
    assert "run application " == "run" + " " + "application" + " ";
  }

  lemma ApplicationWords(i: nat)
    ensures Split(Text(Application(i)) + "\n", ' ') == ["run", "application", Name(i) + "\n"]
  {
    NameWord(i);
    ThreeWords("run", "application", Name(i) + "\n");
    ApplicationText(Name(i));
  }

  lemma RequestText(path: string, name: string)
    requires ' ' !in path && ' ' !in name
    ensures Split(path + " request for " + name, ' ') == [path, "request", "for", name]
  {
    ThreeWords(path, "request", "for");
    assert " request for" == " " + "request" + " " + "for";
    assert path + " request for" == path + " " + "request" + " " + "for";
    SplitPart(path + " request for", name, ' ');
    assert path + " request for" + [' '] == path + " request for ";
  }

  lemma RequestWords(path: string, i: nat, finished: bool)
    requires ' ' !in path
    ensures Split(Text(Request(path, i, finished)) + "\n", ' ')
            == [path, "request", "for", Name(i), if finished then "finished\n" else "started\n"]
  {
    NameWord(i);
    RequestText(path, Name(i));
    Ending(path + " request for " + Name(i));
    SplitPart(path + " request for " + Name(i), if finished then "finished\n" else "started\n", ' ');
  }

  lemma StampEnd(x: string)
    ensures x + "Z: " == x + "Z:" + [' ']
  {
    assert "Z: " == "Z:" + [' '];
  }

  lemma CrunWords(date: string, t: Time, text: string)
    requires IsDate(date)
    ensures Split(CrunStamp(date, t) + text, ' ') == [date + "T" + TimeText(t) + "Z:"] + Split(text, ' ')
  {
    TimeWord(t);
    var head := date + "T" + TimeText(t) + "Z:";
    SplitClean(head, ' ');
    SplitBehind(head, text, ' ');
    StampEnd(date + "T" + TimeText(t));
  }

  lemma Bracket(p: string, level: string)
    ensures p + " [" + level + "] " == p + " " + ("[" + level + "]") + [' ']
  {
    assert " [" == " " + "[" && "] " == "]" + [' '];
    assert p + " [" + level == p + " " + ("[" + level);
  }

  lemma CtrdWords(date: string, t: Time, level: string, text: string)
    requires IsDate(date) && ' ' !in level
    ensures Split(CtrdStamp(date, t, level) + text, ' ')
            == [date, TimeText(t), "[" + level + "]"] + Split(text, ' ')
  {
    TimeWord(t);
    ThreeWords(date, TimeText(t), "[" + level + "]");
    SplitBehind(date + " " + TimeText(t) + " " + ("[" + level + "]"), text, ' ');
    Bracket(date + " " + TimeText(t), level);
  }
}
