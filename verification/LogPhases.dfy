/**
 Which printed lines the analysis takes for the beginning of which phase: those
 in which the manager announces it, and no other ones.
 */
module LogPhases {
  import opened Decimal
  import opened Names
  import opened Joining
  import opened Timestamps
  import opened Aggregation
  import opened LogLines

  datatype Phase = Mounting | Creating | Starting

  /** What the analysis searches for. */
  function PatternOf(runtime: string, sequential: bool, phase: Phase): string
    requires runtime in RUNTIMES
  {
    match phase
    case Mounting => PatternsOf(runtime, sequential).mount
    case Creating => PatternsOf(runtime, sequential).create
    case Starting => PatternsOf(runtime, sequential).start
  }

  /** The messages about a phase; a start in one go is announced by its first operation. */
  predicate Announces(sequential: bool, phase: Phase, m: Message) {
    match m
    case Command(command, _, _) =>
      (match phase
       case Mounting => command == "mount"
       case Creating => command == "create"
       case Starting => command == if sequential then "start" else "run")
    case Application(_) => phase == Starting
    case Request(path, _, _) =>
      (match phase
       case Mounting => false
       case Creating => path == "/tasks/create"
       case Starting => path == if sequential then "/tasks/start" else "/tasks/create")
    case Other(_) => false
  }

  // ---- words that are not there ----

  predicate NoInner(words: seq<string>, x: string) { forall k :: 0 <= k < |words| - 1 ==> words[k] != x }

  predicate NoRun(words: seq<string>) { forall k :: 0 <= k < |words| - 1 ==> !EndsWith(words[k], "run") }

  lemma NotInner(line: string, x: string)
    requires ' ' !in x && forall k :: 0 < k < |Split(line, ' ')| - 1 ==> Split(line, ' ')[k] != x
    ensures !Contains(line, " " + x + " ")
  {
    if Contains(line, " " + x + " ") {
      var k := InnerFound(line, x);
    }
  }

  lemma NotMiddle(line: string, x: string, y: string, z: string)
    requires ' ' !in x && ' ' !in y && ' ' !in z
    requires forall k :: 0 < k < |Split(line, ' ')| - 1 ==> Split(line, ' ')[k] != y
    ensures !Contains(line, x + " " + y + " " + z)
  {
    if Contains(line, x + " " + y + " " + z) {
      var k := ThreeFound(line, x, y, z);
    }
  }

  lemma NotTwo(line: string, x: string, y: string)
    requires ' ' !in x && ' ' !in y
    requires forall k :: 0 <= k < |Split(line, ' ')| - 1 ==>
               !EndsWith(Split(line, ' ')[k], x) || !(y <= Split(line, ' ')[k + 1])
    ensures !Contains(line, x + " " + y)
  {
    if Contains(line, x + " " + y) {
      var k := TwoFound(line, x, y);
    }
  }

  lemma NotWithin(line: string, p: string)
    requires ' ' !in p && forall k :: 0 <= k < |Split(line, ' ')| ==> !Contains(Split(line, ' ')[k], p)
    ensures !Contains(line, p)
  {
    if Contains(line, p) {
      var k := FoundInWord(line, p);
    }
  }

  lemma EndChar(w: string, s: string)
    requires EndsWith(w, s) && s != ""
    ensures w[|w| - 1] == s[|s| - 1]
  {
    assert w[|w| - |s|..][|s| - 1] == s[|s| - 1];
  }

  lemma NotRun(w: string)
    requires w != "" && w[|w| - 1] != 'n'
    ensures !EndsWith(w, "run")
  {
    if EndsWith(w, "run") {
      EndChar(w, "run");
    }
  }

  lemma NameIsNot(i: nat, x: string)
    requires x != "" && !IsDigit(x[0])
    ensures Name(i) != x
  {
    NameWord(i);
  }

  // ---- lines of the crun and the native manager ----

  lemma CrunNotInner(date: string, t: Time, text: string, x: string)
    requires IsDate(date) && ' ' !in x && NoInner(Split(text, ' '), x)
    ensures !Contains(CrunStamp(date, t) + text, " " + x + " ")
  {
    CrunWords(date, t, text);
    NotInner(CrunStamp(date, t) + text, x);
  }

  /** The native manager is not searched for mounts and creations; what stands for them does not occur. */
  lemma CrunNoDummy(date: string, t: Time, text: string, x: string)
    requires IsDate(date) && ' ' !in x && NoInner(Split(text, ' '), x)
    ensures !Contains(CrunStamp(date, t) + text, "dummy" + " " + x + " " + "string")
  {
    CrunWords(date, t, text);
    NotMiddle(CrunStamp(date, t) + text, "dummy", x, "string");
  }

  lemma DummyTexts()
    ensures "dummy" + " " + "mount" + " " + "string" == "dummy mount string"
    ensures "dummy" + " " + "create" + " " + "string" == "dummy create string"
  {
  }

  lemma CrunNotRun(date: string, t: Time, text: string, y: string)
    requires IsDate(date) && ' ' !in y && NoRun(Split(text, ' '))
    ensures !Contains(CrunStamp(date, t) + text, "run" + " " + y)
  {
    CrunWords(date, t, text);
    NotRun(date + "T" + TimeText(t) + "Z:");
    NotTwo(CrunStamp(date, t) + text, "run", y);
  }

  lemma NoneIs(c: string, name: string, last: string, x: string)
    requires c != x && name != x && x != "container"
    ensures NoInner([c, "container", name, last], x) && NoInner([c, "container", last], x)
  {
  }

  lemma CommandInner(c: string, i: nat, finished: bool, x: string)
    requires ' ' !in c && c != x && x != "" && !IsDigit(x[0]) && x != "container"
    ensures NoInner(Split(Text(Command(c, i, finished)) + "\n", ' '), x)
  {
    CommandWords(c, i, finished);
    NameIsNot(i, x);
    NoneIs(c, Name(i), if finished then "finished\n" else Name(i) + "\n", x);
  }

  lemma CommandIsNotRun(c: string)
    requires c in COMMANDS && c != "run"
    ensures !EndsWith(c, "run")
  {
    assert c in {"mount", "umount", "create", "start", "kill", "delete"};
    assert c[|c| - 1] != 'n';
    NotRun(c);
  }

  lemma NoneEndsWithRun(c: string, name: string, last: string)
    requires !EndsWith(c, "run") && !EndsWith(name, "run")
    ensures NoRun([c, "container", name, last]) && NoRun([c, "container", last])
  {
    NotRun("container");
  }

  lemma NameIsNotRun(i: nat)
    ensures !EndsWith(Name(i), "run")
  {
    NameWord(i);
    NotRun(Name(i));
  }

  lemma CommandRun(c: string, i: nat, finished: bool)
    requires c in COMMANDS && c != "run"
    ensures NoRun(Split(Text(Command(c, i, finished)) + "\n", ' '))
  {
    CommandWords(c, i, finished);
    NameIsNotRun(i);
    CommandIsNotRun(c);
    NoneEndsWithRun(c, Name(i), if finished then "finished\n" else Name(i) + "\n");
  }

  lemma OtherWords(runtime: string, text: string)
    requires Prints(runtime, Other(text))
    ensures var words := Split(text + "\n", ' ');
            && NoRun(words) && forall x :: x in {"mount", "create", "start", "application"} ==> NoInner(words, x)
  {
    var words := Split(text + "\n", ' ');
    assert forall k :: 0 <= k < |words| ==> Harmless(words[k]);
  }

  lemma CommandSpaced(head: string, c: string, rest: string)
    ensures head + [' '] + (c + " container " + rest) == head + (" " + c + " ") + ("container " + rest)
    ensures head + [' '] + (c + " container " + rest) == head + [' '] + (c + " " + "container") + (" " + rest)
  {
    assert " container " == " " + "container ";
    assert " container " == " " + "container" + " ";
  }

  /** A command in a line, with what stands around it. */
  lemma CommandFound(date: string, t: Time, c: string, rest: string)
    ensures Contains(CrunStamp(date, t) + (c + " container " + rest), " " + c + " ")
    ensures Contains(CrunStamp(date, t) + (c + " container " + rest), c + " " + "container")
  {
    var head := date + "T" + TimeText(t) + "Z:";
    StampEnd(date + "T" + TimeText(t));
    CommandSpaced(head, c, rest);
    PutTogether(head, " " + c + " ", "container " + rest);
    PutTogether(head + [' '], c + " " + "container", " " + rest);
  }

  /** " mount ", " create " and " start " are in the announcements of that command only. */
  lemma CrunInner(date: string, t: Time, m: Message, x: string)
    requires IsDate(date) && Prints("crun", m) && x in {"mount", "create", "start"}
    ensures Contains(CrunStamp(date, t) + (Text(m) + "\n"), " " + x + " ") <==> m.Command? && m.command == x
  {
    match m
    case Command(c, i, finished) =>
      if c == x {
        CommandFound(date, t, c, Name(i) + (if finished then " finished" else "") + "\n");
        CommandRest(c, Name(i), if finished then " finished" else "");
      } else {
        CommandInner(c, i, finished, x);
        CrunNotInner(date, t, Text(m) + "\n", x);
      }
    case Other(text) =>
      OtherWords("crun", text);
      CrunNotInner(date, t, Text(m) + "\n", x);
  }

  lemma CommandRest(c: string, name: string, ending: string)
    ensures c + " container " + name + ending + "\n" == c + " container " + (name + ending + "\n")
  {
  }

  lemma CrunRun(date: string, t: Time, m: Message)
    requires IsDate(date) && Prints("crun", m)
    ensures Contains(CrunStamp(date, t) + (Text(m) + "\n"), "run" + " " + "container")
            <==> m.Command? && m.command == "run"
  {
    match m
    case Command(c, i, finished) =>
      if c == "run" {
        CommandFound(date, t, c, Name(i) + (if finished then " finished" else "") + "\n");
        CommandRest(c, Name(i), if finished then " finished" else "");
      } else {
        CommandRun(c, i, finished);
        CrunNotRun(date, t, Text(m) + "\n", "container");
      }
    case Other(text) =>
      OtherWords("crun", text);
      CrunNotRun(date, t, Text(m) + "\n", "container");
  }

  lemma ApplicationInner(i: nat, x: string)
    requires x != "application" && x != "run"
    ensures NoInner(Split(Text(Application(i)) + "\n", ' '), x)
  {
    ApplicationWords(i);
  }

  lemma ApplicationSpaced(head: string, rest: string)
    ensures head + [' '] + ("run application " + rest) == head + " run application " + rest
  {
    assert [' '] + "run application " == " run application ";
    assert head + [' '] + ("run application " + rest) == head + ([' '] + "run application ") + rest;
  }

  lemma ApplicationFound(date: string, t: Time, rest: string)
    ensures Contains(CrunStamp(date, t) + ("run application " + rest), " run application ")
    ensures Contains(CrunStamp(date, t) + ("run application " + rest), "run application")
  {
    var head := date + "T" + TimeText(t) + "Z:";
    StampEnd(date + "T" + TimeText(t));
    ApplicationSpaced(head, rest);
    PutTogether(head, " run application ", rest);
    assert " run application " == " " + "run application" + " ";
    Within(head + " run application " + rest, " ", "run application", " ");
  }

  lemma OtherNoApplication(date: string, t: Time, text: string)
    requires IsDate(date) && Prints("native", Other(text))
    ensures !Contains(CrunStamp(date, t) + (text + "\n"), "run application")
    ensures !Contains(CrunStamp(date, t) + (text + "\n"), " run application ")
  {
    var line := CrunStamp(date, t) + (text + "\n");
    OtherWords("native", text);
    CrunNotRun(date, t, text + "\n", "application");
    assert "run" + " " + "application" == "run application";
    if Contains(line, " run application ") {
      assert " run application " == " " + "run application" + " ";
      Within(line, " ", "run application", " ");
    }
  }

  /** The native manager announces the application; it neither mounts nor creates anything. */
  lemma NativeStart(date: string, t: Time, m: Message)
    requires IsDate(date) && Prints("native", m)
    ensures Contains(CrunStamp(date, t) + (Text(m) + "\n"), " run application ") <==> m.Application?
    ensures Contains(CrunStamp(date, t) + (Text(m) + "\n"), "run application") <==> m.Application?
  {
    match m
    case Application(i) =>
      ApplicationFound(date, t, Name(i) + "\n");
      assert Text(m) + "\n" == "run application " + (Name(i) + "\n");
    case Other(text) => OtherNoApplication(date, t, text);
  }

  lemma Within(line: string, a: string, p: string, b: string)
    requires Contains(line, a + p + b)
    ensures Contains(line, p)
  {
    var x, y := Occurrence(line, a + p + b);
    PutTogether(x + a, p, b + y);
    assert x + (a + p + b) + y == x + a + p + (b + y);
  }

  lemma NoDummy(date: string, t: Time, m: Message)
    requires IsDate(date) && Prints("native", m)
    ensures !Contains(CrunStamp(date, t) + (Text(m) + "\n"), "dummy mount string")
    ensures !Contains(CrunStamp(date, t) + (Text(m) + "\n"), "dummy create string")
  {
    match m {
      case Application(i) =>
        ApplicationInner(i, "mount");
        ApplicationInner(i, "create");
      case Other(text) =>
        OtherWords("native", text);
    }
    CrunNoDummy(date, t, Text(m) + "\n", "mount");
    CrunNoDummy(date, t, Text(m) + "\n", "create");
    DummyTexts();
  }

  // ---- lines of the containerd manager ----

  lemma CtrdNotInner(date: string, t: Time, text: string, x: string)
    requires IsDate(date) && ' ' !in x && |x| != 18 && x != "[info]" && NoInner(Split(text, ' '), x)
    ensures !Contains(CtrdStamp(date, t, "info") + text, " " + x + " ")
    ensures !Contains(CtrdStamp(date, t, "info") + text, "dummy" + " " + x + " " + "string")
  {
    var line := CtrdStamp(date, t, "info") + text;
    CtrdWords(date, t, "info", text);
    assert "[" + "info" + "]" == "[info]";
    TimeWord(t);
    var head := [date, TimeText(t), "[info]"];
    forall k | 0 < k < |Split(line, ' ')| - 1 ensures Split(line, ' ')[k] != x {
      assert Split(line, ' ')[k] == if k < 3 then head[k] else Split(text, ' ')[k - 3];
    }
    NotInner(line, x);
    NotMiddle(line, "dummy", x, "string");
  }

  const TASKS_CREATE := "/tasks/create"
  const TASKS_START := "/tasks/start"

  lemma HasSlash(w: string)
    requires Contains(w, TASKS_CREATE)
    ensures |w| >= 13 && '/' in w
  {
    var i :| 0 <= i <= |w| - |TASKS_CREATE| && OccursAt(w, TASKS_CREATE, i);
    assert w[i] == w[i..i + |TASKS_CREATE|][0];
  }

  lemma NoSlashNoPath(w: string)
    requires '/' !in w || |w| < 13
    ensures !Contains(w, TASKS_CREATE)
  {
    if Contains(w, TASKS_CREATE) {
      HasSlash(w);
    }
  }

  lemma CtrdNotWithin(date: string, t: Time, text: string)
    requires IsDate(date) && forall k :: 0 <= k < |Split(text, ' ')| ==> !Contains(Split(text, ' ')[k], TASKS_CREATE)
    ensures !Contains(CtrdStamp(date, t, "info") + text, TASKS_CREATE)
  {
    var line := CtrdStamp(date, t, "info") + text;
    CtrdWords(date, t, "info", text);
    assert "[" + "info" + "]" == "[info]";
    TimeWord(t);
    NoSlashNoPath(date);
    NoSlashNoPath(TimeText(t));
    NoSlashNoPath("[info]");
    var head := [date, TimeText(t), "[info]"];
    forall k | 0 <= k < |Split(line, ' ')| ensures !Contains(Split(line, ' ')[k], TASKS_CREATE) {
      assert Split(line, ' ')[k] == if k < 3 then head[k] else Split(text, ' ')[k - 3];
    }
    NotWithin(line, TASKS_CREATE);
  }

  lemma RequestInner(path: string, i: nat, finished: bool, x: string)
    requires ' ' !in path && path != x && x != "" && !IsDigit(x[0]) && x != "request" && x != "for"
    ensures NoInner(Split(Text(Request(path, i, finished)) + "\n", ' '), x)
  {
    RequestWords(path, i, finished);
    NameIsNot(i, x);
  }

  lemma StartIsNotCreate(i: nat, finished: bool)
    ensures var words := Split(Text(Request(TASKS_START, i, finished)) + "\n", ' ');
            forall k :: 0 <= k < |words| ==> !Contains(words[k], TASKS_CREATE)
  {
    RequestWords(TASKS_START, i, finished);
    NameWord(i);
    NoSlashNoPath(TASKS_START);
    NoSlashNoPath("request");
    NoSlashNoPath("for");
    NoSlashNoPath(Name(i));
    NoSlashNoPath(if finished then "finished\n" else "started\n");
  }

  lemma RequestFound(date: string, t: Time, path: string, rest: string)
    ensures Contains(CtrdStamp(date, t, "info") + (path + " " + rest), " " + path + " ")
    ensures Contains(CtrdStamp(date, t, "info") + (path + " " + rest), path)
  {
    var head := date + " " + TimeText(t) + " " + ("[" + "info" + "]");
    Bracket(date + " " + TimeText(t), "info");
    var line := CtrdStamp(date, t, "info") + (path + " " + rest);
    assert line == head + (" " + path + " ") + rest;
    PutTogether(head, " " + path + " ", rest);
    Within(line, " ", path, " ");
  }

  lemma RequestLine(path: string, name: string, ending: string)
    ensures path + " request for " + name + ending + "\n" == path + " " + ("request for " + name + ending + "\n")
  {
    assert " request for " == " " + "request for ";
  }

  lemma OtherPaths(text: string)
    requires Prints("ctrd", Other(text))
    ensures var words := Split(text + "\n", ' ');
            && NoInner(words, TASKS_CREATE) && NoInner(words, TASKS_START)
            && forall k :: 0 <= k < |words| ==> !Contains(words[k], TASKS_CREATE)
  {
    var words := Split(text + "\n", ' ');
    assert forall k :: 0 <= k < |words| ==> Harmless(words[k]);
  }

  lemma CtrdInner(date: string, t: Time, m: Message, x: string)
    requires IsDate(date) && Prints("ctrd", m) && (x == TASKS_CREATE || x == TASKS_START)
    ensures Contains(CtrdStamp(date, t, "info") + (Text(m) + "\n"), " " + x + " ") <==> m.Request? && m.path == x
  {
    match m
    case Request(path, i, finished) =>
      if path == x {
        var ending := if finished then " finished" else " started";
        RequestFound(date, t, path, "request for " + Name(i) + ending + "\n");
        RequestLine(path, Name(i), ending);
      } else {
        RequestInner(path, i, finished, x);
        CtrdNotInner(date, t, Text(m) + "\n", x);
      }
    case Other(text) =>
      OtherPaths(text);
      CtrdNotInner(date, t, Text(m) + "\n", x);
  }

  lemma CtrdWithin(date: string, t: Time, m: Message)
    requires IsDate(date) && Prints("ctrd", m)
    ensures Contains(CtrdStamp(date, t, "info") + (Text(m) + "\n"), TASKS_CREATE)
            <==> m.Request? && m.path == TASKS_CREATE
  {
    match m
    case Request(path, i, finished) =>
      if path == TASKS_CREATE {
        var ending := if finished then " finished" else " started";
        RequestFound(date, t, path, "request for " + Name(i) + ending + "\n");
        RequestLine(path, Name(i), ending);
      } else {
        StartIsNotCreate(i, finished);
        CtrdNotWithin(date, t, Text(m) + "\n");
      }
    case Other(text) =>
      OtherPaths(text);
      CtrdNotWithin(date, t, Text(m) + "\n");
  }

  lemma CtrdNoMount(date: string, t: Time, m: Message)
    requires IsDate(date) && Prints("ctrd", m)
    ensures !Contains(CtrdStamp(date, t, "info") + (Text(m) + "\n"), "dummy mount string")
  {
    match m {
      case Request(path, i, finished) => RequestInner(path, i, finished, "mount");
      case Other(text) => OtherWords("ctrd", text);
    }
    CtrdNotInner(date, t, Text(m) + "\n", "mount");
    DummyTexts();
  }

  // ---- every runtime ----

  lemma CrunPhase(runtime: string, sequential: bool, phase: Phase, date: string, t: Time, m: Message)
    requires (runtime == "crun" || runtime == "crun_batch") && Prints(runtime, m) && IsDate(date)
    requires sequential || phase == Starting
    ensures Contains(Line(runtime, date, t, m), PatternOf(runtime, sequential, phase))
            <==> Announces(sequential, phase, m)
  {
    CrunInner(date, t, m, if phase == Mounting then "mount" else if phase == Creating then "create" else "start");
    CrunRun(date, t, m);
    assert " " + "mount" + " " == " mount " && " " + "create" + " " == " create " && " " + "start" + " " == " start ";
    assert "run" + " " + "container" == "run container";
  }

  lemma NativePhase(sequential: bool, phase: Phase, date: string, t: Time, m: Message)
    requires Prints("native", m) && IsDate(date) && (sequential || phase == Starting)
    ensures Contains(Line("native", date, t, m), PatternOf("native", sequential, phase))
            <==> Announces(sequential, phase, m)
  {
    NativeStart(date, t, m);
    NoDummy(date, t, m);
  }

  lemma TaskTexts()
    ensures " " + TASKS_CREATE + " " == " /tasks/create " && " " + TASKS_START + " " == " /tasks/start "
  {
  }

  lemma CtrdPhase(sequential: bool, phase: Phase, date: string, t: Time, m: Message)
    requires Prints("ctrd", m) && IsDate(date) && (sequential || phase == Starting)
    ensures Contains(Line("ctrd", date, t, m), PatternOf("ctrd", sequential, phase))
            <==> Announces(sequential, phase, m)
  {
    TaskTexts();
    if phase == Mounting {
      CtrdNoMount(date, t, m);
    } else if phase == Creating {
      CtrdInner(date, t, m, TASKS_CREATE);
    } else if sequential {
      CtrdInner(date, t, m, TASKS_START);
    } else {
      CtrdWithin(date, t, m);
    }
  }

  /** A line that a manager prints has the pattern of a phase exactly if it announces that phase. */
  lemma PatternMeansPhase(runtime: string, sequential: bool, phase: Phase, date: string, t: Time, m: Message)
    requires runtime in RUNTIMES && Prints(runtime, m) && IsDate(date) && (sequential || phase == Starting)
    ensures Contains(Line(runtime, date, t, m), PatternOf(runtime, sequential, phase))
            <==> Announces(sequential, phase, m)
  {
    if runtime == "native" {
      NativePhase(sequential, phase, date, t, m);
    } else if runtime == "ctrd" {
      CtrdPhase(sequential, phase, date, t, m);
    } else {
      CrunPhase(runtime, sequential, phase, date, t, m);
    }
  }

  // ---- the applications ----

  /** What an application prints when its state changes. */
  function StateText(name: string, registered: bool): string {
    "Application " + name + " is " + if registered then "registered." else "deregistered."
  }

  lemma StateWords(name: string, word: string)
    requires ' ' !in name && ' ' !in word
    ensures Split("Application " + name + " is " + word + "\n", ' ') == ["Application", name, "is", word + "\n"]
  {
    ThreeWords("Application", name, "is");
    SplitPart("Application" + " " + name + " " + "is", word + "\n", ' ');
    StateSpaced(name, word);
  }

  lemma StateSpaced(name: string, word: string)
    ensures "Application " + name + " is " + word + "\n"
            == "Application" + " " + name + " " + "is" + [' '] + (word + "\n")
  {
    assert "Application " == "Application" + " " && " is " == " " + "is" + [' '];
  }

  lemma RegisteredFound(stamp: string, name: string)
    ensures Contains(stamp + ("Application " + name + " is " + "registered." + "\n"), "is registered")
  {
    var front := stamp + ("Application " + name + " ");
    PutTogether(front, "is registered", "." + "\n");
    assert "is registered" + ("." + "\n") == "is " + "registered." + "\n";
    assert " is " == " " + "is ";
    assert front + "is registered" + ("." + "\n") == stamp + ("Application " + name + " is " + "registered." + "\n");
  }

  /** The registration is found when an application is registered, and not when it is deregistered. */
  lemma RegistrationMeans(date: string, t: Time, level: string, name: string, registered: bool)
    requires IsDate(date) && ' ' !in level && ' ' !in name
    ensures Contains(CtrdStamp(date, t, level) + (StateText(name, registered) + "\n"), REGISTERED) <==> registered
  {
    var text := StateText(name, registered) + "\n";
    if registered {
      RegisteredFound(CtrdStamp(date, t, level), name);
    } else {
      NotDeregistered(date, t, level, name);
    }
  }

  lemma TimeStart(t: Time)
    ensures TimeText(t) != "" && IsDigit(TimeText(t)[0])
  {
    assert TimeText(t)[0] == Pad(t.hour, 2)[0];
  }

  lemma NotRegistered(w: string)
    requires w != "" && w[0] != 'r'
    ensures !("registered" <= w)
  {
  }

  lemma NoneRegistered(date: string, time: string, level: string, name: string)
    requires time != "" && time[0] != 'r' && level != "" && level[0] != 'r'
    ensures var words := [date, time, level, "Application", name, "is", "deregistered.\n"];
            forall k :: 0 <= k < |words| - 1 ==> !EndsWith(words[k], "is") || !("registered" <= words[k + 1])
  {
    NotRegistered(time);
    NotRegistered(level);
    NotRegistered("Application");
    NotRegistered("is");
    NotRegistered("deregistered.\n");
    if EndsWith("Application", "is") {
      EndChar("Application", "is");
    }
  }

  lemma NotDeregistered(date: string, t: Time, level: string, name: string)
    requires IsDate(date) && ' ' !in level && ' ' !in name
    ensures !Contains(CtrdStamp(date, t, level) + ("Application " + name + " is " + "deregistered." + "\n"),
                      "is registered")
  {
    var text := "Application " + name + " is " + "deregistered." + "\n";
    var line := CtrdStamp(date, t, level) + text;
    CtrdWords(date, t, level, text);
    StateWords(name, "deregistered.");
    var words := [date, TimeText(t), "[" + level + "]", "Application", name, "is", "deregistered.\n"];
    TimeStart(t);
    assert "deregistered." + "\n" == "deregistered.\n";
    assert Split(line, ' ') == words;
    NoneRegistered(date, TimeText(t), "[" + level + "]", name);
    NotTwo(line, "is", "registered");
    assert "is" + " " + "registered" == "is registered";
  }
}
