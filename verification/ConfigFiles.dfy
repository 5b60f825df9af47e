/**
 The configuration of the crun managers: written as an array of objects, read
 back into a table of records with buffers of fixed size, and what the launcher
 then finds in the table.
 */
module ConfigFiles {
  import opened Names
  import ContainerWorld
  import CellRuns
  import BenchmarkPhases

  /** A member of an object; values that are not strings are skipped by the reader. */
  datatype Value = Text(s: string) | Other

  datatype Member = Member(key: string, value: Value)

  // ---- writing ----

  predicate HasMount(command: string) { command == "mount" || command == "run" }
  predicate HasTarget(command: string) { HasMount(command) || command == "umount" }
  predicate HasBundle(command: string) { command == "create" || command == "run" }

  function BundleDir(base: string, i: nat): string { base + "/" + Name(i) }
  function RootfsDir(base: string, i: nat): string { BundleDir(base, i) + "/rootfs" }

  /** The object for container i, with the members of its class in the order of construction. */
  function ObjectFor(command: string, base: string, options: string, i: nat): seq<Member> {
    (if HasMount(command) then [Member("mount_options", Text(options))] else [])
    + (if HasTarget(command) then [Member("mount_target", Text(RootfsDir(base, i)))] else [])
    + (if HasBundle(command) then [Member("bundle", Text(BundleDir(base, i)))] else [])
    + [Member("name", Text(Name(i))), Member("command", Text(command))]
  }

  /** create_config_crun; options[i] is what the snapshotter says about container i. */
  method CreateConfigCrun(num: nat, command: string, base: string, options: seq<string>)
    returns (containers: seq<seq<Member>>)
    requires |options| == num
    ensures |containers| == num
    ensures forall i :: 0 <= i < num ==> containers[i] == ObjectFor(command, base, options[i], i)
  {
    containers := [];
    var i := 0;
    while i < num
      invariant 0 <= i <= num && |containers| == i
      invariant forall k :: 0 <= k < i ==> containers[k] == ObjectFor(command, base, options[k], k)
    {
      var name := Name(i);
      var bundle := base + "/" + name;
      var target := bundle + "/rootfs";
      var obj: seq<Member>;
      var tail := [Member("name", Text(name)), Member("command", Text(command))];
      if command == "mount" {
        obj := [Member("mount_options", Text(options[i])), Member("mount_target", Text(target))] + tail;
      } else if command == "umount" {
        obj := [Member("mount_target", Text(target))] + tail;
      } else if command == "create" {
        obj := [Member("bundle", Text(bundle))] + tail;
      } else if command == "run" {
        obj := [Member("mount_options", Text(options[i])), Member("mount_target", Text(target)),
                   Member("bundle", Text(bundle))] + tail;
      } else {
        obj := tail;
      }
      assert obj == ObjectFor(command, base, options[i], i);
      containers := containers + [obj];
      i := i + 1;
    }
  }

  // ---- reading ----

  /** struct config_containers_s */
  datatype Record = Record(
    name: string, bundle: string, command: string, commandOptions: string,
    mountOptions: string, mountTarget: string, config: string)

  const KEYS := {"name", "bundle", "command", "command_options", "mount_options", "mount_target", "config"}

  function BufferSize(key: string): nat
    requires key in KEYS
  {
    if key == "name" then 20 else if key == "command" then 50 else if key == "command_options" then 10
    else if key == "mount_options" then 1000 else 100
  }

  function Get(r: Record, key: string): string
    requires key in KEYS
  {
    if key == "name" then r.name else if key == "bundle" then r.bundle else if key == "command" then r.command
    else if key == "command_options" then r.commandOptions else if key == "mount_options" then r.mountOptions
    else if key == "mount_target" then r.mountTarget else r.config
  }

  /** A text fits with its terminating zero. */
  predicate Fits(m: Member) { m.key in KEYS && m.value.Text? ==> |m.value.s| < BufferSize(m.key) }

  function Assign(r: Record, m: Member): Record {
    if m.value.Text? then
      var s := m.value.s;
      if m.key == "name" then r.(name := s)
      else if m.key == "bundle" then r.(bundle := s)
      else if m.key == "command" then r.(command := s)
      else if m.key == "command_options" then r.(commandOptions := s)
      else if m.key == "mount_target" then r.(mountTarget := s)
      else if m.key == "mount_options" then r.(mountOptions := s)
      else if m.key == "config" then r.(config := s)
      else r
    else r
  }

  function Filled(r: Record, obj: seq<Member>): Record {
    if obj == [] then r else Assign(Filled(r, obj[..|obj| - 1]), obj[|obj| - 1])
  }

  /** parse_execution_config, from the parsed array on; the table has a record for every possible entry. */
  method ParseExecutionConfig(containers: seq<seq<Member>>, table: array<Record>) returns (num: nat)
    requires |containers| <= table.Length
    requires forall i, k :: 0 <= i < |containers| && 0 <= k < |containers[i]| ==> Fits(containers[i][k])
    modifies table
    ensures num == |containers|
    ensures forall i :: 0 <= i < num ==> table[i] == Filled(old(table[i]), containers[i])
    ensures forall i :: num <= i < table.Length ==> table[i] == old(table[i])
  {
    num := |containers|;
    var i := 0;
    while i < num
      invariant 0 <= i <= num
      invariant forall k :: 0 <= k < i ==> table[k] == Filled(old(table[k]), containers[k])
      invariant forall k :: i <= k < table.Length ==> table[k] == old(table[k])
    {
      var obj := containers[i];
      var n := 0;
      while n < |obj|
        invariant 0 <= n <= |obj|
        invariant table[i] == Filled(old(table[i]), obj[..n])
        invariant forall k :: 0 <= k < table.Length && k != i ==> table[k] == old(table[k]) || k < i
        invariant forall k :: 0 <= k < i ==> table[k] == Filled(old(table[k]), containers[k])
      {
        assert obj[..n + 1][..n] == obj[..n];
        var key, value := obj[n].key, obj[n].value;
        if key == "name" && value.Text? {
          table[i] := table[i].(name := value.s);
        } else if key == "bundle" && value.Text? {
          table[i] := table[i].(bundle := value.s);
        } else if key == "command" && value.Text? {
          table[i] := table[i].(command := value.s);
        } else if key == "command_options" && value.Text? {
          table[i] := table[i].(commandOptions := value.s);
        } else if key == "mount_target" && value.Text? {
          table[i] := table[i].(mountTarget := value.s);
        } else if key == "mount_options" && value.Text? {
          table[i] := table[i].(mountOptions := value.s);
        } else if key == "config" && value.Text? {
          table[i] := table[i].(config := value.s);
        }
        n := n + 1;
      }
      assert obj[..n] == obj;
      i := i + 1;
    }
  }

  // ---- the order of members does not matter ----

  /** obj lists the members of m, each at least once, in any order. */
  ghost predicate Lists(obj: seq<Member>, m: map<string, Value>) {
    && (forall k :: 0 <= k < |obj| ==> obj[k].key in m && m[obj[k].key] == obj[k].value)
    && (forall key :: key in m ==> Member(key, m[key]) in obj)
  }

  lemma AssignReads(r: Record, last: Member, key: string)
    requires key in KEYS
    ensures Get(Assign(r, last), key) == if last.key == key && last.value.Text? then last.value.s else Get(r, key)
  {
  }

  lemma {:induction false} FieldRead(r: Record, obj: seq<Member>, m: map<string, Value>, key: string)
    requires key in KEYS
    requires forall k :: 0 <= k < |obj| ==> obj[k].key in m && m[obj[k].key] == obj[k].value
    ensures Get(Filled(r, obj), key)
            == if key in m && m[key].Text? && Member(key, m[key]) in obj then m[key].s else Get(r, key)
  {
    if obj != [] {
      var front, last := obj[..|obj| - 1], obj[|obj| - 1];
      FieldRead(r, front, m, key);
      if key in m {
        assert obj == front + [last];
        assert Member(key, m[key]) in obj <==> Member(key, m[key]) in front || Member(key, m[key]) == last;
      }
      AssignReads(Filled(r, front), last, key);
    }
  }

  /** Reading any listing of m gives each known member that is a text, and leaves the other fields. */
  lemma ReadsAsMap(r: Record, obj: seq<Member>, m: map<string, Value>)
    requires Lists(obj, m)
    ensures forall key :: key in KEYS ==>
              Get(Filled(r, obj), key) == if key in m && m[key].Text? then m[key].s else Get(r, key)
  {
    forall key | key in KEYS
      ensures Get(Filled(r, obj), key) == if key in m && m[key].Text? then m[key].s else Get(r, key)
    {
      FieldRead(r, obj, m, key);
    }
  }

  function AsMap(command: string, base: string, options: string, i: nat): map<string, Value> {
    (if HasMount(command) then map["mount_options" := Text(options)] else map[])
    + (if HasTarget(command) then map["mount_target" := Text(RootfsDir(base, i))] else map[])
    + (if HasBundle(command) then map["bundle" := Text(BundleDir(base, i))] else map[])
    + map["name" := Text(Name(i)), "command" := Text(command)]
  }

  lemma ObjectLists(command: string, base: string, options: string, i: nat)
    ensures Lists(ObjectFor(command, base, options, i), AsMap(command, base, options, i))
  {
    var obj := ObjectFor(command, base, options, i);
    var tail := [Member("name", Text(Name(i))), Member("command", Text(command))];
    assert tail[0] in tail && tail[1] in tail;
  }

  lemma Reordered(a: seq<Member>, b: seq<Member>, m: map<string, Value>)
    requires multiset(a) == multiset(b) && Lists(b, m)
    ensures Lists(a, m)
  {
    forall x ensures x in a <==> x in b {
      assert x in a <==> x in multiset(a);
      assert x in b <==> x in multiset(b);
    }
    forall k | 0 <= k < |a| ensures a[k].key in m && m[a[k].key] == a[k].value {
      assert a[k] in b;
    }
  }

  /** What the map of a generated object says about each key, in the reader's terms. */
  function Expected(r: Record, command: string, base: string, options: string, i: nat): Record {
    Record(Name(i), if HasBundle(command) then BundleDir(base, i) else r.bundle, command, r.commandOptions,
           if HasMount(command) then options else r.mountOptions,
           if HasTarget(command) then RootfsDir(base, i) else r.mountTarget, r.config)
  }

  lemma ExpectedFields(r: Record, command: string, base: string, options: string, i: nat, key: string)
    requires key in KEYS
    ensures var m := AsMap(command, base, options, i);
            Get(Expected(r, command, base, options, i), key)
              == if key in m && m[key].Text? then m[key].s else Get(r, key)
  {
  }

  lemma SameRecord(a: Record, b: Record)
    requires forall key :: key in KEYS ==> Get(a, key) == Get(b, key)
    ensures a == b
  {
    assert Get(a, "name") == Get(b, "name") && Get(a, "command") == Get(b, "command");
    assert Get(a, "bundle") == Get(b, "bundle") && Get(a, "config") == Get(b, "config");
    assert Get(a, "command_options") == Get(b, "command_options");
    assert Get(a, "mount_options") == Get(b, "mount_options") && Get(a, "mount_target") == Get(b, "mount_target");
  }

  /** The object of container i, with its members in any order, fills the record as it was generated. */
  lemma RoundTrip(command: string, base: string, options: string, i: nat, obj: seq<Member>, r: Record)
    requires multiset(obj) == multiset(ObjectFor(command, base, options, i))
    ensures Filled(r, obj) == Expected(r, command, base, options, i)
  {
    ObjectLists(command, base, options, i);
    Reordered(obj, ObjectFor(command, base, options, i), AsMap(command, base, options, i));
    ReadsAsMap(r, obj, AsMap(command, base, options, i));
    forall key | key in KEYS ensures Get(Filled(r, obj), key) == Get(Expected(r, command, base, options, i), key) {
      ExpectedFields(r, command, base, options, i, key);
    }
    SameRecord(Filled(r, obj), Expected(r, command, base, options, i));
  }

  /** The members of the object of each command. */
  lemma GeneratedMembers(base: string, options: string, i: nat)
    ensures var dir := base + "/" + Name(i);
            var name := Member("name", Text(Name(i)));
            var target, bundle := Member("mount_target", Text(dir + "/rootfs")), Member("bundle", Text(dir));
            && ObjectFor("mount", base, options, i)
               == [Member("mount_options", Text(options)), target, name, Member("command", Text("mount"))]
            && ObjectFor("umount", base, options, i) == [target, name, Member("command", Text("umount"))]
            && ObjectFor("create", base, options, i) == [bundle, name, Member("command", Text("create"))]
            && ObjectFor("run", base, options, i)
               == [Member("mount_options", Text(options)), target, bundle, name, Member("command", Text("run"))]
            && (forall c :: c in {"start", "kill", "delete"} ==>
                  ObjectFor(c, base, options, i) == [name, Member("command", Text(c))])
  {
  }

  ghost predicate AllFits(obj: seq<Member>) { forall k :: 0 <= k < |obj| ==> Fits(obj[k]) }

  lemma AllFitsConcat(a: seq<Member>, b: seq<Member>)
    ensures AllFits(a + b) <==> AllFits(a) && AllFits(b)
  {
    if AllFits(a + b) {
      assert forall k :: 0 <= k < |a| ==> (a + b)[k] == a[k];
      forall k | 0 <= k < |b| ensures Fits(b[k]) {
        assert (a + b)[|a| + k] == b[k];
      }
    }
  }

  lemma AllFitsNone()
    ensures AllFits([])
  {
  }

  lemma AllFitsOne(m: Member)
    ensures AllFits([m]) <==> Fits(m)
  {
    assert [m][0] == m;
  }

  /** What is generated fits the buffers of the reader exactly up to these lengths. */
  lemma GeneratedFits(command: string, base: string, options: string, i: nat)
    requires command in {"mount", "umount", "create", "start", "run", "kill", "delete"}
    ensures AllFits(ObjectFor(command, base, options, i))
            <==> |Name(i)| < 20
                 && (command == "mount" || command == "run" ==> |options| < 1000)
                 && (command == "create" || command == "run" ==> |base + "/" + Name(i)| < 100)
                 && (command == "mount" || command == "umount" || command == "run" ==>
                       |base + "/" + Name(i) + "/rootfs"| < 100)
  {
    var o, t := Member("mount_options", Text(options)), Member("mount_target", Text(RootfsDir(base, i)));
    var b, n := Member("bundle", Text(BundleDir(base, i))), Member("name", Text(Name(i)));
    var c := Member("command", Text(command));
    var first := if HasMount(command) then [o] else [];
    var second := if HasTarget(command) then [t] else [];
    var third := if HasBundle(command) then [b] else [];
    AllFitsConcat(first + second + third, [n, c]);
    AllFitsConcat(first + second, third);
    AllFitsConcat(first, second);
    AllFitsConcat([n], [c]);
    assert [n] + [c] == [n, c];
    AllFitsNone();
    AllFitsOne(o);
    AllFitsOne(t);
    AllFitsOne(b);
    AllFitsOne(n);
    AllFitsOne(c);
  }

  /** The record that is read back, field by field. */
  lemma GeneratedRecord(command: string, base: string, options: string, i: nat, obj: seq<Member>, r: Record)
    requires multiset(obj) == multiset(ObjectFor(command, base, options, i))
    ensures var t, dir := Filled(r, obj), base + "/" + Name(i);
            && t.name == Name(i) && t.command == command
            && t.bundle == (if command == "create" || command == "run" then dir else r.bundle)
            && t.mountOptions == (if command == "mount" || command == "run" then options else r.mountOptions)
            && t.mountTarget
               == (if command == "mount" || command == "umount" || command == "run" then dir + "/rootfs"
                   else r.mountTarget)
            && t.config == r.config && t.commandOptions == r.commandOptions
  {
    RoundTrip(command, base, options, i, obj, r);
  }

  // ---- what the launcher finds ----

  /** The containers of a configuration for `num` under `base`. */
  function Containers(num: nat, base: string): seq<ContainerWorld.Container> {
    seq(num, i requires 0 <= i < num => ContainerWorld.Container(Name(i), RootfsDir(base, i)))
  }

  /** Generated containers never share a name or a root directory. */
  lemma ContainersDistinct(num: nat, base: string)
    ensures ContainerWorld.Distinct(Containers(num, base))
  {
    forall i, j | 0 <= i < j < num ensures Name(i) != Name(j) && RootfsDir(base, i) != RootfsDir(base, j) {
      NamesDiffer(i, j);
      RootfsDiffer(base, Name(i), Name(j));
    }
  }

  lemma RootfsDiffer(base: string, a: string, b: string)
    requires a != b
    ensures base + "/" + a + "/rootfs" != base + "/" + b + "/rootfs"
  {
    Middle(base + "/", a, "/rootfs");
    Middle(base + "/", b, "/rootfs");
  }

  lemma Middle(prefix: string, s: string, suffix: string)
    ensures (prefix + s + suffix)[|prefix|..|prefix + s + suffix| - |suffix|] == s
  {
  }

  /** The job that command_container makes of a record: the mount of "run" and "mount", the bundle of "create". */
  function JobOf(r: Record, rootfs: string): ContainerWorld.Job {
    ContainerWorld.Job(ContainerWorld.Container(r.name, rootfs), ContainerWorld.CrunProgram(r.command))
  }

  /** The directory that a record mounts, unmounts or finds its root file system in. */
  predicate UsesRootfs(r: Record, rootfs: string) {
    && (HasTarget(r.command) ==> r.mountTarget == rootfs)
    && (HasBundle(r.command) ==> r.bundle + "/rootfs" == rootfs)
  }

  /** From index to job: what is generated, in any member order, and read is exactly the batch of the benchmark. */
  lemma GeneratedBatch(num: nat, command: string, base: string, options: seq<string>,
                       objects: seq<seq<Member>>, before: seq<Record>, table: seq<Record>)
    requires |options| == |objects| == num <= |before| == |table|
    requires forall i :: 0 <= i < num ==> multiset(objects[i]) == multiset(ObjectFor(command, base, options[i], i))
    requires forall i :: 0 <= i < num ==> table[i] == Filled(before[i], objects[i])
    ensures var cs := Containers(num, base);
            var jobs := BenchmarkPhases.Jobs(cs, BenchmarkPhases.CrunCommand(command));
            && CellRuns.Independent(jobs)
            && forall i :: 0 <= i < num ==>
                 UsesRootfs(table[i], cs[i].rootfs) && JobOf(table[i], cs[i].rootfs) == jobs[i]
  {
    ContainersDistinct(num, base);
    forall i | 0 <= i < num
      ensures UsesRootfs(table[i], RootfsDir(base, i)) && table[i].name == Name(i) && table[i].command == command
    {
      RoundTrip(command, base, options[i], i, objects[i], before[i]);
    }
  }
}
