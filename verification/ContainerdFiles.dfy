/**
 The configuration of the containerd manager: the option string of the
 snapshotter is split into an array, and the reader finds both its containers
 and its options by the number that is printed for their place.
 */
module ContainerdFiles {
  import opened Decimal
  import opened Names
  import opened Joining
  import ContainerWorld
  import CellRuns
  import ConfigFiles
  import BenchmarkPhases

  datatype Value = Text(s: string) | Texts(items: seq<string>)

  datatype Member = Member(key: string, value: Value)

  const TYPE := "overlay"
  const RUNTIME := "io.containerd.runtime.v1.linux"

  // ---- writing ----

  /** The object for container i, with the members of its class in the order of construction. */
  function ObjectFor(command: string, base: string, image: string, digest: string, options: string, i: nat)
    : seq<Member>
  {
    (if command == "prepare" then
       [Member("runtime", Text(RUNTIME)), Member("digest", Text(digest)), Member("image", Text(image)),
        Member("oci_spec", Text(base + "/" + Name(i) + "/config.json"))]
     else if command == "create" || command == "run" then
       [Member("mount_type", Text(TYPE)), Member("mount_source", Text(TYPE)), Member("mount_target", Text(TYPE)),
        Member("mount_options", Texts(Split(options, ',')))]
     else [])
    + [Member("name", Text(Name(i))), Member("command", Text(command))]
  }

  // ---- reading ----

  /** struct config_containers_s; mount_options is an array of ten. */
  datatype Record = Record(
    name: string, command: string, digest: string, image: string, ociSpec: string, runtime: string,
    mountType: string, mountSource: string, mountTarget: string, mountOptions: seq<string>)

  const SLOTS := 10

  const KEYS := {"name", "command", "digest", "image", "oci_spec", "runtime",
                 "mount_type", "mount_source", "mount_target", "mount_options"}

  /** The options go to the slots of their places; a single text is at place 0. */
  function Put(slots: seq<string>, value: Value): (r: seq<string>)
    ensures |slots| == SLOTS && FitsSlots(value) ==> |r| == SLOTS
  {
    var items := if value.Text? then [value.s] else value.items;
    items + if |items| <= |slots| then slots[|items|..] else []
  }

  predicate FitsSlots(value: Value) { value.Texts? ==> |value.items| <= SLOTS }

  /** A string member is read from a text only; anything else is a type error. */
  predicate WellTyped(m: Member) { m.key in KEYS && m.key != "mount_options" ==> m.value.Text? }

  function Assign(r: Record, m: Member): Record {
    if m.key == "mount_options" then r.(mountOptions := Put(r.mountOptions, m.value))
    else if m.value.Texts? then r
    else if m.key == "name" then r.(name := m.value.s)
    else if m.key == "command" then r.(command := m.value.s)
    else if m.key == "digest" then r.(digest := m.value.s)
    else if m.key == "image" then r.(image := m.value.s)
    else if m.key == "oci_spec" then r.(ociSpec := m.value.s)
    else if m.key == "runtime" then r.(runtime := m.value.s)
    else if m.key == "mount_type" then r.(mountType := m.value.s)
    else if m.key == "mount_source" then r.(mountSource := m.value.s)
    else if m.key == "mount_target" then r.(mountTarget := m.value.s)
    else r
  }

  function Filled(r: Record, obj: seq<Member>): Record {
    if obj == [] then r else Assign(Filled(r, obj[..|obj| - 1]), obj[|obj| - 1])
  }

  ghost predicate TypeCorrect(obj: seq<Member>) { forall n :: 0 <= n < |obj| ==> WellTyped(obj[n]) }

  ghost predicate AllFit(obj: seq<Member>) { forall n :: 0 <= n < |obj| ==> FitsSlots(obj[n].value) }

  /** atoi(key.c_str()) */
  function Atoi(key: string): int
    requires AllDigits(key)
  {
    Number(key)
  }

  lemma OneSlotMore(items: seq<string>, slots: seq<string>, n: nat)
    requires n < |items| <= |slots|
    ensures (items[..n] + slots[n..])[n := items[n]] == items[..n + 1] + slots[n + 1..]
  {
  }

  method PutOptions(slots: seq<string>, value: Value) returns (r: seq<string>)
    requires |slots| == SLOTS && FitsSlots(value)
    ensures r == Put(slots, value)
  {
    if value.Text? {
      return slots[0 := value.s];
    }
    r := slots;
    var n := 0;
    while n < |value.items|
      invariant 0 <= n <= |value.items|
      invariant r == value.items[..n] + slots[n..]
    {
      var k := PlaceOf(n);
      OneSlotMore(value.items, slots, n);
      r := r[k := value.items[n]];
      n := n + 1;
    }
  }

  /** One object into its record, as far as it is of the right types. */
  method ReadObject(before: Record, obj: seq<Member>) returns (ok: bool, r: Record)
    requires |before.mountOptions| == SLOTS
    requires AllFit(obj)
    ensures ok <==> TypeCorrect(obj)
    ensures ok ==> r == Filled(before, obj) && |r.mountOptions| == SLOTS
  {
    r := before;
    var n := 0;
    while n < |obj|
      invariant 0 <= n <= |obj|
      invariant TypeCorrect(obj[..n]) && r == Filled(before, obj[..n]) && |r.mountOptions| == SLOTS
    {
      assert obj[..n + 1][..n] == obj[..n];
      var m := obj[n];
      if m.key == "mount_options" {
        var slots := PutOptions(r.mountOptions, m.value);
        r := r.(mountOptions := slots);
      } else if m.key in KEYS && m.value.Texts? {
        assert !WellTyped(obj[n]);
        return false, r;
      } else {
        r := Assign(r, m);
      }
      n := n + 1;
    }
    assert obj[..n] == obj;
    ok := true;
  }

  method ReadAt(table: array<Record>, i: nat, obj: seq<Member>) returns (ok: bool)
    requires i < table.Length && |table[i].mountOptions| == SLOTS && AllFit(obj)
    modifies table
    ensures ok <==> TypeCorrect(obj)
    ensures ok ==> table[i] == Filled(old(table[i]), obj)
    ensures forall k :: 0 <= k < table.Length && k != i ==> table[k] == old(table[k])
  {
    var r;
    ok, r := ReadObject(table[i], obj);
    if ok { table[i] := r; }
  }

  /** The key that the iterator prints for a place in an array, read back. */
  method PlaceOf(place: nat) returns (i: int)
    ensures i == place
  {
    StrNumber(place);
    i := Atoi(Str(place));
  }

  /** parse_execution_config_containers, from the parsed array on. */
  method ParseContainers(containers: seq<seq<Member>>, table: array<Record>) returns (ok: bool, num: int)
    requires 0 < |containers| <= table.Length
    requires forall i :: 0 <= i < table.Length ==> |table[i].mountOptions| == SLOTS
    requires forall i :: 0 <= i < |containers| ==> AllFit(containers[i])
    modifies table
    ensures ok <==> forall i :: 0 <= i < |containers| ==> TypeCorrect(containers[i])
    ensures ok ==> num == |containers|
    ensures ok ==> forall i :: 0 <= i < |containers| ==> table[i] == Filled(old(table[i]), containers[i])
    ensures forall i :: |containers| <= i < table.Length ==> table[i] == old(table[i])
  {
    var i := 0;
    var place := 0;
    while place < |containers|
      invariant 0 <= place <= |containers|
      invariant place > 0 ==> i == place - 1
      invariant forall k :: 0 <= k < place ==> TypeCorrect(containers[k])
      invariant forall k :: 0 <= k < place ==> table[k] == Filled(old(table[k]), containers[k])
      invariant forall k :: place <= k < table.Length ==> table[k] == old(table[k])
    {
      i := PlaceOf(place);
      ok := ReadAt(table, i, containers[place]);
      if !ok {
        assert !TypeCorrect(containers[place]);
        return false, 0;
      }
      place := place + 1;
    }
    ok, num := true, i + 1;
  }

  // ---- the order of members does not matter ----

  predicate DistinctKeys(obj: seq<Member>) { forall j, k :: 0 <= j < k < |obj| ==> obj[j].key != obj[k].key }

  function Get(r: Record, key: string): Value
    requires key in KEYS
  {
    if key == "name" then Text(r.name) else if key == "command" then Text(r.command)
    else if key == "digest" then Text(r.digest) else if key == "image" then Text(r.image)
    else if key == "oci_spec" then Text(r.ociSpec) else if key == "runtime" then Text(r.runtime)
    else if key == "mount_type" then Text(r.mountType) else if key == "mount_source" then Text(r.mountSource)
    else if key == "mount_target" then Text(r.mountTarget) else Texts(r.mountOptions)
  }

  function After(r: Record, m: Member): Value
    requires m.key in KEYS && WellTyped(m)
  {
    if m.key == "mount_options" then Texts(Put(r.mountOptions, m.value)) else m.value
  }

  lemma AssignReadsSame(r: Record, m: Member)
    requires m.key in KEYS && WellTyped(m)
    ensures Get(Assign(r, m), m.key) == After(r, m)
  {
  }

  const MOUNT_KEYS := {"mount_type", "mount_source", "mount_target", "mount_options"}

  lemma MountLeavesOthers(r: Record, m: Member, key: string)
    requires key in KEYS && m.key != key && m.key in MOUNT_KEYS
    ensures Get(Assign(r, m), key) == Get(r, key)
  {
  }

  lemma PlainLeavesOthers(r: Record, m: Member, key: string)
    requires key in KEYS && m.key != key && m.key !in MOUNT_KEYS
    ensures Get(Assign(r, m), key) == Get(r, key)
  {
  }

  lemma AssignReads(r: Record, m: Member, key: string)
    requires key in KEYS && WellTyped(m)
    ensures Get(Assign(r, m), key) == if m.key == key then After(r, m) else Get(r, key)
  {
    if m.key == key {
      AssignReadsSame(r, m);
    } else if m.key in MOUNT_KEYS {
      MountLeavesOthers(r, m, key);
    } else {
      PlainLeavesOthers(r, m, key);
    }
  }

  lemma {:induction false} MissingRead(r: Record, obj: seq<Member>, key: string)
    requires key in KEYS && TypeCorrect(obj) && forall n :: 0 <= n < |obj| ==> obj[n].key != key
    ensures Get(Filled(r, obj), key) == Get(r, key)
  {
    if obj != [] {
      var last := |obj| - 1;
      MissingRead(r, obj[..last], key);
      AssignReads(Filled(r, obj[..last]), obj[last], key);
    }
  }

  lemma {:induction false} MemberRead(r: Record, obj: seq<Member>, n: nat)
    requires TypeCorrect(obj) && DistinctKeys(obj) && n < |obj| && obj[n].key in KEYS
    ensures Get(Filled(r, obj), obj[n].key) == After(r, obj[n])
  {
    var last, key := |obj| - 1, obj[n].key;
    AssignReads(Filled(r, obj[..last]), obj[last], key);
    if n < last {
      MemberRead(r, obj[..last], n);
    } else {
      MissingRead(r, obj[..last], key);
      OptionsAre(r, Filled(r, obj[..last]), key);
    }
  }

  lemma OptionsAre(a: Record, b: Record, key: string)
    requires key in KEYS && Get(a, key) == Get(b, key)
    ensures key == "mount_options" ==> a.mountOptions == b.mountOptions
  {
  }

  /** Two listings of the same members fill a record alike. */
  lemma OrderDoesNotMatter(r: Record, a: seq<Member>, b: seq<Member>)
    requires TypeCorrect(a) && TypeCorrect(b) && DistinctKeys(a) && DistinctKeys(b)
    requires forall m :: m in a <==> m in b
    ensures Filled(r, a) == Filled(r, b)
  {
    forall key | key in KEYS ensures Get(Filled(r, a), key) == Get(Filled(r, b), key) {
      if n :| 0 <= n < |a| && a[n].key == key {
        assert a[n] in b;
        var k :| 0 <= k < |b| && b[k] == a[n];
        MemberRead(r, a, n);
        MemberRead(r, b, k);
      } else {
        forall k | 0 <= k < |b| ensures b[k].key != key {
          assert b[k] in a;
        }
        MissingRead(r, a, key);
        MissingRead(r, b, key);
      }
    }
    SameRecord(Filled(r, a), Filled(r, b));
  }

  lemma SameRecord(a: Record, b: Record)
    requires forall key :: key in KEYS ==> Get(a, key) == Get(b, key)
    ensures a == b
  {
    assert Get(a, "name") == Get(b, "name") && Get(a, "command") == Get(b, "command");
    assert Get(a, "digest") == Get(b, "digest") && Get(a, "image") == Get(b, "image");
    assert Get(a, "oci_spec") == Get(b, "oci_spec") && Get(a, "runtime") == Get(b, "runtime");
    assert Get(a, "mount_type") == Get(b, "mount_type") && Get(a, "mount_source") == Get(b, "mount_source");
    assert Get(a, "mount_target") == Get(b, "mount_target") && Get(a, "mount_options") == Get(b, "mount_options");
  }

  // ---- the round trip ----

  function Expected(r: Record, command: string, base: string, image: string, digest: string, options: string, i: nat)
    : Record
  {
    var named := r.(name := Name(i), command := command);
    if command == "prepare" then
      named.(runtime := RUNTIME, digest := digest, image := image, ociSpec := base + "/" + Name(i) + "/config.json")
    else if command == "create" || command == "run" then
      named.(mountType := TYPE, mountSource := TYPE, mountTarget := TYPE,
             mountOptions := Put(r.mountOptions, Texts(Split(options, ','))))
    else named
  }

  lemma FillTwo(r: Record, obj: seq<Member>, x: Member, y: Member)
    ensures Filled(r, obj + [x, y]) == Assign(Assign(Filled(r, obj), x), y)
  {
    assert (obj + [x, y])[..|obj| + 1] == obj + [x];
    assert (obj + [x])[..|obj|] == obj;
  }

  lemma FillFour(r: Record, a: Member, b: Member, c: Member, d: Member)
    ensures Filled(r, [a, b, c, d]) == Assign(Assign(Assign(Assign(r, a), b), c), d)
  {
    FillTwo(r, [], a, b);
    FillTwo(r, [a, b], c, d);
    assert [] + [a, b] == [a, b] && [a, b] + [c, d] == [a, b, c, d];
  }

  lemma PreparedInOrder(r: Record, base: string, image: string, digest: string, options: string, i: nat)
    ensures Filled(r, ObjectFor("prepare", base, image, digest, options, i))
            == Expected(r, "prepare", base, image, digest, options, i)
  {
    var a, b, c := Member("runtime", Text(RUNTIME)), Member("digest", Text(digest)), Member("image", Text(image));
    var d := Member("oci_spec", Text(base + "/" + Name(i) + "/config.json"));
    FillFour(r, a, b, c, d);
    FillTwo(r, [a, b, c, d], Member("name", Text(Name(i))), Member("command", Text("prepare")));
  }

  lemma MountedInOrder(r: Record, command: string, base: string, image: string, digest: string, options: string, i: nat)
    requires command == "create" || command == "run"
    ensures Filled(r, ObjectFor(command, base, image, digest, options, i))
            == Expected(r, command, base, image, digest, options, i)
  {
    var a, b := Member("mount_type", Text(TYPE)), Member("mount_source", Text(TYPE));
    var c, d := Member("mount_target", Text(TYPE)), Member("mount_options", Texts(Split(options, ',')));
    FillFour(r, a, b, c, d);
    FillTwo(r, [a, b, c, d], Member("name", Text(Name(i))), Member("command", Text(command)));
  }

  lemma InWritingOrder(r: Record, command: string, base: string, image: string, digest: string, options: string, i: nat)
    ensures var obj := ObjectFor(command, base, image, digest, options, i);
            TypeCorrect(obj) && DistinctKeys(obj)
            && Filled(r, obj) == Expected(r, command, base, image, digest, options, i)
  {
    if command == "prepare" {
      PreparedInOrder(r, base, image, digest, options, i);
    } else if command == "create" || command == "run" {
      MountedInOrder(r, command, base, image, digest, options, i);
    } else {
      FillTwo(r, [], Member("name", Text(Name(i))), Member("command", Text(command)));
    }
  }

  /**
   The object of container i, its members in any order, is accepted and fills
   the record as generated; joining the slots gives the snapshotter's string.
   */
  lemma RoundTrip(command: string, base: string, image: string, digest: string, options: string, i: nat,
                  obj: seq<Member>, r: Record)
    requires DistinctKeys(obj)
    requires forall m :: m in obj <==> m in ObjectFor(command, base, image, digest, options, i)
    ensures TypeCorrect(obj) && Filled(r, obj) == Expected(r, command, base, image, digest, options, i)
    ensures command == "create" || command == "run" ==>
              var n := |Split(options, ',')|;
              |Filled(r, obj).mountOptions| >= n && Join(Filled(r, obj).mountOptions[..n], ',') == options
  {
    var written := ObjectFor(command, base, image, digest, options, i);
    InWritingOrder(r, command, base, image, digest, options, i);
    forall n | 0 <= n < |obj| ensures WellTyped(obj[n]) {
      assert obj[n] in written;
    }
    OrderDoesNotMatter(r, obj, written);
    JoinSplit(options, ',');
    assert Put(r.mountOptions, Texts(Split(options, ',')))[..|Split(options, ',')|] == Split(options, ',');
  }

  /** Only the number of mount options is limited. */
  lemma GeneratedFits(command: string, base: string, image: string, digest: string, options: string, i: nat)
    ensures AllFit(ObjectFor(command, base, image, digest, options, i))
            <==> (command == "create" || command == "run" ==> |Split(options, ',')| <= 10)
  {
    var obj := ObjectFor(command, base, image, digest, options, i);
    if command == "create" || command == "run" {
      assert obj[3].value == Texts(Split(options, ','));
    }
  }

  /** The record that is read back, field by field. */
  lemma GeneratedRecord(command: string, base: string, image: string, digest: string, options: string, i: nat,
                        obj: seq<Member>, r: Record)
    requires DistinctKeys(obj)
    requires forall m :: m in obj <==> m in ObjectFor(command, base, image, digest, options, i)
    ensures var t := Filled(r, obj);
            && t.name == Name(i) && t.command == command
            && (if command == "prepare" then
                  t.runtime == "io.containerd.runtime.v1.linux" && t.digest == digest && t.image == image
                  && t.ociSpec == base + "/" + Name(i) + "/config.json"
                else t.runtime == r.runtime && t.digest == r.digest && t.image == r.image && t.ociSpec == r.ociSpec)
            && (if command == "create" || command == "run" then
                  t.mountType == t.mountSource == t.mountTarget == "overlay"
                  && |t.mountOptions| >= |Split(options, ',')|
                  && t.mountOptions[..|Split(options, ',')|] == Split(options, ',')
                else t.mountType == r.mountType && t.mountSource == r.mountSource && t.mountTarget == r.mountTarget
                     && t.mountOptions == r.mountOptions)
  {
    RoundTrip(command, base, image, digest, options, i, obj, r);
    assert Put(r.mountOptions, Texts(Split(options, ',')))[..|Split(options, ',')|] == Split(options, ',');
  }

  /** The job that command makes of a record. */
  function JobOf(r: Record, rootfs: string): ContainerWorld.Job {
    ContainerWorld.Job(ContainerWorld.Container(r.name, rootfs), ContainerWorld.CtrdProgram(r.command))
  }

  /** From index to job, as for the crun managers. */
  lemma GeneratedBatch(num: nat, command: string, base: string, image: string, digest: string, options: seq<string>,
                       objects: seq<seq<Member>>, before: seq<Record>, table: seq<Record>)
    requires |options| == |objects| == num <= |before| == |table|
    requires forall i :: 0 <= i < num ==> DistinctKeys(objects[i])
    requires forall i, m :: 0 <= i < num ==>
               (m in objects[i] <==> m in ObjectFor(command, base, image, digest, options[i], i))
    requires forall i :: 0 <= i < num ==> table[i] == Filled(before[i], objects[i])
    ensures var cs := ConfigFiles.Containers(num, base);
            var jobs := BenchmarkPhases.Jobs(cs, BenchmarkPhases.CtrdCommand(command));
            && CellRuns.Independent(jobs)
            && forall i :: 0 <= i < num ==> jobs[i] == JobOf(table[i], cs[i].rootfs)
  {
    ConfigFiles.ContainersDistinct(num, base);
    forall i | 0 <= i < num ensures table[i].name == Name(i) && table[i].command == command {
      RoundTrip(command, base, image, digest, options[i], i, objects[i], before[i]);
    }
  }
}
