/**
 The option string of an overlay mount: all layers but the last are lower
 directories, then the upper directory and the work directory.
 */
module Overlay {
  import opened Joining

  /** digest.replace(':', '/') */
  function Slashed(digest: string): (s: string)
    ensures |s| == |digest| && forall i :: 0 <= i < |s| ==> s[i] == if digest[i] == ':' then '/' else digest[i]
  {
    seq(|digest|, i requires 0 <= i < |digest| => if digest[i] == ':' then '/' else digest[i])
  }

  function LayerPath(layerDir: string, digest: string): string { layerDir + "/" + Slashed(digest) }

  /** layer_config[:-1] as paths */
  function Lowers(layerDir: string, digests: seq<string>): (paths: seq<string>)
    ensures |paths| == if digests == [] then 0 else |digests| - 1
    ensures forall i :: 0 <= i < |paths| ==> paths[i] == LayerPath(layerDir, digests[i])
  {
    var n := if digests == [] then 0 else |digests| - 1;
    seq(n, i requires 0 <= i < n => LayerPath(layerDir, digests[i]))
  }

  function Upper(layerDir: string, name: string): string { layerDir + "/sha256/" + name }
  function Work(bundleDir: string): string { bundleDir + "/work" }

  /** Each path with a colon behind it. */
  function Terminated(paths: seq<string>): string {
    if paths == [] then "" else Terminated(paths[..|paths| - 1]) + paths[|paths| - 1] + ":"
  }

  lemma {:induction false} ChopJoins(paths: seq<string>)
    requires paths != []
    ensures Terminated(paths) == Join(paths, ':') + ":"
  {
    var last := |paths| - 1;
    if last > 0 {
      ChopJoins(paths[..last]);
    } else {
      assert Terminated(paths[..0]) == "";
    }
  }

  /** Without a lower layer it is the equals sign that is chopped off. */
  function LowerOption(lowers: seq<string>): string {
    if lowers == [] then "lowerdir" else "lowerdir=" + Join(lowers, ':')
  }

  function MountOptions(lowers: seq<string>, upper: string, work: string): string {
    Join([LowerOption(lowers), "upperdir=" + upper, "workdir=" + work], ',')
  }

  lemma JoinThree(a: string, b: string, c: string)
    ensures Join([a, b, c], ',') == a + "," + b + "," + c
  {
    assert [a, b, c][..2] == [a, b] && [a, b][..1] == [a];
    assert Join([a], ',') == a;
    assert Join([a, b], ',') == a + "," + b;
    assert Join([a, b, c], ',') == Join([a, b], ',') + "," + c;
  }

  method GetMounts(layerDir: string, bundleDir: string, name: string, digests: seq<string>)
    returns (options: string, target: string)
    ensures options == MountOptions(Lowers(layerDir, digests), Upper(layerDir, name), Work(bundleDir))
    ensures target == bundleDir + "/rootfs"
  {
    var lower := "lowerdir=";
    var upper := "upperdir=" + layerDir + "/sha256/" + name;
    var work := "workdir=" + bundleDir + "/work";
    ghost var paths := Lowers(layerDir, digests);
    var n := if digests == [] then 0 else |digests| - 1;
    var i := 0;
    while i < n
      invariant 0 <= i <= n
      invariant lower == "lowerdir=" + Terminated(paths[..i])
    {
      assert paths[..i + 1][..i] == paths[..i];
      lower := lower + layerDir + "/" + Slashed(digests[i]) + ":";
      i := i + 1;
    }
    assert paths[..n] == paths;
    if n > 0 { ChopJoins(paths); }
    lower := lower[..|lower| - 1];
    assert lower == LowerOption(paths);
    JoinThree(lower, upper, work);
    assert upper == "upperdir=" + Upper(layerDir, name) && work == "workdir=" + Work(bundleDir);
    options := lower + "," + upper + "," + work;
    target := bundleDir + "/rootfs";
  }

  // ---- the string as text ----

  lemma LayerText(layerDir: string, hash: string)
    requires ':' !in hash
    ensures LayerPath(layerDir, "sha256:" + hash) == layerDir + "/sha256/" + hash
  {
    assert Slashed("sha256:" + hash) == "sha256/" + hash;
    assert layerDir + "/" + ("sha256/" + hash) == layerDir + "/sha256/" + hash;
  }

  lemma {:induction false} OneLayerMore(lowers: seq<string>, path: string)
    requires lowers != []
    ensures LowerOption(lowers + [path]) == LowerOption(lowers) + ":" + path
  {
    assert (lowers + [path])[..|lowers|] == lowers;
  }

  lemma JoinOne(path: string)
    ensures LowerOption([path]) == "lowerdir=" + path
  {
    assert Join([path], ':') == path;
  }

  /** One lower layer: the whole string. */
  lemma OneLayerText(layerDir: string, bundleDir: string, name: string, hash: string, top: string)
    requires ':' !in hash
    ensures MountOptions(Lowers(layerDir, ["sha256:" + hash, top]), Upper(layerDir, name), Work(bundleDir))
            == "lowerdir=" + (layerDir + "/sha256/" + hash) + "," + ("upperdir=" + (layerDir + "/sha256/" + name))
               + "," + ("workdir=" + (bundleDir + "/work"))
  {
    var lowers := Lowers(layerDir, ["sha256:" + hash, top]);
    LayerText(layerDir, hash);
    assert lowers == [layerDir + "/sha256/" + hash];
    JoinOne(layerDir + "/sha256/" + hash);
    JoinThree("lowerdir=" + (layerDir + "/sha256/" + hash),
              "upperdir=" + Upper(layerDir, name), "workdir=" + Work(bundleDir));
  }

  /** Each further layer puts a colon and its path behind the lower directories; the last layer is not among them. */
  lemma MoreLayersText(layerDir: string, digests: seq<string>, hash: string, top: string)
    requires |digests| >= 2 && ':' !in hash && digests[|digests| - 1] == "sha256:" + hash
    ensures LowerOption(Lowers(layerDir, digests + [top]))
            == LowerOption(Lowers(layerDir, digests)) + ":" + (layerDir + "/sha256/" + hash)
  {
    LayerText(layerDir, hash);
    assert Lowers(layerDir, digests + [top]) == Lowers(layerDir, digests) + [layerDir + "/sha256/" + hash];
    OneLayerMore(Lowers(layerDir, digests), layerDir + "/sha256/" + hash);
  }

  // ---- reading the string back ----

  const LOWERDIR := "lowerdir="

  /** Splitting at ',' and then at ':' gives all the directories back, in order. */
  predicate Recovers(options: string, lowers: seq<string>, upper: string, work: string) {
    var parts := Split(options, ',');
    && |parts| == 3
    && LOWERDIR <= parts[0] && Split(parts[0][|LOWERDIR|..], ':') == lowers
    && parts[1] == "upperdir=" + upper
    && parts[2] == "workdir=" + work
  }

  ghost predicate NoneHas(paths: seq<string>, c: char) {
    forall i :: 0 <= i < |paths| ==> c !in paths[i]
  }

  lemma {:induction false} JoinHas(parts: seq<string>, sep: char, c: char)
    requires c != sep
    ensures c in Join(parts, sep) <==> !NoneHas(parts, c)
  {
    if |parts| > 1 {
      var last := |parts| - 1;
      JoinHas(parts[..last], sep, c);
      assert c in Join(parts, sep) <==> c in Join(parts[..last], sep) || c in parts[last];
      assert forall i :: 0 <= i < last ==> parts[..last][i] == parts[i];
    }
  }

  lemma PrefixHas(prefix: string, s: string, c: char)
    requires c !in prefix
    ensures c in prefix + s <==> c in s
  {
  }

  /** Exactly when there is a lower directory and no directory has a separator in it that is split at. */
  lemma RecoversExactly(lowers: seq<string>, upper: string, work: string)
    ensures Recovers(MountOptions(lowers, upper, work), lowers, upper, work)
            <==> lowers != [] && NoneHas(lowers, ',') && NoneHas(lowers, ':') && ',' !in upper && ',' !in work
  {
    var options := MountOptions(lowers, upper, work);
    PrefixHas("upperdir=", upper, ',');
    PrefixHas("workdir=", work, ',');
    if lowers != [] {
      PrefixHas(LOWERDIR, Join(lowers, ':'), ',');
      JoinHas(lowers, ':', ',');
      assert LowerOption(lowers)[|LOWERDIR|..] == Join(lowers, ':');
      if NoneHas(lowers, ',') && NoneHas(lowers, ':') && ',' !in upper && ',' !in work {
        SplitJoin([LowerOption(lowers), "upperdir=" + upper, "workdir=" + work], ',');
        SplitJoin(lowers, ':');
      }
    }
    if Recovers(options, lowers, upper, work) {
      RecoveredClean(options, lowers, upper, work);
    }
  }

  lemma RecoveredClean(options: string, lowers: seq<string>, upper: string, work: string)
    requires Recovers(options, lowers, upper, work)
    ensures lowers != [] && NoneHas(lowers, ',') && NoneHas(lowers, ':') && ',' !in upper && ',' !in work
  {
    var parts := Split(options, ',');
    SplitParts(options, ',');
    SplitParts(parts[0][|LOWERDIR|..], ':');
    assert ',' !in parts[0] && ',' !in parts[1] && ',' !in parts[2];
    JoinSplit(parts[0][|LOWERDIR|..], ':');
    JoinHas(lowers, ':', ',');
    PrefixHas("upperdir=", upper, ',');
    PrefixHas("workdir=", work, ',');
  }

  /** The same for what get_mounts is given; a colon in a digest does no harm. */
  lemma MountsRecover(layerDir: string, bundleDir: string, name: string, digests: seq<string>)
    ensures var lowers, upper, work := Lowers(layerDir, digests), Upper(layerDir, name), Work(bundleDir);
            Recovers(MountOptions(lowers, upper, work), lowers, upper, work)
            <==> |digests| >= 2
                 && ',' !in layerDir && ',' !in bundleDir && ',' !in name && ':' !in layerDir
                 && forall i :: 0 <= i < |digests| - 1 ==> ',' !in digests[i]
  {
    var lowers, upper, work := Lowers(layerDir, digests), Upper(layerDir, name), Work(bundleDir);
    RecoversExactly(lowers, upper, work);
    assert ',' in upper <==> ',' in layerDir || ',' in name;
    assert ',' in work <==> ',' in bundleDir;
    forall i | 0 <= i < |lowers|
      ensures ',' in lowers[i] <==> ',' in layerDir || ',' in digests[i]
      ensures ':' in lowers[i] <==> ':' in layerDir
    {
      LayerPathHas(layerDir, digests[i]);
    }
    if lowers != [] {
      assert ',' in lowers[0] <==> ',' in layerDir || ',' in digests[0];
      assert ':' in lowers[0] <==> ':' in layerDir;
    }
  }

  lemma LayerPathHas(layerDir: string, digest: string)
    ensures ',' in LayerPath(layerDir, digest) <==> ',' in layerDir || ',' in digest
    ensures ':' in LayerPath(layerDir, digest) <==> ':' in layerDir
  {
    if ',' in digest {
      var k :| 0 <= k < |digest| && digest[k] == ',';
      assert Slashed(digest)[k] == ',';
    }
  }
}
