/**
 Copying the upper layer of an image into the tree of every container, but
 never over a file that is already there.  The files are regular files: symbolic
 links, which the source copies as links, are not modelled.
 */
module LayerCopy {
  import opened Decimal
  import opened Names
  import Overlay

  type Content = seq<int>

  /** A path below the layer directory: one directory name, then a slash and the rest. */
  function PathIn(layerDir: string, top: string, rel: string): string { layerDir + "/" + top + rel }

  predicate NoSlash(s: string) { '/' !in s }

  predicate Relative(rel: string) { rel != "" && rel[0] == '/' }

  /** The directory name and the rest can be told apart again. */
  lemma SamePath(layerDir: string, a: string, x: string, b: string, y: string)
    requires NoSlash(a) && NoSlash(b) && Relative(x) && Relative(y)
    requires PathIn(layerDir, a, x) == PathIn(layerDir, b, y)
    ensures a == b && x == y
  {
    var p, q, n := PathIn(layerDir, a, x), PathIn(layerDir, b, y), |layerDir| + 1;
    assert p[n..] == a + x && q[n..] == b + y;
    assert (a + x)[|a|] == '/' && (b + y)[|b|] == '/';
    assert forall k :: 0 <= k < |a| ==> (a + x)[k] != '/';
    assert forall k :: 0 <= k < |b| ==> (b + y)[k] != '/';
    assert |a| == |b|;
    assert a == (a + x)[..|a|] && b == (b + y)[..|b|];
    assert x == (a + x)[|a|..] && y == (b + y)[|b|..];
  }

  lemma NameHasNoSlash(i: nat)
    ensures NoSlash(Name(i))
  {
    assert forall k :: 0 <= k < |Name(i)| ==> IsDigit(Name(i)[k]);
  }

  /** Where the listing of the upper layer finds its paths. */
  predicate Below(layerDir: string, digest: string, file: string) {
    var base := layerDir + "/" + digest;
    base <= file && Relative(file[|base|..])
  }

  function Target(layerDir: string, digest: string, i: nat, file: string): string
    requires Below(layerDir, digest, file)
  {
    PathIn(layerDir, Name(i), file[|layerDir + "/" + digest|..])
  }

  lemma BelowIsPath(layerDir: string, digest: string, file: string)
    requires Below(layerDir, digest, file)
    ensures file == PathIn(layerDir, digest, file[|layerDir + "/" + digest|..])
  {
  }

  lemma SameTarget(layerDir: string, digest: string, i: nat, f: string, j: nat, g: string)
    requires Below(layerDir, digest, f) && Below(layerDir, digest, g)
    requires Target(layerDir, digest, i, f) == Target(layerDir, digest, j, g)
    ensures i == j && f == g
  {
    NameHasNoSlash(i);
    NameHasNoSlash(j);
    var n := |layerDir + "/" + digest|;
    SamePath(layerDir, Name(i), f[n..], Name(j), g[n..]);
    if i != j { NamesDiffer(i, j); }
    BelowIsPath(layerDir, digest, f);
    BelowIsPath(layerDir, digest, g);
  }

  /** A copy never lands in the upper layer, unless onto the very file that it is made from. */
  lemma TargetBelow(layerDir: string, digest: string, i: nat, f: string, g: string)
    requires NoSlash(digest) && Below(layerDir, digest, f) && Below(layerDir, digest, g)
    requires Target(layerDir, digest, i, f) == g
    ensures f == g
  {
    NameHasNoSlash(i);
    var n := |layerDir + "/" + digest|;
    BelowIsPath(layerDir, digest, f);
    BelowIsPath(layerDir, digest, g);
    SamePath(layerDir, Name(i), f[n..], digest, g[n..]);
  }

  // ---- what a copy leaves ----

  datatype Copy = Copy(i: nat, file: string)

  ghost predicate Possible(layerDir: string, digest: string, before: map<string, Content>, copies: set<Copy>) {
    forall c :: c in copies ==> Below(layerDir, digest, c.file) && c.file in before
  }

  ghost predicate Extends(before: map<string, Content>, now: map<string, Content>) {
    forall p :: p in before ==> p in now && now[p] == before[p]
  }

  ghost predicate AllMade(layerDir: string, digest: string, before: map<string, Content>, now: map<string, Content>,
                          copies: set<Copy>)
    requires Possible(layerDir, digest, before, copies)
  {
    forall c :: c in copies ==>
      var target := Target(layerDir, digest, c.i, c.file);
      target in now && (target !in before ==> now[target] == before[c.file])
  }

  ghost predicate NothingElse(layerDir: string, digest: string, before: map<string, Content>, now: map<string, Content>,
                              copies: set<Copy>)
    requires Possible(layerDir, digest, before, copies)
  {
    forall p :: p in now && p !in before ==> exists c :: c in copies && Target(layerDir, digest, c.i, c.file) == p
  }

  /** `now` is `before` with these copies made: nothing overwritten, nothing else added. */
  ghost predicate Copied(layerDir: string, digest: string, before: map<string, Content>, now: map<string, Content>,
                         copies: set<Copy>) {
    && Possible(layerDir, digest, before, copies)
    && Extends(before, now)
    && AllMade(layerDir, digest, before, now, copies)
    && NothingElse(layerDir, digest, before, now, copies)
  }

  lemma OneMoreCopy(layerDir: string, digest: string, before: map<string, Content>, now: map<string, Content>,
                    copies: set<Copy>, c: Copy)
    requires Copied(layerDir, digest, before, now, copies)
    requires Below(layerDir, digest, c.file) && c.file in before
    ensures var target := Target(layerDir, digest, c.i, c.file);
            Copied(layerDir, digest, before, if target in now then now else now[target := now[c.file]], copies + {c})
  {
    var target := Target(layerDir, digest, c.i, c.file);
    if target !in now {
      NewCopy(layerDir, digest, before, now, copies, c);
    } else if target !in before {
      var d :| d in copies && Target(layerDir, digest, d.i, d.file) == target;
      SameTarget(layerDir, digest, c.i, c.file, d.i, d.file);
    }
  }

  lemma NewCopy(layerDir: string, digest: string, before: map<string, Content>, now: map<string, Content>,
                copies: set<Copy>, c: Copy)
    requires Copied(layerDir, digest, before, now, copies)
    requires Below(layerDir, digest, c.file) && c.file in before
    requires Target(layerDir, digest, c.i, c.file) !in now
    ensures Copied(layerDir, digest, before, now[Target(layerDir, digest, c.i, c.file) := now[c.file]], copies + {c})
  {
    var next := now[Target(layerDir, digest, c.i, c.file) := now[c.file]];
    assert Possible(layerDir, digest, before, copies + {c});
    assert Extends(before, next);
    assert AllMade(layerDir, digest, before, next, copies + {c});
    NothingElseNew(layerDir, digest, before, now, copies, c);
  }

  lemma NothingElseNew(layerDir: string, digest: string, before: map<string, Content>, now: map<string, Content>,
                       copies: set<Copy>, c: Copy)
    requires Possible(layerDir, digest, before, copies + {c}) && Possible(layerDir, digest, before, copies)
    requires c.file in now && NothingElse(layerDir, digest, before, now, copies)
    ensures Below(layerDir, digest, c.file)
    ensures NothingElse(layerDir, digest, before, now[Target(layerDir, digest, c.i, c.file) := now[c.file]],
            copies + {c})
  {
    assert c in copies + {c};
    var target := Target(layerDir, digest, c.i, c.file);
    forall p | p in now[target := now[c.file]] && p !in before
      ensures exists d :: d in copies + {c} && Target(layerDir, digest, d.i, d.file) == p
    {
      if p != target {
        var d :| d in copies && Target(layerDir, digest, d.i, d.file) == p;
        assert d in copies + {c};
      }
    }
  }

  /** What is a file in the upper layer stays the same through the copying. */
  lemma LayerUnchanged(layerDir: string, digest: string, before: map<string, Content>, now: map<string, Content>,
                       copies: set<Copy>, file: string)
    requires NoSlash(digest) && Copied(layerDir, digest, before, now, copies) && Below(layerDir, digest, file)
    ensures file in now <==> file in before
  {
    if file in now && file !in before {
      var c :| c in copies && Target(layerDir, digest, c.i, c.file) == file;
      TargetBelow(layerDir, digest, c.i, c.file, file);
    }
  }

  /** Every listed path that is a file, once for each of the num containers. */
  ghost function AllCopies(before: map<string, Content>, listed: set<string>, num: nat): set<Copy> {
    set i, file | 0 <= i < num && file in listed && file in before :: Copy(i, file)
  }

  /** The copies for container i of these paths. */
  ghost function CopiesTo(before: map<string, Content>, i: nat, paths: seq<string>): set<Copy> {
    set file | file in paths && file in before :: Copy(i, file)
  }

  lemma OnePathMore(before: map<string, Content>, i: nat, paths: seq<string>, k: nat)
    requires k < |paths|
    ensures CopiesTo(before, i, paths[..k + 1])
            == CopiesTo(before, i, paths[..k]) + if paths[k] in before then {Copy(i, paths[k])} else {}
  {
    assert paths[..k + 1] == paths[..k] + [paths[k]];
  }

  lemma OneRoundMore(before: map<string, Content>, listed: set<string>, i: nat, paths: seq<string>)
    requires forall file :: file in paths <==> file in listed
    ensures AllCopies(before, listed, i + 1) == AllCopies(before, listed, i) + CopiesTo(before, i, paths)
  {
  }

  /** What one turn of the loop over the paths makes of the files. */
  function AfterFile(layerDir: string, digest: string, i: nat, file: string, files: map<string, Content>)
    : map<string, Content>
    requires Below(layerDir, digest, file)
  {
    var target := Target(layerDir, digest, i, file);
    if file in files && target !in files then files[target := files[file]] else files
  }

  /** The copies for the containers before i, and for i of the first k paths. */
  ghost function CopiesUpTo(before: map<string, Content>, listed: set<string>, i: nat, paths: seq<string>, k: nat)
    : set<Copy>
    requires k <= |paths|
  {
    AllCopies(before, listed, i) + CopiesTo(before, i, paths[..k])
  }

  lemma OneFileMore(layerDir: string, digest: string, before: map<string, Content>, now: map<string, Content>,
                    listed: set<string>, i: nat, paths: seq<string>, k: nat)
    requires NoSlash(digest) && k < |paths| && Below(layerDir, digest, paths[k])
    requires Copied(layerDir, digest, before, now, CopiesUpTo(before, listed, i, paths, k))
    ensures Copied(layerDir, digest, before, AfterFile(layerDir, digest, i, paths[k], now),
                   CopiesUpTo(before, listed, i, paths, k + 1))
  {
    var file, copies := paths[k], CopiesUpTo(before, listed, i, paths, k);
    LayerUnchanged(layerDir, digest, before, now, copies, file);
    OnePathMore(before, i, paths, k);
    if file in before {
      OneMoreCopy(layerDir, digest, before, now, copies, Copy(i, file));
      assert CopiesUpTo(before, listed, i, paths, k + 1) == copies + {Copy(i, file)};
    } else {
      assert CopiesUpTo(before, listed, i, paths, k + 1) == copies;
    }
  }

  class Tree {
    /** Only what os.path.isfile accepts; directories come into being with their files. */
    var files: map<string, Content>

    /** copy_upper_layer; each round may list the same paths in another order. */
    method CopyUpperLayer(layerDir: string, digest: string, num: nat, listed: set<string>, rounds: seq<seq<string>>)
      requires NoSlash(digest) && forall file :: file in listed ==> Below(layerDir, digest, file)
      requires |rounds| == num && forall i, file :: 0 <= i < num ==> (file in rounds[i] <==> file in listed)
      modifies this
      ensures Copied(layerDir, digest, old(files), files, AllCopies(old(files), listed, num))
    {
      ghost var before := files;
      var i := 0;
      while i < num
        invariant 0 <= i <= num
        invariant Copied(layerDir, digest, before, files, AllCopies(before, listed, i))
      {
        var k, paths := 0, rounds[i];
        assert CopiesUpTo(before, listed, i, paths, 0) == AllCopies(before, listed, i);
        while k < |paths|
          invariant 0 <= k <= |paths|
          invariant Copied(layerDir, digest, before, files, CopiesUpTo(before, listed, i, paths, k))
        {
          var file := paths[k];
          assert file in rounds[i];
          OneFileMore(layerDir, digest, before, files, listed, i, paths, k);
          if file in files {
            var target := Target(layerDir, digest, i, file);
            if target !in files {
              files := files[target := files[file]];
            }
          }
          k := k + 1;
        }
        assert paths[..k] == paths;
        OneRoundMore(before, listed, i, paths);
        i := i + 1;
      }
    }
  }

  // ---- what that means ----

  /** The result is determined by what was there, so the order of the listings does not matter. */
  lemma OrderDoesNotMatter(layerDir: string, digest: string, before: map<string, Content>, copies: set<Copy>,
                           a: map<string, Content>, b: map<string, Content>)
    requires Copied(layerDir, digest, before, a, copies) && Copied(layerDir, digest, before, b, copies)
    ensures a == b
  {
    SubTree(layerDir, digest, before, copies, a, b);
    SubTree(layerDir, digest, before, copies, b, a);
  }

  lemma SubTree(layerDir: string, digest: string, before: map<string, Content>, copies: set<Copy>,
                a: map<string, Content>, b: map<string, Content>)
    requires Copied(layerDir, digest, before, a, copies) && Copied(layerDir, digest, before, b, copies)
    ensures forall p :: p in a ==> p in b && a[p] == b[p]
  {
    forall p | p in a ensures p in b && a[p] == b[p] {
      if p !in before {
        var c :| c in copies && Target(layerDir, digest, c.i, c.file) == p;
      }
    }
  }

  /** A second run finds everything in place and changes nothing. */
  lemma SecondRunChangesNothing(layerDir: string, digest: string, listed: set<string>, num: nat,
                                before: map<string, Content>, once: map<string, Content>, twice: map<string, Content>)
    requires NoSlash(digest)
    requires Copied(layerDir, digest, before, once, AllCopies(before, listed, num))
    requires Copied(layerDir, digest, once, twice, AllCopies(once, listed, num))
    ensures twice == once
  {
    forall c | c in AllCopies(once, listed, num)
      ensures Below(layerDir, digest, c.file) && Target(layerDir, digest, c.i, c.file) in once
    {
      LayerUnchanged(layerDir, digest, before, once, AllCopies(before, listed, num), c.file);
      assert c in AllCopies(before, listed, num);
    }
    assert forall p :: p in twice ==> p in once;
    assert forall p :: p in once ==> p in twice && twice[p] == once[p];
  }

  /** Every container has every file of the layer below its own name, its own version if it had one. */
  lemma EveryContainerHasEveryFile(layerDir: string, digest: string, listed: set<string>, num: nat,
                                   before: map<string, Content>, after: map<string, Content>, i: nat, rel: string)
    requires Copied(layerDir, digest, before, after, AllCopies(before, listed, num))
    requires i < num && Relative(rel)
    requires layerDir + "/" + digest + rel in listed && layerDir + "/" + digest + rel in before
    ensures var file, path := layerDir + "/" + digest + rel, layerDir + "/" + Name(i) + rel;
            path in after && after[path] == if path in before then before[path] else before[file]
  {
    var file := layerDir + "/" + digest + rel;
    assert Copy(i, file) in AllCopies(before, listed, num);
    assert Target(layerDir, digest, i, file) == layerDir + "/" + Name(i) + rel;
  }

  /** What is new in the tree is a file of the layer, below the name of one of the containers. */
  lemma NothingNewElsewhere(layerDir: string, digest: string, listed: set<string>, num: nat,
                            before: map<string, Content>, after: map<string, Content>, path: string)
    returns (i: nat, rel: string)
    requires Copied(layerDir, digest, before, after, AllCopies(before, listed, num))
    requires path in after && path !in before
    ensures i < num && path == layerDir + "/" + Name(i) + rel
    ensures layerDir + "/" + digest + rel in listed && layerDir + "/" + digest + rel in before
  {
    var c :| c in AllCopies(before, listed, num) && Target(layerDir, digest, c.i, c.file) == path;
    i, rel := c.i, c.file[|layerDir + "/" + digest|..];
    BelowIsPath(layerDir, digest, c.file);
  }

  /** What is copied below <outputDir>/sha256 is in the upper directory that the mount options name. */
  lemma CopiedToUpperDirectory(outputDir: string, digest: string, listed: set<string>, num: nat,
                               before: map<string, Content>, after: map<string, Content>, i: nat, rel: string)
    requires var layerDir := outputDir + "/sha256";
             && Copied(layerDir, digest, before, after, AllCopies(before, listed, num))
             && i < num && Relative(rel)
             && layerDir + "/" + digest + rel in listed && layerDir + "/" + digest + rel in before
    ensures outputDir + "/sha256/" + Name(i) + rel in after
    ensures Overlay.Upper(outputDir, Name(i)) + rel in after
  {
    EveryContainerHasEveryFile(outputDir + "/sha256", digest, listed, num, before, after, i, rel);
    assert outputDir + "/sha256" + "/" + Name(i) + rel == outputDir + "/sha256/" + Name(i) + rel;
  }
}
