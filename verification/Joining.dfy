/** Texts joined by a separator and split at one. */
module Joining {

  function Join(parts: seq<string>, sep: char): string {
    if parts == [] then ""
    else if |parts| == 1 then parts[0]
    else Join(parts[..|parts| - 1], sep) + [sep] + parts[|parts| - 1]
  }

  /** s.split(sep); an empty text has one empty part. */
  function Split(s: string, sep: char): (parts: seq<string>)
    ensures parts != []
  {
    if s == "" then [""]
    else
      var front, c := Split(s[..|s| - 1], sep), s[|s| - 1];
      if c == sep then front + [""] else front[..|front| - 1] + [front[|front| - 1] + [c]]
  }

  lemma {:induction false} SplitPart(s: string, part: string, sep: char)
    requires sep !in part
    ensures Split(s + [sep] + part, sep) == Split(s, sep) + [part]
  {
    var whole := s + [sep] + part;
    if part == "" {
      assert whole[..|whole| - 1] == s;
    } else {
      SplitPart(s, part[..|part| - 1], sep);
      assert whole[..|whole| - 1] == s + [sep] + part[..|part| - 1];
      assert part == part[..|part| - 1] + [part[|part| - 1]];
    }
  }

  lemma {:induction false} SplitClean(part: string, sep: char)
    requires sep !in part
    ensures Split(part, sep) == [part]
  {
    if part != "" {
      SplitClean(part[..|part| - 1], sep);
      assert part == part[..|part| - 1] + [part[|part| - 1]];
    }
  }

  /** The parts of two texts put together: the last part of one and the first of the other become one. */
  function Glued(a: seq<string>, b: seq<string>): (parts: seq<string>)
    requires a != [] && b != []
    ensures |parts| == |a| + |b| - 1
  {
    a[..|a| - 1] + [a[|a| - 1] + b[0]] + b[1..]
  }

  function Grown(parts: seq<string>, c: char): seq<string>
    requires parts != []
  {
    parts[..|parts| - 1] + [parts[|parts| - 1] + [c]]
  }

  lemma SplitMore(s: string, c: char, sep: char)
    ensures Split(s + [c], sep) == if c == sep then Split(s, sep) + [""] else Grown(Split(s, sep), c)
  {
    assert (s + [c])[..|s|] == s;
  }

  lemma GluedMore(a: seq<string>, b: seq<string>, c: char)
    requires a != [] && b != []
    ensures Glued(a, b + [""]) == Glued(a, b) + [""]
    ensures Glued(a, Grown(b, c)) == Grown(Glued(a, b), c)
  {
    if |b| == 1 {
      assert a[|a| - 1] + b[0] + [c] == a[|a| - 1] + (b[0] + [c]);
    }
  }

  lemma GluedNone(a: seq<string>)
    requires a != []
    ensures Glued(a, [""]) == a
  {
    assert a[|a| - 1] + "" == a[|a| - 1];
  }

  lemma ConcatMore(x: string, y: string, c: char, sep: char)
    requires Split(x + y, sep) == Glued(Split(x, sep), Split(y, sep))
    ensures Split(x + y + [c], sep) == Glued(Split(x, sep), Split(y + [c], sep))
  {
    var a, b := Split(x, sep), Split(y, sep);
    SplitMore(x + y, c, sep);
    SplitMore(y, c, sep);
    GluedMore(a, b, c);
  }

  lemma {:induction false} SplitConcat(x: string, y: string, sep: char)
    ensures Split(x + y, sep) == Glued(Split(x, sep), Split(y, sep))
  {
    if y == "" {
      assert x + y == x;
      GluedNone(Split(x, sep));
    } else {
      var front, c := y[..|y| - 1], y[|y| - 1];
      SplitConcat(x, front, sep);
      ConcatMore(x, front, c, sep);
      assert y == front + [c];
      assert x + front + [c] == x + y;
    }
  }

  lemma GluedAfter(a: seq<string>, b: seq<string>)
    requires b != []
    ensures Glued(a + [""], b) == a + b
  {
    assert "" + b[0] == b[0];
    assert b == [b[0]] + b[1..];
  }

  /** A text behind a separator: its parts behind those before. */
  lemma SplitBehind(s: string, rest: string, sep: char)
    ensures Split(s + [sep] + rest, sep) == Split(s, sep) + Split(rest, sep)
  {
    SplitMore(s, sep, sep);
    SplitConcat(s + [sep], rest, sep);
    GluedAfter(Split(s, sep), Split(rest, sep));
  }

  lemma SplitFirst(part: string, s: string, sep: char)
    requires sep !in part
    ensures Split(part + [sep] + s, sep) == [part] + Split(s, sep)
  {
    SplitClean(part, sep);
    SplitBehind(part, s, sep);
  }

  lemma {:induction false} SplitJoin(parts: seq<string>, sep: char)
    requires parts != [] && forall i :: 0 <= i < |parts| ==> sep !in parts[i]
    ensures Split(Join(parts, sep), sep) == parts
  {
    var last := |parts| - 1;
    var front, part := parts[..last], parts[last];
    assert parts == front + [part];
    if last == 0 {
      SplitClean(part, sep);
      assert Join(parts, sep) == part && front == [];
    } else {
      SplitJoin(front, sep);
      SplitPart(Join(front, sep), part, sep);
      assert Join(parts, sep) == Join(front, sep) + [sep] + part;
    }
  }

  /** No part of a split text has the separator. */
  lemma {:induction false} SplitParts(s: string, sep: char)
    ensures forall i :: 0 <= i < |Split(s, sep)| ==> sep !in Split(s, sep)[i]
  {
    if s != "" {
      SplitParts(s[..|s| - 1], sep);
    }
  }

  lemma JoinLonger(parts: seq<string>, c: char, sep: char)
    requires parts != []
    ensures Join(parts[..|parts| - 1] + [parts[|parts| - 1] + [c]], sep) == Join(parts, sep) + [c]
  {
    var last := |parts| - 1;
    var longer := parts[..last] + [parts[last] + [c]];
    if last > 0 {
      assert longer[..last] == parts[..last] && longer[last] == parts[last] + [c];
    }
  }

  lemma JoinOneMore(parts: seq<string>, part: string, sep: char)
    requires parts != []
    ensures Join(parts + [part], sep) == Join(parts, sep) + [sep] + part
  {
    assert (parts + [part])[..|parts|] == parts;
  }

  /** Every text is its parts joined again. */
  lemma {:induction false} JoinSplit(s: string, sep: char)
    ensures Join(Split(s, sep), sep) == s
  {
    if s != "" {
      var front, c := Split(s[..|s| - 1], sep), s[|s| - 1];
      JoinSplit(s[..|s| - 1], sep);
      if c == sep {
        JoinOneMore(front, "", sep);
      } else {
        JoinLonger(front, c, sep);
      }
    }
  }
}
