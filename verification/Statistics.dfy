/** Mean, minimum and maximum of a list of differences, over the reals. */
module Statistics {

  function Sum(ls: seq<real>): real { if ls == [] then 0.0 else Sum(ls[..|ls| - 1]) + ls[|ls| - 1] }

  function Mean(ls: seq<real>): real
    requires ls != []
  {
    Sum(ls) / |ls| as real
  }

  function Min(ls: seq<real>): (m: real)
    requires ls != []
    ensures m in ls && forall i :: 0 <= i < |ls| ==> m <= ls[i]
  {
    if |ls| == 1 then ls[0]
    else
      var m, last := Min(ls[..|ls| - 1]), ls[|ls| - 1];
      if last < m then last else m
  }

  function Max(ls: seq<real>): (m: real)
    requires ls != []
    ensures m in ls && forall i :: 0 <= i < |ls| ==> ls[i] <= m
  {
    if |ls| == 1 then ls[0]
    else
      var m, last := Max(ls[..|ls| - 1]), ls[|ls| - 1];
      if last > m then last else m
  }

  lemma SumOne(x: real)
    ensures Sum([x]) == x
  {
    assert [x][..0] == [];
  }

  lemma {:induction false} SumConcat(a: seq<real>, b: seq<real>)
    ensures Sum(a + b) == Sum(a) + Sum(b)
  {
    if b == [] {
      assert a + b == a;
    } else {
      SumConcat(a, b[..|b| - 1]);
      assert (a + b)[..|a + b| - 1] == a + b[..|b| - 1];
    }
  }

  /** What describes a list: its least and greatest element, and the value that as many times over is its sum. */
  predicate Describes(ls: seq<real>, lo: real, mean: real, hi: real) {
    && lo in ls && hi in ls && (forall i :: 0 <= i < |ls| ==> lo <= ls[i] <= hi)
    && SumsTo(mean, |ls| as real, Sum(ls))
  }

  predicate SumsTo(mean: real, n: real, sum: real) { mean * n == sum }

  lemma {:induction false} SumBetween(ls: seq<real>, lo: real, hi: real)
    requires forall i :: 0 <= i < |ls| ==> lo <= ls[i] <= hi
    ensures |ls| as real * lo <= Sum(ls) <= |ls| as real * hi
  {
    if ls != [] {
      var front := ls[..|ls| - 1];
      SumBetween(front, lo, hi);
      assert |ls| as real * lo == |front| as real * lo + lo;
      assert |ls| as real * hi == |front| as real * hi + hi;
    }
  }

  lemma Quotient(s: real, n: real, lo: real, hi: real)
    requires n > 0.0 && n * lo <= s <= n * hi
    ensures lo <= s / n <= hi
  {
    assert s == n * (s / n);
  }

  lemma Back(s: real, n: real)
    requires n > 0.0
    ensures s / n * n == s
  {
  }

  lemma MeanTimesLength(ls: seq<real>)
    requires ls != []
    ensures SumsTo(Mean(ls), |ls| as real, Sum(ls))
  {
    Back(Sum(ls), |ls| as real);
  }

  lemma DescribesList(ls: seq<real>)
    requires ls != []
    ensures Describes(ls, Min(ls), Mean(ls), Max(ls))
  {
    MeanTimesLength(ls);
  }

  /** The mean lies between, so neither error bar is negative. */
  lemma MeanBetween(ls: seq<real>)
    requires ls != []
    ensures Min(ls) <= Mean(ls) <= Max(ls)
  {
    SumBetween(ls, Min(ls), Max(ls));
    Quotient(Sum(ls), |ls| as real, Min(ls), Max(ls));
  }
}
