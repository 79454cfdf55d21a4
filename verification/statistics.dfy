/** The summary statistics of a run's scores: arithmetic mean and population
    variance (the standard deviation is its square root). */
module Statistics {
  import opened Arithmetic

  /** A value, or the absence of one where the source produces NaN. */
  datatype Option<T> = None | Some(value: T)

  /** Left-to-right sum, in the order an accumulation loop visits the scores. */
  function Sum(s: seq<real>): real {
    if s == [] then 0.0 else Sum(s[..|s| - 1]) + s[|s| - 1]
  }

  /** Sum of the squared deviations of the scores from `m`. */
  function SquaredDeviations(s: seq<real>, m: real): real {
    if s == [] then 0.0
    else SquaredDeviations(s[..|s| - 1], m) + (s[|s| - 1] - m) * (s[|s| - 1] - m)
  }

  /** Arithmetic mean; none (NaN) for an empty list, where 0/0 is computed. */
  function Mean(s: seq<real>): Option<real> {
    if |s| == 0 then None else Some(Sum(s) / |s| as real)
  }

  /** Population variance: squared deviations from the mean divided by N,
      not N - 1; none (NaN) for an empty list. */
  function Variance(s: seq<real>): Option<real> {
    if |s| == 0 then None
    else Some(SquaredDeviations(s, Sum(s) / |s| as real) / |s| as real)
  }

  lemma {:induction false} SumBounds(s: seq<real>, lo: real, hi: real)
    requires forall i :: 0 <= i < |s| ==> lo <= s[i] <= hi
    ensures |s| as real * lo <= Sum(s) <= |s| as real * hi
  {
    if s != [] {
      SumBounds(s[..|s| - 1], lo, hi);
    }
  }

  /** The mean lies between the smallest and the largest score. */
  lemma MeanWithinBounds(s: seq<real>, lo: real, hi: real)
    requires |s| > 0
    requires forall i :: 0 <= i < |s| ==> lo <= s[i] <= hi
    ensures Mean(s).Some? && lo <= Mean(s).value <= hi
  {
    SumBounds(s, lo, hi);
    var n := |s| as real;
    assert lo == (n * lo) / n;
    assert hi == (n * hi) / n;
  }

  lemma {:induction false} SquaredDeviationsNonNegative(s: seq<real>, m: real)
    ensures SquaredDeviations(s, m) >= 0.0
    ensures SquaredDeviations(s, m) == 0.0 <==> forall i :: 0 <= i < |s| ==> s[i] == m
  {
    if s != [] {
      var s' := s[..|s| - 1];
      var d := s[|s| - 1] - m;
      SquaredDeviationsNonNegative(s', m);
      SquareNonNegative(d, d * d);
      if SquaredDeviations(s, m) == 0.0 {
        assert d == 0.0 && SquaredDeviations(s', m) == 0.0;
        forall i | 0 <= i < |s| ensures s[i] == m {
          if i < |s| - 1 { assert s[i] == s'[i]; }
        }
      }
      if forall i :: 0 <= i < |s| ==> s[i] == m {
        assert forall i :: 0 <= i < |s'| ==> s'[i] == s[i];
      }
    }
  }

  lemma {:induction false} SumOfConstant(s: seq<real>, c: real)
    requires forall i :: 0 <= i < |s| ==> s[i] == c
    ensures Sum(s) == |s| as real * c
  {
    if s != [] {
      SumOfConstant(s[..|s| - 1], c);
    }
  }

  /** The variance is never negative. */
  lemma VarianceNonNegative(s: seq<real>)
    requires |s| > 0
    ensures Variance(s).Some? && Variance(s).value >= 0.0
  {
    SquaredDeviationsNonNegative(s, Sum(s) / |s| as real);
  }

  /** The variance is zero exactly when all the scores are equal. */
  lemma VarianceZeroIffConstant(s: seq<real>)
    requires |s| > 0
    ensures Variance(s) == Some(0.0) <==> forall i, j :: 0 <= i < |s| && 0 <= j < |s| ==> s[i] == s[j]
  {
    var n := |s| as real;
    var m := Sum(s) / n;
    SquaredDeviationsNonNegative(s, m);
    if forall i, j :: 0 <= i < |s| && 0 <= j < |s| ==> s[i] == s[j] {
      SumOfConstant(s, s[0]);
      assert m == s[0];
    }
  }
}
