/** A Gaussian kernel on vectors of reals that looks at one component only:
    exp(-gamma * (x[ind] - y[ind])^2), with the pair of zero components
    mapped to 1 without calling the exponential. */
module IndexGaussKernel {
  import opened Arithmetic

  /** The square of a difference. */
  function Square(v: real): real {
    v * v
  }

  /** The Gaussian of a squared distance `d` with bandwidth `gamma`. */
  function Gaussian(exp: real -> real, gamma: real, d: real): real {
    exp(-gamma * d)
  }

  /** The kernel on the two selected components. */
  function ComponentValue(exp: real -> real, gamma: real, a: real, b: real): real {
    if a == 0.0 && b == 0.0 then 1.0 else Gaussian(exp, gamma, Square(a - b))
  }

  /** The Gaussian kernel over component `ind`, with bandwidth `gamma`. */
  class IndexDoubleGaussL2 {
    var gamma: real
    var ind: int

    /** Uses component `feature`, with the default gamma 0.1. */
    constructor(feature: int)
      ensures ind == feature && gamma == 0.1
    {
      gamma := 0.1;
      ind := feature;
    }

    /** The squared difference of component `ind`. */
    function DistanceValueOf(t1: seq<real>, t2: seq<real>): (r: real)
      reads this
      requires 0 <= ind < |t1| && 0 <= ind < |t2|
      ensures r >= 0.0
      ensures r == 0.0 <==> t1[ind] == t2[ind]
    {
      var v := t1[ind] - t2[ind];
      SquareNonNegative(v, v * v);
      Square(v)
    }

    /** The kernel value given the exponential: 1 when both components are
        zero, otherwise the exponential of -gamma times the distance. */
    function ValueOf(exp: real -> real, t1: seq<real>, t2: seq<real>): (r: real)
      reads this
      requires 0 <= ind < |t1| && 0 <= ind < |t2|
      ensures t1[ind] == 0.0 && t2[ind] == 0.0 ==> r == 1.0
      ensures !(t1[ind] == 0.0 && t2[ind] == 0.0) ==> r == Gaussian(exp, gamma, DistanceValueOf(t1, t2))
    {
      ComponentValue(exp, gamma, t1[ind], t2[ind])
    }

    /** The kernel of a vector with itself, without computing it. */
    function ValueOfSelf(t: seq<real>): (r: real)
      ensures r == 1.0
    {
      1.0
    }

    method SetGamma(g: real)
      modifies this`gamma
      ensures GetGamma() == g
    {
      gamma := g;
    }

    method SetIndex(i: int)
      modifies this`ind
      ensures ind == i
    {
      ind := i;
    }

    function GetGamma(): real
      reads this
    {
      gamma
    }
  }

  /** The distance is symmetric. */
  lemma DistanceSymmetric(k: IndexDoubleGaussL2, t1: seq<real>, t2: seq<real>)
    requires 0 <= k.ind < |t1| && 0 <= k.ind < |t2|
    ensures k.DistanceValueOf(t1, t2) == k.DistanceValueOf(t2, t1)
  {
    assert (t1[k.ind] - t2[k.ind]) * (t1[k.ind] - t2[k.ind]) == (t2[k.ind] - t1[k.ind]) * (t2[k.ind] - t1[k.ind]);
  }

  /** The kernel is symmetric, whatever the exponential. */
  lemma ValueSymmetric(k: IndexDoubleGaussL2, exp: real -> real, t1: seq<real>, t2: seq<real>)
    requires 0 <= k.ind < |t1| && 0 <= k.ind < |t2|
    ensures k.ValueOf(exp, t1, t2) == k.ValueOf(exp, t2, t1)
  {
    DistanceSymmetric(k, t1, t2);
  }

  /** The kernel and the distance read component `ind` and nothing else. */
  lemma OnlyComponentCounts(k: IndexDoubleGaussL2, exp: real -> real, t1: seq<real>, t2: seq<real>, u1: seq<real>, u2: seq<real>)
    requires 0 <= k.ind < |t1| && 0 <= k.ind < |t2| && 0 <= k.ind < |u1| && 0 <= k.ind < |u2|
    requires t1[k.ind] == u1[k.ind] && t2[k.ind] == u2[k.ind]
    ensures k.ValueOf(exp, t1, t2) == k.ValueOf(exp, u1, u2)
    ensures k.DistanceValueOf(t1, t2) == k.DistanceValueOf(u1, u2)
  {
  }

  /** With an exponential that maps 0 to 1, the zero-component shortcut agrees
      with the formula, so the kernel is exp(-gamma * distance) everywhere;
      in particular it agrees with the self value on equal components. */
  lemma ShortcutAgreesWithFormula(k: IndexDoubleGaussL2, exp: real -> real, t1: seq<real>, t2: seq<real>)
    requires exp(0.0) == 1.0
    requires 0 <= k.ind < |t1| && 0 <= k.ind < |t2|
    ensures k.ValueOf(exp, t1, t2) == Gaussian(exp, k.gamma, k.DistanceValueOf(t1, t2))
    ensures t1[k.ind] == t2[k.ind] ==> k.ValueOf(exp, t1, t2) == k.ValueOfSelf(t1)
  {
    if t1[k.ind] == t2[k.ind] {
      assert k.DistanceValueOf(t1, t2) == 0.0;
      assert -k.gamma * 0.0 == 0.0;
    }
  }

  /** With a non-negative gamma and an exponential that maps 0 to 1 and never
      exceeds 1 on non-positive arguments, no pair scores above the self
      value. */
  lemma BoundedBySelf(k: IndexDoubleGaussL2, exp: real -> real, t1: seq<real>, t2: seq<real>)
    requires k.gamma >= 0.0
    requires forall x :: x <= 0.0 ==> exp(x) <= 1.0
    requires 0 <= k.ind < |t1| && 0 <= k.ind < |t2|
    ensures k.ValueOf(exp, t1, t2) <= k.ValueOfSelf(t1)
  {
    var d := k.DistanceValueOf(t1, t2);
    MulNonNegative(k.gamma, d, k.gamma * d);
    assert -k.gamma * d <= 0.0;
  }

  /** Setting gamma keeps the component; setting the component keeps gamma. */
  method SettersAreIndependent(k: IndexDoubleGaussL2, g: real, i: int)
    modifies k
    ensures k.GetGamma() == g && k.ind == i
  {
    k.SetGamma(g);
    k.SetIndex(i);
  }
}
