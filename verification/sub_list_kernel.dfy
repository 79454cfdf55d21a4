/** The bounded bag kernel: the mean, over two index ranges of two lists, of
    the base kernel values that exceed a small threshold. */
module BagKernel {
  import opened Arithmetic

  /** The base kernel on bag elements, seen as a function. */
  type BaseKernel<!S> = (S, S) -> real

  /** The threshold, written `10e-6` in the source: 1e-5. */
  const DefaultEps: real := 0.00001

  /** What `valueOf` yields: a number; NaN, the 0/0 of a product of range
      sizes equal to 0; or the `IndexOutOfBoundsException` that `List.get`
      throws on a negative lower bound when both ranges hold indices. */
  datatype KernelValue = Number(value: real) | NotANumber | IndexOutOfBounds

  /** The contribution of kernel value `d` to the sum: `d` when it exceeds
      `eps`, nothing otherwise. */
  function Above(d: real, eps: real): real {
    if d > eps then d else 0.0
  }

  /** A bound clamped to a list length, as `valueOf` stores it. */
  function Clamp(to: int, size: nat): (r: int)
    ensures r <= to && r <= size
    ensures r == to || r == size
  {
    if to > size then size else to
  }

  /** The thresholded sum of kernel(x, ys[j]) over j in [fr2, to2). */
  function RowSum<S>(kernel: BaseKernel<S>, eps: real, x: S, ys: seq<S>, fr2: int, to2: int): real
    requires fr2 < to2 ==> 0 <= fr2 && to2 <= |ys|
    decreases to2 - fr2
  {
    if to2 <= fr2 then 0.0
    else RowSum(kernel, eps, x, ys, fr2, to2 - 1) + Above(kernel(x, ys[to2 - 1]), eps)
  }

  /** The thresholded sum of kernel(xs[i], ys[j]) over i in [fr1, to1) and
      j in [fr2, to2). */
  function BagSum<S>(kernel: BaseKernel<S>, eps: real, xs: seq<S>, ys: seq<S>,
                     fr1: int, to1: int, fr2: int, to2: int): real
    requires InRange(xs, ys, fr1, to1, fr2, to2)
    decreases to1 - fr1
  {
    if to1 <= fr1 || to2 <= fr2 then 0.0
    else BagSum(kernel, eps, xs, ys, fr1, to1 - 1, fr2, to2) + RowSum(kernel, eps, xs[to1 - 1], ys, fr2, to2)
  }

  /** The same double sum without the threshold. */
  function PlainRowSum<S>(kernel: BaseKernel<S>, x: S, ys: seq<S>, fr2: int, to2: int): real
    requires fr2 < to2 ==> 0 <= fr2 && to2 <= |ys|
    decreases to2 - fr2
  {
    if to2 <= fr2 then 0.0
    else PlainRowSum(kernel, x, ys, fr2, to2 - 1) + kernel(x, ys[to2 - 1])
  }

  function PlainSum<S>(kernel: BaseKernel<S>, xs: seq<S>, ys: seq<S>,
                       fr1: int, to1: int, fr2: int, to2: int): real
    requires InRange(xs, ys, fr1, to1, fr2, to2)
    decreases to1 - fr1
  {
    if to1 <= fr1 || to2 <= fr2 then 0.0
    else PlainSum(kernel, xs, ys, fr1, to1 - 1, fr2, to2) + PlainRowSum(kernel, xs[to1 - 1], ys, fr2, to2)
  }

  /** When both ranges hold indices, every index of them is valid in its list. */
  predicate InRange<S>(xs: seq<S>, ys: seq<S>, fr1: int, to1: int, fr2: int, to2: int) {
    fr1 < to1 && fr2 < to2 ==> 0 <= fr1 && to1 <= |xs| && 0 <= fr2 && to2 <= |ys|
  }

  /** `valueOf` on lists `xs` and `ys` with bounds already clamped to their
      lengths: the thresholded sum divided by the product of the range sizes,
      every term counting in the divisor whether or not it passed the
      threshold. */
  function BagValue<S>(kernel: BaseKernel<S>, eps: real, xs: seq<S>, ys: seq<S>,
                       fr1: int, to1: int, fr2: int, to2: int): KernelValue
    requires to1 <= |xs| && to2 <= |ys|
  {
    if fr1 < to1 && fr2 < to2 && (fr1 < 0 || fr2 < 0) then IndexOutOfBounds
    else
      var size := (to1 - fr1) * (to2 - fr2);
      if size == 0 then NotANumber
      else Number(BagSum(kernel, eps, xs, ys, fr1, to1, fr2, to2) / size as real)
  }

  /** A threshold of at least zero only lets non-negative terms through. */
  lemma {:induction false} RowSumNonNegative<S>(kernel: BaseKernel<S>, eps: real, x: S, ys: seq<S>, fr2: int, to2: int)
    requires eps >= 0.0
    requires fr2 < to2 ==> 0 <= fr2 && to2 <= |ys|
    ensures RowSum(kernel, eps, x, ys, fr2, to2) >= 0.0
    decreases to2 - fr2
  {
    if fr2 < to2 {
      RowSumNonNegative(kernel, eps, x, ys, fr2, to2 - 1);
    }
  }

  lemma {:induction false} BagSumNonNegative<S>(kernel: BaseKernel<S>, eps: real, xs: seq<S>, ys: seq<S>,
                                                 fr1: int, to1: int, fr2: int, to2: int)
    requires eps >= 0.0 && InRange(xs, ys, fr1, to1, fr2, to2)
    ensures BagSum(kernel, eps, xs, ys, fr1, to1, fr2, to2) >= 0.0
    decreases to1 - fr1
  {
    if fr1 < to1 && fr2 < to2 {
      BagSumNonNegative(kernel, eps, xs, ys, fr1, to1 - 1, fr2, to2);
      RowSumNonNegative(kernel, eps, xs[to1 - 1], ys, fr2, to2);
    }
  }

  /** The kernel value is never negative: a positive divisor divides a
      non-negative sum, and a negative divisor only arises when one range is
      empty, where the sum is zero. */
  lemma ValueNonNegative<S>(kernel: BaseKernel<S>, eps: real, xs: seq<S>, ys: seq<S>,
                            fr1: int, to1: int, fr2: int, to2: int)
    requires eps >= 0.0 && to1 <= |xs| && to2 <= |ys|
    ensures BagValue(kernel, eps, xs, ys, fr1, to1, fr2, to2).Number? ==>
            BagValue(kernel, eps, xs, ys, fr1, to1, fr2, to2).value >= 0.0
  {
    if !(fr1 < to1 && fr2 < to2 && (fr1 < 0 || fr2 < 0)) {
      var size := (to1 - fr1) * (to2 - fr2);
      var sum := BagSum(kernel, eps, xs, ys, fr1, to1, fr2, to2);
      if fr1 < to1 && fr2 < to2 {
        BagSumNonNegative(kernel, eps, xs, ys, fr1, to1, fr2, to2);
        assert size > 0 by { PositiveIntProduct(to1 - fr1, to2 - fr2); }
      } else {
        assert sum == 0.0;
      }
    }
  }

  /** A range without indices never reaches the base kernel: the value is
      NaN when the product of the range sizes is 0, and 0 when a reversed
      range makes that product non-zero. */
  lemma EmptyRangeValue<S>(kernel: BaseKernel<S>, eps: real, xs: seq<S>, ys: seq<S>,
                           fr1: int, to1: int, fr2: int, to2: int)
    requires to1 <= |xs| && to2 <= |ys|
    requires to1 <= fr1 || to2 <= fr2
    ensures (to1 - fr1) * (to2 - fr2) == 0 ==> BagValue(kernel, eps, xs, ys, fr1, to1, fr2, to2) == NotANumber
    ensures (to1 - fr1) * (to2 - fr2) != 0 ==> BagValue(kernel, eps, xs, ys, fr1, to1, fr2, to2) == Number(0.0)
  {
  }

  /** When every kernel value in the ranges exceeds the threshold, the
      thresholded sum is the plain sum. */
  lemma {:induction false} RowSumExact<S>(kernel: BaseKernel<S>, eps: real, x: S, ys: seq<S>, fr2: int, to2: int)
    requires fr2 < to2 ==> 0 <= fr2 && to2 <= |ys|
    requires forall j :: fr2 <= j < to2 ==> kernel(x, ys[j]) > eps
    ensures RowSum(kernel, eps, x, ys, fr2, to2) == PlainRowSum(kernel, x, ys, fr2, to2)
    decreases to2 - fr2
  {
    if fr2 < to2 {
      RowSumExact(kernel, eps, x, ys, fr2, to2 - 1);
    }
  }

  lemma {:induction false} BagSumExact<S>(kernel: BaseKernel<S>, eps: real, xs: seq<S>, ys: seq<S>,
                                           fr1: int, to1: int, fr2: int, to2: int)
    requires InRange(xs, ys, fr1, to1, fr2, to2)
    requires forall i, j :: fr1 <= i < to1 && fr2 <= j < to2 ==> kernel(xs[i], ys[j]) > eps
    ensures BagSum(kernel, eps, xs, ys, fr1, to1, fr2, to2) == PlainSum(kernel, xs, ys, fr1, to1, fr2, to2)
    decreases to1 - fr1
  {
    if fr1 < to1 && fr2 < to2 {
      BagSumExact(kernel, eps, xs, ys, fr1, to1 - 1, fr2, to2);
      RowSumExact(kernel, eps, xs[to1 - 1], ys, fr2, to2);
    }
  }

  /** When no kernel value in the ranges exceeds the threshold, nothing is
      summed. */
  lemma {:induction false} RowSumNothingAbove<S>(kernel: BaseKernel<S>, eps: real, x: S, ys: seq<S>, fr2: int, to2: int)
    requires fr2 < to2 ==> 0 <= fr2 && to2 <= |ys|
    requires forall j :: fr2 <= j < to2 ==> kernel(x, ys[j]) <= eps
    ensures RowSum(kernel, eps, x, ys, fr2, to2) == 0.0
    decreases to2 - fr2
  {
    if fr2 < to2 {
      RowSumNothingAbove(kernel, eps, x, ys, fr2, to2 - 1);
    }
  }

  lemma {:induction false} BagSumNothingAbove<S>(kernel: BaseKernel<S>, eps: real, xs: seq<S>, ys: seq<S>,
                                                  fr1: int, to1: int, fr2: int, to2: int)
    requires InRange(xs, ys, fr1, to1, fr2, to2)
    requires forall i, j :: fr1 <= i < to1 && fr2 <= j < to2 ==> kernel(xs[i], ys[j]) <= eps
    ensures BagSum(kernel, eps, xs, ys, fr1, to1, fr2, to2) == 0.0
    decreases to1 - fr1
  {
    if fr1 < to1 && fr2 < to2 {
      BagSumNothingAbove(kernel, eps, xs, ys, fr1, to1 - 1, fr2, to2);
      RowSumNothingAbove(kernel, eps, xs[to1 - 1], ys, fr2, to2);
    }
  }

  /** Each dropped term is at most `eps`, so the plain sum exceeds the
      thresholded one by at most `eps` per term of the row. */
  lemma {:induction false} RowSumNearPlain<S>(kernel: BaseKernel<S>, eps: real, x: S, ys: seq<S>, fr2: int, to2: int)
    requires eps >= 0.0
    requires fr2 < to2 ==> 0 <= fr2 && to2 <= |ys|
    ensures fr2 < to2 ==>
      PlainRowSum(kernel, x, ys, fr2, to2) <= RowSum(kernel, eps, x, ys, fr2, to2) + (to2 - fr2) as real * eps
    decreases to2 - fr2
  {
    if fr2 < to2 {
      RowSumNearPlain(kernel, eps, x, ys, fr2, to2 - 1);
      assert (to2 - fr2) as real * eps == (to2 - 1 - fr2) as real * eps + eps;
    }
  }

  /** Over the two ranges the plain sum exceeds the thresholded one by at
      most `eps` per term counted in the divisor. */
  lemma {:induction false} BagSumNearPlain<S>(kernel: BaseKernel<S>, eps: real, xs: seq<S>, ys: seq<S>,
                                               fr1: int, to1: int, fr2: int, to2: int)
    requires eps >= 0.0
    requires InRange(xs, ys, fr1, to1, fr2, to2)
    ensures fr1 < to1 && fr2 < to2 ==>
      PlainSum(kernel, xs, ys, fr1, to1, fr2, to2)
        <= BagSum(kernel, eps, xs, ys, fr1, to1, fr2, to2) + ((to1 - fr1) * (to2 - fr2)) as real * eps
    decreases to1 - fr1
  {
    if fr1 < to1 && fr2 < to2 {
      var m, n := to2 - fr2, to1 - 1 - fr1;
      var plainBefore, before := PlainSum(kernel, xs, ys, fr1, to1 - 1, fr2, to2), BagSum(kernel, eps, xs, ys, fr1, to1 - 1, fr2, to2);
      var plainRow, row := PlainRowSum(kernel, xs[to1 - 1], ys, fr2, to2), RowSum(kernel, eps, xs[to1 - 1], ys, fr2, to2);
      var k, total := n * m, (to1 - fr1) * (to2 - fr2);
      BagSumNearPlain(kernel, eps, xs, ys, fr1, to1 - 1, fr2, to2);
      assert plainBefore <= before + k as real * eps by {
        if n == 0 {
          assert plainBefore == 0.0 && before == 0.0;
        }
      }
      RowSumNearPlain(kernel, eps, xs[to1 - 1], ys, fr2, to2);
      RangeProduct(fr1, to1, fr2, to2);
      assert PlainSum(kernel, xs, ys, fr1, to1, fr2, to2) == plainBefore + plainRow;
      assert BagSum(kernel, eps, xs, ys, fr1, to1, fr2, to2) == before + row;
      assert plainRow <= row + m as real * eps;
      assert total == k + m;
      AddBounds(plainBefore, before, plainRow, row, k, m, total, eps);
    }
  }

  lemma RangeProduct(fr1: int, to1: int, fr2: int, to2: int)
    ensures (to1 - fr1) * (to2 - fr2) == (to1 - 1 - fr1) * (to2 - fr2) + (to2 - fr2)
  {
  }

  /** Two bounds of the form `plain <= sum + count * eps` add up. */
  lemma AddBounds(plainBefore: real, before: real, plainRow: real, row: real, k: int, m: int, total: int, eps: real)
    requires plainBefore <= before + k as real * eps && plainRow <= row + m as real * eps
    requires total == k + m
    ensures plainBefore + plainRow <= before + row + total as real * eps
  {
    Distribute(k as real, m as real, eps);
  }

  /** The kernel on bags restricted to index ranges, with its base kernel and
      threshold. */
  class SubListKernel2<S> {
    var fr1: int
    var fr2: int
    var to1: int
    var to2: int
    var kernel: BaseKernel<S>
    var eps: real

    /** Stores the base kernel and the four bounds as given. */
    constructor(kernel: BaseKernel<S>, fr1: int, to1: int, fr2: int, to2: int)
      ensures this.kernel == kernel && this.fr1 == fr1 && this.to1 == to1
      ensures this.fr2 == fr2 && this.to2 == to2 && eps == DefaultEps
    {
      this.kernel := kernel;
      this.fr1 := fr1;
      this.to1 := to1;
      this.fr2 := fr2;
      this.to2 := to2;
      this.eps := DefaultEps;
    }

    /** Clamps the stored upper bounds to the list lengths, for this call and
        every later one, then returns the thresholded sum over the ranges
        divided by the product of their sizes. */
    method ValueOf(t1: seq<S>, t2: seq<S>) returns (r: KernelValue)
      modifies this`to1, this`to2
      ensures to1 == Clamp(old(to1), |t1|) && to2 == Clamp(old(to2), |t2|)
      ensures r == BagValue(kernel, eps, t1, t2, fr1, to1, fr2, to2)
    {
      if to1 > |t1| {
        to1 := |t1|;
      }
      if to2 > |t2| {
        to2 := |t2|;
      }
      var hi1, hi2 := to1, to2;
      if fr1 < hi1 && fr2 < hi2 && (fr1 < 0 || fr2 < 0) {
        return IndexOutOfBounds;
      }
      var sum := 0.0;
      var i := fr1;
      while i < hi1
        invariant fr1 <= i && (i == fr1 || i <= hi1)
        invariant hi1 <= |t1| && hi2 <= |t2| && (fr1 < hi1 && fr2 < hi2 ==> 0 <= fr1 && 0 <= fr2)
        invariant sum == BagSum(kernel, eps, t1, t2, fr1, i, fr2, hi2)
        decreases hi1 - i
      {
        var j := fr2;
        while j < hi2
          invariant fr2 <= j && (j == fr2 || j <= hi2)
          invariant hi1 <= |t1| && hi2 <= |t2| && (fr2 < hi2 ==> 0 <= fr1 && 0 <= fr2)
          invariant sum == BagSum(kernel, eps, t1, t2, fr1, i, fr2, hi2)
                           + if fr2 < hi2 then RowSum(kernel, eps, t1[i], t2, fr2, j) else 0.0
          decreases hi2 - j
        {
          var d := kernel(t1[i], t2[j]);
          if d > eps {
            sum := sum + d;
          }
          j := j + 1;
        }
        i := i + 1;
      }
      var size := (hi1 - fr1) * (hi2 - fr2);
      if size == 0 {
        return NotANumber;
      }
      return Number(sum / size as real);
    }

    /** The kernel of a bag with itself, clamping side effect included. */
    method ValueOfSelf(t: seq<S>) returns (r: KernelValue)
      modifies this`to1, this`to2
      ensures to1 == Clamp(old(to1), |t|) && to2 == Clamp(old(to2), |t|)
      ensures r == BagValue(kernel, eps, t, t, fr1, to1, fr2, to2)
    {
      r := ValueOf(t, t);
    }
  }

  /** The clamp is permanent: after a call on short lists, a later call on
      longer lists still stops at the shorter lengths. */
  method ClampPersists<S>(k: SubListKernel2<S>, short1: seq<S>, short2: seq<S>, long1: seq<S>, long2: seq<S>)
    returns (first: KernelValue, second: KernelValue)
    requires |short1| <= |long1| && |short2| <= |long2|
    modifies k
    ensures k.to1 == Clamp(old(k.to1), |short1|) && k.to2 == Clamp(old(k.to2), |short2|)
    ensures second == BagValue(k.kernel, k.eps, long1, long2, k.fr1, k.to1, k.fr2, k.to2)
  {
    first := k.ValueOf(short1, short2);
    second := k.ValueOf(long1, long2);
  }
}
