/** Labelled samples and the order-preserving filters the cross-validation
    harness builds its lists with: the split by label and `removeAll`. */
module Samples {

  /** A sample value paired with its integer label. Two training samples are
      equal exactly when their values and their labels are equal. */
  datatype TrainingSample<T> = TrainingSample(sample: T, classLabel: int)

  /** The positive class: label 1. */
  predicate IsPositive<T>(t: TrainingSample<T>) {
    t.classLabel == 1
  }

  /** Every other label falls into the negative class. */
  predicate IsNegative<T>(t: TrainingSample<T>) {
    t.classLabel != 1
  }

  /** The elements of `s` that `keep` accepts, in their order in `s`. */
  function Filter<X>(s: seq<X>, keep: X -> bool): (r: seq<X>)
    ensures |r| <= |s|
  {
    if s == [] then []
    else
      var init := Filter(s[..|s| - 1], keep);
      if keep(s[|s| - 1]) then init + [s[|s| - 1]] else init
  }

  /** What a filter keeps: exactly the elements of `s` that `keep` accepts. */
  lemma {:induction false} FilterMember<X>(s: seq<X>, keep: X -> bool, x: X)
    ensures x in Filter(s, keep) <==> x in s && keep(x)
  {
    if s != [] {
      var s' := s[..|s| - 1];
      assert s == s' + [s[|s| - 1]];
      FilterMember(s', keep, x);
    }
  }

  /** Filtering distributes over concatenation: the relative order of what is
      kept never changes. */
  lemma {:induction false} FilterAppend<X>(a: seq<X>, b: seq<X>, keep: X -> bool)
    ensures Filter(a + b, keep) == Filter(a, keep) + Filter(b, keep)
  {
    if b != [] {
      var b' := b[..|b| - 1];
      assert (a + b)[..|a + b| - 1] == a + b';
      assert (a + b)[|a + b| - 1] == b[|b| - 1];
      FilterAppend(a, b', keep);
    } else {
      assert a + b == a;
    }
  }

  /** Each value keeps all its occurrences when accepted and loses all of
      them when rejected. */
  lemma {:induction false} FilterCount<X>(s: seq<X>, keep: X -> bool, x: X)
    ensures multiset(Filter(s, keep))[x] == if keep(x) then multiset(s)[x] else 0
  {
    if s != [] {
      var s' := s[..|s| - 1];
      assert s == s' + [s[|s| - 1]];
      FilterCount(s', keep, x);
    }
  }

  /** A filter and its complement together hold exactly the original
      elements, each as often as in the original. */
  lemma {:induction false} FilterComplement<X>(s: seq<X>, keep: X -> bool, drop: X -> bool)
    requires forall x :: drop(x) == !keep(x)
    ensures multiset(Filter(s, keep) + Filter(s, drop)) == multiset(s)
  {
    if s != [] {
      var s', last := s[..|s| - 1], s[|s| - 1];
      assert s == s' + [last];
      FilterComplement(s', keep, drop);
      assert drop(last) == !keep(last);
      if keep(last) {
        assert Filter(s, keep) + Filter(s, drop) == Filter(s', keep) + [last] + Filter(s', drop);
      } else {
        assert Filter(s, keep) + Filter(s, drop) == Filter(s', keep) + (Filter(s', drop) + [last]);
      }
    }
  }

  /** A filter that accepts every element returns its input. */
  lemma {:induction false} FilterKeepsAll<X>(s: seq<X>, keep: X -> bool)
    requires forall x :: x in s ==> keep(x)
    ensures Filter(s, keep) == s
  {
    if s != [] {
      var s' := s[..|s| - 1];
      assert s == s' + [s[|s| - 1]];
      FilterKeepsAll(s', keep);
    }
  }

  /** A filter that rejects every element returns the empty list. */
  lemma {:induction false} FilterKeepsNone<X>(s: seq<X>, keep: X -> bool)
    requires forall x :: x in s ==> !keep(x)
    ensures Filter(s, keep) == []
  {
    if s != [] {
      var s' := s[..|s| - 1];
      assert s == s' + [s[|s| - 1]];
      FilterKeepsNone(s', keep);
    }
  }

  /** The samples labelled 1, in list order. */
  function Positives<T>(s: seq<TrainingSample<T>>): seq<TrainingSample<T>> {
    Filter(s, IsPositive)
  }

  /** The samples with any other label, in list order. */
  function Negatives<T>(s: seq<TrainingSample<T>>): seq<TrainingSample<T>> {
    Filter(s, IsNegative)
  }

  /** Splitting by label loses and invents nothing: the positives followed by
      the negatives are a permutation of the list, the positives are exactly
      the samples labelled 1 and the negatives exactly the others. */
  lemma PartitionByLabel<T>(s: seq<TrainingSample<T>>)
    ensures multiset(Positives(s) + Negatives(s)) == multiset(s)
    ensures |Positives(s)| + |Negatives(s)| == |s|
    ensures forall t :: t in Positives(s) <==> t in s && t.classLabel == 1
    ensures forall t :: t in Negatives(s) <==> t in s && t.classLabel != 1
  {
    forall t
      ensures t in Positives(s) <==> t in s && t.classLabel == 1
      ensures t in Negatives(s) <==> t in s && t.classLabel != 1
    {
      FilterMember(s, IsPositive, t);
      FilterMember(s, IsNegative, t);
    }
    FilterComplement(s, IsPositive, IsNegative);
    assert |multiset(Positives(s) + Negatives(s))| == |multiset(s)|;
  }

  /** The two classes together are as long as the list. */
  lemma PartitionSizes<T>(s: seq<TrainingSample<T>>)
    ensures |Positives(s)| + |Negatives(s)| == |s|
  {
    FilterComplement(s, IsPositive, IsNegative);
    assert |multiset(Positives(s) + Negatives(s))| == |multiset(s)|;
  }

  /** The membership test `removeAll` uses: not equal to any element of `r`. */
  function Excluding<X(==)>(r: seq<X>): X -> bool {
    x => x !in r
  }

  /** `s` with every element equal to some element of `r` removed, the
      remaining elements keeping their order (`List.removeAll`). */
  function RemoveAll<X(==)>(s: seq<X>, r: seq<X>): seq<X> {
    Filter(s, Excluding(r))
  }

  /** Removal is by value: a value found in `r` disappears with all its
      copies, any other value keeps every copy it had. */
  lemma RemoveAllCount<X>(s: seq<X>, r: seq<X>, x: X)
    ensures x in r ==> multiset(RemoveAll(s, r))[x] == 0
    ensures x !in r ==> multiset(RemoveAll(s, r))[x] == multiset(s)[x]
  {
    FilterCount(s, Excluding(r), x);
  }

  /** Membership in `removeAll`'s result: in `s` and equal to nothing in `r`. */
  lemma RemoveAllMembers<X>(s: seq<X>, r: seq<X>)
    ensures forall x :: x in RemoveAll(s, r) <==> x in s && x !in r
  {
    forall x ensures x in RemoveAll(s, r) <==> x in s && x !in r {
      RemoveAllCount(s, r, x);
      assert x in RemoveAll(s, r) <==> x in multiset(RemoveAll(s, r));
      assert x in s <==> x in multiset(s);
    }
  }

  /** A list without repeated values. */
  ghost predicate NoDuplicates<X>(s: seq<X>) {
    forall i, j :: 0 <= i < j < |s| ==> s[i] != s[j]
  }
}
