/** Random-split cross-validation: each repeat shuffles the sample list,
    splits it into a training list and a testing list, and records the score
    the evaluator gives the classifier on that split. */
module CrossValidation {
  import opened Samples
  import opened Statistics
  import opened Arithmetic

  // ---------------------------------------------------------------------
  // Training-set sizes
  // ---------------------------------------------------------------------

  /** Java's `(int)` cast of a double: truncation toward zero. */
  function Trunc(x: real): int {
    if x >= 0.0 then x.Floor else -((-x).Floor)
  }

  /** How many of `n` samples go to training: trunc(n * trainPercent). */
  function TrainCount(n: nat, trainPercent: real): int {
    Trunc(n as real * trainPercent)
  }

  /** The training count is a valid prefix length of an n-element list. */
  predicate TrainCountFits(n: nat, trainPercent: real) {
    0 <= TrainCount(n, trainPercent) <= n
  }

  /** Once trunc(n * trainPercent) fits the whole list, trunc(m * trainPercent)
      fits any class of m <= n samples: the per-class `subList` calls of the
      balanced split can never be out of range. */
  lemma ClassCountsFit(n: nat, m: nat, trainPercent: real)
    requires m <= n && TrainCountFits(n, trainPercent)
    ensures TrainCountFits(m, trainPercent)
  {
    var tp := trainPercent;
    var x, y := n as real * tp, m as real * tp;
    if tp >= 0.0 {
      MulMonotone(0.0, n as real, tp, 0.0, x);
      MulMonotone(0.0, m as real, tp, 0.0, y);
      assert x < n as real + 1.0;
      if tp <= 1.0 {
        MulMonotone(tp, 1.0, m as real, y, m as real);
      } else {
        MulMonotone(m as real, n as real, tp - 1.0, y - m as real, x - n as real);
      }
      assert y < m as real + 1.0;
    } else {
      MulMonotone(m as real, n as real, -tp, -y, -x);
      MulMonotone(0.0, m as real, -tp, 0.0, -y);
      if x < 0.0 {
        assert -x < 1.0;
      }
    }
  }

  // ---------------------------------------------------------------------
  // The split of one repeat
  // ---------------------------------------------------------------------

  /** The training list and the testing list handed to the evaluator. */
  datatype Split<T> = Split(train: seq<TrainingSample<T>>, test: seq<TrainingSample<T>>)

  /** The split of an already shuffled list. Balanced: the first
      trunc(|pos| * trainPercent) positives followed by the first
      trunc(|neg| * trainPercent) negatives train; the positives followed by
      the negatives, less every sample equal to a training sample, test.
      Unbalanced: the first trunc(|s| * trainPercent) samples train; the list
      less every sample equal to a training sample tests. */
  function SplitOf<T(==)>(s: seq<TrainingSample<T>>, trainPercent: real, balance: bool): Split<T>
    requires TrainCountFits(|s|, trainPercent)
  {
    if balance then
      var pos, neg := Positives(s), Negatives(s);
      PartitionSizes(s);
      ClassCountsFit(|s|, |pos|, trainPercent);
      ClassCountsFit(|s|, |neg|, trainPercent);
      var train := pos[..TrainCount(|pos|, trainPercent)] + neg[..TrainCount(|neg|, trainPercent)];
      Split(train, RemoveAll(pos + neg, train))
    else
      var train := s[..TrainCount(|s|, trainPercent)];
      Split(train, RemoveAll(s, train))
  }

  /** In either mode the two lists partition the samples by value: no test
      sample equals a training sample, every sample of either list comes from
      the list, and every sample of the list ends up in one of them. */
  lemma SplitIsPartition<T>(s: seq<TrainingSample<T>>, trainPercent: real, balance: bool)
    requires TrainCountFits(|s|, trainPercent)
    ensures var r := SplitOf(s, trainPercent, balance);
      forall t :: t in r.test ==> t !in r.train
    ensures var r := SplitOf(s, trainPercent, balance);
      forall t :: t in s <==> t in r.train || t in r.test
  {
    var r := SplitOf(s, trainPercent, balance);
    if balance {
      var pos, neg := Positives(s), Negatives(s);
      PartitionByLabel(s);
      PartitionSizes(s);
      ClassCountsFit(|s|, |pos|, trainPercent);
      ClassCountsFit(|s|, |neg|, trainPercent);
      var a, b := TrainCount(|pos|, trainPercent), TrainCount(|neg|, trainPercent);
      assert r.train == pos[..a] + neg[..b];
      assert r.test == RemoveAll(pos + neg, r.train);
      RemoveAllMembers(pos + neg, r.train);
      forall t | t in r.train ensures t in pos + neg {
        assert t in pos[..a] || t in neg[..b];
      }
    } else {
      var k := TrainCount(|s|, trainPercent);
      assert r.train == s[..k] && r.test == RemoveAll(s, r.train);
      RemoveAllMembers(s, r.train);
      forall t | t in r.train ensures t in s {
        assert t in s[..k];
      }
    }
  }

  /** In balanced mode the training list holds exactly the first
      trunc(|pos| * trainPercent) positives and the first
      trunc(|neg| * trainPercent) negatives of the shuffled list, in order. */
  lemma BalancedSplitCounts<T>(s: seq<TrainingSample<T>>, trainPercent: real)
    requires TrainCountFits(|s|, trainPercent)
    ensures TrainCountFits(|Positives(s)|, trainPercent)
    ensures TrainCountFits(|Negatives(s)|, trainPercent)
    ensures var train := SplitOf(s, trainPercent, true).train;
      && Positives(train) == Positives(s)[..TrainCount(|Positives(s)|, trainPercent)]
      && Negatives(train) == Negatives(s)[..TrainCount(|Negatives(s)|, trainPercent)]
  {
    var pos, neg := Positives(s), Negatives(s);
    PartitionByLabel(s);
    ClassCountsFit(|s|, |pos|, trainPercent);
    ClassCountsFit(|s|, |neg|, trainPercent);
    var a, b := TrainCount(|pos|, trainPercent), TrainCount(|neg|, trainPercent);
    assert SplitOf(s, trainPercent, true).train == pos[..a] + neg[..b];
    forall t | t in pos[..a] ensures t.classLabel == 1 {
      assert t in pos;
      FilterMember(s, IsPositive, t);
    }
    forall t | t in neg[..b] ensures t.classLabel != 1 {
      assert t in neg;
      FilterMember(s, IsNegative, t);
    }
    LabelledConcat(pos[..a], neg[..b]);
  }

  /** A list of positives followed by a list of negatives splits back into
      the two. */
  lemma LabelledConcat<T>(p: seq<TrainingSample<T>>, n: seq<TrainingSample<T>>)
    requires forall t :: t in p ==> t.classLabel == 1
    requires forall t :: t in n ==> t.classLabel != 1
    ensures Positives(p + n) == p && Negatives(p + n) == n
  {
    FilterAppend(p, n, IsPositive);
    FilterKeepsAll(p, IsPositive);
    FilterKeepsNone(n, IsPositive);
    FilterAppend(p, n, IsNegative);
    FilterKeepsNone(p, IsNegative);
    FilterKeepsAll(n, IsNegative);
  }

  /** With 60 positive and 40 negative samples and trainPercent 0.7, every
      balanced training list holds 42 positive and 28 negative samples. */
  lemma BalancedSixtyForty<T>(s: seq<TrainingSample<T>>)
    requires |Positives(s)| == 60 && |Negatives(s)| == 40
    ensures TrainCountFits(|s|, 0.7)
    ensures var train := SplitOf(s, 0.7, true).train;
      |Positives(train)| == 42 && |Negatives(train)| == 28
  {
    PartitionByLabel(s);
    assert TrainCount(100, 0.7) == 70;
    assert TrainCount(60, 0.7) == 42;
    assert TrainCount(40, 0.7) == 28;
    BalancedSplitCounts(s, 0.7);
  }

  lemma {:induction false} FilterNoDuplicates<X>(s: seq<X>, keep: X -> bool)
    requires NoDuplicates(s)
    ensures NoDuplicates(Filter(s, keep))
  {
    if s != [] {
      var s' := s[..|s| - 1];
      assert s == s' + [s[|s| - 1]];
      FilterNoDuplicates(s', keep);
      FilterMember(s', keep, s[|s| - 1]);
      assert s[|s| - 1] !in s';
    }
  }

  /** Removing the elements of `r` from `s`, where `s` holds none of them. */
  lemma RemoveAllDisjoint<X>(s: seq<X>, r: seq<X>)
    requires forall x :: x in s ==> x !in r
    ensures RemoveAll(s, r) == s
  {
    FilterKeepsAll(s, Excluding(r));
  }

  /** Removing the elements of `r` from `s`, where `s` holds only them. */
  lemma RemoveAllCovered<X>(s: seq<X>, r: seq<X>)
    requires forall x :: x in s ==> x in r
    ensures RemoveAll(s, r) == []
  {
    FilterKeepsNone(s, Excluding(r));
  }

  lemma SliceMembers<X>(s: seq<X>, k: nat)
    requires k <= |s| && NoDuplicates(s)
    ensures forall x :: x in s[k..] ==> x !in s[..k]
    ensures forall x :: x in s[..k] ==> x in s
  {
    forall x | x in s[k..] ensures x !in s[..k] {
      var i :| 0 <= i < |s[k..]| && s[k..][i] == x;
      forall j | 0 <= j < k ensures s[..k][j] != x {
        assert s[j] != s[k + i];
      }
    }
  }

  /** Removing two leading blocks from two lists with no repeated value
      within or across them leaves exactly the two tails. */
  lemma RemoveLeadingBlocks<X>(p: seq<X>, q: seq<X>, a: nat, b: nat)
    requires a <= |p| && b <= |q| && NoDuplicates(p) && NoDuplicates(q)
    requires forall x :: x in p ==> x !in q
    ensures RemoveAll(p + q, p[..a] + q[..b]) == p[a..] + q[b..]
  {
    var train := p[..a] + q[..b];
    LeadingBlocksMembers(p, q, a, b);
    var drop := Excluding(train);
    assert p + q == p[..a] + (p[a..] + (q[..b] + q[b..]));
    calc {
      Filter(p + q, drop);
      { FilterAppend(p[..a], p[a..] + (q[..b] + q[b..]), drop); }
      Filter(p[..a], drop) + Filter(p[a..] + (q[..b] + q[b..]), drop);
      { FilterAppend(p[a..], q[..b] + q[b..], drop); FilterAppend(q[..b], q[b..], drop); }
      Filter(p[..a], drop) + (Filter(p[a..], drop) + (Filter(q[..b], drop) + Filter(q[b..], drop)));
      { RemoveAllCovered(p[..a], train); RemoveAllDisjoint(p[a..], train);
        RemoveAllCovered(q[..b], train); RemoveAllDisjoint(q[b..], train); }
      [] + (p[a..] + ([] + q[b..]));
    }
  }

  /** Where the blocks and the tails of `RemoveLeadingBlocks` lie relative to
      the removed blocks. */
  lemma LeadingBlocksMembers<X>(p: seq<X>, q: seq<X>, a: nat, b: nat)
    requires a <= |p| && b <= |q| && NoDuplicates(p) && NoDuplicates(q)
    requires forall x :: x in p ==> x !in q
    ensures forall x :: x in p[..a] ==> x in p[..a] + q[..b]
    ensures forall x :: x in q[..b] ==> x in p[..a] + q[..b]
    ensures forall x :: x in p[a..] ==> x !in p[..a] + q[..b]
    ensures forall x :: x in q[b..] ==> x !in p[..a] + q[..b]
  {
    SliceMembers(p, a);
    SliceMembers(q, b);
    assert forall x :: x in p[a..] ==> x in p;
    assert forall x :: x in q[b..] ==> x in q;
  }

  /** Value-based removal only loses samples to duplicates: when the list holds
      no two equal samples, the unbalanced testing list is exactly the samples
      after the training prefix. */
  lemma UnbalancedSplitWithoutDuplicates<T>(s: seq<TrainingSample<T>>, trainPercent: real)
    requires TrainCountFits(|s|, trainPercent) && NoDuplicates(s)
    ensures var r := SplitOf(s, trainPercent, false);
      r.test == s[TrainCount(|s|, trainPercent)..] && |r.train| + |r.test| == |s|
  {
    var k := TrainCount(|s|, trainPercent);
    RemoveLeadingBlocks(s, [], k, 0);
    assert s + [] == s && s[..k] + [][..0] == s[..k] && s[k..] + [][0..] == s[k..];
  }

  /** The balanced counterpart: with no two equal samples in the list, the
      testing list is the positives after their training prefix followed by
      the negatives after theirs. */
  lemma BalancedSplitWithoutDuplicates<T>(s: seq<TrainingSample<T>>, trainPercent: real)
    requires TrainCountFits(|s|, trainPercent) && NoDuplicates(s)
    ensures TrainCountFits(|Positives(s)|, trainPercent)
    ensures TrainCountFits(|Negatives(s)|, trainPercent)
    ensures var r := SplitOf(s, trainPercent, true);
      && r.test == Positives(s)[TrainCount(|Positives(s)|, trainPercent)..]
                   + Negatives(s)[TrainCount(|Negatives(s)|, trainPercent)..]
      && |r.train| + |r.test| == |s|
  {
    var pos, neg := Positives(s), Negatives(s);
    PartitionByLabel(s);
    ClassCountsFit(|s|, |pos|, trainPercent);
    ClassCountsFit(|s|, |neg|, trainPercent);
    FilterNoDuplicates(s, IsPositive);
    FilterNoDuplicates(s, IsNegative);
    forall x | x in pos ensures x !in neg {
      FilterMember(s, IsPositive, x);
      FilterMember(s, IsNegative, x);
    }
    RemoveLeadingBlocks(pos, neg, TrainCount(|pos|, trainPercent), TrainCount(|neg|, trainPercent));
  }

  // ---------------------------------------------------------------------
  // The shuffle
  // ---------------------------------------------------------------------

  /** `java.util.Random` seen from outside: the generator a seed starts, and
      `nextInt(bound)`, which yields a draw and the advanced generator. */
  datatype RandomSource<!G> = RandomSource(seeded: int -> G, nextInt: (G, nat) -> (nat, G))

  /** One `nextInt(bound)` draw, in [0, bound). */
  function Draw<G>(random: RandomSource<G>, g: G, bound: nat): (r: (nat, G))
    requires bound > 0
    ensures r.0 < bound
  {
    var (v, next) := random.nextInt(g, bound);
    (v % bound, next)
  }

  /** `s` with the elements at `i` and `j` exchanged. */
  function Swap<X>(s: seq<X>, i: nat, j: nat): (r: seq<X>)
    requires i < |s| && j < |s|
    ensures |r| == |s|
  {
    s[i := s[j]][j := s[i]]
  }

  /** The swap loop of `Collections.shuffle` on a random-access list, from
      position `i` down: swap positions i - 1 and nextInt(i), for i down to 2.
      Returns the reordered list and the advanced generator. */
  function ShuffleFrom<X, G>(random: RandomSource<G>, g: G, s: seq<X>, i: nat): (r: (seq<X>, G))
    requires i <= |s|
    ensures |r.0| == |s|
    decreases i
  {
    if i <= 1 then (s, g)
    else
      var (d, next) := Draw(random, g, i);
      ShuffleFrom(random, next, Swap(s, i - 1, d), i - 1)
  }

  /** A shuffle only reorders: every element keeps its number of copies. */
  lemma {:induction false} ShufflePermutes<X, G>(random: RandomSource<G>, g: G, s: seq<X>, i: nat)
    requires i <= |s|
    ensures multiset(ShuffleFrom(random, g, s, i).0) == multiset(s)
    decreases i
  {
    if i > 1 {
      var (d, next) := Draw(random, g, i);
      var swapped := Swap(s, i - 1, d);
      assert multiset(swapped) == multiset(s);
      ShufflePermutes(random, next, swapped, i - 1);
    }
  }

  /** A whole shuffle of `s` with generator `g`. */
  function Shuffled<X, G>(random: RandomSource<G>, g: G, s: seq<X>): (seq<X>, G) {
    ShuffleFrom(random, g, s, |s|)
  }

  /** A list of training samples held by reference, like a Java `List`. */
  class SampleList<T> {
    var items: seq<TrainingSample<T>>

    constructor (items: seq<TrainingSample<T>>)
      ensures this.items == items
    {
      this.items := items;
    }
  }

  /** `Collections.shuffle(list, ran)`: reorders the list in place and
      advances the generator. */
  method Shuffle<T, G>(list: SampleList<T>, random: RandomSource<G>, g: G) returns (next: G)
    modifies list
    ensures (list.items, next) == Shuffled(random, g, old(list.items))
  {
    var i := |list.items|;
    next := g;
    while i > 1
      invariant 0 <= i <= |list.items| == |old(list.items)|
      invariant ShuffleFrom(random, next, list.items, i) == Shuffled(random, g, old(list.items))
    {
      var (d, advanced) := Draw(random, next, i);
      list.items := Swap(list.items, i - 1, d);
      next := advanced;
      i := i - 1;
    }
  }

  /** The loop that sorts the shuffled list into positives and negatives. */
  method SplitByLabel<T>(s: seq<TrainingSample<T>>) returns (pos: seq<TrainingSample<T>>, neg: seq<TrainingSample<T>>)
    ensures pos == Positives(s) && neg == Negatives(s)
  {
    pos, neg := [], [];
    for i := 0 to |s|
      invariant pos == Positives(s[..i]) && neg == Negatives(s[..i])
    {
      assert s[..i + 1][..i] == s[..i];
      if s[i].classLabel == 1 {
        pos := pos + [s[i]];
      } else {
        neg := neg + [s[i]];
      }
    }
    assert s[..|s|] == s;
  }

  /** The list building of one repeat: the two lists `run` fills from the
      shuffled list before it calls the evaluator. */
  method BuildSplit<T(==)>(items: seq<TrainingSample<T>>, trainPercent: real, balance: bool, trainSize: int)
    returns (trainList: seq<TrainingSample<T>>, testList: seq<TrainingSample<T>>)
    requires TrainCountFits(|items|, trainPercent) && trainSize == TrainCount(|items|, trainPercent)
    ensures Split(trainList, testList) == SplitOf(items, trainPercent, balance)
  {
    trainList, testList := [], [];
    if balance {
      var pos, neg := SplitByLabel(items);
      PartitionSizes(items);
      ClassCountsFit(|items|, |pos|, trainPercent);
      ClassCountsFit(|items|, |neg|, trainPercent);
      trainList := trainList + pos[..TrainCount(|pos|, trainPercent)];
      testList := testList + pos;
      trainList := trainList + neg[..TrainCount(|neg|, trainPercent)];
      testList := testList + neg;
      assert trainList == pos[..TrainCount(|pos|, trainPercent)] + neg[..TrainCount(|neg|, trainPercent)];
      assert testList == pos + neg;
      testList := RemoveAll(testList, trainList);
    } else {
      trainList := trainList + items[..trainSize];
      testList := testList + items;
      assert trainList == items[..trainSize] && testList == items;
      testList := RemoveAll(testList, trainList);
    }
  }

  // ---------------------------------------------------------------------
  // The repeats of a run
  // ---------------------------------------------------------------------

  /** The evaluator and the classifier it trains, seen as a score oracle:
      the score of the classifier trained on the first list and evaluated on
      the second. */
  type Evaluator<!T, !C> = (C, seq<TrainingSample<T>>, seq<TrainingSample<T>>) -> real

  /** The parameters a run reads besides the list and the seed. */
  datatype Setup<!T, !C> = Setup(classifier: C, evaluator: Evaluator<T, C>, trainPercent: real, balance: bool)

  /** The state a run carries from repeat to repeat: the list in its current
      order, the generator, and the scores recorded so far. */
  datatype Progress<T, G> = Progress(items: seq<TrainingSample<T>>, gen: G, scores: seq<real>)

  /** The split evaluated by the repeat that starts from `p`. */
  function RepeatSplit<T(==), C, G>(random: RandomSource<G>, setup: Setup<T, C>, p: Progress<T, G>): Split<T>
    requires TrainCountFits(|p.items|, setup.trainPercent)
  {
    SplitOf(Shuffled(random, p.gen, p.items).0, setup.trainPercent, setup.balance)
  }

  /** The score the evaluator gives the split of an already shuffled list. */
  function SplitScore<T(==), C>(setup: Setup<T, C>, items: seq<TrainingSample<T>>): real
    requires TrainCountFits(|items|, setup.trainPercent)
  {
    var split := SplitOf(items, setup.trainPercent, setup.balance);
    setup.evaluator(setup.classifier, split.train, split.test)
  }

  /** The score of the repeat that starts from `p`. */
  function RepeatScore<T(==), C, G>(random: RandomSource<G>, setup: Setup<T, C>, p: Progress<T, G>): real
    requires TrainCountFits(|p.items|, setup.trainPercent)
  {
    SplitScore(setup, Shuffled(random, p.gen, p.items).0)
  }

  /** One repeat: shuffle, split, evaluate, record the score after the
      earlier ones. */
  function Repeat<T(==), C, G>(random: RandomSource<G>, setup: Setup<T, C>, p: Progress<T, G>): (r: Progress<T, G>)
    requires TrainCountFits(|p.items|, setup.trainPercent)
    ensures |r.items| == |p.items|
    ensures |r.scores| == |p.scores| + 1
  {
    var shuffled := Shuffled(random, p.gen, p.items);
    Progress(shuffled.0, shuffled.1, p.scores + [RepeatScore(random, setup, p)])
  }

  /** `n` repeats in a row, each starting from the state the previous one
      left: the list order and the generator carry over. */
  function Repeats<T(==), C, G>(random: RandomSource<G>, setup: Setup<T, C>, p: Progress<T, G>, n: nat): (r: Progress<T, G>)
    requires n > 0 ==> TrainCountFits(|p.items|, setup.trainPercent)
    ensures |r.items| == |p.items|
    ensures |r.scores| == |p.scores| + n
  {
    if n == 0 then p else Repeat(random, setup, Repeats(random, setup, p, n - 1))
  }

  /** However many repeats run, the list stays a reordering of the samples. */
  lemma {:induction false} RepeatsPermute<T, C, G>(random: RandomSource<G>, setup: Setup<T, C>, p: Progress<T, G>, n: nat)
    requires n > 0 ==> TrainCountFits(|p.items|, setup.trainPercent)
    ensures multiset(Repeats(random, setup, p, n).items) == multiset(p.items)
  {
    if n > 0 {
      var before := Repeats(random, setup, p, n - 1);
      RepeatsPermute(random, setup, p, n - 1);
      ShufflePermutes(random, before.gen, before.items, |before.items|);
    }
  }

  /** A repeat only appends: the scores recorded before it stay as they were. */
  lemma {:induction false} RepeatsKeepEarlierScores<T, C, G>(random: RandomSource<G>, setup: Setup<T, C>, p: Progress<T, G>, n: nat)
    requires n > 0 ==> TrainCountFits(|p.items|, setup.trainPercent)
    ensures Repeats(random, setup, p, n).scores[..|p.scores|] == p.scores
  {
    if n > 0 {
      var before := Repeats(random, setup, p, n - 1);
      RepeatsKeepEarlierScores(random, setup, p, n - 1);
      assert Repeats(random, setup, p, n).scores == before.scores + [RepeatScore(random, setup, before)];
    }
  }

  lemma RepeatsStep<T, C, G>(random: RandomSource<G>, setup: Setup<T, C>, p: Progress<T, G>, n: nat)
    requires TrainCountFits(|p.items|, setup.trainPercent)
    ensures Repeats(random, setup, p, n + 1) == Repeat(random, setup, Repeats(random, setup, p, n))
  {
  }

  lemma RepeatOfShuffle<T, C, G>(random: RandomSource<G>, setup: Setup<T, C>, p: Progress<T, G>,
                                 items: seq<TrainingSample<T>>, g: G, score: real)
    requires TrainCountFits(|p.items|, setup.trainPercent)
    requires (items, g) == Shuffled(random, p.gen, p.items)
    requires |items| == |p.items| && score == SplitScore(setup, items)
    ensures Repeat(random, setup, p) == Progress(items, g, p.scores + [score])
  {
  }

  /** Scores are stored in repeat order: entry k (counted from the scores
      already there) is the evaluator's score on the split of repeat k. */
  lemma {:induction false} ScoresInRepeatOrder<T, C, G>(random: RandomSource<G>, setup: Setup<T, C>, p: Progress<T, G>, n: nat, k: nat)
    requires TrainCountFits(|p.items|, setup.trainPercent)
    requires k < n
    ensures Repeats(random, setup, p, n).scores[|p.scores| + k] == RepeatScore(random, setup, Repeats(random, setup, p, k))
  {
    if k < n - 1 {
      ScoresInRepeatOrder(random, setup, p, n - 1, k);
      var prev := Repeats(random, setup, p, n - 1);
      assert Repeats(random, setup, p, n).scores == prev.scores + [RepeatScore(random, setup, prev)];
    } else {
      var before := Repeats(random, setup, p, k);
      assert Repeats(random, setup, p, k + 1).scores == before.scores + [RepeatScore(random, setup, before)];
    }
  }

  /** Every repeat splits a reordering of the original samples: the testing
      and training lists are disjoint by value, every original sample value is
      in one of them, and they hold no other value. Removal is by value, so
      repeated copies of a training sample do not reach the testing list. */
  lemma EveryRepeatSplitsTheSamples<T, C, G>(random: RandomSource<G>, setup: Setup<T, C>, p: Progress<T, G>, k: nat)
    requires TrainCountFits(|p.items|, setup.trainPercent)
    ensures var split := RepeatSplit(random, setup, Repeats(random, setup, p, k));
      && (forall t :: t in split.test ==> t !in split.train)
      && (forall t :: t in p.items <==> t in split.train || t in split.test)
  {
    var before := Repeats(random, setup, p, k);
    var shuffled := Shuffled(random, before.gen, before.items).0;
    SplitIsPartition(shuffled, setup.trainPercent, setup.balance);
    RepeatsPermute(random, setup, p, k);
    ShufflePermutes(random, before.gen, before.items, |before.items|);
    assert multiset(shuffled) == multiset(p.items);
    forall t ensures t in p.items <==> t in shuffled {
      assert t in p.items <==> t in multiset(p.items);
      assert t in shuffled <==> t in multiset(shuffled);
    }
  }

  /** The contents of a freshly allocated `double[n]`. */
  function Zeros(n: nat): (r: seq<real>)
    ensures |r| == n && forall i :: 0 <= i < n ==> r[i] == 0.0
  {
    seq(n, _ => 0.0)
  }

  // ---------------------------------------------------------------------
  // The harness
  // ---------------------------------------------------------------------

  /** The exceptions `run` can raise itself. */
  datatype RunError =
    | NegativeArraySize  // nbTest < 0: the results array cannot be allocated
    | IllegalCapacity    // trainSize outside [0, |list|]: a list with negative capacity is requested

  datatype Outcome = Pass | Fail(error: RunError)

  class RandomSplitCrossValidation<T(==), C> {
    var balance: bool
    var classifier: C
    var list: SampleList<T>
    var evaluator: Evaluator<T, C>
    var seed: int
    var trainPercent: real
    var nbTest: int
    var results: array?<real>

    /** Takes the classifier and the evaluator, and a private copy of the
        caller's list; 70% training, 20 repeats, seed 0, balanced. */
    constructor (cls: C, l: SampleList<T>, e: Evaluator<T, C>)
      ensures classifier == cls && evaluator == e
      ensures fresh(list) && list.items == l.items
      ensures balance && seed == 0 && trainPercent == 0.7 && nbTest == 20 && results == null
    {
      balance := true;
      classifier := cls;
      list := new SampleList(l.items);
      evaluator := e;
      seed := 0;
      trainPercent := 0.7;
      nbTest := 20;
      results := null;
    }

    ghost function Setting(): Setup<T, C>
      reads this
    {
      Setup(classifier, evaluator, trainPercent, balance)
    }

    /** Runs nbTest repeats with one generator seeded from `seed`, shuffling
        the stored list in place and storing repeat k's score at results[k]. */
    method Run<G>(random: RandomSource<G>) returns (outcome: Outcome)
      modifies this`results, list
      ensures nbTest < 0 ==>
        && outcome == Fail(NegativeArraySize)
        && results == old(results) && list.items == old(list.items)
      ensures nbTest >= 0 ==> results != null && fresh(results) && results.Length == nbTest
      ensures nbTest > 0 && !TrainCountFits(|old(list.items)|, trainPercent) ==>
        && outcome == Fail(IllegalCapacity)
        && list.items == Shuffled(random, random.seeded(seed), old(list.items)).0
        && results != null && forall k :: 0 <= k < results.Length ==> results[k] == 0.0
      ensures nbTest == 0 || (nbTest > 0 && TrainCountFits(|old(list.items)|, trainPercent)) ==>
        && outcome == Pass && results != null
        && var done := Repeats(random, Setting(), Progress(old(list.items), random.seeded(seed), []), nbTest);
           list.items == done.items && results[..] == done.scores
    {
      if nbTest < 0 {
        return Fail(NegativeArraySize);
      }
      var scores := new real[nbTest](_ => 0.0);
      assert scores[..] == Zeros(nbTest);
      results := scores;
      var trainSize := TrainCount(|list.items|, trainPercent);
      var fits := RunRepeats(random, random.seeded(seed), scores, trainSize, Setting());
      if !fits {
        return Fail(IllegalCapacity);
      }
      return Pass;
    }

    /** The loop of `run`: nbTest countdown, one shuffle and one stored score
        per pass; stops at the first pass whose lists cannot be allocated. */
    method RunRepeats<G>(random: RandomSource<G>, g: G, scores: array<real>, trainSize: int, ghost setup: Setup<T, C>)
      returns (fits: bool)
      requires setup == Setup(classifier, evaluator, trainPercent, balance)
      requires scores.Length == nbTest && trainSize == TrainCount(|list.items|, trainPercent)
      requires scores[..] == Zeros(nbTest)
      modifies list, scores
      ensures !fits <==> nbTest > 0 && !TrainCountFits(|old(list.items)|, trainPercent)
      ensures !fits ==> list.items == Shuffled(random, g, old(list.items)).0 && scores[..] == Zeros(nbTest)
      ensures fits ==>
        var done := Repeats(random, setup, Progress(old(list.items), g, []), nbTest);
        list.items == done.items && scores[..] == done.scores
    {
      var nb := nbTest;
      var next := g;
      ghost var start := Progress(list.items, g, []);
      ghost var count := 0;
      while nb > 0
        invariant 0 <= nb <= nbTest == scores.Length && count == nbTest - nb
        invariant start == Progress(old(list.items), g, [])
        invariant |list.items| == |start.items|
        invariant count > 0 ==> TrainCountFits(|start.items|, trainPercent)
        invariant var done := Repeats(random, setup, start, count);
          list.items == done.items && next == done.gen && scores[..] == done.scores + Zeros(nbTest - count)
      {
        var fitsNow;
        next, fitsNow := RunOnce(random, next, scores, nbTest - nb, trainSize, setup, start);
        if !fitsNow {
          return false;
        }
        nb := nb - 1;
        count := count + 1;
      }
      return true;
    }

    /** Pass number `index` of `run`'s loop, from the state the earlier
        passes left: shuffle the list, then, when the training size fits the
        list, store the score of its split at results[index], which completes
        repeat number `index`; otherwise the list allocation fails, which can
        only happen on the first pass, and nothing is stored. */
    method RunOnce<G>(random: RandomSource<G>, g: G, scores: array<real>, index: nat, trainSize: int,
                      ghost setup: Setup<T, C>, ghost start: Progress<T, G>)
      returns (next: G, fits: bool)
      requires setup == Setup(classifier, evaluator, trainPercent, balance)
      requires index < scores.Length && start.scores == []
      requires |list.items| == |start.items| && trainSize == TrainCount(|start.items|, trainPercent)
      requires index > 0 ==> TrainCountFits(|start.items|, trainPercent)
      requires var p := Repeats(random, setup, start, index);
        list.items == p.items && g == p.gen && scores[..] == p.scores + Zeros(scores.Length - index)
      modifies list, scores
      ensures fits <==> TrainCountFits(|start.items|, trainPercent)
      ensures fits ==>
        var q := Repeats(random, setup, start, index + 1);
        list.items == q.items && next == q.gen && scores[..] == q.scores + Zeros(scores.Length - index - 1)
      ensures !fits ==>
        && index == 0
        && list.items == Shuffled(random, start.gen, start.items).0
        && scores[..] == Zeros(scores.Length)
    {
      ghost var p := Repeats(random, setup, start, index);
      next := Shuffle(list, random, g);
      if trainSize < 0 || |list.items| - trainSize < 0 {
        return next, false;
      }
      var score := EvaluateSplit(trainSize, setup);
      scores[index] := score;
      assert scores[..] == p.scores + [score] + Zeros(scores.Length - index - 1);
      RepeatOfShuffle(random, setup, p, list.items, next, score);
      RepeatsStep(random, setup, start, index);
      return next, true;
    }

    /** One evaluation: build the two lists from the list in its current
        order and ask the evaluator for the classifier's score on them. */
    method EvaluateSplit(trainSize: int, ghost setup: Setup<T, C>) returns (score: real)
      requires setup == Setup(classifier, evaluator, trainPercent, balance)
      requires TrainCountFits(|list.items|, trainPercent)
      requires trainSize == TrainCount(|list.items|, trainPercent)
      ensures score == SplitScore(setup, list.items)
    {
      var trainList, testList := BuildSplit(list.items, trainPercent, balance, trainSize);
      score := evaluator(classifier, trainList, testList);
    }

    /** The mean score of the last run; none (NaN) before any run. */
    method GetAverageScore() returns (average: Option<real>)
      ensures results == null ==> average == None
      ensures results != null ==> average == Mean(results[..])
    {
      if results == null {
        return None;
      }
      var ave := 0.0;
      for i := 0 to results.Length
        invariant ave == Sum(results[..i])
      {
        assert results[..i + 1][..i] == results[..i];
        ave := ave + results[i];
      }
      assert results[..results.Length] == results[..];
      if results.Length == 0 {
        return None;
      }
      return Some(ave / results.Length as real);
    }

    /** The population standard deviation of the last run's scores, given the
        square root: `sqrt` of the squared deviations from the mean divided by
        N; none (NaN) before any run. */
    method GetStdDevScore(sqrt: real -> real) returns (deviation: Option<real>)
      ensures results == null ==> deviation == None
      ensures results != null ==> deviation == match Variance(results[..])
        case None => None
        case Some(v) => Some(sqrt(v))
    {
      if results == null {
        return None;
      }
      var std := 0.0;
      var ave := GetAverageScore();
      if ave.None? {
        return None;
      }
      for i := 0 to results.Length
        invariant std == SquaredDeviations(results[..i], ave.value)
      {
        assert results[..i + 1][..i] == results[..i];
        std := std + (results[i] - ave.value) * (results[i] - ave.value);
      }
      assert results[..results.Length] == results[..];
      return Some(sqrt(std / results.Length as real));
    }

    function GetScores(): array?<real>
      reads this
    {
      results
    }

    function GetClassifier(): C
      reads this
    {
      classifier
    }

    method SetClassifier(classifier: C)
      modifies this`classifier
      ensures GetClassifier() == classifier
    {
      this.classifier := classifier;
    }

    function GetList(): SampleList<T>
      reads this
    {
      list
    }

    /** Stores the caller's list object itself: later runs shuffle it. */
    method SetList(list: SampleList<T>)
      modifies this`list
      ensures GetList() == list
    {
      this.list := list;
    }

    function GetTrainPercent(): real
      reads this
    {
      trainPercent
    }

    method SetTrainPercent(trainPercent: real)
      modifies this`trainPercent
      ensures GetTrainPercent() == trainPercent
    {
      this.trainPercent := trainPercent;
    }

    function GetNbTest(): int
      reads this
    {
      nbTest
    }

    method SetNbTest(nbTest: int)
      modifies this`nbTest
      ensures GetNbTest() == nbTest
    {
      this.nbTest := nbTest;
    }

    function GetSeed(): int
      reads this
    {
      seed
    }

    method SetSeed(seed: int)
      modifies this`seed
      ensures GetSeed() == seed
    {
      this.seed := seed;
    }

    function IsBalanced(): bool
      reads this
    {
      balance
    }

    method SetBalanced(balanced: bool)
      modifies this`balance
      ensures IsBalanced() == balanced
    {
      balance := balanced;
    }
  }

  /** A caller that builds a harness from its list and runs it: the
      constructor's copy means the caller's list keeps its order. */
  method RunLeavesCallerListAlone<T(==), C, G>(cls: C, l: SampleList<T>, e: Evaluator<T, C>, random: RandomSource<G>)
    returns (outcome: Outcome)
    ensures l.items == old(l.items)
  {
    var cv := new RandomSplitCrossValidation(cls, l, e);
    outcome := cv.Run(random);
  }
}
