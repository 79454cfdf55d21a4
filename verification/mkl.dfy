/** The multiple kernel learning container: a set of kernels, each with a
    weight, seen through three views (the kernel list, the weight array and
    the kernel-to-weight map) that must describe the same pairs. */
module MultipleKernel {

  /** The kernels of a list of (kernel, weight) pairs, in list order. */
  function KernelsOf<K>(es: seq<(K, real)>): seq<K> {
    seq(|es|, i requires 0 <= i < |es| => es[i].0)
  }

  /** The weights of a list of (kernel, weight) pairs, in list order. */
  function WeightsOf<K>(es: seq<(K, real)>): seq<real> {
    seq(|es|, i requires 0 <= i < |es| => es[i].1)
  }

  /** The pairs entered into a map one after the other; a later pair for the
      same kernel replaces an earlier one. */
  function WeightMapOf<K(==)>(es: seq<(K, real)>): map<K, real> {
    if es == [] then map[]
    else WeightMapOf(es[..|es| - 1])[es[|es| - 1].0 := es[|es| - 1].1]
  }

  /** No kernel appears twice. */
  ghost predicate Distinct<K>(es: seq<(K, real)>) {
    forall i, j :: 0 <= i < j < |es| ==> es[i].0 != es[j].0
  }

  /** The keys of the map are exactly the kernels of the list. */
  lemma {:induction false} WeightMapKeys<K>(es: seq<(K, real)>)
    ensures forall k :: k in WeightMapOf(es) <==> k in KernelsOf(es)
  {
    if es != [] {
      var es' := es[..|es| - 1];
      WeightMapKeys(es');
      assert KernelsOf(es) == KernelsOf(es') + [es[|es| - 1].0];
    }
  }

  /** With distinct kernels, the map gives each kernel the weight at its own
      position in the list. */
  lemma {:induction false} WeightMapValues<K>(es: seq<(K, real)>)
    ensures Distinct(es) ==> forall i :: 0 <= i < |es| ==> es[i].0 in WeightMapOf(es) && WeightMapOf(es)[es[i].0] == es[i].1
  {
    if es != [] && Distinct(es) {
      var es' := es[..|es| - 1];
      assert Distinct(es');
      WeightMapValues(es');
      forall i | 0 <= i < |es|
        ensures es[i].0 in WeightMapOf(es) && WeightMapOf(es)[es[i].0] == es[i].1
      {
        if i < |es| - 1 {
          assert es[i] == es'[i];
          assert es[i].0 != es[|es| - 1].0;
        }
      }
    }
  }

  /** With distinct kernels the map has one key per kernel. */
  lemma {:induction false} WeightMapSize<K>(es: seq<(K, real)>)
    requires Distinct(es)
    ensures |WeightMapOf(es)| == |es|
  {
    if es != [] {
      var es' := es[..|es| - 1];
      assert Distinct(es');
      WeightMapSize(es');
      WeightMapKeys(es');
      assert es[|es| - 1].0 !in WeightMapOf(es');
    }
  }

  /** A multiple kernel learner, reduced to its kernels and their weights.
      `entries[i]` holds the i-th kernel and its weight. */
  class Mkl<K(==,!new)> {
    var entries: seq<(K, real)>

    /** The kernels form a set: no kernel is listed twice. */
    ghost predicate Valid()
      reads this
    {
      Distinct(entries)
    }

    /** The kernels in the set, in the container's order. */
    function GetKernels(): (r: seq<K>)
      reads this
      ensures |r| == |entries|
    {
      KernelsOf(entries)
    }

    /** One weight per kernel, in the same order as the kernels: the weight at
        position i belongs to the kernel at position i. */
    function GetKernelWeights(): (r: seq<real>)
      reads this
      ensures |r| == |GetKernels()|
      ensures forall i :: 0 <= i < |r| ==> (GetKernels()[i], r[i]) == entries[i]
    {
      WeightsOf(entries)
    }

    /** Each kernel of the set mapped to its weight: the keys are the kernels,
        and with distinct kernels each key maps to the weight the weight array
        holds at the kernel's position. */
    function GetKernelWeightMap(): (r: map<K, real>)
      reads this
      ensures forall k :: k in r <==> k in GetKernels()
      ensures Valid() ==> forall i :: 0 <= i < |GetKernels()| ==> r[GetKernels()[i]] == GetKernelWeights()[i]
    {
      WeightMapKeys(entries);
      WeightMapValues(entries);
      WeightMapOf(entries)
    }

    /** Adds `kernel` to the set. The weight it receives and where it is
        listed are up to the learner; the other kernels stay in the set. */
    method AddKernel(kernel: K)
      requires Valid()
      modifies this
      ensures Valid()
      ensures kernel in GetKernels() && kernel in GetKernelWeightMap()
      ensures forall k :: k in GetKernels() <==> k in old(GetKernels()) || k == kernel
    {
      if kernel !in KernelsOf(entries) {
        var w: real :| true;
        var p: int :| 0 <= p <= |entries|;
        var before := entries;
        entries := before[..p] + [(kernel, w)] + before[p..];
        assert KernelsOf(entries) == KernelsOf(before)[..p] + [kernel] + KernelsOf(before)[p..];
        assert KernelsOf(before) == KernelsOf(before)[..p] + KernelsOf(before)[p..];
        assert entries[p].0 == kernel;
        forall i, j | 0 <= i < j < |entries|
          ensures entries[i].0 != entries[j].0
        {
          var bi := if i < p then i else i - 1;
          var bj := if j < p then j else j - 1;
          if i != p && j != p {
            assert entries[i] == before[bi] && entries[j] == before[bj];
          } else if i == p {
            assert entries[j] == before[bj];
            assert KernelsOf(before)[bj] == before[bj].0;
          } else {
            assert entries[i] == before[bi];
            assert KernelsOf(before)[bi] == before[bi].0;
          }
        }
      }
      WeightMapKeys(entries);
    }
  }

  /** The map view has exactly one key per listed kernel, as many as there
      are weights. */
  lemma MapMatchesLists<K(!new)>(m: Mkl<K>)
    requires m.Valid()
    ensures |m.GetKernelWeightMap()| == |m.GetKernels()| == |m.GetKernelWeights()|
  {
    WeightMapSize(m.entries);
  }

  /** Adding a kernel that is already in the set leaves the set as it was;
      adding a new one grows every view by one. */
  method AddKernelGrowsByOne<K(==,!new)>(m: Mkl<K>, kernel: K)
    requires m.Valid()
    modifies m
    ensures m.Valid()
    ensures kernel in old(m.GetKernels()) ==> |m.GetKernels()| == |old(m.GetKernels())|
    ensures kernel !in old(m.GetKernels()) ==> |m.GetKernels()| == |old(m.GetKernels())| + 1
  {
    MapMatchesLists(m);
    ghost var before := m.GetKernelWeightMap().Keys;
    m.AddKernel(kernel);
    MapMatchesLists(m);
    assert m.GetKernelWeightMap().Keys == before + {kernel};
    if kernel in before {
      assert before + {kernel} == before;
    }
  }
}
