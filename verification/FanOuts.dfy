/** The probe modules of a scan as fan-outs, one after another, each cut into waves. A job of a fan-out makes its
    connects one after another. */
module FanOuts {
  import opened Waves

  /** The sizes of the waves of one fan-out: all full but perhaps the last. */
  predicate IsCut(sizes: seq<nat>, width: nat) {
    && (forall k | 0 <= k < |sizes| :: 1 <= sizes[k] <= width)
    && (forall k | 0 <= k < |sizes| - 1 :: sizes[k] == width)
  }

  /** Connect `i` of the scan is made by job `jobOf[i]`; the jobs of all fan-outs are numbered in order, and
      `cuts[f]` are the wave sizes of fan-out `f`. */
  datatype Plan = Plan(jobOf: seq<nat>, cuts: seq<seq<nat>>)

  function Sizes(plan: Plan): seq<nat> {
    Flatten(plan.cuts)
  }

  function Total(sizes: seq<nat>): nat {
    if sizes == [] then 0 else sizes[0] + Total(sizes[1..])
  }

  /** The first job of the wave of a job. */
  function StartOf(sizes: seq<nat>, job: nat): nat {
    if sizes == [] || job < sizes[0] then 0 else sizes[0] + StartOf(sizes[1..], job - sizes[0])
  }

  predicate CutWithin(sizes: seq<nat>, width: nat) {
    exists w | 1 <= w <= width :: IsCut(sizes, w)
  }

  /** A plan for `n` connects whose fan-outs have waves of at most `width` jobs. */
  predicate Fits(plan: Plan, n: nat, width: nat) {
    && |plan.jobOf| == n
    && (forall f | 0 <= f < |plan.cuts| :: CutWithin(plan.cuts[f], width))
    && (forall i | 0 <= i < n :: plan.jobOf[i] < Total(Sizes(plan)))
  }

  /** What `in_bounded_waves` does is such a cut. */
  lemma WavesAreCut<T>(waves: seq<seq<T>>, items: seq<T>, width: nat)
    requires 1 <= width && Partitions(waves, items, width)
    ensures IsCut(SizesOf(waves), width) && Total(SizesOf(waves)) == |items|
  {
    TotalOfWaves(waves);
  }

  function SizesOf<T>(waves: seq<seq<T>>): seq<nat> {
    seq(|waves|, k requires 0 <= k < |waves| => |waves[k]|)
  }

  lemma {:induction false} TotalOfWaves<T>(waves: seq<seq<T>>)
    ensures Total(SizesOf(waves)) == |Flatten(waves)|
  {
    if waves != [] {
      var init, last := waves[..|waves| - 1], waves[|waves| - 1];
      TotalOfWaves(init);
      assert SizesOf(waves) == SizesOf(init) + [|last|];
      TotalAppend(SizesOf(init), |last|);
    }
  }

  lemma {:induction false} TotalAppend(sizes: seq<nat>, size: nat)
    ensures Total(sizes + [size]) == Total(sizes) + size
  {
    if sizes == [] {
      assert (sizes + [size])[1..] == [];
    } else {
      TotalAppend(sizes[1..], size);
      assert (sizes + [size])[1..] == sizes[1..] + [size];
    }
  }

  lemma {:induction false} SizesAreBounded(cuts: seq<seq<nat>>, width: nat)
    requires forall f | 0 <= f < |cuts| :: CutWithin(cuts[f], width)
    ensures forall k | 0 <= k < |Flatten(cuts)| :: 1 <= Flatten(cuts)[k] <= width
  {
    if cuts != [] {
      var last := |cuts| - 1;
      SizesAreBounded(cuts[..last], width);
      assert CutWithin(cuts[last], width);
    }
  }

  /** The wave of a job holds it, and has at most `width` jobs. */
  lemma {:induction false} StartBounds(sizes: seq<nat>, job: nat, width: nat)
    requires job < Total(sizes) && forall k | 0 <= k < |sizes| :: 1 <= sizes[k] <= width
    ensures StartOf(sizes, job) <= job < StartOf(sizes, job) + width
  {
    if sizes[0] <= job {
      StartBounds(sizes[1..], job - sizes[0], width);
    }
  }

  /** No wave starts after the last one. */
  lemma {:induction false} LastStart(sizes: seq<nat>, job: nat)
    requires job < Total(sizes) && forall k | 0 <= k < |sizes| :: 1 <= sizes[k]
    ensures sizes != [] && StartOf(sizes, job) + sizes[|sizes| - 1] <= Total(sizes)
  {
    if sizes[0] <= job {
      LastStart(sizes[1..], job - sizes[0]);
    } else {
      LastIsPart(sizes);
    }
  }

  lemma {:induction false} LastIsPart(sizes: seq<nat>)
    requires sizes != []
    ensures sizes[|sizes| - 1] <= Total(sizes)
  {
    if |sizes| > 1 {
      LastIsPart(sizes[1..]);
    }
  }

  /** The jobs of wave `k` start where the waves before end. */
  lemma {:induction false} StartIs(sizes: seq<nat>, k: nat, job: nat)
    requires k < |sizes| && Total(sizes[..k]) <= job < Total(sizes[..k]) + sizes[k]
    ensures StartOf(sizes, job) == Total(sizes[..k])
  {
    if k > 0 {
      assert sizes[..k][1..] == sizes[1..][..k - 1];
      StartIs(sizes[1..], k - 1, job - sizes[0]);
    }
  }

  lemma TotalPrefix(sizes: seq<nat>, k: nat)
    requires k < |sizes|
    ensures Total(sizes[..k + 1]) == Total(sizes[..k]) + sizes[k]
  {
    assert sizes[..k + 1] == sizes[..k] + [sizes[k]];
    TotalAppend(sizes[..k], sizes[k]);
  }
}
