/** Bounded fan-out: work is issued in waves, and a wave is awaited whole before the next one starts. */
module Waves {
  const DEFAULT_WAVE_SIZE := 256

  function Flatten<T>(waves: seq<seq<T>>): seq<T> {
    if waves == [] then [] else Flatten(waves[..|waves| - 1]) + waves[|waves| - 1]
  }

  /** A wave is drained as soon as it has this many members, and at least one. */
  function FullWave(waveSize: int): nat {
    if waveSize < 1 then 1 else waveSize
  }

  /** Cut into consecutive waves, all full but perhaps the last. */
  ghost predicate Partitions<T>(waves: seq<seq<T>>, items: seq<T>, width: nat) {
    && Flatten(waves) == items
    && (forall k | 0 <= k < |waves| :: 1 <= |waves[k]| <= width)
    && (forall k | 0 <= k < |waves| - 1 :: |waves[k]| == width)
  }

  /** `in_bounded_waves`: `outcome(x)` stands for what the task made from `x` ends with, an exception
      included. The outcomes come back in the order of the items, one for each. */
  method InBoundedWaves<T, U>(items: seq<T>, waveSize: int, outcome: T -> U)
    returns (outcomes: seq<U>, waves: seq<seq<T>>)
    ensures |outcomes| == |items| && forall i | 0 <= i < |items| :: outcomes[i] == outcome(items[i])
    ensures Partitions(waves, items, FullWave(waveSize))
  {
    outcomes, waves := [], [];
    var wave: seq<T> := [];
    for i := 0 to |items|
      invariant |wave| < FullWave(waveSize)
      invariant Flatten(waves) + wave == items[..i]
      invariant forall k | 0 <= k < |waves| :: |waves[k]| == FullWave(waveSize)
      invariant |outcomes| + |wave| == i && forall k | 0 <= k < |outcomes| :: outcomes[k] == outcome(items[k])
    {
      wave := wave + [items[i]];
      assert Flatten(waves) + wave == items[..i + 1];
      if |wave| >= waveSize {
        outcomes := outcomes + Drain(wave, outcome);
        waves := waves + [wave];
        assert waves[..|waves| - 1] + [wave] == waves;
        wave := [];
      }
    }
    assert items[..|items|] == items;
    if wave != [] {
      outcomes := outcomes + Drain(wave, outcome);
      waves := waves + [wave];
      assert waves[..|waves| - 1] + [wave] == waves;
    }
  }

  /** `gather` returns the outcomes in the order of its arguments. */
  function Drain<T, U>(wave: seq<T>, outcome: T -> U): seq<U> {
    seq(|wave|, i requires 0 <= i < |wave| => outcome(wave[i]))
  }

  /** Waves are the blocks of the items of the given width. */
  lemma {:induction false} WavesAreBlocks<T>(waves: seq<seq<T>>, items: seq<T>, width: nat, k: nat)
    requires 1 <= width && Partitions(waves, items, width) && k < |waves|
    ensures k * width + |waves[k]| <= |items|
    ensures waves[k] == items[k * width..k * width + |waves[k]|]
    decreases |waves|
  {
    var last := |waves| - 1;
    var init := waves[..last];
    assert items == Flatten(init) + waves[last];
    assert forall i | 0 <= i < |init| :: init[i] == waves[i];
    if k < last {
      WavesAreBlocks(init, Flatten(init), width, k);
    } else {
      FlattenLength(init, width);
      var start := k * width;
      assert |Flatten(init)| == start;
    }
  }

  lemma {:induction false} FlattenLength<T>(waves: seq<seq<T>>, width: nat)
    requires forall k | 0 <= k < |waves| :: |waves[k]| == width
    ensures |Flatten(waves)| == |waves| * width
  {
    if waves != [] {
      var n := |waves| - 1;
      FlattenLength(waves[..n], width);
      assert |waves| * width == n * width + width;
    }
  }
}
