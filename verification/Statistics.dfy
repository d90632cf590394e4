/** Response-time statistics of a slave device (clm_iefb_statistics_update_response_time). */
module Statistics {
  import opened Words

  datatype TimeStatistics = TimeStatistics(samples: u32, sum: u32, min: u32, average: u32, max: u32)

  const CLEARED := TimeStatistics(0, 0, 0xFFFF_FFFF, 0, 0)

  function Max(a: u32, b: u32): u32 { if a > b then a else b }

  function Min(a: u32, b: u32): u32 { if a < b then a else b }

  /** One update; the uint32_t sum may wrap. */
  function Update(t: TimeStatistics, maxSamples: u16, responseTime: u32): TimeStatistics {
    if t.samples < maxSamples && t.sum < 0x7FFF_FFFF then
      var sum: u32 := (t.sum + responseTime) % U32_MODULUS;
      TimeStatistics(t.samples + 1, sum, Min(responseTime, t.min), sum / (t.samples + 1), Max(responseTime, t.max))
    else t
  }

  /** All updates of a run, oldest first. */
  function Updates(maxSamples: u16, times: seq<u32>): TimeStatistics {
    if times == [] then CLEARED
    else Update(Updates(maxSamples, times[..|times| - 1]), maxSamples, times[|times| - 1])
  }

  /** The exact total of the given samples. */
  function Sum(times: seq<u32>): nat {
    if times == [] then 0 else Sum(times[..|times| - 1]) + times[|times| - 1]
  }

  /** Number of samples that count: a prefix, ended by the sample limit or by a total that
      reached half the range. */
  function Counted(maxSamples: u16, times: seq<u32>): (n: nat)
    ensures n <= |times| && n <= maxSamples
  {
    if times == [] then 0
    else
      var n := Counted(maxSamples, times[..|times| - 1]);
      if n == |times| - 1 < maxSamples && Sum(times[..n]) < 0x7FFF_FFFF then n + 1 else n
  }

  /** t describes exactly these samples. */
  ghost predicate Describes(t: TimeStatistics, counted: seq<u32>) {
    && t.samples == |counted|
    && t.sum == Sum(counted)
    && (forall x :: x in counted ==> t.min <= x <= t.max)
    && (if counted == [] then t == CLEARED
        else t.min in counted && t.max in counted && t.average == Sum(counted) / |counted|)
  }

  lemma UpdateDescribes(t: TimeStatistics, counted: seq<u32>, maxSamples: u16, x: u32)
    requires Describes(t, counted) && t.samples < maxSamples && t.sum < 0x7FFF_FFFF && t.sum + x < U32_MODULUS
    ensures Describes(Update(t, maxSamples, x), counted + [x])
  {
    var more := counted + [x];
    assert more[..|more| - 1] == counted;
    assert Sum(more) == Sum(counted) + x;
  }

  /** While the exact total fits 32 bits, the statistics describe the counted samples. */
  lemma {:induction false} FittingTotalIsExact(maxSamples: u16, times: seq<u32>)
    requires Sum(times[..Counted(maxSamples, times)]) < U32_MODULUS
    ensures Describes(Updates(maxSamples, times), times[..Counted(maxSamples, times)])
  {
    if times != [] {
      var rest, last := times[..|times| - 1], times[|times| - 1];
      var n := Counted(maxSamples, rest);
      assert times[..n] == rest[..n];
      if Counted(maxSamples, times) == n + 1 {
        assert rest[..n] == rest && times[..n + 1] == rest + [last];
        assert (rest + [last])[..|rest|] == rest;
        FittingTotalIsExact(maxSamples, rest);
        UpdateDescribes(Updates(maxSamples, rest), rest, maxSamples, last);
      } else {
        FittingTotalIsExact(maxSamples, rest);
        if n == |rest| {
          assert rest[..n] == rest;
        } else {
          CountedStops(maxSamples, rest);
        }
      }
    }
  }

  /** Over any run of samples: the sum is the exact total of the counted samples, the average is that
      total divided by their number and rounded down, min and max are their minimum and maximum, and
      no more samples are counted than configured, if and only if that total fits 32 bits. */
  lemma StatisticsAreExactIff(maxSamples: u16, times: seq<u32>)
    ensures Describes(Updates(maxSamples, times), times[..Counted(maxSamples, times)])
            <==> Sum(times[..Counted(maxSamples, times)]) < U32_MODULUS
    ensures Counted(maxSamples, times) <= maxSamples
  {
    if Sum(times[..Counted(maxSamples, times)]) < U32_MODULUS {
      FittingTotalIsExact(maxSamples, times);
    }
  }

  /** The last counted sample was added to a total below half the range. */
  lemma {:induction false} CountedTotal(maxSamples: u16, times: seq<u32>, bound: u32)
    requires forall i :: 0 <= i < |times| ==> times[i] <= bound
    ensures Sum(times[..Counted(maxSamples, times)]) <= 0x7FFF_FFFE + bound
  {
    if times != [] {
      var rest, last := times[..|times| - 1], times[|times| - 1];
      var n := Counted(maxSamples, rest);
      assert times[..n] == rest[..n];
      if Counted(maxSamples, times) == n + 1 {
        assert rest[..n] == rest && times[..n + 1][..n] == rest && times[..n + 1][n] == last;
      } else {
        CountedTotal(maxSamples, rest, bound);
      }
    }
  }

  /** A uniform bound on the samples suffices exactly up to 2^31 + 1 microseconds. */
  lemma UniformBoundIsExact(bound: u32)
    ensures (forall maxSamples: u16, times: seq<u32> :: (forall i :: 0 <= i < |times| ==> times[i] <= bound) ==>
               Describes(Updates(maxSamples, times), times[..Counted(maxSamples, times)]))
            <==> bound <= 0x8000_0001
  {
    if bound <= 0x8000_0001 {
      forall maxSamples: u16, times: seq<u32> | (forall i :: 0 <= i < |times| ==> times[i] <= bound)
        ensures Describes(Updates(maxSamples, times), times[..Counted(maxSamples, times)])
      {
        CountedTotal(maxSamples, times, bound);
        StatisticsAreExactIff(maxSamples, times);
      }
    } else {
      LongSampleWraps();
      assert forall i :: 0 <= i < |WRAPPING| ==> WRAPPING[i] <= bound;
      StatisticsAreExactIff(2, WRAPPING);
    }
  }

  const WRAPPING: seq<u32> := [0x7FFF_FFFE, 0x8000_0002]

  lemma LongSampleWraps()
    ensures Counted(2, WRAPPING) == 2 && Sum(WRAPPING[..2]) == U32_MODULUS
  {
    assert WRAPPING[..1] == [0x7FFF_FFFE] && WRAPPING[..2] == WRAPPING;
    assert WRAPPING[..1][..0] == [];
    assert Counted(2, WRAPPING[..1][..0]) == 0;
    assert WRAPPING[..1][..1] == WRAPPING[..1];
    assert Sum(WRAPPING[..1]) == 0x7FFF_FFFE;
    assert Counted(2, WRAPPING[..1]) == 1;
  }

  /** The average lies between the extremes. */
  lemma AverageBetweenExtremes(t: TimeStatistics, counted: seq<u32>)
    requires Describes(t, counted) && counted != []
    ensures t.min <= t.average <= t.max
  {
    assert forall i :: 0 <= i < |counted| ==> counted[i] in counted;
    SumBetween(counted, t.min, t.max);
    AverageBetween(Sum(counted), |counted|, t.min, t.max);
  }

  /** Once a sample was refused, every later one is. */
  lemma {:induction false} CountedStops(maxSamples: u16, times: seq<u32>)
    requires Counted(maxSamples, times) < |times|
    ensures var n := Counted(maxSamples, times); n == maxSamples || Sum(times[..n]) >= 0x7FFF_FFFF
  {
    var rest := times[..|times| - 1];
    var n := Counted(maxSamples, times);
    assert Counted(maxSamples, rest) == n;
    assert times[..n] == rest[..n];
    if n < |rest| {
      CountedStops(maxSamples, rest);
    }
  }

  lemma {:induction false} SumBetween(times: seq<u32>, low: u32, high: u32)
    requires forall i :: 0 <= i < |times| ==> low <= times[i] <= high
    ensures low * |times| <= Sum(times) <= high * |times|
  {
    if times != [] {
      var rest := times[..|times| - 1];
      SumBetween(rest, low, high);
      assert low * |times| == low * |rest| + low && high * |times| == high * |rest| + high;
    }
  }

  lemma AverageBetween(total: nat, n: nat, low: nat, high: nat)
    requires n > 0 && low * n <= total <= high * n
    ensures low <= total / n <= high
  {
    var q := total / n;
    assert total == n * q + total % n;
    if q < low {
      Times(q + 1, low, n);
    }
  }

  lemma Times(a: nat, b: nat, n: nat)
    requires a <= b
    ensures a * n <= b * n
  {
  }
}
