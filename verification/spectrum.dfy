/** The integer-only spectral reduction of the analysis: rounding of the
    sample count, frequency bins, regions of interest (ROIs), powers and
    ratios, and the ten-band display spectrum. The transform itself is
    foreign; everything here starts from its output, a sequence of integer
    complex bins. */
module Spectrum {
  import opened Constants

  datatype Option<T> = None | Some(value: T)

  /** One output bin of the transform. */
  datatype Complex = Complex(r: int, i: int)

  /** Squared magnitude of a bin (the square root is never taken). */
  function Magnitude(c: Complex): (m: nat)
  {
    c.r * c.r + c.i * c.i
  }

  function Pow2(n: nat): (p: int)
    ensures p >= 1
  {
    if n == 0 then 1 else 2 * Pow2(n - 1)
  }

  lemma {:induction false} Pow2Monotone(a: nat, b: nat)
    requires a <= b
    ensures Pow2(a) <= Pow2(b)
    decreases b
  {
    if a < b {
      Pow2Monotone(a, b - 1);
    }
  }

  // ---------------------------------------------------------------------
  // Rounding the sample count up to a power of two

  /** The search of the source: the first i (from `from`, below 1000) with
      `2 << i >= nsInit`, or -1 when there is none and the sample count
      keeps its old value. Nothing bounds the result by the buffer size. */
  function RoundedBits(nsInit: int, from: nat): (b: int)
    requires from <= 1000
    ensures b == -1 || (from <= b < 1000 && Pow2(b + 1) >= nsInit)
    ensures b >= 0 ==> forall e :: from < e <= b ==> Pow2(e) < nsInit
    ensures b == -1 ==> forall e :: from < e <= 1000 ==> Pow2(e) < nsInit
    decreases 1000 - from
  {
    if from == 1000 then -1
    else if Pow2(from + 1) >= nsInit then from
    else RoundedBits(nsInit, from + 1)
  }

  /** The default settings (5 s at 100 Hz, 500 samples) round up to
      exactly the buffer capacity. */
  lemma DefaultSampleCountFits()
    ensures RoundedBits(SAMPLE_PERIOD_DEFAULT * SAMPLE_FREQ_DEFAULT, 0) == 8
    ensures Pow2(8 + 1) == NSAMP_MAX
  {
    assert Pow2(9) == 512;
    assert Pow2(8) == 256;
    forall e | 0 < e <= 8 ensures Pow2(e) < 500 {
      Pow2Monotone(e, 8);
    }
  }

  /** As written, a sample period of 10 s at 100 Hz rounds up to 1024
      samples, twice the capacity of the buffer the samples are stored in. */
  lemma UnclampedRoundingOverrunsBuffer()
    ensures RoundedBits(10 * 100, 0) == 9
    ensures Pow2(9 + 1) == 1024 > NSAMP_MAX
  {
    assert Pow2(10) == 1024;
    assert Pow2(9) == 512;
    forall e | 0 < e <= 9 ensures Pow2(e) < 1000 {
      Pow2Monotone(e, 9);
    }
  }

  /** The rounding with the clamp to the buffer capacity: the smallest
      `2 << fftBits` that is at least `nsInit`, but never more than
      NSAMP_MAX. Wherever the source's search stays inside the buffer the
      two agree. */
  method RoundSampleCount(nsInit: int) returns (nSamp: int, fftBits: int)
    ensures 0 <= fftBits && nSamp == Pow2(fftBits + 1)
    ensures 2 <= nSamp <= NSAMP_MAX
    ensures nsInit <= NSAMP_MAX ==> nSamp >= nsInit && fftBits == RoundedBits(nsInit, 0)
    ensures fftBits > 0 ==> Pow2(fftBits) < nsInit
    ensures nsInit > NSAMP_MAX ==> nSamp == NSAMP_MAX
  {
    assert Pow2(9) == NSAMP_MAX;
    var i := 0;
    var ns := 2;
    while ns < nsInit && ns < NSAMP_MAX
      invariant 0 <= i <= 8
      invariant ns == Pow2(i + 1) <= NSAMP_MAX
      invariant forall e :: 0 < e <= i ==> Pow2(e) < nsInit
      invariant nsInit <= NSAMP_MAX ==> RoundedBits(nsInit, 0) == RoundedBits(nsInit, i)
      decreases NSAMP_MAX - ns
    {
      Pow2Monotone(i + 2, 9);
      i := i + 1;
      ns := 2 * ns;
    }
    if i >= 8 {
      Pow2Monotone(9, i + 1);
    }
    nSamp, fftBits := ns, i;
  }

  // ---------------------------------------------------------------------
  // Frequency resolution and bin numbers (fixed point: 1000 x Hz)

  /** 1000 x the width of one bin in Hz. */
  function FreqRes(sampleFreq: int, nSamp: int): int
    requires nSamp > 0
  {
    CDiv(1000 * sampleFreq, nSamp)
  }

  /** The bin that holds a frequency given in Hz. */
  function BinOf(freqHz: int, freqRes: int): int
    requires freqRes > 0
  {
    CDiv(1000 * freqHz, freqRes)
  }

  /** A supported frequency and a sample count within the buffer give a
      positive resolution, so every bin computation is defined. */
  lemma FreqResPositive(sampleFreq: int, nSamp: int)
    requires SupportedFreq(sampleFreq) && 0 < nSamp <= NSAMP_MAX
    ensures FreqRes(sampleFreq, nSamp) > 0
  {
    assert 1000 * sampleFreq >= 10000 > nSamp;
  }

  // ---------------------------------------------------------------------
  // Regions of interest: 0 whole, 1 lower half, 2 upper half, 3 middle half

  function RoiMins(nMin: int, nMax: int): (m: seq<int>)
    ensures |m| == 4
  {
    [nMin, nMin, CDiv(nMin + nMax, 2), nMin + CDiv(nMax - nMin, 4)]
  }

  function RoiMaxs(nMin: int, nMax: int): (m: seq<int>)
    ensures |m| == 4
  {
    [nMax, CDiv(nMin + nMax, 2), nMax, nMax - CDiv(nMax - nMin, 4)]
  }

  /** Every sub-ROI lies inside the whole ROI, the lower and upper halves
      tile it, the middle half is centred in it, and with at least two bins
      in the whole ROI no sub-ROI is empty. */
  lemma RoiBoundsNested(nMin: int, nMax: int)
    requires nMin <= nMax
    ensures RoiMins(nMin, nMax)[0] == nMin && RoiMaxs(nMin, nMax)[0] == nMax
    ensures forall k :: 0 <= k < 4 ==>
      nMin <= RoiMins(nMin, nMax)[k] <= RoiMaxs(nMin, nMax)[k] <= nMax
    ensures RoiMins(nMin, nMax)[1] == nMin && RoiMaxs(nMin, nMax)[2] == nMax
    ensures RoiMaxs(nMin, nMax)[1] == RoiMins(nMin, nMax)[2]
    ensures RoiMins(nMin, nMax)[3] - nMin == nMax - RoiMaxs(nMin, nMax)[3]
    ensures nMax - nMin >= 2 ==> forall k :: 0 <= k < 4 ==> RoiMins(nMin, nMax)[k] < RoiMaxs(nMin, nMax)[k]
  {
    var d := nMax - nMin;
    CDivBounds(d, 4);
    CDivBounds(nMin + nMax, 2);
    var q := CDiv(d, 4);
    assert 0 <= q && 4 * q <= d;
    var mid := CDiv(nMin + nMax, 2);
    assert 2 * nMin <= nMin + nMax <= 2 * nMax;
    assert nMin <= mid <= nMax;
    assert d >= 2 ==> nMin < mid;
  }

  // ---------------------------------------------------------------------
  // Powers

  /** The power spectrum: the squared magnitude of every bin. */
  function Powers(b: seq<Complex>): (p: seq<nat>)
    ensures |p| == |b|
  {
    seq(|b|, k requires 0 <= k < |b| => Magnitude(b[k]))
  }

  /** A spectrum whose bins are all zero has no power in any bin. */
  lemma SilentSpectrumHasNoPower(b: seq<Complex>)
    requires forall k :: 0 <= k < |b| ==> b[k] == Complex(0, 0)
    ensures forall k :: 0 <= k < |b| ==> Powers(b)[k] == 0
  {
  }

  /** Total power of bins lo .. hi-1. */
  function PowerSum(p: seq<nat>, lo: int, hi: int): nat
    requires 0 <= lo && hi <= |p|
    decreases hi - lo
  {
    if hi <= lo then 0 else PowerSum(p, lo, hi - 1) + p[hi - 1]
  }

  lemma {:induction false} PowerSumSplit(p: seq<nat>, lo: int, mid: int, hi: int)
    requires 0 <= lo <= mid <= hi <= |p|
    ensures PowerSum(p, lo, hi) == PowerSum(p, lo, mid) + PowerSum(p, mid, hi)
    decreases hi - mid
  {
    if hi > mid {
      PowerSumSplit(p, lo, mid, hi - 1);
    }
  }

  /** A power sum reads only the bins of its range. */
  lemma {:induction false} PowerSumFrame(p: seq<nat>, p': seq<nat>, lo: int, hi: int)
    requires 0 <= lo && hi <= |p| && hi <= |p'|
    requires forall k :: lo <= k < hi ==> p[k] == p'[k]
    ensures PowerSum(p, lo, hi) == PowerSum(p', lo, hi)
    decreases hi - lo
  {
    if hi > lo {
      PowerSumFrame(p, p', lo, hi - 1);
    }
  }

  /** A range of silent bins has no power, and a range with no power is
      silent. */
  lemma {:induction false} PowerSumZero(p: seq<nat>, lo: int, hi: int)
    requires 0 <= lo && hi <= |p|
    ensures PowerSum(p, lo, hi) == 0 <==> forall k :: lo <= k < hi ==> p[k] == 0
    decreases hi - lo
  {
    if hi > lo {
      PowerSumZero(p, lo, hi - 1);
    }
  }

  /** A sum is at least any one of its bins. */
  lemma {:induction false} PowerSumBoundsBin(p: seq<nat>, lo: int, k: int, hi: int)
    requires 0 <= lo <= k < hi <= |p|
    ensures p[k] <= PowerSum(p, lo, hi)
  {
    PowerSumSplit(p, lo, k, hi);
    PowerSumSplit(p, k, k + 1, hi);
    assert PowerSum(p, k, k + 1) == PowerSum(p, k, k) + p[k];
  }

  /** What the whole-spectrum loop accumulates over bins 1 .. hi-1: a bin
      counts only when it is at or below the cutoff bin. */
  function CutoffPowerSum(p: seq<nat>, cutoff: int, hi: int): nat
    requires hi <= |p|
    decreases hi
  {
    if hi <= 1 then 0
    else CutoffPowerSum(p, cutoff, hi - 1) + (if hi - 1 <= cutoff then p[hi - 1] else 0)
  }

  function Min(a: int, b: int): int { if a <= b then a else b }

  /** The loop's sum is the power of bins 1 .. min(cutoff, hi-1): the DC
      bin 0 never contributes, nor does any bin above the cutoff. */
  lemma {:induction false} CutoffPowerSumIsPassBand(p: seq<nat>, cutoff: int, hi: int)
    requires 0 <= hi <= |p|
    ensures CutoffPowerSum(p, cutoff, hi) == PowerSum(p, 1, Min(hi, cutoff + 1))
    decreases hi
  {
    if hi > 1 {
      CutoffPowerSumIsPassBand(p, cutoff, hi - 1);
      if hi - 1 <= cutoff {
        assert Min(hi, cutoff + 1) == hi && Min(hi - 1, cutoff + 1) == hi - 1;
      } else {
        assert Min(hi, cutoff + 1) == Min(hi - 1, cutoff + 1);
      }
    }
  }

  /** Average power per bin of the whole spectrum, as the source computes
      it: the pass-band sum divided by nSamp/2 (not by the number of bins
      summed). */
  function SpecPower(p: seq<nat>, nSamp: int, cutoff: int): nat
    requires 2 <= nSamp && nSamp / 2 <= |p|
  {
    CutoffPowerSum(p, cutoff, nSamp / 2) / (nSamp / 2)
  }

  /** The whole-spectrum power depends only on bins 1 .. cutoff below
      nSamp/2: changing the DC bin or any bin above the cutoff leaves it
      unchanged. */
  lemma SpecPowerDependsOnPassBand(p: seq<nat>, p': seq<nat>, nSamp: int, cutoff: int)
    requires 2 <= nSamp && nSamp / 2 <= |p| && nSamp / 2 <= |p'|
    requires forall k :: 1 <= k <= cutoff && k < nSamp / 2 ==> p[k] == p'[k]
    ensures SpecPower(p, nSamp, cutoff) == SpecPower(p', nSamp, cutoff)
  {
    CutoffPowerSumIsPassBand(p, cutoff, nSamp / 2);
    CutoffPowerSumIsPassBand(p', cutoff, nSamp / 2);
    PowerSumFrame(p, p', 1, Min(nSamp / 2, cutoff + 1));
  }

  /** A silent pass band gives a whole-spectrum power of zero. */
  lemma SpecPowerOfSilence(p: seq<nat>, nSamp: int, cutoff: int)
    requires 2 <= nSamp && nSamp / 2 <= |p|
    requires forall k :: 1 <= k <= cutoff && k < nSamp / 2 ==> p[k] == 0
    ensures SpecPower(p, nSamp, cutoff) == 0
  {
    CutoffPowerSumIsPassBand(p, cutoff, nSamp / 2);
    PowerSumZero(p, 1, Min(nSamp / 2, cutoff + 1));
  }

  /** The spectrum after the cutoff loop: above the cutoff bin (and below
      nSamp/2) the real part is zeroed, the imaginary part is kept. */
  function CutoffZeroed(b: seq<Complex>, nSamp: int, cutoff: int): (z: seq<Complex>)
    ensures |z| == |b|
    ensures forall k :: 0 <= k < |b| && !(1 <= k < nSamp / 2 && k > cutoff) ==> z[k] == b[k]
    ensures forall k :: 1 <= k < nSamp / 2 && k > cutoff && k < |b| ==> z[k] == Complex(0, b[k].i)
  {
    seq(|b|, k requires 0 <= k < |b| =>
      if 1 <= k < nSamp / 2 && k > cutoff then Complex(0, b[k].i) else b[k])
  }

  /** Zeroing the real parts above the cutoff does not change the
      whole-spectrum power. */
  lemma CutoffZeroingKeepsSpecPower(b: seq<Complex>, nSamp: int, cutoff: int)
    requires 2 <= nSamp && nSamp / 2 <= |b|
    ensures SpecPower(Powers(CutoffZeroed(b, nSamp, cutoff)), nSamp, cutoff) == SpecPower(Powers(b), nSamp, cutoff)
  {
    SpecPowerDependsOnPassBand(Powers(b), Powers(CutoffZeroed(b, nSamp, cutoff)), nSamp, cutoff);
  }

  /** Integer average power per bin of a (non-empty) region. */
  function RoiAverage(p: seq<nat>, lo: int, hi: int): nat
    requires 0 <= lo < hi <= |p|
  {
    PowerSum(p, lo, hi) / (hi - lo)
  }

  /** The average power of each of the four ROIs (0 whole, 1 lower half,
      2 upper half, 3 middle half). One of the two halves always has at
      least the average power of the whole ROI. */
  function RoiAverages(p: seq<nat>, nMin: int, nMax: int): (r: seq<nat>)
    requires 0 <= nMin && nMax - nMin >= 2 && nMax <= |p|
    ensures |r| == 4 && r[0] == RoiAverage(p, nMin, nMax)
    ensures r[0] <= r[1] || r[0] <= r[2]
  {
    RoiBoundsNested(nMin, nMax);
    SplitAverageBound(p, nMin, RoiMaxs(nMin, nMax)[1], nMax);
    seq(4, k requires 0 <= k < 4 => RoiAverage(p, RoiMins(nMin, nMax)[k], RoiMaxs(nMin, nMax)[k]))
  }

  /** The average of a region is at most its largest bin. */
  lemma RoiAverageBounds(p: seq<nat>, lo: int, hi: int, m: nat)
    requires 0 <= lo < hi <= |p|
    requires forall k :: lo <= k < hi ==> p[k] <= m
    ensures RoiAverage(p, lo, hi) <= m
  {
    PowerSumAtMost(p, lo, hi, m);
    DivBelow(PowerSum(p, lo, hi), hi - lo, m);
  }

  lemma {:induction false} PowerSumAtMost(p: seq<nat>, lo: int, hi: int, m: nat)
    requires 0 <= lo <= hi <= |p|
    requires forall k :: lo <= k < hi ==> p[k] <= m
    ensures PowerSum(p, lo, hi) <= (hi - lo) * m
    decreases hi - lo
  {
    if hi > lo {
      PowerSumAtMost(p, lo, hi - 1, m);
      assert (hi - 1 - lo) * m + m == (hi - lo) * m;
    }
  }

  /** s <= n * m gives s / n <= m. */
  lemma DivBelow(s: nat, n: int, m: nat)
    requires n > 0 && s <= n * m
    ensures s / n <= m
  {
    var q := s / n;
    assert q * n <= s;
    MulCancel(q, m, n);
  }

  /** x * n <= y * n with n positive gives x <= y. */
  lemma MulCancel(x: int, y: int, n: int)
    requires n > 0 && x * n <= y * n
    ensures x <= y
  {
    assert (y - x) * n >= 0;
  }

  /** The guarded ratio 10 x power / specPower: zero when the spectrum has
      no power, otherwise the ratio scaled by ten and truncated. */
  function RoiRatio(power: nat, specPower: nat): (r: nat)
    ensures specPower == 0 ==> r == 0
    ensures specPower > 0 ==> r * specPower <= 10 * power < (r + 1) * specPower
  {
    if specPower == 0 then 0 else (10 * power) / specPower
  }

  /** The ratio as the source writes it, with no guard: a zero
      whole-spectrum power is a division by zero (None). */
  function RoiRatioAsWritten(power: nat, specPower: nat): (r: Option<int>)
    ensures r.None? <==> specPower == 0
  {
    if specPower == 0 then None else Some(CDiv(10 * power, specPower))
  }

  /** The guarded ratio is the source's ratio wherever that is defined. */
  lemma RoiRatioRefinesAsWritten(power: nat, specPower: nat)
    ensures RoiRatioAsWritten(power, specPower).Some? ==>
      RoiRatioAsWritten(power, specPower).value == RoiRatio(power, specPower)
  {
    if specPower > 0 {
      CDivBounds(10 * power, specPower);
    }
  }

  /** A silent spectrum (a perfectly still watch) has zero whole-spectrum
      power, so the source's ratio divides by zero. */
  lemma QuietSpectrumDividesByZero(b: seq<Complex>, nSamp: int, cutoff: int, power: nat)
    requires 2 <= nSamp && nSamp / 2 <= |b|
    requires forall k :: 0 <= k < |b| ==> b[k] == Complex(0, 0)
    ensures SpecPower(Powers(b), nSamp, cutoff) == 0
    ensures RoiRatioAsWritten(power, SpecPower(Powers(b), nSamp, cutoff)) == None
    ensures RoiRatio(power, SpecPower(Powers(b), nSamp, cutoff)) == 0
  {
    SilentSpectrumHasNoPower(b);
    SpecPowerOfSilence(Powers(b), nSamp, cutoff);
  }

  /** A larger power never gives a smaller ratio. */
  lemma RoiRatioMonotone(p: nat, q: nat, specPower: nat)
    requires p <= q
    ensures RoiRatio(p, specPower) <= RoiRatio(q, specPower)
  {
    if specPower > 0 {
      DivMonotone(10 * p, 10 * q, specPower);
    }
  }

  lemma DivMonotone(a: nat, b: nat, d: int)
    requires a <= b && d > 0
    ensures a / d <= b / d
  {
    var qa, qb := a / d, b / d;
    assert qa * d <= a <= b < (qb + 1) * d;
    MulCancelStrict(qa, qb + 1, d);
  }

  /** x * n < y * n with n positive gives x < y. */
  lemma MulCancelStrict(x: int, y: int, n: int)
    requires n > 0 && x * n < y * n
    ensures x < y
  {
    assert (y - x) * n > 0;
  }

  /** The average of a region split in two is at most the larger of the
      two halves' averages: the lower and upper half ROIs together see at
      least the power of the whole ROI. */
  lemma SplitAverageBound(p: seq<nat>, lo: int, mid: int, hi: int)
    requires 0 <= lo < mid < hi <= |p|
    ensures RoiAverage(p, lo, hi) <= RoiAverage(p, lo, mid) || RoiAverage(p, lo, hi) <= RoiAverage(p, mid, hi)
  {
    PowerSumSplit(p, lo, mid, hi);
    AverageOfTwo(PowerSum(p, lo, mid), mid - lo, PowerSum(p, mid, hi), hi - mid);
  }

  /** The pooled average of two groups is at most the larger group average. */
  lemma AverageOfTwo(s1: nat, n1: int, s2: nat, n2: int)
    requires n1 > 0 && n2 > 0
    ensures (s1 + s2) / (n1 + n2) <= s1 / n1 || (s1 + s2) / (n1 + n2) <= s2 / n2
  {
    var m := if s1 / n1 < s2 / n2 then s2 / n2 else s1 / n1;
    DivAtMostBound(s1, n1, m);
    DivAtMostBound(s2, n2, m);
    Distribute(n1, n2, m + 1);
    DivBelowStrict(s1 + s2, n1 + n2, m);
  }

  /** s / n <= m gives s < n * (m + 1). */
  lemma DivAtMostBound(s: nat, n: int, m: nat)
    requires n > 0 && s / n <= m
    ensures s < n * (m + 1)
  {
    var q := s / n;
    assert s < (q + 1) * n;
    assert (q + 1) * n <= (m + 1) * n;
  }

  /** s < n * (m + 1) gives s / n <= m. */
  lemma DivBelowStrict(s: nat, n: int, m: nat)
    requires n > 0 && s < n * (m + 1)
    ensures s / n <= m
  {
    var q := s / n;
    assert q * n <= s < (m + 1) * n;
    MulCancelStrict(q, m + 1, n);
  }

  // ---------------------------------------------------------------------
  // Ten one-hertz bands for the display spectrum (the DC bin is skipped)

  function BandMin(k: int, freqRes: int): int
    requires freqRes > 0
  {
    1 + CDiv(1000 * k, freqRes)
  }

  function BandMax(k: int, freqRes: int): int
    requires freqRes > 0
  {
    1 + CDiv(1000 * (k + 1), freqRes)
  }

  /** The display bands are computable: bins are at most 1 Hz wide (a
      wider bin leaves the first band empty) and the last band ends inside
      the first `len` bins. */
  predicate BandsFit(freqRes: int, len: int) {
    0 < freqRes <= 1000 && BandMax(9, freqRes) <= len
  }

  /** Then the ten bands are consecutive, non-empty and all inside the
      first `len` bins; with wider bins the first band is empty. */
  lemma BandsFitWhenFine(freqRes: int, len: int)
    requires BandsFit(freqRes, len)
    ensures forall k :: 0 <= k < 10 ==> 1 <= BandMin(k, freqRes) < BandMax(k, freqRes) <= len
    ensures forall k :: 0 <= k < 9 ==> BandMax(k, freqRes) == BandMin(k + 1, freqRes)
  {
    forall k | 0 <= k < 10
      ensures 1 <= BandMin(k, freqRes) < BandMax(k, freqRes) <= len
    {
      BandFits(k, freqRes, len);
    }
  }

  /** Band k of the ten is non-empty and ends no later than the last. */
  lemma BandFits(k: nat, freqRes: int, len: int)
    requires k < 10 && BandsFit(freqRes, len)
    ensures 1 <= BandMin(k, freqRes) < BandMax(k, freqRes) <= len
  {
    CDivBounds(1000 * k, freqRes);
    CDivBounds(1000 * (k + 1), freqRes);
    CDivBounds(10000, freqRes);
    DivAtLeast(1000 * k, freqRes, 0);
    BandNonEmpty(k, freqRes);
    DivMonotone(1000 * (k + 1), 10000, freqRes);
  }

  /** Bins wider than 1 Hz leave the first band empty. */
  lemma CoarseBinsEmptyFirstBand(freqRes: int)
    requires freqRes > 1000
    ensures BandMin(0, freqRes) == BandMax(0, freqRes)
  {
  }

  /** A band one hertz wide holds at least one bin of width at most 1 Hz. */
  lemma BandNonEmpty(k: nat, freqRes: int)
    requires 0 < freqRes <= 1000
    ensures (1000 * k) / freqRes < (1000 * (k + 1)) / freqRes
  {
    var a := 1000 * k;
    var q := a / freqRes;
    assert q * freqRes <= a;
    assert (q + 1) * freqRes <= a + 1000;
    DivAtLeast(a + 1000, freqRes, q + 1);
  }

  /** n * m <= s gives m <= s / n. */
  lemma DivAtLeast(s: nat, n: int, m: nat)
    requires n > 0 && m * n <= s
    ensures m <= s / n
  {
    var q := s / n;
    assert s < (q + 1) * n;
    MulCancelStrict(m, q + 1, n);
  }

  /** The display spectrum: the average power of each 1 Hz band. */
  function SimpleSpectrum(p: seq<nat>, freqRes: int): (s: seq<nat>)
    requires BandsFit(freqRes, |p|)
    ensures |s| == 10
  {
    BandsFitWhenFine(freqRes, |p|);
    seq(10, k requires 0 <= k < 10 => RoiAverage(p, BandMin(k, freqRes), BandMax(k, freqRes)))
  }
}
