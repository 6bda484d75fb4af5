/** Fall detection: a window slides over the sample buffer, and a fall is a
    window whose smallest value is below the lower threshold (free fall)
    and whose largest is above the upper threshold (impact). */
module Fall {
  import opened Constants

  /** The window length in samples for a window given in milliseconds. */
  function WindowSamples(fallWindowMs: int, sampleFreq: int): int {
    CDiv(fallWindowMs * sampleFreq, 1000)
  }

  /** The smallest value of the window of w samples starting at i; a window
      of fewer than two samples is its first sample. */
  function WindowMin(a: seq<int>, i: int, w: int): (m: int)
    requires 0 <= i < |a| && i + w <= |a|
    ensures forall j :: i <= j < i + w ==> m <= a[j]
    ensures m == a[i] || exists j :: i <= j < i + w && m == a[j]
    ensures m <= a[i]
    decreases w
  {
    if w <= 1 then a[i]
    else if a[i + w - 1] < WindowMin(a, i, w - 1) then a[i + w - 1]
    else WindowMin(a, i, w - 1)
  }

  /** The largest value of the same window. */
  function WindowMax(a: seq<int>, i: int, w: int): (m: int)
    requires 0 <= i < |a| && i + w <= |a|
    ensures forall j :: i <= j < i + w ==> a[j] <= m
    ensures m == a[i] || exists j :: i <= j < i + w && m == a[j]
    ensures a[i] <= m
    decreases w
  {
    if w <= 1 then a[i]
    else if a[i + w - 1] > WindowMax(a, i, w - 1) then a[i + w - 1]
    else WindowMax(a, i, w - 1)
  }

  /** The window starting at i shows a fall. */
  predicate FallAt(a: seq<int>, i: int, w: int, threshMin: int, threshMax: int)
    requires 0 <= i < |a| && i + w <= |a|
  {
    WindowMin(a, i, w) < threshMin && WindowMax(a, i, w) > threshMax
  }

  /** Some window starting before nSamp - w shows a fall. */
  predicate FallIn(a: seq<int>, nSamp: int, w: int, threshMin: int, threshMax: int)
    requires nSamp <= |a| && nSamp - w <= |a|
  {
    exists i :: 0 <= i < nSamp - w && FallAt(a, i, w, threshMin, threshMax)
  }

  /** A value below the lower threshold followed, within one window, by a
      value above the upper threshold is a fall. */
  lemma DropThenImpactIsFall(a: seq<int>, nSamp: int, w: int, threshMin: int, threshMax: int,
                             i: int, lo: int, hi: int)
    requires nSamp <= |a| && 0 <= i < nSamp - w
    requires i <= lo < i + w && i <= hi < i + w
    requires a[lo] < threshMin && a[hi] > threshMax
    ensures FallIn(a, nSamp, w, threshMin, threshMax)
  {
    assert FallAt(a, i, w, threshMin, threshMax);
  }

  /** Conversely, a fall is always a value below the lower threshold and a
      value above the upper one, less than a window apart, both before the
      last sample. */
  lemma FallIsDropAndImpact(a: seq<int>, nSamp: int, w: int, threshMin: int, threshMax: int)
    requires 1 <= w && nSamp <= |a|
    requires FallIn(a, nSamp, w, threshMin, threshMax)
    ensures exists lo, hi ::
              0 <= lo < nSamp - 1 && 0 <= hi < nSamp - 1 && -w < lo - hi < w
              && a[lo] < threshMin && a[hi] > threshMax
  {
    var i :| 0 <= i < nSamp - w && FallAt(a, i, w, threshMin, threshMax);
    var lo :| i <= lo < i + w && WindowMin(a, i, w) == a[lo];
    var hi :| i <= hi < i + w && WindowMax(a, i, w) == a[hi];
    assert a[lo] < threshMin && a[hi] > threshMax;
  }

  /** A buffer whose values all lie between the thresholds holds no fall. */
  lemma SteadyBufferHasNoFall(a: seq<int>, nSamp: int, w: int, threshMin: int, threshMax: int)
    requires nSamp <= |a| && nSamp - w <= |a|
    requires forall k :: 0 <= k < |a| ==> threshMin <= a[k] <= threshMax
    ensures !FallIn(a, nSamp, w, threshMin, threshMax)
  {
    forall i | 0 <= i < nSamp - w
      ensures !FallAt(a, i, w, threshMin, threshMax)
    {
      var m := WindowMin(a, i, w);
      assert threshMin <= m;
    }
  }

  /** The windows stop one short of the end: with w >= 1 the last stored
      sample, a[nSamp-1], is never examined, so changing it cannot change
      the verdict. */
  lemma LastSampleNeverExamined(a: seq<int>, b: seq<int>, nSamp: int, w: int, threshMin: int, threshMax: int)
    requires 1 <= w && 0 < nSamp <= |a| && |a| == |b|
    requires forall k :: 0 <= k < |a| && k != nSamp - 1 ==> a[k] == b[k]
    ensures FallIn(a, nSamp, w, threshMin, threshMax) == FallIn(b, nSamp, w, threshMin, threshMax)
  {
    forall i | 0 <= i < nSamp - w
      ensures FallAt(a, i, w, threshMin, threshMax) == FallAt(b, i, w, threshMin, threshMax)
    {
      WindowFrame(a, b, i, w);
    }
  }

  lemma {:induction false} WindowFrame(a: seq<int>, b: seq<int>, i: int, w: int)
    requires 0 <= i < |a| && i + w <= |a| && |a| == |b|
    requires forall k :: i <= k < i + w ==> a[k] == b[k]
    requires a[i] == b[i]
    ensures WindowMin(a, i, w) == WindowMin(b, i, w)
    ensures WindowMax(a, i, w) == WindowMax(b, i, w)
    decreases w
  {
    if w > 1 {
      WindowFrame(a, b, i, w - 1);
    }
  }

  /** With the default window (1500 ms) the window at 100 Hz is 150
      samples, and at 10 Hz 15 samples. */
  lemma DefaultWindowSamples()
    ensures WindowSamples(FALL_WINDOW_DEFAULT, 100) == 150
    ensures WindowSamples(FALL_WINDOW_DEFAULT, 10) == 15
  {
    CDivBounds(FALL_WINDOW_DEFAULT * 100, 1000);
    CDivBounds(FALL_WINDOW_DEFAULT * 10, 1000);
  }
}
