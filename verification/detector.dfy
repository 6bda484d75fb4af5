/** The watch application's detector state and its event handlers: the
    accelerometer callback, the once-a-second clock tick that runs the
    analysis, and the two long button presses. */
module Detector {
  import opened Constants
  import opened Spectrum
  import opened SampleBuffer
  import opened Fall
  import opened Alarm

  /** Total power of bins lo .. hi-1, one bin at a time. */
  method SumPowers(b: array<Complex>, lo: int, hi: int) returns (s: nat)
    requires 0 <= lo <= hi <= b.Length
    ensures s == PowerSum(Powers(b[..]), lo, hi)
  {
    s := 0;
    var i := lo;
    while i < hi
      invariant lo <= i <= hi
      invariant s == PowerSum(Powers(b[..]), lo, i)
    {
      s := s + Magnitude(b[i]);
      i := i + 1;
    }
  }

  /** The average power per bin of bins lo .. hi-1. */
  method AveragePower(b: array<Complex>, lo: int, hi: int) returns (a: nat)
    requires 0 <= lo < hi <= b.Length
    ensures a == RoiAverage(Powers(b[..]), lo, hi)
  {
    var s := SumPowers(b, lo, hi);
    a := Average(s, hi - lo);
  }

  /** The whole-spectrum loop: bins 1 .. nSamp/2-1 at or below the cutoff
      are summed, the others have their real part zeroed in place. */
  method CutoffPass(b: array<Complex>, nSamp: int, cutoff: int) returns (s: nat)
    requires 2 <= nSamp && nSamp / 2 <= b.Length
    modifies b
    ensures b[..] == CutoffZeroed(old(b[..]), nSamp, cutoff)
    ensures s == CutoffPowerSum(Powers(old(b[..])), cutoff, nSamp / 2)
  {
    ghost var b0 := b[..];
    s := 0;
    var i := 1;
    while i < nSamp / 2
      invariant 1 <= i <= nSamp / 2
      invariant s == CutoffPowerSum(Powers(b0), cutoff, i)
      invariant forall k :: 0 <= k < b.Length && !(1 <= k < i && k > cutoff) ==> b[k] == b0[k]
      invariant forall k :: 1 <= k < i && k > cutoff ==> b[k] == Complex(0, b0[k].i)
    {
      if i <= cutoff {
        s := s + Magnitude(b[i]);
      } else {
        b[i] := Complex(0, b[i].i);
      }
      i := i + 1;
    }
  }

  /** The buffer takes the given contents. */
  method Overwrite(a: array<int>, s: seq<int>)
    requires a.Length == |s|
    modifies a
    ensures a[..] == s
  {
    forall k | 0 <= k < a.Length {
      a[k] := s[k];
    }
  }

  /** The average power of the whole ROI and of each sub-ROI, and the
      ratio of each sub-ROI's power to the spectrum power; ROI 0's ratio
      slot is not written and keeps `slot0`. */
  method RoiPowers(b: array<Complex>, nMin: int, nMax: int, specPower: nat, slot0: int)
    returns (whole: nat, powers: seq<int>, ratios: seq<int>)
    requires 0 <= nMin && nMax - nMin >= 2 && nMax <= b.Length
    ensures whole == RoiAverage(Powers(b[..]), nMin, nMax)
    ensures powers == RoiAverages(Powers(b[..]), nMin, nMax)
    ensures ratios == SubRoiRatios(Powers(b[..]), nMin, nMax, specPower, slot0)
  {
    RoiBoundsNested(nMin, nMax);
    var mins, maxs := RoiMins(nMin, nMax), RoiMaxs(nMin, nMax);
    ghost var avg := RoiAverages(Powers(b[..]), nMin, nMax);
    assert forall k :: 0 <= k < 4 ==> avg[k] == RoiAverage(Powers(b[..]), mins[k], maxs[k]);
    whole := AveragePower(b, nMin, nMax);
    powers, ratios := [whole, 0, 0, 0], [slot0, 0, 0, 0];
    var n := 1;
    while n <= 3
      invariant 1 <= n <= 4 && |powers| == 4 && |ratios| == 4
      invariant powers[0] == avg[0] && ratios[0] == slot0
      invariant forall k :: 1 <= k < n ==> powers[k] == avg[k]
      invariant forall k :: 1 <= k < n ==> ratios[k] == RoiRatio(avg[k], specPower)
    {
      var a := AveragePower(b, mins[n], maxs[n]);
      powers, ratios := powers[n := a], ratios[n := RoiRatio(a, specPower)];
      n := n + 1;
    }
  }

  /** The display spectrum: the average power of each 1 Hz band. */
  method DisplaySpectrum(b: array<Complex>, freqRes: int) returns (spec: seq<int>)
    requires BandsFit(freqRes, b.Length)
    ensures spec == SimpleSpectrum(Powers(b[..]), freqRes)
  {
    BandsFitWhenFine(freqRes, b.Length);
    ghost var p := Powers(b[..]);
    var band := 0;
    spec := seq(10, _ => 0);
    while band < 10
      invariant 0 <= band <= 10 && |spec| == 10
      invariant forall k :: 0 <= k < band ==>
        spec[k] == RoiAverage(p, BandMin(k, freqRes), BandMax(k, freqRes))
    {
      var a := AveragePower(b, BandMin(band, freqRes), BandMax(band, freqRes));
      spec := spec[band := a];
      band := band + 1;
    }
  }

  /** Integer average of a non-negative total over n > 0 items. */
  function Average(total: nat, n: int): (a: nat)
    requires n > 0
    ensures a * n <= total < (a + 1) * n
  {
    total / n
  }

  /** What the settings must give for an analysis to stay inside the
      spectrum and never divide by zero: at least two bins in the ROI (so
      every sub-ROI is non-empty), and ten non-empty display bands. */
  predicate AnalysisDefined(cfg: Settings, nSamp: int, bins: int) {
    2 <= nSamp <= NSAMP_MAX && cfg.sampleFreq > 0 && nSamp / 2 <= bins
    && FreqRes(cfg.sampleFreq, nSamp) > 0
    && 0 <= BinOf(cfg.alarmFreqMin, FreqRes(cfg.sampleFreq, nSamp))
    && BinOf(cfg.alarmFreqMax, FreqRes(cfg.sampleFreq, nSamp))
       - BinOf(cfg.alarmFreqMin, FreqRes(cfg.sampleFreq, nSamp)) >= 2
    && BinOf(cfg.alarmFreqMax, FreqRes(cfg.sampleFreq, nSamp)) <= bins
    && BandsFit(FreqRes(cfg.sampleFreq, nSamp), bins)
  }

  /** One pass over the window of w samples starting at i, keeping its
      smallest and largest values. */
  method WindowExtremes(a: array<int>, i: int, w: int) returns (minAcc: int, maxAcc: int)
    requires 0 <= i < a.Length && i + w <= a.Length
    ensures minAcc == WindowMin(a[..], i, w) && maxAcc == WindowMax(a[..], i, w)
  {
    ghost var s := a[..];
    minAcc, maxAcc := a[i], a[i];
    var j := 0;
    while j < w
      invariant 0 <= j && (j <= w || j == 0)
      invariant minAcc == WindowMin(s, i, j) && maxAcc == WindowMax(s, i, j)
    {
      if a[i + j] < minAcc {
        minAcc := a[i + j];
      }
      if a[i + j] > maxAcc {
        maxAcc := a[i + j];
      }
      j := j + 1;
    }
  }

  /** The window scan of the fall check: each window start i below
      nSamp - w in turn, stopping at the first window that shows a fall. */
  method ScanFall(a: array<int>, nSamp: int, w: int, threshMin: int, threshMax: int) returns (found: bool)
    requires nSamp <= a.Length && nSamp - w <= a.Length
    ensures found == FallIn(a[..], nSamp, w, threshMin, threshMax)
  {
    ghost var s := a[..];
    var i := 0;
    while i < nSamp - w
      invariant 0 <= i && (i <= nSamp - w || i == 0)
      invariant forall k :: 0 <= k < i ==> !FallAt(s, k, w, threshMin, threshMax)
    {
      var minAcc, maxAcc := WindowExtremes(a, i, w);
      if minAcc < threshMin && maxAcc > threshMax {
        assert FallAt(s, i, w, threshMin, threshMax);
        return true;
      }
      i := i + 1;
    }
    return false;
  }

  /** Whether the analysis is in the alarm region for the configured mode,
      and in multi-ROI mode which ROI is the cause: the four ratios are
      scanned in order and the last one above the threshold wins. */
  method Classify(roiPower: int, roiRatio: int, roiRatios: seq<int>, s: Settings) returns (inAlarm: bool, roi: int)
    requires |roiRatios| == 4
    ensures inAlarm == InAlarm(roiPower, roiRatio, roiRatios, s)
    ensures roi == (if s.sdMode == FftMultiRoi then AlarmRoi(roiPower, roiRatios, s) else 0)
  {
    inAlarm, roi := false, 0;
    if s.sdMode == Fft {
      inAlarm := roiPower > s.alarmThresh && roiRatio > s.alarmRatioThresh;
    } else if s.sdMode == FftMultiRoi {
      if roiPower > s.alarmThresh {
        var i := 0;
        while i <= 3
          invariant 0 <= i <= 4
          invariant inAlarm <==> exists k :: 0 <= k < i && roiRatios[k] > s.alarmRatioThresh
          invariant roi == LastRoiAbove(roiRatios, s.alarmRatioThresh, i)
        {
          if roiRatios[i] > s.alarmRatioThresh {
            inAlarm, roi := true, i;
          }
          i := i + 1;
        }
      }
    }
  }

  /** The bins an analysis derives from the settings and the sample count:
      the frequency resolution, the ROI, its four sub-ROIs and the cutoff.
      (Stated on values rather than on the detector's fields so that proofs
      about a sequence of steps see one copy of it.) */
  predicate BinsFor(cfg: Settings, nSamp: int, freqRes: int, nMin: int, nMax: int,
                    nMins: seq<int>, nMaxs: seq<int>, nFreqCutoff: int)
  {
    nSamp > 0 && FreqRes(cfg.sampleFreq, nSamp) > 0
    && freqRes == FreqRes(cfg.sampleFreq, nSamp)
    && nMin == BinOf(cfg.alarmFreqMin, freqRes) && nMax == BinOf(cfg.alarmFreqMax, freqRes)
    && nMins == RoiMins(nMin, nMax) && nMaxs == RoiMaxs(nMin, nMax)
    && nFreqCutoff == BinOf(cfg.freqCutoff, freqRes)
  }

  /** The bins lie inside a spectrum of `bins` bins: at least two in the
      ROI, and ten non-empty display bands. */
  predicate BinsInside(nSamp: int, freqRes: int, nMin: int, nMax: int, bins: int) {
    2 <= nSamp && nSamp / 2 <= bins
    && 0 <= nMin && nMax - nMin >= 2 && nMax <= bins && BandsFit(freqRes, bins)
  }

  /** The powers, ratios and display spectrum an analysis computes for the
      given bins from the spectrum the transform produced (`spec0`), the
      spectrum left after the cutoff loop (`spec1`) and ROI 0's ratio slot
      before the analysis. */
  predicate ResultsFor(spec0: seq<Complex>, spec1: seq<Complex>, slot0: int, nSamp: int, freqRes: int,
                       nMin: int, nMax: int, nFreqCutoff: int, specPower: int, roiPower: int, roiRatio: int,
                       roiPowers: seq<int>, roiRatios: seq<int>, simpleSpec: seq<int>)
  {
    BinsInside(nSamp, freqRes, nMin, nMax, |spec0|)
    && |spec1| == |spec0|
    && spec1 == CutoffZeroed(spec0, nSamp, nFreqCutoff)
    && specPower == SpecPower(Powers(spec0), nSamp, nFreqCutoff)
    && roiPower == RoiAverage(Powers(spec1), nMin, nMax)
    && roiRatio == RoiRatio(roiPower, specPower)
    && roiPowers == RoiAverages(Powers(spec1), nMin, nMax)
    && roiRatios == SubRoiRatios(Powers(spec1), nMin, nMax, specPower, slot0)
    && simpleSpec == SimpleSpectrum(Powers(spec1), freqRes)
  }

  class SeizureDetector {
    // Settings (from the phone or persistent storage).
    var cfg: Settings
    // The sample buffer.
    const accData: array<int>
    var accDataPos: int
    var accDataFull: bool
    var nSamp: int
    var fftBits: int
    // Results of the last analysis.
    var freqRes: int
    var nMin: int
    var nMax: int
    var nMins: seq<int>
    var nMaxs: seq<int>
    var nFreqCutoff: int
    var specPower: int
    var roiPower: int
    var roiRatio: int
    var roiPowers: seq<int>
    var roiRatios: seq<int>
    var simpleSpec: seq<int>
    var fallDetected: bool
    // Alarm state.
    var alarmState: AlarmState
    var alarmCount: int
    var alarmRoi: int
    var isManAlarm: bool
    var manAlarmTime: int
    var isMuted: bool
    var muteTime: int
    // Kept between clock ticks.
    var lastAlarmState: AlarmState
    var dataUpdateCount: int

    predicate Valid()
      reads this`nSamp, this`fftBits, this`accDataPos, this`nMins, this`nMaxs
      reads this`roiPowers, this`roiRatios, this`simpleSpec
    {
      accData.Length == NSAMP_MAX
      && 0 <= fftBits && nSamp == Pow2(fftBits + 1) && 2 <= nSamp <= NSAMP_MAX
      && 0 <= accDataPos <= NSAMP_MAX
      && |nMins| == 4 && |nMaxs| == 4 && |roiPowers| == 4 && |roiRatios| == 4
      && |simpleSpec| == 10
    }

    /** Start-up: every variable starts at zero (OK, not muted, no manual
        alarm), then the analysis is initialised for the given settings. */
    constructor(settings: Settings)
      ensures Valid() && cfg == settings
      ensures accData[..] == seq(NSAMP_MAX, _ => 0)
      ensures accDataPos == 0 && !accDataFull
      ensures SampleCountFor(settings.samplePeriod * settings.sampleFreq, nSamp, fftBits)
      ensures alarmState == Ok && alarmCount == 0 && lastAlarmState == Ok && dataUpdateCount == 0
      ensures !isManAlarm && manAlarmTime == 0 && !isMuted && muteTime == 0 && !fallDetected
      ensures alarmRoi == 0
      ensures freqRes == 0 && nMin == 0 && nMax == 0 && nFreqCutoff == 0
      ensures nMins == [0, 0, 0, 0] && nMaxs == [0, 0, 0, 0]
      ensures specPower == 0 && roiPower == 0 && roiRatio == 0
      ensures roiPowers == [0, 0, 0, 0] && roiRatios == [0, 0, 0, 0]
      ensures simpleSpec == seq(10, _ => 0)
      ensures fresh(accData)
    {
      cfg := settings;
      accData := new int[NSAMP_MAX];
      accDataPos, accDataFull := 0, false;
      nSamp, fftBits := 2, 0;
      freqRes, nMin, nMax, nFreqCutoff := 0, 0, 0, 0;
      nMins, nMaxs := [0, 0, 0, 0], [0, 0, 0, 0];
      specPower, roiPower, roiRatio := 0, 0, 0;
      roiPowers, roiRatios := [0, 0, 0, 0], [0, 0, 0, 0];
      simpleSpec := seq(10, _ => 0);
      fallDetected := false;
      alarmState, alarmCount, alarmRoi := Ok, 0, 0;
      isManAlarm, manAlarmTime, isMuted, muteTime := false, 0, false, 0;
      lastAlarmState, dataUpdateCount := Ok, 0;
      new;
      AnalysisInit();
    }

    /** The sample count and transform size for nsInit samples per period:
        the rounding of the source wherever it fits the buffer, else the
        whole buffer. */
    static predicate SampleCountFor(nsInit: int, nSamp: int, fftBits: int) {
      0 <= fftBits && nSamp == Pow2(fftBits + 1) && 2 <= nSamp <= NSAMP_MAX
      && (nsInit <= NSAMP_MAX ==> fftBits == RoundedBits(nsInit, 0))
      && (nsInit > NSAMP_MAX ==> nSamp == NSAMP_MAX)
    }

    /** (Re)initialise the analysis for the current settings: clear the
        buffer and round the samples per period up to a power of two. The
        write position and full flag are left as they are. */
    method AnalysisInit()
      requires accData.Length == NSAMP_MAX && |nMins| == 4 && |nMaxs| == 4
      requires |roiPowers| == 4 && |roiRatios| == 4 && |simpleSpec| == 10
      requires 0 <= accDataPos <= NSAMP_MAX
      modifies accData, this`nSamp, this`fftBits
      ensures Valid()
      ensures accData[..] == seq(NSAMP_MAX, _ => 0)
      ensures SampleCountFor(cfg.samplePeriod * cfg.sampleFreq, nSamp, fftBits)
    {
      var i := 0;
      while i < NSAMP_MAX
        invariant 0 <= i <= NSAMP_MAX
        invariant forall k :: 0 <= k < i ==> accData[k] == 0
      {
        accData[i] := 0;
        i := i + 1;
      }
      nSamp, fftBits := RoundSampleCount(cfg.samplePeriod * cfg.sampleFreq);
    }

    /** The buffer as a value. */
    function Buffer(): BufferState
      reads this, accData
    {
      BufferState(accData[..], accDataPos, accDataFull)
    }

    /** A batch of accelerometer samples: forwarded untouched in raw mode,
        otherwise folded into the buffer. */
    method AccelHandler(batch: seq<AccelSample>) returns (forwarded: bool)
      requires Valid()
      modifies accData, this`accDataPos, this`accDataFull
      ensures Valid()
      ensures forwarded <==> cfg.sdMode == Raw
      ensures forwarded ==> Buffer() == old(Buffer())
      ensures !forwarded ==> Buffer() == Ingest(old(Buffer()), nSamp, batch)
    {
      forwarded := cfg.sdMode == Raw;
      if forwarded {
        return;
      }
      var i := 0;
      while i < |batch|
        invariant 0 <= i <= |batch| && 0 <= accDataPos <= NSAMP_MAX
        invariant Ingest(Buffer(), nSamp, batch[i..]) == Ingest(old(Buffer()), nSamp, batch)
      {
        if accDataPos >= nSamp {
          accDataPos := 0;
          accDataFull := true;
          break;
        }
        if !batch[i].didVibrate {
          accData[accDataPos] := SampleValue(batch[i]);
          accDataPos := accDataPos + 1;
        }
        i := i + 1;
      }
    }

    /** The bin numbers of the analysis, as the settings determine them. */
    predicate BinsSet()
      reads this`cfg, this`nSamp, this`freqRes, this`nMin, this`nMax, this`nMins, this`nMaxs
      reads this`nFreqCutoff
    {
      BinsFor(cfg, nSamp, freqRes, nMin, nMax, nMins, nMaxs, nFreqCutoff)
    }

    /** The analysis results as functions of the spectrum the transform
        produced (`spec0`), the spectrum left after the cutoff loop
        (`spec1`) and ROI 0's ratio slot before the analysis. */
    predicate Analysed(spec0: seq<Complex>, spec1: seq<Complex>, slot0: int)
      reads this`cfg, this`nSamp, this`freqRes, this`nMin, this`nMax, this`nMins, this`nMaxs
      reads this`nFreqCutoff, this`specPower, this`roiPower, this`roiRatio, this`roiPowers
      reads this`roiRatios, this`simpleSpec
    {
      BinsSet() && SpectrumAnalysed(spec0, spec1, slot0)
    }

    /** The current bins lie inside a spectrum of `bins` bins. */
    predicate BinsFit(bins: int)
      reads this`nSamp, this`freqRes, this`nMin, this`nMax
    {
      BinsInside(nSamp, freqRes, nMin, nMax, bins)
    }

    /** The current results are those of the current bins. */
    predicate SpectrumAnalysed(spec0: seq<Complex>, spec1: seq<Complex>, slot0: int)
      reads this`nSamp, this`freqRes, this`nMin, this`nMax, this`nFreqCutoff
      reads this`specPower, this`roiPower, this`roiRatio, this`roiPowers, this`roiRatios
      reads this`simpleSpec
    {
      ResultsFor(spec0, spec1, slot0, nSamp, freqRes, nMin, nMax, nFreqCutoff,
                 specPower, roiPower, roiRatio, roiPowers, roiRatios, simpleSpec)
    }

    /** One analysis of a full buffer. The transform is foreign: its output
        arrives as the complex view `spectrum` of the buffer, and the
        integer contents the buffer holds once the analysis is over arrive
        as `transformed` (the two views share memory in the source, and the
        model does not derive one from the other). The
        bins are set from the settings; bins above the cutoff lose their
        real part; the whole-spectrum power, the ROI powers and ratios and
        the display spectrum are computed; and collection restarts with an
        empty buffer. */
    method DoAnalysis(spectrum: array<Complex>, transformed: seq<int>)
      requires Valid() && |transformed| == NSAMP_MAX
      requires AnalysisDefined(cfg, nSamp, spectrum.Length)
      modifies spectrum, accData, this`freqRes, this`nMin, this`nMax, this`nMins, this`nMaxs
      modifies this`nFreqCutoff, this`specPower, this`roiPower, this`roiRatio, this`roiPowers
      modifies this`roiRatios, this`simpleSpec, this`accDataPos, this`accDataFull
      ensures Valid()
      ensures Analysed(old(spectrum[..]), spectrum[..], old(roiRatios[0]))
      ensures accData[..] == transformed
      ensures accDataPos == 0 && !accDataFull
    {
      SetBins(spectrum.Length);
      // The transform overwrites the buffer.
      Overwrite(accData, transformed);
      // Collection restarts with an empty buffer (the source does this last;
      // the spectrum part neither reads nor writes these two fields).
      accDataPos, accDataFull := 0, false;
      AnalyseSpectrum(spectrum);
    }

    /** The bin numbers of the analysis for the current settings; they lie
        inside a spectrum of `bins` bins. */
    method SetBins(bins: int)
      requires AnalysisDefined(cfg, nSamp, bins)
      modifies this`freqRes, this`nMin, this`nMax, this`nMins, this`nMaxs, this`nFreqCutoff
      ensures BinsSet() && BinsFit(bins)
    {
      freqRes := FreqRes(cfg.sampleFreq, nSamp);
      nMin := BinOf(cfg.alarmFreqMin, freqRes);
      nMax := BinOf(cfg.alarmFreqMax, freqRes);
      nMins, nMaxs := RoiMins(nMin, nMax), RoiMaxs(nMin, nMax);
      nFreqCutoff := BinOf(cfg.freqCutoff, freqRes);
    }

    /** The spectrum part of the analysis, once the bins are set: the
        cutoff loop and whole-spectrum power, the ROI loops, and the
        display spectrum. */
    method AnalyseSpectrum(spectrum: array<Complex>)
      requires BinsFit(spectrum.Length) && |roiRatios| == 4
      modifies spectrum, this`specPower, this`roiPower, this`roiRatio, this`roiPowers
      modifies this`roiRatios, this`simpleSpec
      ensures SpectrumAnalysed(old(spectrum[..]), spectrum[..], old(roiRatios[0]))
    {
      var total := CutoffPass(spectrum, nSamp, nFreqCutoff);
      specPower := Average(total, nSamp / 2);
      var whole, powers, ratios := RoiPowers(spectrum, nMin, nMax, specPower, roiRatios[0]);
      roiPower, roiRatio := whole, RoiRatio(whole, specPower);
      roiPowers, roiRatios := powers, ratios;
      simpleSpec := DisplaySpectrum(spectrum, freqRes);
    }

    /** The fall check: a window of fallWindow milliseconds slides over the
        buffer, from its start up to nSamp - window, and the first window
        holding a value below fallThreshMin and one above fallThreshMax
        sets fallDetected. The windows must stay inside the buffer. */
    method CheckFall()
      requires Valid()
      requires nSamp - WindowSamples(cfg.fallWindow, cfg.sampleFreq) <= NSAMP_MAX
      modifies this`fallDetected
      ensures fallDetected == FallIn(accData[..], nSamp, WindowSamples(cfg.fallWindow, cfg.sampleFreq),
                                     cfg.fallThreshMin, cfg.fallThreshMax)
    {
      fallDetected := ScanFall(accData, nSamp, WindowSamples(cfg.fallWindow, cfg.sampleFreq),
                               cfg.fallThreshMin, cfg.fallThreshMax);
    }

    /** The alarm check after an analysis: decide whether the spectrum is
        in the alarm region (in multi-ROI mode, also which ROI is the
        cause) and step the warning/alarm hysteresis. */
    method AlarmCheck() returns (state: AlarmState)
      requires Valid()
      modifies this`alarmState, this`alarmCount, this`alarmRoi
      ensures Hysteresis(alarmState, alarmCount)
        == AlarmStep(old(Hysteresis(alarmState, alarmCount)), InAlarm(roiPower, roiRatio, roiRatios, cfg), cfg)
      ensures alarmRoi == (if cfg.sdMode == FftMultiRoi then AlarmRoi(roiPower, roiRatios, cfg) else 0)
      ensures state == alarmState
    {
      var inAlarm, roi := Classify(roiPower, roiRatio, roiRatios, cfg);
      alarmRoi := roi;
      if inAlarm {
        alarmCount := alarmCount + cfg.samplePeriod;
        if alarmCount > cfg.alarmTime {
          alarmState := Alarm;
        } else if alarmCount > cfg.warnTime {
          alarmState := Warn;
        }
      } else {
        if alarmState == Alarm {
          alarmState := Warn;
        } else {
          alarmState := Ok;
          alarmCount := 0;
        }
      }
      state := alarmState;
    }

    /** The decision after an analysis: check for a fall when fall
        detection is on, step the alarm state, apply the fall, manual alarm
        and mute overrides, and send the result when it is not OK (and not
        muted) or has changed since the last analysis. */
    method Decide() returns (sent: bool)
      requires Valid()
      requires cfg.fallActive ==> nSamp - WindowSamples(cfg.fallWindow, cfg.sampleFreq) <= NSAMP_MAX
      modifies this`fallDetected, this`alarmState, this`alarmCount, this`alarmRoi, this`lastAlarmState
      ensures fallDetected == if cfg.fallActive
                              then FallIn(accData[..], nSamp, WindowSamples(cfg.fallWindow, cfg.sampleFreq),
                                          cfg.fallThreshMin, cfg.fallThreshMax)
                              else old(fallDetected)
      ensures alarmRoi == (if cfg.sdMode == FftMultiRoi then AlarmRoi(roiPower, roiRatios, cfg) else 0)
      ensures alarmCount
        == AlarmStep(old(Hysteresis(alarmState, alarmCount)), InAlarm(roiPower, roiRatio, roiRatios, cfg), cfg).count
      ensures alarmState == Reported(AlarmStep(old(Hysteresis(alarmState, alarmCount)),
                                               InAlarm(roiPower, roiRatio, roiRatios, cfg), cfg).state,
                                     fallDetected, isManAlarm, isMuted)
      ensures sent == AlarmReportDue(alarmState, isMuted, old(lastAlarmState))
      ensures lastAlarmState == alarmState
    {
      if cfg.fallActive {
        CheckFall();
      }
      var detected := AlarmCheck();
      var reported := Reported(detected, fallDetected, isManAlarm, isMuted);
      sent := AlarmReportDue(reported, isMuted, lastAlarmState);
      alarmState, lastAlarmState := reported, reported;
    }

    /** The analysis half of a tick with a full buffer: analyse, then
        decide and report. */
    method AnalysisTick(spectrum: array<Complex>, transformed: seq<int>) returns (sent: bool)
      requires Valid() && |transformed| == NSAMP_MAX
      requires AnalysisDefined(cfg, nSamp, spectrum.Length)
      requires cfg.fallActive ==> nSamp - WindowSamples(cfg.fallWindow, cfg.sampleFreq) <= NSAMP_MAX
      modifies spectrum, accData, this`freqRes, this`nMin, this`nMax, this`nMins, this`nMaxs
      modifies this`nFreqCutoff, this`specPower, this`roiPower, this`roiRatio, this`roiPowers
      modifies this`roiRatios, this`simpleSpec, this`accDataPos, this`accDataFull
      modifies this`fallDetected, this`alarmState, this`alarmCount, this`alarmRoi, this`lastAlarmState
      ensures Valid()
      ensures Analysed(old(spectrum[..]), spectrum[..], old(roiRatios[0]))
      ensures accData[..] == transformed && accDataPos == 0 && !accDataFull
      ensures fallDetected == if cfg.fallActive
                              then FallIn(transformed, nSamp, WindowSamples(cfg.fallWindow, cfg.sampleFreq),
                                          cfg.fallThreshMin, cfg.fallThreshMax)
                              else old(fallDetected)
      ensures alarmRoi == (if cfg.sdMode == FftMultiRoi then AlarmRoi(roiPower, roiRatios, cfg) else 0)
      ensures alarmCount
        == AlarmStep(old(Hysteresis(alarmState, alarmCount)), InAlarm(roiPower, roiRatio, roiRatios, cfg), cfg).count
      ensures alarmState == Reported(AlarmStep(old(Hysteresis(alarmState, alarmCount)),
                                               InAlarm(roiPower, roiRatio, roiRatios, cfg), cfg).state,
                                     fallDetected, isManAlarm, isMuted)
      ensures sent == AlarmReportDue(alarmState, isMuted, old(lastAlarmState))
      ensures lastAlarmState == alarmState
    {
      DoAnalysis(spectrum, transformed);
      sent := Decide();
    }

    /** One second of the manual alarm and mute timers; a manual alarm with
        time left forces MAN_ALARM. */
    method StepTimers()
      modifies this`isManAlarm, this`manAlarmTime, this`isMuted, this`muteTime, this`alarmState
      ensures Timer(isManAlarm, manAlarmTime) == TimerStep(old(Timer(isManAlarm, manAlarmTime)), cfg.manAlarmPeriod)
      ensures Timer(isMuted, muteTime) == TimerStep(old(Timer(isMuted, muteTime)), cfg.mutePeriod)
      ensures alarmState == TimerOverride(old(alarmState), old(Timer(isManAlarm, manAlarmTime)), cfg.manAlarmPeriod)
    {
      if isManAlarm {
        if manAlarmTime < cfg.manAlarmPeriod {
          alarmState := ManAlarm;
          manAlarmTime := manAlarmTime + 1;
        } else {
          isManAlarm, manAlarmTime := false, 0;
        }
      }
      if isMuted {
        if muteTime < cfg.mutePeriod {
          muteTime := muteTime + 1;
        } else {
          isMuted, muteTime := false, 0;
        }
      }
    }

    /** One second of the periodic data update. */
    method StepUpdate() returns (sent: bool)
      modifies this`dataUpdateCount
      ensures (dataUpdateCount, sent) == UpdateStep(old(dataUpdateCount), cfg.dataUpdatePeriod)
    {
      dataUpdateCount := dataUpdateCount + 1;
      sent := false;
      if dataUpdateCount >= cfg.dataUpdatePeriod {
        sent := true;
        dataUpdateCount := 0;
      }
    }

    /** The one-second clock tick: step the timers, analyse and report when
        the buffer is full, then send the periodic update when it is due.
        The two results say whether each of the two sends happened. */
    method ClockTick(spectrum: array<Complex>, transformed: seq<int>) returns (alarmSent: bool, updateSent: bool)
      requires Valid() && |transformed| == NSAMP_MAX
      requires accDataFull ==> AnalysisDefined(cfg, nSamp, spectrum.Length)
      requires accDataFull && cfg.fallActive ==> nSamp - WindowSamples(cfg.fallWindow, cfg.sampleFreq) <= NSAMP_MAX
      modifies spectrum, accData, this`freqRes, this`nMin, this`nMax, this`nMins, this`nMaxs
      modifies this`nFreqCutoff, this`specPower, this`roiPower, this`roiRatio, this`roiPowers
      modifies this`roiRatios, this`simpleSpec, this`accDataPos, this`accDataFull
      modifies this`fallDetected, this`alarmState, this`alarmCount, this`alarmRoi, this`lastAlarmState
      modifies this`isManAlarm, this`manAlarmTime, this`isMuted, this`muteTime, this`dataUpdateCount
      ensures Valid()
      ensures Timer(isManAlarm, manAlarmTime) == TimerStep(old(Timer(isManAlarm, manAlarmTime)), cfg.manAlarmPeriod)
      ensures Timer(isMuted, muteTime) == TimerStep(old(Timer(isMuted, muteTime)), cfg.mutePeriod)
      ensures (dataUpdateCount, updateSent) == UpdateStep(old(dataUpdateCount), cfg.dataUpdatePeriod)
      ensures !old(accDataFull) ==>
        !alarmSent
        && alarmState == TimerOverride(old(alarmState), old(Timer(isManAlarm, manAlarmTime)), cfg.manAlarmPeriod)
        && unchanged(spectrum, accData)
        && unchanged(this`specPower, this`roiPower, this`roiRatio, this`roiPowers, this`roiRatios, this`simpleSpec)
        && unchanged(this`accDataPos, this`accDataFull, this`fallDetected, this`alarmCount, this`lastAlarmState)
        && unchanged(this`freqRes, this`nMin, this`nMax, this`nMins, this`nMaxs, this`nFreqCutoff, this`alarmRoi)
      ensures old(accDataFull) ==>
        Analysed(old(spectrum[..]), spectrum[..], old(roiRatios[0]))
        && accData[..] == transformed && accDataPos == 0 && !accDataFull
        && fallDetected == (if cfg.fallActive
                            then FallIn(transformed, nSamp, WindowSamples(cfg.fallWindow, cfg.sampleFreq),
                                        cfg.fallThreshMin, cfg.fallThreshMax)
                            else old(fallDetected))
        && alarmRoi == (if cfg.sdMode == FftMultiRoi then AlarmRoi(roiPower, roiRatios, cfg) else 0)
        && alarmCount == TickHysteresis(old(alarmState), old(alarmCount), old(Timer(isManAlarm, manAlarmTime))).count
        && alarmState == Reported(TickHysteresis(old(alarmState), old(alarmCount),
                                                 old(Timer(isManAlarm, manAlarmTime))).state,
                                  fallDetected, isManAlarm, isMuted)
        && alarmSent == AlarmReportDue(alarmState, isMuted, old(lastAlarmState))
        && lastAlarmState == alarmState
    {
      StepTimers();
      // The source steps the periodic update after the analysis; the update
      // touches only its own counter and the analysis never reads it, so
      // the two orders reach the same state.
      updateSent := StepUpdate();
      alarmSent := false;
      if accDataFull {
        alarmSent := AnalysisTick(spectrum, transformed);
      }
    }

    /** The hysteresis step of a tick's analysis, taken from the state the
        timers leave (which may still carry an earlier override). */
    ghost function TickHysteresis(state: AlarmState, count: int, man: Timer): Hysteresis
      reads this`cfg, this`roiPower, this`roiRatio, this`roiRatios
      requires |roiRatios| == 4
    {
      AlarmStep(Hysteresis(TimerOverride(state, man, cfg.manAlarmPeriod), count),
                InAlarm(roiPower, roiRatio, roiRatios, cfg), cfg)
    }

    /** The long press of the up button switches mute on or off. */
    method UpLongPress()
      modifies this`isMuted, this`muteTime
      ensures Timer(isMuted, muteTime) == Toggle(old(Timer(isMuted, muteTime)))
    {
      if isMuted {
        isMuted, muteTime := false, 0;
      } else {
        isMuted, muteTime := true, 0;
      }
    }

    /** The long press of the down button raises or cancels a manual alarm. */
    method DownLongPress()
      modifies this`isManAlarm, this`manAlarmTime
      ensures Timer(isManAlarm, manAlarmTime) == Toggle(old(Timer(isManAlarm, manAlarmTime)))
    {
      if isManAlarm {
        isManAlarm, manAlarmTime := false, 0;
      } else {
        isManAlarm, manAlarmTime := true, 0;
      }
    }
  }
}
