# OpenSeizureDetector watch app: the decision core in Dafny

This project models the integer-only seizure and fall detection of the
OpenSeizureDetector Pebble watch app and proves properties of it. The app
samples the accelerometer into a buffer and analyses the buffer once it is
full. The analysis takes a spectrum, computes power in a frequency region
of interest (ROI) and in three sub-ROIs, and checks for a fall (a free-fall
dip followed by an impact). Once a second a clock tick steps the
warning/alarm hysteresis, applies the manual-alarm, mute and fall
overrides, and decides what to send to the phone.

The C globals shared by `analysis.c` and `pebble_sd.c` become the fields of
one class, `Detector.SeizureDetector`. Its methods are the event handlers:

- `AccelHandler`: the accelerometer callback.
- `ClockTick`: the one-second tick.
- `DoAnalysis`, `CheckFall` and `AlarmCheck`: the analysis steps.
- `UpLongPress` and `DownLongPress`: the two long button presses.

Every loop of the modelled operations is a `while` loop proved against a
specification function on values. The specification functions, and the lemmas about
them, live in five modules:

| file | module | contents |
|---|---|---|
| `constants.dfy` | `Constants` | alarm-state and mode codes, default settings, C's truncating division |
| `spectrum.dfy` | `Spectrum` | sample-count rounding, bins, ROIs, powers, ratios, display bands |
| `buffer.dfy` | `SampleBuffer` | how a batch of accelerometer samples fills the buffer |
| `fall.dfy` | `Fall` | the sliding-window fall test |
| `alarm.dfy` | `Alarm` | alarm region, hysteresis, overrides, report and timer rules |
| `detector.dfy` | `Detector` | the class and its imperative methods |

Design choices:

- **The transform is foreign.** The transform runs in place on the sample
  buffer and is not modelled. An analysis therefore receives two inputs:
  - its output as an array of integer complex bins, `spectrum`;
  - the integer contents the buffer holds once the analysis is over,
    `transformed`.

  The fall check runs after the analysis, so it scans `transformed`.
- **Division.** C's `/` truncates toward zero. Where an operand may be
  negative it is modelled by `Constants.CDiv`. `Constants.CDivBounds`
  states the truncation.
- **Sending data.** A send to the phone is modelled as a boolean result
  saying whether the send happened.

## Model

| member | source | states |
|---|---|---|
| Constants.Code | src/pebble_sd.h:136-142 | each alarm state has its code in 0..6 |
| Constants.FromCode | src/pebble_sd.h:136-142 | every code 0..6 decodes to the state with that code |
| Constants.CodeRoundTrip | src/pebble_sd.h:136-142 | decoding a state's code gives the state back, so the seven codes are distinct |
| Constants.ModeCode | src/pebble_sd.h:145-147 | FFT, RAW and FILTER have the header's codes 0, 1 and 2; the multi-ROI mode, which the header does not declare, gets the model's own tag 3; a code is at most 2 iff the mode is a declared one |
| Constants.FromModeCode | src/pebble_sd.h:145-147 | every code 0..3 decodes to the mode with that code |
| Constants.ModeCodeRoundTrip | src/pebble_sd.h:145-147 | decoding a mode's code gives the mode back, so the mode codes are distinct |
| Constants.ModeCodeInjective | src/pebble_sd.h:145-147 | two modes with the same code are the same mode |
| Constants.HeaderModeCodes | src/pebble_sd.h:145-147 | SD_MODE_FFT = 0, SD_MODE_RAW = 1, SD_MODE_FILTER = 2 |
| Constants.DefaultSettings | src/pebble_sd.h:42-76 | the defaults use a supported frequency, fit the buffer (5 s x 100 Hz <= 512), and have warnTime < alarmTime and fallThreshMin < fallThreshMax |
| Constants.CDiv | src/analysis.c:199-224 | C's `/` for a positive divisor: the quotient of the magnitudes, negated for a negative dividend (see CDivBounds) |
| Constants.NatDivBounds | src/analysis.c:199 | the repeated-subtraction quotient is the quotient of integer division |
| Constants.CDivBounds | src/analysis.c:199-224 | C division truncates toward zero: the remainder has the dividend's sign and is smaller than the divisor |
| Spectrum.RoundedBits | src/analysis.c:317-326 | the search returns the first i (from 0, below 1000) with 2<<i >= nsInit, or -1 if none |
| Spectrum.DefaultSampleCountFits | src/pebble_sd.h:42-44 | the default 500 samples round up to exactly NSAMP_MAX = 512 (i = 8) |
| Spectrum.UnclampedRoundingOverrunsBuffer | src/analysis.c:313-326 | as written, 10 s at 100 Hz rounds to 1024 samples, more than the 512-sample buffer |
| Spectrum.RoundSampleCount | src/analysis.c:313-326 | the loop yields nSamp = 2^(fftBits+1), the smallest such value >= nsInit, and agrees with the source's search whenever that fits the buffer; otherwise it is clamped to NSAMP_MAX |
| Spectrum.FreqResPositive | src/analysis.c:199 | a supported frequency and nSamp <= 512 give a positive frequency resolution |
| Spectrum.FreqRes | src/analysis.c:199 | 1000 x the sample rate over nSamp, truncated: the width of one bin in milli-hertz |
| Spectrum.BinOf | src/analysis.c:203-204 | the bin of a frequency: 1000 x the frequency over freqRes, truncated (also nFreqCutoff at line 224) |
| Spectrum.RoiMins | src/analysis.c:208-221 | the lower bounds of ROIs 0-3: nMin, nMin, the midpoint, nMin plus a quarter of the width |
| Spectrum.RoiMaxs | src/analysis.c:208-221 | the upper bounds of ROIs 0-3: nMax, the midpoint, nMax, nMax minus a quarter of the width |
| Spectrum.RoiBoundsNested | src/analysis.c:208-221 | every sub-ROI lies in [nMin, nMax]; ROI 1 and ROI 2 tile ROI 0; ROI 3 is centred; with at least two bins no sub-ROI is empty |
| Spectrum.Magnitude | src/analysis.c:57-61 | the squared magnitude r*r + i*i of one bin, never negative |
| Spectrum.Powers | src/analysis.c:57-61 | one squared magnitude r*r + i*i per bin |
| Spectrum.SilentSpectrumHasNoPower | src/analysis.c:57-61 | all-zero bins have zero power |
| Spectrum.PowerSum | src/analysis.c:259-261 | the total power of the bins of a range |
| Spectrum.PowerSumZero | src/analysis.c:259-261 | a range's power sum is zero iff every bin in it is silent |
| Spectrum.CutoffPowerSum | src/analysis.c:241-250 | the sum the cutoff loop accumulates: bins 1 .. hi-1, each counted only at or below the cutoff (see CutoffPowerSumIsPassBand) |
| Spectrum.CutoffPowerSumIsPassBand | src/analysis.c:241-250 | the cutoff loop sums exactly bins 1 .. min(nFreqCutoff, nSamp/2-1); bin 0 never contributes |
| Spectrum.SpecPower | src/analysis.c:241-254 | the pass-band sum divided by nSamp/2, truncated |
| Spectrum.SpecPowerDependsOnPassBand | src/analysis.c:241-254 | specPower depends only on the pass-band bins |
| Spectrum.SpecPowerOfSilence | src/analysis.c:241-254 | silent pass-band bins give specPower = 0 |
| Spectrum.CutoffZeroed | src/analysis.c:242-249 | above the cutoff (below nSamp/2) each bin's real part becomes 0 and its imaginary part is kept; every other bin is unchanged |
| Spectrum.CutoffZeroingKeepsSpecPower | src/analysis.c:241-254 | zeroing above the cutoff does not change specPower |
| Spectrum.RoiAverage | src/analysis.c:258-263 | the total power of a non-empty range divided by its width, truncated |
| Spectrum.RoiAverages | src/analysis.c:258-277 | the four ROI averages; ROI 0's is the whole-ROI power, and one half-ROI average is at least that |
| Spectrum.RoiAverageBounds | src/analysis.c:258-263 | an ROI average is at most the largest bin power in the ROI |
| Spectrum.RoiRatio | src/analysis.c:265 | the ratio is 10 x power / specPower truncated (bounded by the two products), and 0 when specPower is 0 |
| Spectrum.RoiRatioAsWritten | src/analysis.c:265 | the unguarded ratio is undefined exactly when specPower is 0 |
| Spectrum.RoiRatioRefinesAsWritten | src/analysis.c:265 | the guarded ratio equals the source's ratio wherever the latter is defined |
| Spectrum.QuietSpectrumDividesByZero | src/analysis.c:254-265 | a silent spectrum makes specPower 0, so the source's ratio divides by zero |
| Spectrum.RoiRatioMonotone | src/analysis.c:265 | more ROI power never gives a smaller ratio |
| Spectrum.SplitAverageBound | src/analysis.c:212-217 | the whole ROI's average is at most the larger of its two halves' averages |
| Spectrum.BandMin | src/analysis.c:284 | first bin of 1 Hz band k: one past the bin of k Hz (the DC bin is skipped) |
| Spectrum.BandMax | src/analysis.c:285 | end of 1 Hz band k: one past the bin of k+1 Hz |
| Spectrum.BandsFitWhenFine | src/analysis.c:283-291 | with bins at most 1 Hz wide, the ten display bands are non-empty, consecutive and inside the spectrum |
| Spectrum.BandFits | src/analysis.c:284-285 | one display band is non-empty and inside the spectrum |
| Spectrum.CoarseBinsEmptyFirstBand | src/analysis.c:284-285 | bins wider than 1 Hz leave the first display band empty |
| Spectrum.SimpleSpectrum | src/analysis.c:283-291 | ten band averages |
| SampleBuffer.SampleValue | src/analysis.c:145 | a stored sample is the sum of the absolute values of x, y and z; it is zero only for a zero reading |
| SampleBuffer.Stored | src/analysis.c:143-147 | a batch stores at most one value per sample; vibrate-flagged samples are skipped |
| SampleBuffer.Ingest | src/analysis.c:133-148 | a batch never changes the buffer outside [pos, nSamp), keeps a set full flag, and keeps the position bounded |
| SampleBuffer.IngestOutcome | src/analysis.c:133-148 | either the batch's still samples are stored right after the old position with the flag unchanged, or the buffer is filled up to nSamp, the rest dropped, position 0 and full |
| SampleBuffer.BatchWithRoomIsAppended | src/analysis.c:143-147 | a batch that fits is stored in full and the position advances by the number of still samples |
| SampleBuffer.OverflowingBatchFillsBuffer | src/analysis.c:135-139 | a batch that does not fit fills up to nSamp, drops the rest and marks the buffer full |
| SampleBuffer.StalePositionResets | src/analysis.c:135-139 | a position at or past nSamp is reset by the next sample, which is not stored |
| Fall.WindowSamples | src/analysis.c:161 | the fall window in samples: window (ms) x rate (Hz) / 1000, truncated |
| Fall.WindowMin | src/analysis.c:168-173 | the window minimum is at most every sample in the window and is one of them |
| Fall.WindowMax | src/analysis.c:168-173 | the window maximum is at least every sample in the window and is one of them |
| Fall.FallAt | src/analysis.c:168-174 | the window starting at i has its minimum below fallThreshMin and its maximum above fallThreshMax |
| Fall.FallIn | src/analysis.c:165-180 | some window start in [0, nSamp - w) shows a fall (both directions: DropThenImpactIsFall, FallIsDropAndImpact) |
| Fall.DropThenImpactIsFall | src/analysis.c:166-180 | a sample below fallThreshMin and one above fallThreshMax in one window (starting before nSamp - w) is a fall |
| Fall.FallIsDropAndImpact | src/analysis.c:166-180 | conversely, a fall means such a pair less than a window apart, before the last sample |
| Fall.SteadyBufferHasNoFall | src/analysis.c:166-180 | a buffer within the thresholds holds no fall |
| Fall.LastSampleNeverExamined | src/analysis.c:166-173 | the last stored sample never affects the verdict |
| Fall.DefaultWindowSamples | src/analysis.c:161 | the default 1500 ms window is 150 samples at 100 Hz and 15 at 10 Hz |
| Alarm.InAlarm | src/analysis.c:79-95 | FFT mode: ROI power above alarmThresh and ratio above alarmRatioThresh; multi-ROI mode: ROI power above alarmThresh and some ROI ratio above the threshold; other modes never |
| Alarm.LastRoiAbove | src/analysis.c:87-93 | the index is the last ratio above the threshold, or 0 if none is |
| Alarm.AlarmRoi | src/analysis.c:85-95 | in multi-ROI alarm, alarmRoi names a ROI whose ratio exceeds the threshold |
| Alarm.SubRoiRatios | src/analysis.c:269-278 | ROIs 1-3 get non-negative ratios; slot 0 keeps its old value (never written) |
| Alarm.MultiRoiCoversSingleRoi | src/analysis.c:81-95 | whatever slot 0 holds, multi-ROI mode alarms whenever single-ROI mode would |
| Alarm.AlarmStep | src/analysis.c:97-113 | in alarm: the count grows by samplePeriod; state is ALARM past alarmTime, WARN past warnTime, otherwise unchanged. Quiet: ALARM steps to WARN keeping the count; anything else goes to OK with count 0 |
| Alarm.AlarmStepKeepsConsistent | src/analysis.c:97-113 | from reachable states, ALARM holds exactly when in alarm with count > alarmTime |
| Alarm.SustainedCount | src/analysis.c:97-98 | uninterrupted activity adds samplePeriod per analysis |
| Alarm.SustainedActivityRaisesAlarm | src/analysis.c:97-101 | sustained activity past alarmTime gives ALARM from any state |
| Alarm.BriefActivityStaysOk | src/analysis.c:97-104 | from OK, activity not yet past warnTime gives OK |
| Alarm.TwoQuietAnalysesReset | src/analysis.c:105-113 | two quiet analyses always return to OK with count 0 |
| Alarm.ResumedActivityReturnsToAlarm | src/analysis.c:105-109 | one quiet analysis during an alarm keeps the count, so renewed activity returns straight to ALARM |
| Alarm.DefaultTimeline | src/analysis.c:97-113 | with the defaults: OK, WARN at the 2nd analysis, ALARM at the 3rd; then WARN, then OK |
| Alarm.StaleOverrideSurvives | src/analysis.c:97-103 | a FALL, MAN_ALARM or MUTE left in the state survives any in-alarm analysis whose count stays at or below both thresholds, for all settings and counts |
| Alarm.DefaultsKeepStaleOverride | src/analysis.c:97-103 | with the defaults, the first in-alarm analysis after a manual alarm or mute keeps MAN_ALARM or MUTE |
| Alarm.Reported | src/pebble_sd.c:136-164 | a fall replaces OK only; a manual alarm replaces anything; mute replaces everything. OK is reported only for OK with no fall |
| Alarm.SeizureHidesFall | src/pebble_sd.c:138-139 | WARN and ALARM are never replaced by FALL |
| Alarm.AlarmReportDue | src/pebble_sd.c:169-171 | a report is due when the state is not OK and not muted, or differs from the last state sent |
| Alarm.MutedReportsOnlyOnChange | src/pebble_sd.c:161-171 | while muted, only the first analysis is sent |
| Alarm.ReportRules | src/pebble_sd.c:169-171 | an unmuted non-OK state is always sent; OK only when it is new |
| Alarm.TimerStep | src/pebble_sd.c:102-123 | a running timer counts up to its period, then is switched off and cleared; an idle timer is unchanged |
| Alarm.TimerOverride | src/pebble_sd.c:102-108 | a running manual alarm with time left forces MAN_ALARM; no other change |
| Alarm.Toggle | src/pebble_sd.c:257-279 | a long press flips the flag and clears the timer |
| Alarm.TimerLasts | src/pebble_sd.c:102-123 | after a press the timer runs exactly `period` seconds and is cleared at the next |
| Alarm.UpdateStep | src/pebble_sd.c:180-184 | the update is due iff the incremented count reaches the period; the count then restarts at 0 |
| Alarm.PeriodicUpdate | src/pebble_sd.c:180-184 | from 0, data is sent every dataUpdatePeriod seconds and not in between |
| Detector.SumPowers | src/analysis.c:258-261 | the loop computes the power sum of the range |
| Detector.AveragePower | src/analysis.c:258-263 | the loop and division compute the ROI average |
| Detector.CutoffPass | src/analysis.c:241-252 | the loop leaves the spectrum CutoffZeroed and returns the pass-band sum |
| Detector.Overwrite | src/analysis.c:234-236 | the buffer takes the transform's integer output |
| Detector.RoiPowers | src/analysis.c:258-278 | the loops compute the whole-ROI power, the four ROI averages and the sub-ROI ratios, with slot 0 kept |
| Detector.DisplaySpectrum | src/analysis.c:283-291 | the band loop computes SimpleSpectrum |
| Detector.Average | src/analysis.c:254 | integer average of a non-negative total, bounded by the two products |
| Detector.WindowExtremes | src/analysis.c:168-173 | the inner loop computes WindowMin and WindowMax |
| Detector.ScanFall | src/analysis.c:165-180 | the scan with early exit returns true iff some window start below nSamp - w shows a fall |
| Detector.Classify | src/analysis.c:79-95 | the alarm-region decision of the configured mode and, in multi-ROI mode, the last matching ROI |
| Detector.SeizureDetector.constructor | src/pebble_sd.c:474-493 | the zero starts of the globals (pebble_sd.c lines 45-78, analysis.c lines 36-44) and of the tick's two statics (pebble_sd.c lines 99-100): every counter, flag, bin, power, ratio (ROI 0's slot included), the sample buffer, simpleSpec and alarmRoi start at zero, and the alarm and last reported states at OK; then init sets up the analysis for the settings |
| Detector.SeizureDetector.AnalysisInit | src/analysis.c:303-326 | the buffer is zeroed and nSamp/fftBits are rounded as RoundSampleCount states; position and flag are untouched |
| Detector.SeizureDetector.AccelHandler | src/analysis.c:125-151 | raw mode leaves the buffer alone; otherwise the buffer becomes Ingest of the batch |
| Detector.SeizureDetector.SetBins | src/analysis.c:199-224 | freqRes, nMin, nMax, the sub-ROI bounds and nFreqCutoff are set from the settings |
| Detector.SeizureDetector.AnalyseSpectrum | src/analysis.c:240-292 | specPower, the ROI powers and ratios and simpleSpec are those of the spectrum; above the cutoff, real parts are zeroed |
| Detector.SeizureDetector.DoAnalysis | src/analysis.c:192-300 | the bins and results are those of the spectrum; the buffer holds the transform output; position 0, not full |
| Detector.SeizureDetector.CheckFall | src/analysis.c:157-184 | fallDetected is set iff some window of the buffer shows a fall |
| Detector.SeizureDetector.AlarmCheck | src/analysis.c:74-116 | the state and count take one hysteresis step; alarmRoi as Classify states |
| Detector.SeizureDetector.Decide | src/pebble_sd.c:132-173 | the fall check (when enabled), the alarm check, the overrides, the send decision, and lastAlarmState updated |
| Detector.SeizureDetector.AnalysisTick | src/pebble_sd.c:130-174 | a full-buffer tick analyses, decides and reports |
| Detector.SeizureDetector.StepTimers | src/pebble_sd.c:102-123 | both timers take one TimerStep; a manual alarm with time left forces MAN_ALARM |
| Detector.SeizureDetector.StepUpdate | src/pebble_sd.c:180-184 | the update counter takes one UpdateStep |
| Detector.SeizureDetector.ClockTick | src/pebble_sd.c:93-184 | timers and update step each second. Without a full buffer, nothing else changes (bins, results, buffer, alarmRoi, counters) and no alarm report is sent. With one, the analysis and alarmRoi are as AnalysisTick states, and the hysteresis step starts from the state the timers leave; then the fall, manual-alarm and mute overrides and the send rule apply |
| Detector.SeizureDetector.UpLongPress | src/pebble_sd.c:257-267 | mute toggles and its timer clears |
| Detector.SeizureDetector.DownLongPress | src/pebble_sd.c:269-279 | the manual alarm toggles and its timer clears |

## Left out

- The transform (`fft_fftr`) is a foreign library call. Its output is an input of `DoAnalysis`.
- Buffer aliasing. The source reads the buffer's memory as complex bins, so `fftData` and `accData` share storage. The model uses two separate inputs and does not relate them: the layout of the complex type is not part of this model. So the model does not derive the buffer the fall check scans from the transform and the cutoff loop's zeroing (which in the source lands in that buffer through the alias); `transformed` stands for whatever the buffer holds after the analysis.
- The `fftResults` display array and `getAmpl` are left out. They feed only the screen.
- `latestAccelData` is left out. The accelerometer handler writes it, and the modelled code never reads it.
- Platform code is left out:
  - all display and text-layer calls;
  - the clock and battery display;
  - persistent storage;
  - the accelerometer and tick service subscriptions.
- Sending to the phone (`sendSdData`) is reduced to a boolean result. `comms.c` is not part of this model.
- Raw mode's forwarding of samples is reduced to `forwarded == true`, and the buffer is left unchanged.
- C integer widths and overflow are not modelled; integers are unbounded.
  - Preconditions keep the analysis inside the spectrum (`AnalysisDefined`, at least two ROI bins).
  - The fall window must stay inside the buffer.
- Concurrency is not modelled: the handlers run one at a time on one event loop.
- `Constants.CDiv` is written as repeated subtraction, which keeps proofs about callers small. `Constants.CDivBounds` ties it to division that truncates toward zero.
- Step order in the tick: the periodic update is stepped before the analysis, while the source steps it after. The update touches only its own counter, which the analysis never reads, so both orders reach the same state.
- Reset order in the analysis: position and full flag are reset before the spectrum part, while the source resets them last. The spectrum part neither reads nor writes them.
- The rounding loop in `init` (src/pebble_sd.c:474-487) computes nSamp the same way `analysis_init` does, and `analysis_init` recomputes it immediately. The constructor therefore models only the latter.
- The detector methods run the corrected halves of the two findings below. `AnalyseSpectrum` uses the guarded `Spectrum.RoiRatio`, not the as-written `Spectrum.RoiRatioAsWritten`. `AnalysisInit` uses the clamped `Spectrum.RoundSampleCount`, not the unclamped search `Spectrum.RoundedBits`. So the class does not exhibit the division by zero or the buffer overrun.
- Several places where the code differs from its comments or the header are modelled as the code does them:
  - The header says nSamp = 2^fftBits; the code gives 2^(fftBits+1).
  - specPower divides by nSamp/2, not by the number of bins summed.
  - With the defaults, WARN comes at the second analysis (count 10 > warnTime 5).
  - ROI 0's ratio slot is never written.
  - With fall detection off, `fallDetected` keeps its old value.

## Findings

| source | as written | input that shows it | evidently intended | confidence | as-written member | corrected member |
|---|---|---|---|---|---|---|
| src/analysis.c:265 | `roiRatio = 10 * roiPower/specPower` with no guard | a perfectly still watch: every bin 0, so specPower = 0 | no division when the spectrum has no power (ratio 0) | not executed | Spectrum.QuietSpectrumDividesByZero | Spectrum.RoiRatio |
| src/analysis.c:317-326 | nSamp rounded up to 2<<i with no bound by NSAMP_MAX | samplePeriod 10 s at 100 Hz: nsInit 1000 rounds to 1024 | nSamp never exceeds the 512-sample buffer | not executed | Spectrum.UnclampedRoundingOverrunsBuffer | Spectrum.RoundSampleCount |
