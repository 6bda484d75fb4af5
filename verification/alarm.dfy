/** The alarm decision of each analysis: whether the spectrum is in the
    alarm region, the warning/alarm hysteresis driven by the time spent
    there, the user's manual alarm and mute timers, the overrides they
    apply, and when data is sent to the phone. */
module Alarm {
  import opened Constants
  import opened Spectrum

  // ---------------------------------------------------------------------
  // Is the spectrum in the alarm region?

  /** Single-ROI mode: enough power in the ROI, and enough of it relative
      to the whole spectrum. */
  predicate SingleRoiInAlarm(roiPower: int, roiRatio: int, s: Settings) {
    roiPower > s.alarmThresh && roiRatio > s.alarmRatioThresh
  }

  /** Multi-ROI mode: enough power in the whole ROI and any one of the four
      ROI ratios above the ratio threshold. */
  predicate MultiRoiInAlarm(roiPower: int, roiRatios: seq<int>, s: Settings)
    requires |roiRatios| == 4
  {
    roiPower > s.alarmThresh && exists i :: 0 <= i < 4 && roiRatios[i] > s.alarmRatioThresh
  }

  /** The decision of the configured mode; the other modes never alarm. */
  predicate InAlarm(roiPower: int, roiRatio: int, roiRatios: seq<int>, s: Settings)
    requires |roiRatios| == 4
  {
    match s.sdMode
    case Fft => SingleRoiInAlarm(roiPower, roiRatio, s)
    case FftMultiRoi => MultiRoiInAlarm(roiPower, roiRatios, s)
    case _ => false
  }

  /** The last of the first n ratios above the threshold, or 0 if none is. */
  function LastRoiAbove(ratios: seq<int>, thresh: int, n: int): (k: int)
    requires 0 <= n <= |ratios|
    ensures 0 <= k && (k < n || k == 0)
    ensures (exists i :: 0 <= i < n && ratios[i] > thresh) ==>
      ratios[k] > thresh && forall j :: k < j < n ==> ratios[j] <= thresh
    ensures (forall i :: 0 <= i < n ==> ratios[i] <= thresh) ==> k == 0
  {
    if n == 0 then 0
    else if ratios[n - 1] > thresh then n - 1
    else LastRoiAbove(ratios, thresh, n - 1)
  }

  /** The ROI reported as the cause of an alarm in multi-ROI mode: the last
      one above the ratio threshold, and 0 when the whole-ROI power is too
      low or no ratio is high enough. */
  function AlarmRoi(roiPower: int, roiRatios: seq<int>, s: Settings): (k: int)
    requires |roiRatios| == 4
    ensures 0 <= k < 4
    ensures MultiRoiInAlarm(roiPower, roiRatios, s) ==> roiRatios[k] > s.alarmRatioThresh
  {
    if roiPower > s.alarmThresh then LastRoiAbove(roiRatios, s.alarmRatioThresh, 4) else 0
  }

  /** The four ROI ratios as the analysis leaves them: ROI 0's slot keeps
      whatever it held (the analysis never writes it), ROIs 1-3 get the
      ratio of their own average power. */
  function SubRoiRatios(p: seq<nat>, nMin: int, nMax: int, specPower: nat, slot0: int): (r: seq<int>)
    requires 0 <= nMin && nMax - nMin >= 2 && nMax <= |p|
    ensures |r| == 4 && r[0] == slot0
    ensures forall k :: 1 <= k < 4 ==> r[k] >= 0
  {
    var avg := RoiAverages(p, nMin, nMax);
    [slot0, RoiRatio(avg[1], specPower), RoiRatio(avg[2], specPower), RoiRatio(avg[3], specPower)]
  }

  /** Whatever ROI 0's slot holds, the multi-ROI mode alarms whenever the
      single-ROI mode would: one of the two half ROIs has at least the
      average power of the whole ROI, hence at least its ratio. */
  lemma MultiRoiCoversSingleRoi(p: seq<nat>, nMin: int, nMax: int, specPower: nat, slot0: int, s: Settings)
    requires 0 <= nMin && nMax - nMin >= 2 && nMax <= |p|
    requires SingleRoiInAlarm(RoiAverage(p, nMin, nMax), RoiRatio(RoiAverage(p, nMin, nMax), specPower), s)
    ensures MultiRoiInAlarm(RoiAverage(p, nMin, nMax), SubRoiRatios(p, nMin, nMax, specPower, slot0), s)
  {
    var avg := RoiAverages(p, nMin, nMax);
    var r := SubRoiRatios(p, nMin, nMax, specPower, slot0);
    if avg[0] <= avg[1] {
      RoiRatioMonotone(avg[0], avg[1], specPower);
      assert r[1] > s.alarmRatioThresh;
    } else {
      RoiRatioMonotone(avg[0], avg[2], specPower);
      assert r[2] > s.alarmRatioThresh;
    }
  }

  // ---------------------------------------------------------------------
  // Warning / alarm hysteresis

  /** The detector state and the seconds spent in the alarm region. */
  datatype Hysteresis = Hysteresis(state: AlarmState, count: int)

  /** One analysis: time in the alarm region accumulates by the sample
      period and raises WARNING past warnTime and ALARM past alarmTime; a
      quiet analysis steps ALARM down to WARNING (keeping the count) and
      anything else down to OK (clearing it). */
  function AlarmStep(h: Hysteresis, inAlarm: bool, s: Settings): (r: Hysteresis)
    ensures inAlarm && r.count > s.alarmTime ==> r.state == Alarm
    ensures r.state == Alarm ==> inAlarm && (r.count > s.alarmTime || h.state == Alarm)
    ensures inAlarm ==> r.count == h.count + s.samplePeriod
    ensures inAlarm && s.warnTime < r.count <= s.alarmTime ==> r.state == Warn
    ensures inAlarm && r.count <= s.warnTime && r.count <= s.alarmTime ==> r.state == h.state
    ensures !inAlarm ==> (r.state == Warn <==> h.state == Alarm)
    ensures !inAlarm && h.state == Alarm ==> r.count == h.count
    ensures !inAlarm && h.state != Alarm ==> r == Hysteresis(Ok, 0)
  {
    if inAlarm then
      var c := h.count + s.samplePeriod;
      if c > s.alarmTime then Hysteresis(Alarm, c)
      else if c > s.warnTime then Hysteresis(Warn, c)
      else Hysteresis(h.state, c)
    else if h.state == Alarm then Hysteresis(Warn, h.count)
    else Hysteresis(Ok, 0)
  }

  /** What holds of every state the detector reaches from OK: ALARM only
      after more than alarmTime, WARNING only after more than warnTime (or
      as the step down from ALARM). */
  predicate Consistent(h: Hysteresis, s: Settings) {
    h.count >= 0
    && (h.state == Alarm ==> h.count > s.alarmTime)
    && (h.state == Warn ==> h.count > s.warnTime || h.count > s.alarmTime)
  }

  /** Each analysis keeps the detector consistent, and in a consistent
      state ALARM means exactly that the accumulated time exceeds
      alarmTime while still in the alarm region. */
  lemma AlarmStepKeepsConsistent(h: Hysteresis, inAlarm: bool, s: Settings)
    requires Consistent(h, s) && s.samplePeriod >= 0
    ensures Consistent(AlarmStep(h, inAlarm, s), s)
    ensures AlarmStep(h, inAlarm, s).state == Alarm <==> inAlarm && AlarmStep(h, inAlarm, s).count > s.alarmTime
  {
  }

  /** A sequence of analyses, oldest first. */
  function Run(h: Hysteresis, ticks: seq<bool>, s: Settings): Hysteresis {
    if |ticks| == 0 then h
    else AlarmStep(Run(h, ticks[..|ticks| - 1], s), ticks[|ticks| - 1], s)
  }

  /** Uninterrupted time in the alarm region accumulates one sample period
      per analysis. */
  lemma {:induction false} SustainedCount(h: Hysteresis, ticks: seq<bool>, s: Settings)
    requires forall k :: 0 <= k < |ticks| ==> ticks[k]
    ensures Run(h, ticks, s).count == h.count + |ticks| * s.samplePeriod
  {
    if |ticks| > 0 {
      SustainedCount(h, ticks[..|ticks| - 1], s);
      assert (|ticks| - 1) * s.samplePeriod + s.samplePeriod == |ticks| * s.samplePeriod;
    }
  }

  /** Sustained activity raises ALARM once the accumulated time exceeds
      alarmTime, whatever the state it started from. */
  lemma SustainedActivityRaisesAlarm(h: Hysteresis, ticks: seq<bool>, s: Settings)
    requires |ticks| >= 1 && forall k :: 0 <= k < |ticks| ==> ticks[k]
    requires h.count + |ticks| * s.samplePeriod > s.alarmTime
    ensures Run(h, ticks, s).state == Alarm
  {
    SustainedCount(h, ticks, s);
  }

  /** Starting from OK, activity that has not yet lasted past warnTime
      raises nothing. */
  lemma {:induction false} BriefActivityStaysOk(ticks: seq<bool>, s: Settings)
    requires s.samplePeriod >= 0
    requires forall k :: 0 <= k < |ticks| ==> ticks[k]
    requires |ticks| * s.samplePeriod <= s.warnTime && |ticks| * s.samplePeriod <= s.alarmTime
    ensures Run(Hysteresis(Ok, 0), ticks, s).state == Ok
  {
    if |ticks| > 0 {
      var init := ticks[..|ticks| - 1];
      assert (|ticks| - 1) * s.samplePeriod <= |ticks| * s.samplePeriod;
      BriefActivityStaysOk(init, s);
      SustainedCount(Hysteresis(Ok, 0), ticks, s);
    }
  }

  /** Two quiet analyses in a row always return the detector to OK with a
      cleared count. */
  lemma TwoQuietAnalysesReset(h: Hysteresis, s: Settings)
    ensures Run(h, [false, false], s) == Hysteresis(Ok, 0)
  {
    assert [false, false][..1] == [false];
    assert [false][..0] == [];
  }

  /** One quiet analysis during an alarm keeps the count, so renewed
      activity goes straight back to ALARM. */
  lemma ResumedActivityReturnsToAlarm(count: int, s: Settings)
    requires count > s.alarmTime && s.samplePeriod >= 0
    ensures AlarmStep(Hysteresis(Alarm, count), false, s) == Hysteresis(Warn, count)
    ensures AlarmStep(AlarmStep(Hysteresis(Alarm, count), false, s), true, s).state == Alarm
  {
  }

  /** With the default settings (5 s analyses, warning after 5 s, alarm
      after 10 s) activity gives OK, then WARNING at the second analysis
      and ALARM at the third; quiet then gives WARNING and then OK. */
  lemma DefaultTimeline()
    ensures var s := DefaultSettings();
      var h0 := Hysteresis(Ok, 0);
      && AlarmStep(h0, true, s) == Hysteresis(Ok, 5)
      && AlarmStep(Hysteresis(Ok, 5), true, s) == Hysteresis(Warn, 10)
      && AlarmStep(Hysteresis(Warn, 10), true, s) == Hysteresis(Alarm, 15)
      && AlarmStep(Hysteresis(Alarm, 15), false, s) == Hysteresis(Warn, 15)
      && AlarmStep(Hysteresis(Warn, 15), false, s) == Hysteresis(Ok, 0)
  {
  }

  /** An override left in the state by the previous analysis (a fall, a
      manual alarm or mute) survives an analysis in the alarm region whose
      count is still at or below both thresholds. */
  lemma StaleOverrideSurvives(st: AlarmState, count: int, s: Settings)
    requires st == ManAlarm || st == Mute || st == Fall
    requires count + s.samplePeriod <= s.warnTime && count + s.samplePeriod <= s.alarmTime
    ensures AlarmStep(Hysteresis(st, count), true, s) == Hysteresis(st, count + s.samplePeriod)
  {
  }

  /** With the default settings the first analysis in the alarm region
      after a manual alarm or mute leaves that state in place. */
  lemma DefaultsKeepStaleOverride()
    ensures AlarmStep(Hysteresis(ManAlarm, 0), true, DefaultSettings()) == Hysteresis(ManAlarm, 5)
    ensures AlarmStep(Hysteresis(Mute, 0), true, DefaultSettings()) == Hysteresis(Mute, 5)
  {
    StaleOverrideSurvives(ManAlarm, 0, DefaultSettings());
    StaleOverrideSurvives(Mute, 0, DefaultSettings());
  }

  // ---------------------------------------------------------------------
  // Overrides of the reported state

  /** The state reported after an analysis: a detected fall replaces OK
      only, a manual alarm replaces anything, and mute replaces everything. */
  function Reported(detected: AlarmState, fallDetected: bool, isManAlarm: bool, isMuted: bool): (r: AlarmState)
    ensures isMuted ==> r == Mute
    ensures !isMuted && isManAlarm ==> r == ManAlarm
    ensures !isMuted && !isManAlarm && detected != Ok ==> r == detected
    ensures !isMuted && !isManAlarm && detected == Ok ==> (r == Fall <==> fallDetected)
    ensures r == Ok ==> detected == Ok && !fallDetected
  {
    var afterFall := if detected == Ok && fallDetected then Fall else detected;
    var afterMan := if isManAlarm then ManAlarm else afterFall;
    if isMuted then Mute else afterMan
  }

  /** A seizure warning or alarm hides a detected fall. */
  lemma SeizureHidesFall(detected: AlarmState)
    requires detected == Warn || detected == Alarm
    ensures Reported(detected, true, false, false) == detected
  {
  }

  /** Whether an analysis sends its result to the phone: whenever the
      state is not OK and alarms are not muted, and whenever it changed. */
  predicate AlarmReportDue(state: AlarmState, isMuted: bool, last: AlarmState) {
    (state != Ok && !isMuted) || state != last
  }

  /** While muted the reported state is MUTE, so only the first muted
      analysis is sent. */
  lemma MutedReportsOnlyOnChange(detected: AlarmState, fall: bool, man: bool, last: AlarmState)
    ensures AlarmReportDue(Reported(detected, fall, man, true), true, last) <==> last != Mute
  {
  }

  /** An unmuted warning or alarm is sent after every analysis, and OK only
      when it is new. */
  lemma ReportRules(state: AlarmState, last: AlarmState)
    ensures state != Ok ==> AlarmReportDue(state, false, last)
    ensures AlarmReportDue(Ok, false, last) <==> last != Ok
  {
  }

  // ---------------------------------------------------------------------
  // Manual alarm and mute timers, and the periodic data update

  /** A user timer: whether it runs and the seconds it has run. */
  datatype Timer = Timer(active: bool, time: int)

  /** One second of a timer: a running timer counts up to its period and is
      then switched off and cleared. */
  function TimerStep(t: Timer, period: int): (r: Timer)
    ensures !t.active ==> r == t
    ensures t.active && t.time < period ==> r == Timer(true, t.time + 1)
    ensures t.active && t.time >= period ==> r == Timer(false, 0)
  {
    if !t.active then t
    else if t.time < period then Timer(true, t.time + 1)
    else Timer(false, 0)
  }

  /** The state a second starts from: while a running manual alarm has time
      left it forces MAN_ALARM, and it keeps running for that second. */
  function TimerOverride(state: AlarmState, man: Timer, period: int): (r: AlarmState)
    ensures r == ManAlarm || r == state
    ensures r != state ==> TimerStep(man, period) == Timer(true, man.time + 1)
    ensures man.active && man.time < period ==> r == ManAlarm
  {
    if man.active && man.time < period then ManAlarm else state
  }

  /** A long button press switches the timer on or off and clears it. */
  function Toggle(t: Timer): (r: Timer)
    ensures r.active != t.active && r.time == 0
  {
    Timer(!t.active, 0)
  }

  function TimerRun(t: Timer, period: int, n: nat): Timer {
    if n == 0 then t else TimerStep(TimerRun(t, period, n - 1), period)
  }

  /** After the press the timer stays on for exactly `period` seconds and
      is cleared at the next one. */
  lemma {:induction false} TimerLasts(period: nat, n: nat)
    requires n <= period
    ensures TimerRun(Timer(true, 0), period, n) == Timer(true, n)
    ensures n == period ==> TimerRun(Timer(true, 0), period, n + 1) == Timer(false, 0)
  {
    if n > 0 {
      TimerLasts(period, n - 1);
    }
  }

  /** One second of the periodic data update: after dataUpdatePeriod
      seconds the data is sent and the counter restarts. */
  function UpdateStep(count: int, period: int): (r: (int, bool))
    ensures r.1 <==> count + 1 >= period
    ensures r.0 == (if r.1 then 0 else count + 1)
  {
    if count + 1 >= period then (0, true) else (count + 1, false)
  }

  function UpdateRun(count: int, period: int, n: nat): int {
    if n == 0 then count else UpdateStep(UpdateRun(count, period, n - 1), period).0
  }

  /** From a restarted counter, data is sent every dataUpdatePeriod seconds
      and not in between. */
  lemma {:induction false} PeriodicUpdate(period: int, n: nat)
    requires n < period
    ensures UpdateRun(0, period, n) == n
    ensures n + 1 < period ==> !UpdateStep(UpdateRun(0, period, n), period).1
    ensures n + 1 == period ==> UpdateStep(UpdateRun(0, period, n), period) == (0, true)
  {
    if n > 0 {
      PeriodicUpdate(period, n - 1);
    }
  }
}
