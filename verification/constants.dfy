/** Constants, enumerations and settings of the seizure detector (the
    header shared by the analysis and the watch-app files). */
module Constants {

  /** Capacity of the sample buffer (number of 32-bit samples). */
  const NSAMP_MAX: int := 512

  // Default settings, used when nothing has been persisted.
  const SAMPLE_PERIOD_DEFAULT: int := 5       // seconds
  const SAMPLE_FREQ_DEFAULT: int := 100       // Hz
  const FREQ_CUTOFF_DEFAULT: int := 12        // Hz
  const DATA_UPDATE_PERIOD_DEFAULT: int := 20 // seconds
  const ALARM_FREQ_MIN_DEFAULT: int := 3      // Hz
  const ALARM_FREQ_MAX_DEFAULT: int := 10     // Hz
  const WARN_TIME_DEFAULT: int := 5           // seconds
  const ALARM_TIME_DEFAULT: int := 10         // seconds
  const ALARM_THRESH_DEFAULT: int := 100
  const ALARM_RATIO_THRESH_DEFAULT: int := 30
  const FALL_ACTIVE_DEFAULT: bool := false
  const FALL_THRESH_MIN_DEFAULT: int := 200   // milli-g
  const FALL_THRESH_MAX_DEFAULT: int := 800   // milli-g
  const FALL_WINDOW_DEFAULT: int := 1500      // milli-seconds
  const MUTE_PERIOD_DEFAULT: int := 300       // seconds
  const MAN_ALARM_PERIOD_DEFAULT: int := 300  // seconds

  /** The alarm states reported to the phone. */
  datatype AlarmState = Ok | Warn | Alarm | Fall | Fault | ManAlarm | Mute

  /** The integer code of each alarm state, as sent to the phone. */
  function Code(s: AlarmState): (c: int)
    ensures 0 <= c <= 6
  {
    match s
    case Ok => 0
    case Warn => 1
    case Alarm => 2
    case Fall => 3
    case Fault => 4
    case ManAlarm => 5
    case Mute => 6
  }

  /** Decoding a code gives back the state: the seven codes are distinct. */
  function FromCode(c: int): (s: AlarmState)
    requires 0 <= c <= 6
    ensures Code(s) == c
  {
    if c == 0 then Ok
    else if c == 1 then Warn
    else if c == 2 then Alarm
    else if c == 3 then Fall
    else if c == 4 then Fault
    else if c == 5 then ManAlarm
    else Mute
  }

  lemma CodeRoundTrip(s: AlarmState)
    ensures FromCode(Code(s)) == s
  {
  }

  /** Detector modes. The multi-ROI mode has no code in the header; the
      model gives it the tag 3, distinct from the three that are declared. */
  datatype SdMode = Fft | Raw | Filter | FftMultiRoi

  // The mode codes declared in the header.
  const SD_MODE_FFT: int := 0
  const SD_MODE_RAW: int := 1
  const SD_MODE_FILTER: int := 2

  /** The integer code of each mode: the header's codes for the three
      declared modes, and 3 for the multi-ROI mode. */
  function ModeCode(m: SdMode): (c: int)
    ensures 0 <= c <= 3
    ensures m != FftMultiRoi <==> c <= SD_MODE_FILTER
  {
    match m
    case Fft => SD_MODE_FFT
    case Raw => SD_MODE_RAW
    case Filter => SD_MODE_FILTER
    case FftMultiRoi => 3
  }

  /** Decoding a mode code gives back the mode with that code. */
  function FromModeCode(c: int): (m: SdMode)
    requires 0 <= c <= 3
    ensures ModeCode(m) == c
  {
    if c == SD_MODE_FFT then Fft
    else if c == SD_MODE_RAW then Raw
    else if c == SD_MODE_FILTER then Filter
    else FftMultiRoi
  }

  /** Decoding a mode's code gives the mode back, so the four codes are
      distinct. */
  lemma ModeCodeRoundTrip(m: SdMode)
    ensures FromModeCode(ModeCode(m)) == m
  {
  }

  /** Two modes with the same code are the same mode. */
  lemma ModeCodeInjective(m1: SdMode, m2: SdMode)
    requires ModeCode(m1) == ModeCode(m2)
    ensures m1 == m2
  {
    ModeCodeRoundTrip(m1);
    ModeCodeRoundTrip(m2);
  }

  /** The three declared modes carry the header's codes 0, 1 and 2. */
  lemma HeaderModeCodes()
    ensures ModeCode(Fft) == 0 && ModeCode(Raw) == 1 && ModeCode(Filter) == 2
  {
  }

  /** The settings the detector reads; they are loaded at start-up and
      changed only by messages from the phone. */
  datatype Settings = Settings(
    sampleFreq: int,
    samplePeriod: int,
    freqCutoff: int,
    dataUpdatePeriod: int,
    sdMode: SdMode,
    alarmFreqMin: int,
    alarmFreqMax: int,
    warnTime: int,
    alarmTime: int,
    alarmThresh: int,
    alarmRatioThresh: int,
    fallActive: bool,
    fallThreshMin: int,
    fallThreshMax: int,
    fallWindow: int,
    mutePeriod: int,
    manAlarmPeriod: int)

  /** The sampling frequency must be one the accelerometer supports. */
  predicate SupportedFreq(f: int) {
    f == 10 || f == 25 || f == 50 || f == 100
  }

  predicate ValidSettings(s: Settings) {
    SupportedFreq(s.sampleFreq)
  }

  /** The settings used when nothing has been persisted. */
  function DefaultSettings(): (s: Settings)
    ensures ValidSettings(s)
    ensures s.samplePeriod * s.sampleFreq <= NSAMP_MAX
    ensures s.warnTime < s.alarmTime
    ensures s.fallThreshMin < s.fallThreshMax
  {
    Settings(
      SAMPLE_FREQ_DEFAULT, SAMPLE_PERIOD_DEFAULT, FREQ_CUTOFF_DEFAULT,
      DATA_UPDATE_PERIOD_DEFAULT, Fft,
      ALARM_FREQ_MIN_DEFAULT, ALARM_FREQ_MAX_DEFAULT,
      WARN_TIME_DEFAULT, ALARM_TIME_DEFAULT,
      ALARM_THRESH_DEFAULT, ALARM_RATIO_THRESH_DEFAULT,
      FALL_ACTIVE_DEFAULT, FALL_THRESH_MIN_DEFAULT, FALL_THRESH_MAX_DEFAULT,
      FALL_WINDOW_DEFAULT, MUTE_PERIOD_DEFAULT, MAN_ALARM_PERIOD_DEFAULT)
  }

  /** Integer division of C (truncation toward zero), for a positive
      divisor. It is written as repeated subtraction so that proofs about
      callers see no division until they ask for CDivBounds. */
  function CDiv(a: int, b: int): int
    requires b > 0
  {
    if a >= 0 then NatDiv(a, b) else -(NatDiv(-a, b) as int)
  }

  /** How many times b fits in a. */
  function NatDiv(a: nat, b: int): nat
    requires b > 0
    decreases a
  {
    if a < b then 0 else 1 + NatDiv(a - b, b)
  }

  lemma {:induction false} NatDivBounds(a: nat, b: int)
    requires b > 0
    ensures NatDiv(a, b) * b <= a < NatDiv(a, b) * b + b
    ensures NatDiv(a, b) == a / b
    decreases a
  {
    if a >= b {
      NatDivBounds(a - b, b);
      assert NatDiv(a, b) * b == NatDiv(a - b, b) * b + b;
    }
    DivUnique(a, b, NatDiv(a, b));
  }

  /** The quotient is the only q with q * b <= a < (q + 1) * b. */
  lemma DivUnique(a: nat, b: int, q: int)
    requires b > 0 && q * b <= a < q * b + b
    ensures q == a / b
  {
    var d := a / b;
    assert d * b <= a < d * b + b;
    if q > d {
      MulStep(q, d, b);
    } else if q < d {
      MulStep(d, q, b);
    }
  }

  /** A larger factor times a positive b is at least b larger. */
  lemma MulStep(x: int, y: int, b: int)
    requires x > y && b > 0
    ensures x * b >= y * b + b
  {
    MulAtLeast(x - y, b);
    Distribute(y, x - y, b);
  }

  lemma MulAtLeast(k: int, b: int)
    requires k >= 1 && b > 0
    ensures k * b >= b
  {
  }

  lemma Distribute(a: int, b: int, c: int)
    ensures a * c + b * c == (a + b) * c
  {
  }

  /** The quotient truncates toward zero: the remainder has the sign of
      the dividend and is smaller than the divisor. */
  lemma CDivBounds(a: int, b: int)
    requires b > 0
    ensures a >= 0 ==> 0 <= a - CDiv(a, b) * b < b
    ensures a < 0 ==> -b < a - CDiv(a, b) * b <= 0
    ensures a >= 0 ==> CDiv(a, b) == a / b
  {
    if a >= 0 {
      NatDivBounds(a, b);
    } else {
      NatDivBounds(-a, b);
    }
  }
}
