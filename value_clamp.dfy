/** The limits of a channel's settings and the helpers that fit a requested
    value into them (FMBICPlusChannel.fit_*_range). */
module ValueClamp {

  const MIN_VOLTAGE: int := 0
  const MAX_VOLTAGE: int := 1700

  const MIN_OFFSET: int := 0
  const MAX_OFFSET: int := 99

  const MIN_EXPOSITION_TIME: real := 1e-6
  /** 24 * 60 * 60 seconds. */
  const MAX_EXPOSITION_TIME: real := 86400.0

  /** fit_voltage_range: first min(v, MAX_VOLTAGE), then max(., MIN_VOLTAGE). */
  function FitVoltageRange(v: int): (r: int)
    ensures MIN_VOLTAGE <= r <= MAX_VOLTAGE
    ensures MIN_VOLTAGE <= v <= MAX_VOLTAGE ==> r == v
    ensures v < MIN_VOLTAGE ==> r == MIN_VOLTAGE
    ensures v > MAX_VOLTAGE ==> r == MAX_VOLTAGE
  {
    var capped := if MAX_VOLTAGE < v then MAX_VOLTAGE else v;
    if capped < MIN_VOLTAGE then MIN_VOLTAGE else capped
  }

  /** fit_offset_range: first min(o, MAX_OFFSET), then max(., MIN_OFFSET). */
  function FitOffsetRange(o: int): (r: int)
    ensures MIN_OFFSET <= r <= MAX_OFFSET
    ensures MIN_OFFSET <= o <= MAX_OFFSET ==> r == o
    ensures o < MIN_OFFSET ==> r == MIN_OFFSET
    ensures o > MAX_OFFSET ==> r == MAX_OFFSET
  {
    var capped := if MAX_OFFSET < o then MAX_OFFSET else o;
    if capped < MIN_OFFSET then MIN_OFFSET else capped
  }

  /** fit_exp_time_range: first min(t, MAX_EXPOSITION_TIME), then
      max(., MIN_EXPOSITION_TIME). Zero and negative times are clamped up
      to the minimum like any other small value. */
  function FitExpTimeRange(t: real): (r: real)
    ensures MIN_EXPOSITION_TIME <= r <= MAX_EXPOSITION_TIME
    ensures MIN_EXPOSITION_TIME <= t <= MAX_EXPOSITION_TIME ==> r == t
    ensures t < MIN_EXPOSITION_TIME ==> r == MIN_EXPOSITION_TIME
    ensures t > MAX_EXPOSITION_TIME ==> r == MAX_EXPOSITION_TIME
  {
    var capped := if MAX_EXPOSITION_TIME < t then MAX_EXPOSITION_TIME else t;
    if capped < MIN_EXPOSITION_TIME then MIN_EXPOSITION_TIME else capped
  }

  /** Fitting twice is fitting once. */
  lemma FitIsIdempotent(v: int, o: int, t: real)
    ensures FitVoltageRange(FitVoltageRange(v)) == FitVoltageRange(v)
    ensures FitOffsetRange(FitOffsetRange(o)) == FitOffsetRange(o)
    ensures FitExpTimeRange(FitExpTimeRange(t)) == FitExpTimeRange(t)
  {
  }

  /** The fitted voltage is the allowed voltage nearest to the request. */
  lemma FitVoltageIsNearest(v: int, w: int)
    requires MIN_VOLTAGE <= w <= MAX_VOLTAGE
    ensures Dist(FitVoltageRange(v), v) <= Dist(w, v)
  {
  }

  /** The fitted offset is the allowed offset nearest to the request. */
  lemma FitOffsetIsNearest(o: int, w: int)
    requires MIN_OFFSET <= w <= MAX_OFFSET
    ensures Dist(FitOffsetRange(o), o) <= Dist(w, o)
  {
  }

  /** The fitted exposition time is the allowed time nearest to the request. */
  lemma FitExpTimeIsNearest(t: real, w: real)
    requires MIN_EXPOSITION_TIME <= w <= MAX_EXPOSITION_TIME
    ensures RealDist(FitExpTimeRange(t), t) <= RealDist(w, t)
  {
  }

  /** A zero or negative exposition time becomes the minimum, 1 us. */
  lemma NonPositiveExpTimeBecomesMinimum(t: real)
    requires t <= 0.0
    ensures FitExpTimeRange(t) == MIN_EXPOSITION_TIME
  {
  }

  function Dist(a: int, b: int): nat
  {
    if a <= b then b - a else a - b
  }

  function RealDist(a: real, b: real): real
  {
    if a <= b then b - a else a - b
  }
}
