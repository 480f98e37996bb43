/**
 The time-of-day tint of the wallpaper: the wall-clock time (hour of day and
 minute of hour) is turned into a number of minutes since midnight, and that
 number into a hue that turns once round the colour wheel per day. The tint is
 a fully saturated, full-brightness HSV colour applied with a multiply blend.

 Hue is modelled as an exact `real`; the source computes it in 32-bit floats.
 */
module Tint {

  /** Minutes in one day: the divisor of the hue computation. */
  const MinutesPerDay: int := 60 * 24

  /** Degrees in one full turn of the hue wheel. */
  const MaxHue: real := 360.0

  /** The wall-clock reading the calendar supplies. */
  datatype Clock = Clock(hour: int, minute: int)

  /** An HSV colour as the colour conversion receives it. */
  datatype Hsv = Hsv(hue: real, saturation: real, value: real)

  /** The only blend mode the engine uses. */
  datatype BlendMode = Multiply

  /** The colour filter put on the paint before the bitmap is drawn. */
  datatype Filter = Filter(color: Hsv, mode: BlendMode)

  /** The calendar's hour-of-day lies in [0, 23] and its minute in [0, 59]. */
  predicate ValidClock(c: Clock) {
    0 <= c.hour < 24 && 0 <= c.minute < 60
  }

  /** Minutes elapsed since midnight. */
  function TimeInMinutes(c: Clock): (t: int)
    requires ValidClock(c)
    ensures 0 <= t < MinutesPerDay
    ensures t / 60 == c.hour && t % 60 == c.minute
  {
    c.hour * 60 + c.minute
  }

  /** The inverse of `TimeInMinutes`: the clock reading of a minute of the day. */
  function ClockAt(t: int): (c: Clock)
    requires 0 <= t < MinutesPerDay
    ensures ValidClock(c)
    ensures TimeInMinutes(c) == t
  {
    Clock(t / 60, t % 60)
  }

  /** Reading a clock into minutes and back gives the same clock. */
  lemma ClockRoundTrip(c: Clock)
    requires ValidClock(c)
    ensures ClockAt(TimeInMinutes(c)) == c
  {
  }

  /** Two clock readings with the same minute of the day are the same reading. */
  lemma TimeInMinutesInjective(c1: Clock, c2: Clock)
    requires ValidClock(c1) && ValidClock(c2)
    ensures TimeInMinutes(c1) == TimeInMinutes(c2) <==> c1 == c2
  {
  }

  /** The hue of a minute of the day: a quarter of a degree per minute. */
  function Hue(timeInMinutes: int): (hue: real)
    ensures hue * 4.0 == timeInMinutes as real
    ensures 0 <= timeInMinutes < MinutesPerDay ==> 0.0 <= hue < MaxHue
  {
    timeInMinutes as real / (MinutesPerDay as real) * MaxHue
  }

  /** The filter built from the current time: hue from the clock, saturation and value 1, multiply blend. */
  function CurrentFilter(now: Clock): (f: Filter)
    requires ValidClock(now)
    ensures 0.0 <= f.color.hue < MaxHue
    ensures f.color.hue * 4.0 == (now.hour * 60 + now.minute) as real
    ensures f.color.saturation == 1.0 && f.color.value == 1.0
    ensures f.mode == Multiply
  {
    Filter(Hsv(Hue(TimeInMinutes(now)), 1.0, 1.0), Multiply)
  }

  /** The hue grows strictly with the minute of the day. */
  lemma HueStrictlyIncreasing(t1: int, t2: int)
    ensures t1 < t2 <==> Hue(t1) < Hue(t2)
  {
  }

  /** Midnight, noon and the last minute of the day. */
  lemma HueLandmarks()
    ensures CurrentFilter(Clock(0, 0)).color.hue == 0.0
    ensures CurrentFilter(Clock(12, 0)).color.hue == 180.0
    ensures CurrentFilter(Clock(23, 59)).color.hue == 359.75
  {
  }

  /** 23:59 carries the largest hue of the day, a quarter degree short of a full turn. */
  lemma HueMaximumAtLastMinute(c: Clock)
    requires ValidClock(c)
    ensures CurrentFilter(c).color.hue <= 359.75 < MaxHue
    ensures CurrentFilter(c).color.hue == 359.75 <==> c == Clock(23, 59)
  {
  }

  /** Earlier in the day (hour first, then minute) means a smaller hue, and only then. */
  lemma HueFollowsTimeOfDay(c1: Clock, c2: Clock)
    requires ValidClock(c1) && ValidClock(c2)
    ensures (c1.hour < c2.hour || (c1.hour == c2.hour && c1.minute < c2.minute))
            <==> CurrentFilter(c1).color.hue < CurrentFilter(c2).color.hue
  {
  }
}
