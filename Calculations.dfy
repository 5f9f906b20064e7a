/** Pure helpers of src/lib/calculations.ts, with the thresholds of
    src/lib/constants.ts (TIME_MARKER_THRESHOLDS). */
module Calculations {
  import opened Calendar

  const BiWeeklyThreshold: real := 0.7
  const WeeklyThreshold: real := 1.0
  const ThreeDayThreshold: real := 1.5

  /** Days between day markers for a zoom level: coarser when zoomed out. */
  function OptimalDayStep(zoomLevel: real): (step: int)
    ensures step == 1 || step == 3 || step == 7 || step == 14
  {
    if zoomLevel < BiWeeklyThreshold then 14
    else if zoomLevel < WeeklyThreshold then 7
    else if zoomLevel < ThreeDayThreshold then 3
    else 1
  }

  /** Zooming in never makes the day step coarser. */
  lemma DayStepNonIncreasing(z1: real, z2: real)
    requires z1 <= z2
    ensures OptimalDayStep(z2) <= OptimalDayStep(z1)
  {
  }

  /** Each band of zoom levels gets its own step, and the bands cover every level. */
  lemma DayStepBands(z: real)
    ensures OptimalDayStep(z) == 14 <==> z < 0.7
    ensures OptimalDayStep(z) == 7 <==> 0.7 <= z < 1.0
    ensures OptimalDayStep(z) == 3 <==> 1.0 <= z < 1.5
    ensures OptimalDayStep(z) == 1 <==> 1.5 <= z
  {
  }

  /** Pixel width of a bar whose normalised width is `width`. */
  function BarPixelWidth(width: real, containerWidth: real, zoomLevel: real): (px: real)
    ensures width >= 0.0 && containerWidth >= 0.0 && zoomLevel >= 0.0 ==> px >= 0.0
    ensures width == 0.0 || containerWidth == 0.0 || zoomLevel == 0.0 ==> px == 0.0
  {
    width * containerWidth * zoomLevel
  }

  /** A wider bar is never narrower on screen. */
  lemma BarPixelWidthMonotone(w1: real, w2: real, containerWidth: real, zoomLevel: real)
    requires w1 <= w2
    requires containerWidth >= 0.0 && zoomLevel >= 0.0
    ensures BarPixelWidth(w1, containerWidth, zoomLevel) <= BarPixelWidth(w2, containerWidth, zoomLevel)
  {
    var k := containerWidth * zoomLevel;
    assert k >= 0.0;
    assert (w2 - w1) * k >= 0.0;
    assert w1 * containerWidth * zoomLevel == w1 * k;
    assert w2 * containerWidth * zoomLevel == w2 * k;
  }

  /** Math.ceil(n / d) for a positive divisor (Dafny's / on int floors when d > 0). */
  function CeilDiv(n: int, d: int): (q: int)
    requires d > 0
    ensures q * d >= n
    ensures (q - 1) * d < n
  {
    if n % d == 0 then n / d else n / d + 1
  }

  /** Whole days, rounded up, between two instants given in milliseconds. */
  function DurationInDays(startDate: int, endDate: int): (days: int)
    ensures days * MsPerDay >= endDate - startDate
    ensures (days - 1) * MsPerDay < endDate - startDate
  {
    CeilDiv(endDate - startDate, MsPerDay)
  }

  /** The day count is the least k with k days covering the interval. */
  lemma DurationInDaysLeast(startDate: int, endDate: int, k: int)
    requires k * MsPerDay >= endDate - startDate
    ensures DurationInDays(startDate, endDate) <= k
  {
  }

  /** An interval of exactly n whole days lasts n days; equal dates last 0 days. */
  lemma DurationOfWholeDays(startDate: int, n: int)
    ensures DurationInDays(startDate, startDate + n * MsPerDay) == n
  {
  }
}
