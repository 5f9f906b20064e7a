/** src/hooks/useTimeMarkers.ts: the month and day markers drawn above the
    timeline, each at a percentage of the span between the earliest start and
    the latest end of the laid-out items. A marker's date is represented by
    its instant. */
module TimeMarkers {
  import opened Calendar
  import opened TimelineItems
  import opened TimelineBounds
  import opened Calculations

  datatype TimeMarker = TimeMarker(instant: int, position: real)

  /** The hook's own copy of the day-step rule. */
  function MarkerDayStep(zoomLevel: real): (step: int)
    ensures step > 0
  {
    if zoomLevel < 0.7 then 14
    else if zoomLevel < 1.0 then 7
    else if zoomLevel < 1.5 then 3
    else 1
  }

  /** The hook's copy agrees with calculateOptimalDayStep of src/lib/calculations.ts. */
  lemma MarkerDayStepAgrees(zoomLevel: real)
    ensures MarkerDayStep(zoomLevel) == OptimalDayStep(zoomLevel)
  {
  }

  /** Where an instant falls, as a percentage of [minDate, minDate + totalDuration]. */
  function MarkerPosition(t: int, minDate: int, totalDuration: int): (pos: real)
    requires totalDuration != 0
    ensures pos * totalDuration as real == (t - minDate) as real * 100.0
  {
    (t - minDate) as real / totalDuration as real * 100.0
  }

  /** The index of the item whose start is earliest (the first such one). */
  function EarliestIndex(items: seq<ProcessedItem>): (e: nat)
    requires |items| > 0
    ensures e < |items|
    ensures forall i :: 0 <= i < |items| ==> items[e].startDate <= items[i].startDate
    decreases |items|
  {
    if |items| == 1 then 0
    else
      var rest := EarliestIndex(items[..|items| - 1]);
      assert forall i :: 0 <= i < |items| - 1 ==> items[i] == items[..|items| - 1][i];
      if items[rest].startDate <= items[|items| - 1].startDate then rest else |items| - 1
  }

  /** The month the month markers start from: that of the earliest start. */
  function FirstMonth(items: seq<ProcessedItem>): (ym: YearMonth)
    requires forall i :: 0 <= i < |items| ==> WellFormed(items[i])
    requires |items| > 0
    ensures ValidMonth(ym)
  {
    var e := EarliestIndex(items);
    assert WellFormed(items[e]);
    MonthOf(items[e].start)
  }

  /** The instant of the 1st of the k-th month after ym0. */
  function MonthInstant(ym0: YearMonth, k: nat): int
    requires ValidMonth(ym0)
  {
    Instant(FirstDay(AddMonths(ym0, k)))
  }

  /** The instant k day steps after minDate. */
  function DayInstant(minDate: int, step: int, k: nat): int {
    minDate + k * (step * MsPerDay)
  }

  /** Month markers on the 1st of every month from ym0 on while not after maxDate. */
  ghost predicate MonthMarkersFrom(ym0: YearMonth, minDate: int, maxDate: int, total: int, months: seq<TimeMarker>)
    requires ValidMonth(ym0) && total != 0
  {
    && (forall k :: 0 <= k < |months| ==>
          && months[k] == TimeMarker(MonthInstant(ym0, k), MarkerPosition(MonthInstant(ym0, k), minDate, total))
          && months[k].instant <= maxDate)
    && MonthInstant(ym0, |months|) > maxDate
  }

  /** Day markers every `step` days from minDate on while not after maxDate. */
  ghost predicate DayMarkersFrom(minDate: int, maxDate: int, total: int, step: int, days: seq<TimeMarker>)
    requires total != 0
  {
    && (forall k :: 0 <= k < |days| ==>
          && days[k] == TimeMarker(DayInstant(minDate, step, k), MarkerPosition(DayInstant(minDate, step, k), minDate, total))
          && days[k].instant <= maxDate)
    && DayInstant(minDate, step, |days|) > maxDate
  }

  /** What useTimeMarkers returns: for no items, no markers; otherwise month markers from the
      earliest start's month and day markers from minDate, at the step the zoom level selects. */
  ghost predicate IsMarkers(items: seq<ProcessedItem>, zoomLevel: real, months: seq<TimeMarker>, days: seq<TimeMarker>)
    requires forall i :: 0 <= i < |items| ==> WellFormed(items[i])
    requires |items| > 0 ==> ComputeBounds(items).totalDuration != 0
  {
    if |items| == 0 then months == [] && days == []
    else
      var b := ComputeBounds(items);
      && MonthMarkersFrom(FirstMonth(items), b.minDate.value, b.maxDate.value, b.totalDuration, months)
      && DayMarkersFrom(b.minDate.value, b.maxDate.value, b.totalDuration, MarkerDayStep(zoomLevel), days)
  }

  /** The 1st of the month after the k-th is one month's worth of days later. */
  lemma MonthInstantStep(ym0: YearMonth, k: nat)
    requires ValidMonth(ym0)
    ensures var ym := AddMonths(ym0, k);
      MonthInstant(ym0, k + 1) == MonthInstant(ym0, k) + DaysInMonth(ym.year, ym.month) * MsPerDay
  {
    NextMonthDays(AddMonths(ym0, k));
  }

  /** Month markers strictly ascend. */
  lemma {:induction false} MonthInstantsAscend(ym0: YearMonth, j: nat, k: nat)
    requires ValidMonth(ym0)
    requires j < k
    ensures MonthInstant(ym0, j) < MonthInstant(ym0, k)
    decreases k
  {
    MonthInstantStep(ym0, k - 1);
    if j < k - 1 {
      MonthInstantsAscend(ym0, j, k - 1);
    }
  }

  /** An instant between bounds f(0) and f(n) lies between two consecutive bounds f(k) and f(k + 1). */
  lemma {:induction false} BracketingStep(f: nat -> int, n: nat, t: int) returns (k: nat)
    requires f(0) <= t < f(n)
    ensures k < n && f(k) <= t < f(k + 1)
    decreases n
  {
    if t < f(n - 1) {
      k := BracketingStep(f, n - 1, t);
    } else {
      k := n - 1;
    }
  }

  /** Every instant from the first month marker up to the 1st of month n lies in one of the first
      n months, the k-th. */
  lemma MonthsCover(ym0: YearMonth, n: nat, t: int) returns (k: nat)
    requires ValidMonth(ym0)
    requires MonthInstant(ym0, 0) <= t < MonthInstant(ym0, n)
    ensures k < n && MonthInstant(ym0, k) <= t < MonthInstant(ym0, k + 1)
  {
    var f := (j: nat) => MonthInstant(ym0, j);
    assert f(0) == MonthInstant(ym0, 0) && f(n) == MonthInstant(ym0, n);
    k := BracketingStep(f, n, t);
    assert f(k) == MonthInstant(ym0, k) && f(k + 1) == MonthInstant(ym0, k + 1);
  }

  /** The first month marker is the 1st of the month holding minDate. */
  lemma FirstMonthStart(items: seq<ProcessedItem>)
    requires forall i :: 0 <= i < |items| ==> WellFormed(items[i])
    requires |items| > 0
    ensures ValidMonth(FirstMonth(items))
    ensures MonthInstant(FirstMonth(items), 0) <= ComputeBounds(items).minDate.value < MonthInstant(FirstMonth(items), 1)
    ensures forall i :: 0 <= i < |items| && items[i].startDate == ComputeBounds(items).minDate.value ==>
      MonthOf(items[i].start) == FirstMonth(items)
  {
    var e := items[EarliestIndex(items)];
    assert WellFormed(e);
    MinOfUnique(StartDates(items), e.startDate);
    FirstDayNotAfter(e.start);
    DayNumberMonotone(e.start, FirstDay(NextMonth(MonthOf(e.start))));
    forall i | 0 <= i < |items| && items[i].startDate == ComputeBounds(items).minDate.value
      ensures MonthOf(items[i].start) == FirstMonth(items)
    {
      InstantInjective(items[i].start, e.start);
    }
  }

  /** Instant t lies in the month of one of the month markers. */
  predicate InMarkedMonth(months: seq<TimeMarker>, ym0: YearMonth, t: int)
    requires ValidMonth(ym0)
  {
    exists k :: 0 <= k < |months| && months[k].instant <= t < MonthInstant(ym0, k + 1)
  }

  /** q is the quotient of n by a positive d when q * d <= n < (q + 1) * d. */
  lemma QuotientUnique(n: int, d: int, q: int)
    requires d > 0
    requires q * d <= n < (q + 1) * d
    ensures q == n / d
  {
    var r := n / d;
    assert n == d * r + n % d && 0 <= n % d < d;
    if q < r {
      MultiplyMonotone(q + 1, r, d);
    } else if r < q {
      MultiplyMonotone(r + 1, q, d);
    }
  }

  lemma MultiplyMonotone(a: int, b: int, d: int)
    requires a <= b && d > 0
    ensures a * d <= b * d
  {
    assert b * d - a * d == (b - a) * d;
  }

  /** The month markers cover every instant from their first one to maxDate. */
  lemma MonthMarkersCover(ym0: YearMonth, minDate: int, maxDate: int, total: int, months: seq<TimeMarker>)
    requires ValidMonth(ym0) && total != 0
    requires MonthMarkersFrom(ym0, minDate, maxDate, total, months)
    requires MonthInstant(ym0, 0) <= minDate <= maxDate
    ensures |months| > 0
    ensures forall t :: minDate <= t <= maxDate ==> InMarkedMonth(months, ym0, t)
  {
    forall t | minDate <= t <= maxDate
      ensures InMarkedMonth(months, ym0, t)
    {
      var k := MonthsCover(ym0, |months|, t);
      assert months[k].instant == MonthInstant(ym0, k);
    }
  }

  /** There is one day marker per whole step in [minDate, maxDate], the first at minDate. */
  lemma DayMarkerCount(minDate: int, maxDate: int, total: int, step: int, days: seq<TimeMarker>)
    requires total != 0 && step > 0
    requires DayMarkersFrom(minDate, maxDate, total, step, days)
    requires minDate <= maxDate
    ensures |days| == (maxDate - minDate) / (step * MsPerDay) + 1
    ensures days[0] == TimeMarker(minDate, 0.0)
  {
    var stride := step * MsPerDay;
    assert days[|days| - 1].instant <= maxDate;
    assert (|days| - 1) * stride <= maxDate - minDate < |days| * stride;
    QuotientUnique(maxDate - minDate, stride, |days| - 1);
  }

  /** Each month marker falls on the 1st of a month, one calendar month after the one before it,
      so month markers strictly ascend. */
  lemma MonthMarkerSpacing(ym0: YearMonth, minDate: int, maxDate: int, total: int, months: seq<TimeMarker>)
    requires ValidMonth(ym0) && total != 0
    requires MonthMarkersFrom(ym0, minDate, maxDate, total, months)
    ensures forall k :: 0 <= k < |months| ==> months[k].instant == Instant(FirstDay(AddMonths(ym0, k)))
    ensures forall k :: 0 <= k < |months| - 1 ==>
      months[k + 1].instant == months[k].instant + DaysInMonth(AddMonths(ym0, k).year, AddMonths(ym0, k).month) * MsPerDay
    ensures forall j, k :: 0 <= j < k < |months| ==> months[j].instant < months[k].instant
  {
    forall k | 0 <= k < |months| - 1
      ensures months[k + 1].instant == months[k].instant + DaysInMonth(AddMonths(ym0, k).year, AddMonths(ym0, k).month) * MsPerDay
    {
      MonthInstantStep(ym0, k);
    }
    forall j, k | 0 <= j < k < |months| ensures months[j].instant < months[k].instant {
      MonthInstantsAscend(ym0, j, k);
    }
  }

  /** Day markers are `step` days apart and strictly ascend. */
  lemma DayMarkerSpacing(minDate: int, maxDate: int, total: int, step: int, days: seq<TimeMarker>)
    requires total != 0 && step > 0
    requires DayMarkersFrom(minDate, maxDate, total, step, days)
    ensures forall k :: 0 <= k < |days| - 1 ==> days[k + 1].instant == days[k].instant + step * MsPerDay
    ensures forall j, k :: 0 <= j < k < |days| ==> days[j].instant < days[k].instant
  {
    var stride := step * MsPerDay;
    forall k | 0 <= k < |days| - 1 ensures days[k + 1].instant == days[k].instant + stride {
      assert (k + 1) * stride == k * stride + stride;
    }
    forall j, k | 0 <= j < k < |days| ensures days[j].instant < days[k].instant {
      assert k * stride - j * stride == (k - j) * stride;
      assert (k - j) * stride > 0;
    }
  }

  /** Day markers lie within 0..100 percent of a positive span. */
  lemma DayMarkerPositions(minDate: int, maxDate: int, step: int, days: seq<TimeMarker>)
    requires maxDate > minDate && step > 0
    requires DayMarkersFrom(minDate, maxDate, maxDate - minDate, step, days)
    ensures forall k :: 0 <= k < |days| ==> 0.0 <= days[k].position <= 100.0
  {
    forall k | 0 <= k < |days| ensures 0.0 <= days[k].position <= 100.0 {
      PositionInRange(days[k].instant, minDate, maxDate - minDate);
    }
  }

  /** The first month marker lies at or before 0 percent, the others within (0, 100]. */
  lemma MonthMarkerPositions(ym0: YearMonth, minDate: int, maxDate: int, months: seq<TimeMarker>)
    requires ValidMonth(ym0) && maxDate > minDate
    requires MonthMarkersFrom(ym0, minDate, maxDate, maxDate - minDate, months)
    requires MonthInstant(ym0, 0) <= minDate < MonthInstant(ym0, 1)
    ensures forall k :: 0 < k < |months| ==> 0.0 < months[k].position <= 100.0
    ensures |months| > 0 ==> months[0].position <= 0.0
  {
    forall k | 0 < k < |months| ensures 0.0 < months[k].position <= 100.0 {
      if k > 1 {
        MonthInstantsAscend(ym0, 1, k);
      }
      PositionInRange(months[k].instant, minDate, maxDate - minDate);
    }
    if |months| > 0 {
      PositionNotPositive(months[0].instant, minDate, maxDate - minDate);
    }
  }

  lemma PositionInRange(t: int, minDate: int, total: int)
    requires total > 0 && minDate <= t <= minDate + total
    ensures 0.0 <= MarkerPosition(t, minDate, total) <= 100.0
    ensures t > minDate ==> MarkerPosition(t, minDate, total) > 0.0
  {
    var r := (t - minDate) as real / total as real;
    assert 0.0 <= r <= 1.0;
  }

  lemma PositionNotPositive(t: int, minDate: int, total: int)
    requires total > 0 && t <= minDate
    ensures MarkerPosition(t, minDate, total) <= 0.0
  {
  }

  /** For a positive span: at least one month marker, the first on the 1st of minDate's month and
      at or before position 0, the later ones within 0..100 percent, and the months of the markers
      covering the span. */
  lemma MonthMarkersFacts(items: seq<ProcessedItem>, zoomLevel: real, months: seq<TimeMarker>, days: seq<TimeMarker>)
    requires forall i :: 0 <= i < |items| ==> WellFormed(items[i])
    requires |items| > 0 && ComputeBounds(items).totalDuration > 0
    requires IsMarkers(items, zoomLevel, months, days)
    ensures |months| > 0
    ensures months[0].instant == Instant(FirstDay(FirstMonth(items))) <= ComputeBounds(items).minDate.value
    ensures months[0].position <= 0.0
    ensures forall k :: 0 < k < |months| ==> 0.0 < months[k].position <= 100.0
    ensures forall t :: ComputeBounds(items).minDate.value <= t <= ComputeBounds(items).maxDate.value ==>
      InMarkedMonth(months, FirstMonth(items), t)
  {
    var b := ComputeBounds(items);
    var minDate, maxDate, total := b.minDate.value, b.maxDate.value, b.totalDuration;
    var ym0 := FirstMonth(items);
    assert total == maxDate - minDate;
    assert MonthMarkersFrom(ym0, minDate, maxDate, total, months);
    FirstMonthStart(items);
    MonthMarkersCover(ym0, minDate, maxDate, total, months);
    MonthMarkerPositions(ym0, minDate, maxDate, months);
  }

  /** For a positive span: one day marker per step in the span, the first at minDate and position
      0, every one within 0..100 percent. */
  lemma DayMarkersFacts(items: seq<ProcessedItem>, zoomLevel: real, months: seq<TimeMarker>, days: seq<TimeMarker>)
    requires forall i :: 0 <= i < |items| ==> WellFormed(items[i])
    requires |items| > 0 && ComputeBounds(items).totalDuration > 0
    requires IsMarkers(items, zoomLevel, months, days)
    ensures |days| == ComputeBounds(items).totalDuration / (MarkerDayStep(zoomLevel) * MsPerDay) + 1
    ensures days[0] == TimeMarker(ComputeBounds(items).minDate.value, 0.0)
    ensures forall k :: 0 <= k < |days| ==> 0.0 <= days[k].position <= 100.0
  {
    var b := ComputeBounds(items);
    var minDate, maxDate, total := b.minDate.value, b.maxDate.value, b.totalDuration;
    var step := MarkerDayStep(zoomLevel);
    assert total == maxDate - minDate;
    assert DayMarkersFrom(minDate, maxDate, total, step, days);
    DayMarkerCount(minDate, maxDate, total, step, days);
    DayMarkerPositions(minDate, maxDate, step, days);
  }

  /** The month loop of useTimeMarkers: from the 1st of ym0, one month at a time, while not after maxDate. */
  method MonthMarkers(ym0: YearMonth, minDate: int, maxDate: int, total: int) returns (months: seq<TimeMarker>)
    requires ValidMonth(ym0) && total != 0
    ensures MonthMarkersFrom(ym0, minDate, maxDate, total, months)
  {
    var ym := ym0;
    months := [];
    while Instant(FirstDay(ym)) <= maxDate
      invariant ValidMonth(ym) && ym == AddMonths(ym0, |months|)
      invariant forall k :: 0 <= k < |months| ==>
        && months[k] == TimeMarker(MonthInstant(ym0, k), MarkerPosition(MonthInstant(ym0, k), minDate, total))
        && months[k].instant <= maxDate
      decreases maxDate - Instant(FirstDay(ym))
    {
      var t := Instant(FirstDay(ym));
      assert t == MonthInstant(ym0, |months|);
      months := months + [TimeMarker(t, MarkerPosition(t, minDate, total))];
      NextMonthDays(ym);
      ym := NextMonth(ym);
      assert ym == AddMonths(ym0, |months|);
    }
  }

  /** The day loop of useTimeMarkers: from minDate, `step` days at a time, while not after maxDate. */
  method DayMarkers(minDate: int, maxDate: int, total: int, step: int) returns (days: seq<TimeMarker>)
    requires total != 0 && step > 0
    ensures DayMarkersFrom(minDate, maxDate, total, step, days)
  {
    var t := minDate;
    days := [];
    while t <= maxDate
      invariant t == DayInstant(minDate, step, |days|)
      invariant forall k :: 0 <= k < |days| ==>
        && days[k] == TimeMarker(DayInstant(minDate, step, k), MarkerPosition(DayInstant(minDate, step, k), minDate, total))
        && days[k].instant <= maxDate
      decreases maxDate - t
    {
      days := days + [TimeMarker(t, MarkerPosition(t, minDate, total))];
      t := t + step * MsPerDay;
    }
  }

  /** useTimeMarkers: bounds from the items, then the month loop and the day loop. */
  method GenerateMarkers(items: seq<ProcessedItem>, zoomLevel: real) returns (months: seq<TimeMarker>, days: seq<TimeMarker>)
    requires forall i :: 0 <= i < |items| ==> WellFormed(items[i])
    requires |items| > 0 ==> ComputeBounds(items).totalDuration != 0
    ensures IsMarkers(items, zoomLevel, months, days)
  {
    if |items| == 0 {
      return [], [];
    }
    var b := ComputeBounds(items);
    months := MonthMarkers(FirstMonth(items), b.minDate.value, b.maxDate.value, b.totalDuration);
    days := DayMarkers(b.minDate.value, b.maxDate.value, b.totalDuration, MarkerDayStep(zoomLevel));
  }
}
