/** src/hooks/useTimelineBounds.ts: the earliest start, the latest end and
    the span between them, over a list of processed items. */
module TimelineBounds {
  import opened TimelineItems
  import opened Numbers

  /** Math.min(...xs) for a non-empty list. */
  function MinOf(xs: seq<int>): (m: int)
    requires |xs| > 0
    ensures forall i :: 0 <= i < |xs| ==> m <= xs[i]
    ensures exists i :: 0 <= i < |xs| && xs[i] == m
  {
    if |xs| == 1 then xs[0]
    else
      var rest := MinOf(xs[1..]);
      assert forall i :: 1 <= i < |xs| ==> xs[i] == xs[1..][i - 1];
      Min(xs[0], rest)
  }

  /** Math.max(...xs) for a non-empty list. */
  function MaxOf(xs: seq<int>): (m: int)
    requires |xs| > 0
    ensures forall i :: 0 <= i < |xs| ==> xs[i] <= m
    ensures exists i :: 0 <= i < |xs| && xs[i] == m
  {
    if |xs| == 1 then xs[0]
    else
      var rest := MaxOf(xs[1..]);
      assert forall i :: 1 <= i < |xs| ==> xs[i] == xs[1..][i - 1];
      Max(xs[0], rest)
  }

  /** A least element of a list is the minimum, whichever way it was found. */
  lemma MinOfUnique(xs: seq<int>, m: int)
    requires |xs| > 0
    requires forall i :: 0 <= i < |xs| ==> m <= xs[i]
    requires exists i :: 0 <= i < |xs| && xs[i] == m
    ensures MinOf(xs) == m
  {
  }

  /** A greatest element of a list is the maximum, whichever way it was found. */
  lemma MaxOfUnique(xs: seq<int>, m: int)
    requires |xs| > 0
    requires forall i :: 0 <= i < |xs| ==> xs[i] <= m
    requires exists i :: 0 <= i < |xs| && xs[i] == m
    ensures MaxOf(xs) == m
  {
  }

  function StartDates(items: seq<ProcessedItem>): (xs: seq<int>)
    ensures |xs| == |items|
    ensures forall i :: 0 <= i < |items| ==> xs[i] == items[i].startDate
  {
    seq(|items|, i requires 0 <= i < |items| => items[i].startDate)
  }

  function EndDates(items: seq<ProcessedItem>): (xs: seq<int>)
    ensures |xs| == |items|
    ensures forall i :: 0 <= i < |items| ==> xs[i] == items[i].endDate
  {
    seq(|items|, i requires 0 <= i < |items| => items[i].endDate)
  }

  /** The hook's result; `null` dates are None. */
  datatype Bounds = Bounds(minDate: Option<int>, maxDate: Option<int>, totalDuration: int)

  function ComputeBounds(items: seq<ProcessedItem>): (b: Bounds)
    ensures |items| == 0 ==> b == Bounds(None, None, 0)
    ensures |items| > 0 ==> b.minDate.Some? && b.maxDate.Some?
    ensures |items| > 0 ==>
      && (forall i :: 0 <= i < |items| ==> b.minDate.value <= items[i].startDate)
      && (exists i :: 0 <= i < |items| && items[i].startDate == b.minDate.value)
      && (forall i :: 0 <= i < |items| ==> items[i].endDate <= b.maxDate.value)
      && (exists i :: 0 <= i < |items| && items[i].endDate == b.maxDate.value)
      && b.totalDuration == b.maxDate.value - b.minDate.value
    ensures (exists i :: 0 <= i < |items| && items[i].startDate <= items[i].endDate) ==> b.totalDuration >= 0
  {
    if |items| == 0 then Bounds(None, None, 0)
    else
      var minDate := MinOf(StartDates(items));
      var maxDate := MaxOf(EndDates(items));
      Bounds(Some(minDate), Some(maxDate), maxDate - minDate)
  }
}
