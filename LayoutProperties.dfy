/** What the layout of src/hooks/useTimelineLayout.ts guarantees: every
    input item appears once, in stable start order, with the colour of its
    input index; no two items of a lane come closer than the buffer; lanes
    are numbered 0, 1, ... without gaps; and the layout is determined by
    its inputs. */
module LayoutProperties {
  import opened Calendar
  import opened TimelineItems
  import opened TimelineBounds
  import opened LaneCount
  import opened TimelineLayout

  /** Some item of `out` sits in lane `l`. */
  predicate LaneUsed(out: seq<ProcessedItem>, l: int) {
    exists i :: 0 <= i < |out| && out[i].lane == l
  }

  /** What first fit says about the lane of item i: at most one past the lanes in use before it,
      free of conflicts, and not skipped unless it is new. */
  lemma FirstFitLane(out: seq<ProcessedItem>, zoomLevel: real, i: nat)
    requires FirstFitAllocation(out, zoomLevel)
    requires i < |out|
    ensures out[i].lane <= MaxLanes(out[..i])
    ensures out[i].lane < MaxLanes(out[..i]) ==>
      !SkipLane(out[i].lane, MaxLanes(out[..i]), out[i].width, out[i].name, zoomLevel)
  {
    assert FirstFit(out[..i], out[i], zoomLevel);
  }

  lemma FirstFitAllocationPrefix(out: seq<ProcessedItem>, zoomLevel: real, n: nat)
    requires FirstFitAllocation(out, zoomLevel)
    requires n <= |out|
    ensures FirstFitAllocation(out[..n], zoomLevel)
  {
    forall i | 0 <= i < n ensures FirstFit(out[..n][..i], out[..n][i], zoomLevel) {
      assert out[..n][..i] == out[..i];
      assert FirstFit(out[..i], out[i], zoomLevel);
    }
  }

  /** Any two items sharing a lane are at least Buffer apart. */
  lemma NoOverlap(out: seq<ProcessedItem>, zoomLevel: real)
    requires FirstFitAllocation(out, zoomLevel)
    ensures forall i, j :: 0 <= i < |out| && 0 <= j < |out| && i != j && out[i].lane == out[j].lane ==>
      Separated(out[i], out[j])
  {
    forall i, j | 0 <= i < |out| && 0 <= j < |out| && i != j && out[i].lane == out[j].lane
      ensures Separated(out[i], out[j])
    {
      var early, late := if i < j then i else j, if i < j then j else i;
      assert FirstFit(out[..late], out[late], zoomLevel);
      assert out[..late][early] == out[early];
      assert !Conflict(out[early], out[late].position, out[late].width);
    }
  }

  /** Lane numbers are 0 .. MaxLanes(out) - 1, every one of them in use. */
  lemma {:induction false} LanesContiguous(out: seq<ProcessedItem>, zoomLevel: real)
    requires FirstFitAllocation(out, zoomLevel)
    ensures forall l :: LaneUsed(out, l) <==> 0 <= l < MaxLanes(out)
    decreases |out|
  {
    if |out| > 0 {
      var init, p := out[..|out| - 1], out[|out| - 1];
      assert out == init + [p];
      FirstFitAllocationPrefix(out, zoomLevel, |out| - 1);
      LanesContiguous(init, zoomLevel);
      MaxLanesAppend(init, p);
      assert FirstFit(init, p, zoomLevel);
      forall l | 0 <= l < MaxLanes(out)
        ensures LaneUsed(out, l)
      {
        if l < MaxLanes(init) {
          assert LaneUsed(init, l);
          var i :| 0 <= i < |init| && init[i].lane == l;
          assert out[i] == init[i];
        } else {
          assert out[|out| - 1].lane == l;
        }
      }
    }
  }

  /** Each item opens at most one new lane: the lane count grows by at most one per item. */
  lemma LaneCountGrowsByAtMostOne(out: seq<ProcessedItem>, zoomLevel: real, i: nat)
    requires FirstFitAllocation(out, zoomLevel)
    requires i < |out|
    ensures MaxLanes(out[..i + 1]) <= MaxLanes(out[..i]) + 1
    ensures out[i].lane == MaxLanes(out[..i]) <==> MaxLanes(out[..i + 1]) == MaxLanes(out[..i]) + 1
  {
    FirstFitLane(out, zoomLevel, i);
    assert out[..i + 1] == out[..i] + [out[i]];
    MaxLanesAppend(out[..i], out[i]);
  }

  /** The readability rule only ever sends an item to a new lane; it never leaves an item without one. */
  lemma SkippedItemsOpenNewLanes(out: seq<ProcessedItem>, zoomLevel: real, i: nat)
    requires FirstFitAllocation(out, zoomLevel)
    requires i < |out|
    requires SkipLane(out[i].lane, MaxLanes(out[..i]), out[i].width, out[i].name, zoomLevel)
    ensures out[i].lane == MaxLanes(out[..i])
  {
    assert FirstFit(out[..i], out[i], zoomLevel);
  }

  /** First fit leaves one choice of lane for an item. */
  lemma FirstFitLaneUnique(placed: seq<ProcessedItem>, p: ProcessedItem, q: ProcessedItem, zoomLevel: real)
    requires FirstFit(placed, p, zoomLevel) && FirstFit(placed, q, zoomLevel)
    requires p.position == q.position && p.width == q.width && p.name == q.name
    ensures p.lane == q.lane
  {
  }

  /** Two first-fit allocations of the same items, in the same order, assign the same lanes. */
  lemma {:induction false} AllocationsAgree(o1: seq<ProcessedItem>, o2: seq<ProcessedItem>, zoomLevel: real, n: nat)
    requires FirstFitAllocation(o1, zoomLevel) && FirstFitAllocation(o2, zoomLevel)
    requires |o1| == |o2| && n <= |o1|
    requires forall i :: 0 <= i < |o1| ==> o1[i].(lane := 0) == o2[i].(lane := 0)
    ensures o1[..n] == o2[..n]
  {
    if n > 0 {
      var i := n - 1;
      AllocationsAgree(o1, o2, zoomLevel, i);
      AllocationStepAgrees(o1, o2, zoomLevel, i);
      assert o1[..n] == o1[..i] + [o1[i]];
      assert o2[..n] == o2[..i] + [o2[i]];
    }
  }

  /** After equal prefixes, the next items, equal but for their lanes, get the same lane. */
  lemma AllocationStepAgrees(o1: seq<ProcessedItem>, o2: seq<ProcessedItem>, zoomLevel: real, i: nat)
    requires FirstFitAllocation(o1, zoomLevel) && FirstFitAllocation(o2, zoomLevel)
    requires i < |o1| == |o2| && o1[..i] == o2[..i]
    requires o1[i].(lane := 0) == o2[i].(lane := 0)
    ensures o1[i] == o2[i]
  {
    assert FirstFit(o1[..i], o1[i], zoomLevel) && FirstFit(o2[..i], o2[i], zoomLevel);
    assert o1[i].position == o1[i].(lane := 0).position;
    assert o2[i].position == o2[i].(lane := 0).position;
    FirstFitLaneUnique(o1[..i], o1[i], o2[i], zoomLevel);
  }

  /** The layout is a function of its inputs: repeated calls give identical results. */
  lemma LayoutDeterministic(items: seq<TimelineItem>, zoomLevel: real, colors: seq<string>,
                            o1: seq<ProcessedItem>, o2: seq<ProcessedItem>)
    requires AllValid(items)
    requires |items| > 0 ==> |colors| > 0 && InputSpan(items) != 0
    requires IsLayout(items, zoomLevel, colors, o1) && IsLayout(items, zoomLevel, colors, o2)
    ensures o1 == o2
  {
    if |items| > 0 {
      var d := SortedItems(items, colors);
      var minDate := MinOf(InputStarts(items));
      forall i | 0 <= i < |o1| ensures o1[i].(lane := 0) == o2[i].(lane := 0) {
        assert o1[i] == Normalize(d[i], o1[i].lane, minDate, InputSpan(items));
        assert o2[i] == Normalize(d[i], o2[i].lane, minDate, InputSpan(items));
      }
      AllocationsAgree(o1, o2, zoomLevel, |o1|);
      assert o1 == o1[..|o1|] && o2 == o2[..|o2|];
    }
  }

  /** The input index of the item at each sorted position. */
  function InputOrder(items: seq<TimelineItem>, colors: seq<string>): (order: seq<int>)
    requires AllValid(items)
    requires |colors| > 0
    ensures |order| == |items|
  {
    var d := SortedItems(items, colors);
    seq(|d|, i requires 0 <= i < |d| => d[i].index)
  }

  /** Every sorted item is the input item of its index. */
  lemma SortedFromInput(items: seq<TimelineItem>, colors: seq<string>)
    requires AllValid(items) && |colors| > 0
    ensures var d := SortedItems(items, colors);
      forall i :: 0 <= i < |d| ==> d[i].index < |items| && d[i] == Dated(items, colors)[d[i].index]
  {
    var d := SortedItems(items, colors);
    var dated := Dated(items, colors);
    forall i | 0 <= i < |d| ensures d[i].index < |items| && d[i] == dated[d[i].index] {
      assert d[i] in dated;
      var k :| 0 <= k < |dated| && dated[k] == d[i];
    }
  }

  /** The layout lists each input item exactly once, ordered by start with ties in input order,
      and colours each by its index in the input, before sorting. */
  lemma LayoutOrder(items: seq<TimelineItem>, zoomLevel: real, colors: seq<string>, out: seq<ProcessedItem>)
    requires AllValid(items)
    requires |items| > 0 && |colors| > 0 && InputSpan(items) != 0
    requires IsLayout(items, zoomLevel, colors, out)
    ensures |out| == |items|
    ensures var order := InputOrder(items, colors);
      && (forall i :: 0 <= i < |out| ==> 0 <= order[i] < |items|)
      && (forall i, j :: 0 <= i < j < |out| ==> order[i] != order[j])
      && (forall i :: 0 <= i < |out| ==>
            && out[i].id == items[order[i]].id
            && out[i].name == items[order[i]].name
            && out[i].start == items[order[i]].start
            && out[i].end == items[order[i]].end
            && out[i].color == colors[order[i] % |colors|])
      && (forall i, j :: 0 <= i < j < |out| ==>
            out[i].startDate < out[j].startDate
            || (out[i].startDate == out[j].startDate && order[i] < order[j]))
  {
    var d := SortedItems(items, colors);
    var dated := Dated(items, colors);
    var order := InputOrder(items, colors);
    var minDate := MinOf(InputStarts(items));
    SortedFromInput(items, colors);
    forall i, j | 0 <= i < j < |out|
      ensures out[i].startDate < out[j].startDate || (out[i].startDate == out[j].startDate && order[i] < order[j])
    {
      assert InOrder(d[i], d[j]);
      assert out[i] == Normalize(d[i], out[i].lane, minDate, InputSpan(items));
      assert out[j] == Normalize(d[j], out[j].lane, minDate, InputSpan(items));
    }
    forall i, j | 0 <= i < j < |out| ensures order[i] != order[j] {
      assert InOrder(d[i], d[j]);
    }
    forall i | 0 <= i < |out|
      ensures out[i].id == items[order[i]].id && out[i].name == items[order[i]].name
      ensures out[i].start == items[order[i]].start && out[i].end == items[order[i]].end
      ensures out[i].color == colors[order[i] % |colors|]
    {
      assert out[i] == Normalize(d[i], out[i].lane, minDate, InputSpan(items));
      assert d[i] == dated[order[i]];
    }
  }

  /** A positive span between whole-day instants is at least one day. */
  lemma SpanAtLeastOneDay(items: seq<TimelineItem>)
    requires AllValid(items)
    requires |items| > 0 && InputSpan(items) > 0
    ensures InputSpan(items) >= MsPerDay
  {
    var starts, ends := InputStarts(items), InputEnds(items);
    var a :| 0 <= a < |items| && ends[a] == MaxOf(ends);
    var b :| 0 <= b < |items| && starts[b] == MinOf(starts);
    var days := DayNumber(items[a].end) - DayNumber(items[b].start);
    assert InputSpan(items) == days * MsPerDay;
    assert days >= 1;
  }

  /** Item i of a layout is the normalisation of the input item it came from. */
  lemma LayoutItem(items: seq<TimelineItem>, zoomLevel: real, colors: seq<string>, out: seq<ProcessedItem>, i: nat)
    requires AllValid(items)
    requires |items| > 0 && |colors| > 0 && InputSpan(items) != 0
    requires IsLayout(items, zoomLevel, colors, out)
    requires i < |out|
    ensures var d := SortedItems(items, colors);
      && d[i].index < |items|
      && out[i] == Normalize(d[i], out[i].lane, MinOf(InputStarts(items)), InputSpan(items))
      && out[i].startDate == InputStarts(items)[d[i].index]
      && out[i].endDate == InputEnds(items)[d[i].index]
  {
    SortedFromInput(items, colors);
  }

  /** The ratio of a part to a positive whole lies in [0, 1]. */
  lemma RatioInUnit(part: int, whole: int)
    requires 0 <= part <= whole && whole > 0
    ensures 0.0 <= part as real / whole as real <= 1.0
  {
  }

  /** Normalising an item that lies within [minDate, minDate + total], total being at least a day. */
  lemma NormalizeWithinSpan(item: DatedItem, lane: nat, minDate: int, total: int)
    requires total >= MsPerDay
    requires minDate <= item.startDate && item.endDate <= minDate + total
    ensures var p := Normalize(item, lane, minDate, total);
      && MinWidth <= p.width <= 1.0
      && 0.0 <= p.position
      && (item.startDate <= minDate + total ==> p.position <= 1.0)
      && (item.startDate == minDate ==> p.position == 0.0)
  {
    var p := Normalize(item, lane, minDate, total);
    RatioInUnit(p.duration, total);
    if item.startDate <= minDate + total {
      RatioInUnit(item.startDate - minDate, total);
    }
  }

  /** Each bar lasts at least a day, is between 2% and 100% of the span wide, and does not start
      before the span; the first bar starts at 0, and a bar that starts by the latest end starts
      by position 1. */
  lemma LayoutGeometry(items: seq<TimelineItem>, zoomLevel: real, colors: seq<string>, out: seq<ProcessedItem>)
    requires AllValid(items)
    requires |items| > 0 && |colors| > 0 && InputSpan(items) > 0
    requires IsLayout(items, zoomLevel, colors, out)
    ensures out[0].position == 0.0
    ensures forall i :: 0 <= i < |out| ==>
      && out[i].duration >= MsPerDay
      && MinWidth <= out[i].width <= 1.0
      && 0.0 <= out[i].position
      && (out[i].startDate <= MaxOf(InputEnds(items)) ==> out[i].position <= 1.0)
  {
    var d := SortedItems(items, colors);
    var minDate := MinOf(InputStarts(items));
    var total := InputSpan(items);
    SpanAtLeastOneDay(items);
    forall i | 0 <= i < |out|
      ensures out[i].duration >= MsPerDay
      ensures MinWidth <= out[i].width <= 1.0
      ensures 0.0 <= out[i].position
      ensures out[i].startDate <= MaxOf(InputEnds(items)) ==> out[i].position <= 1.0
    {
      LayoutItem(items, zoomLevel, colors, out, i);
      NormalizeWithinSpan(d[i], out[i].lane, minDate, total);
    }
    LayoutItem(items, zoomLevel, colors, out, 0);
    SortedMinStart(items, colors);
    NormalizeWithinSpan(d[0], out[0].lane, minDate, total);
  }

  /** A negative span, every end lying before the earliest start: each bar gets the 2% floor as
      its width and a position at or below 0, and the first bar sits at 0. */
  lemma InvertedSpanGeometry(items: seq<TimelineItem>, zoomLevel: real, colors: seq<string>, out: seq<ProcessedItem>)
    requires AllValid(items)
    requires |items| > 0 && |colors| > 0 && InputSpan(items) < 0
    requires IsLayout(items, zoomLevel, colors, out)
    ensures out[0].position == 0.0
    ensures forall i :: 0 <= i < |out| ==>
      && out[i].duration >= MsPerDay
      && out[i].width == MinWidth
      && out[i].position <= 0.0
  {
    var d := SortedItems(items, colors);
    var minDate := MinOf(InputStarts(items));
    var total := InputSpan(items);
    forall i | 0 <= i < |out|
      ensures out[i].duration >= MsPerDay
      ensures out[i].width == MinWidth
      ensures out[i].position <= 0.0
    {
      LayoutItem(items, zoomLevel, colors, out, i);
      NormalizeInvertedSpan(d[i], out[i].lane, minDate, total);
    }
    LayoutItem(items, zoomLevel, colors, out, 0);
    SortedMinStart(items, colors);
    NormalizeInvertedSpan(d[0], out[0].lane, minDate, total);
  }

  /** Normalising against a negative span: the width falls to the floor and the position to at most 0. */
  lemma NormalizeInvertedSpan(item: DatedItem, lane: nat, minDate: int, total: int)
    requires total < 0 && minDate <= item.startDate
    ensures var p := Normalize(item, lane, minDate, total);
      && p.width == MinWidth
      && p.position <= 0.0
      && (item.startDate == minDate ==> p.position == 0.0)
  {
    var p := Normalize(item, lane, minDate, total);
    NonPositiveRatio(p.duration, total);
    NonPositiveRatio(item.startDate - minDate, total);
  }

  /** A part that is not negative over a negative whole is at most 0. */
  lemma NonPositiveRatio(part: int, whole: int)
    requires part >= 0 && whole < 0
    ensures part as real / whole as real <= 0.0
  {
  }

  /** Two lists holding the same values have the same minimum and maximum. */
  lemma SameExtremes(xs: seq<int>, ys: seq<int>)
    requires |xs| > 0 && |ys| > 0
    requires forall i :: 0 <= i < |xs| ==> xs[i] in ys
    requires forall k :: 0 <= k < |ys| ==> ys[k] in xs
    ensures MinOf(xs) == MinOf(ys) && MaxOf(xs) == MaxOf(ys)
  {
    MinOfUnique(xs, MinOf(ys));
    MaxOfUnique(xs, MaxOf(ys));
  }

  /** useTimelineBounds over the layout finds the layout's own minDate, maxDate and span. */
  lemma LayoutBounds(items: seq<TimelineItem>, zoomLevel: real, colors: seq<string>, out: seq<ProcessedItem>)
    requires AllValid(items)
    requires |items| > 0 && |colors| > 0 && InputSpan(items) != 0
    requires IsLayout(items, zoomLevel, colors, out)
    ensures ComputeBounds(out)
      == Bounds(Some(MinOf(InputStarts(items))), Some(MaxOf(InputEnds(items))), InputSpan(items))
  {
    LayoutDatesFromInput(items, zoomLevel, colors, out);
    InputDatesInLayout(items, zoomLevel, colors, out);
    BoundsFromSameDates(out, InputStarts(items), InputEnds(items));
  }

  /** Items whose start and end dates are, as sets, the given lists have those lists' bounds. */
  lemma BoundsFromSameDates(out: seq<ProcessedItem>, starts: seq<int>, ends: seq<int>)
    requires |out| > 0 && |starts| > 0 && |ends| > 0
    requires forall i :: 0 <= i < |StartDates(out)| ==> StartDates(out)[i] in starts
    requires forall i :: 0 <= i < |EndDates(out)| ==> EndDates(out)[i] in ends
    requires forall k :: 0 <= k < |starts| ==> starts[k] in StartDates(out)
    requires forall k :: 0 <= k < |ends| ==> ends[k] in EndDates(out)
    ensures ComputeBounds(out) == Bounds(Some(MinOf(starts)), Some(MaxOf(ends)), MaxOf(ends) - MinOf(starts))
  {
    BoundsOfDates(out);
    SameExtremes(StartDates(out), starts);
    SameExtremes(EndDates(out), ends);
  }

  lemma BoundsOfDates(out: seq<ProcessedItem>)
    requires |out| > 0
    ensures ComputeBounds(out) == Bounds(Some(MinOf(StartDates(out))), Some(MaxOf(EndDates(out))),
                                         MaxOf(EndDates(out)) - MinOf(StartDates(out)))
  {
  }

  /** Every start and end date of the layout is one of the input's. */
  lemma LayoutDatesFromInput(items: seq<TimelineItem>, zoomLevel: real, colors: seq<string>, out: seq<ProcessedItem>)
    requires AllValid(items)
    requires |items| > 0 && |colors| > 0 && InputSpan(items) != 0
    requires IsLayout(items, zoomLevel, colors, out)
    ensures forall i :: 0 <= i < |StartDates(out)| ==> StartDates(out)[i] in InputStarts(items)
    ensures forall i :: 0 <= i < |EndDates(out)| ==> EndDates(out)[i] in InputEnds(items)
  {
    var starts, ends := InputStarts(items), InputEnds(items);
    var outStarts, outEnds := StartDates(out), EndDates(out);
    forall i | 0 <= i < |out|
      ensures outStarts[i] in starts && outEnds[i] in ends
    {
      LayoutItem(items, zoomLevel, colors, out, i);
    }
  }

  /** Every start and end date of the input is one of the layout's. */
  lemma InputDatesInLayout(items: seq<TimelineItem>, zoomLevel: real, colors: seq<string>, out: seq<ProcessedItem>)
    requires AllValid(items)
    requires |items| > 0 && |colors| > 0 && InputSpan(items) != 0
    requires IsLayout(items, zoomLevel, colors, out)
    ensures forall k :: 0 <= k < |InputStarts(items)| ==> InputStarts(items)[k] in StartDates(out)
    ensures forall k :: 0 <= k < |InputEnds(items)| ==> InputEnds(items)[k] in EndDates(out)
  {
    var d := SortedItems(items, colors);
    var dated := Dated(items, colors);
    var starts, ends := InputStarts(items), InputEnds(items);
    var outStarts, outEnds := StartDates(out), EndDates(out);
    SortedFromInput(items, colors);
    forall k | 0 <= k < |items|
      ensures starts[k] in outStarts && ends[k] in outEnds
    {
      assert dated[k] in d;
      var j :| 0 <= j < |d| && d[j] == dated[k];
      LayoutItem(items, zoomLevel, colors, out, j);
      assert outStarts[j] == starts[k] && outEnds[j] == ends[k];
    }
  }

  /** useMaxLanes over the layout counts exactly the lanes the allocator opened. */
  lemma MaxLanesCountsLanes(items: seq<TimelineItem>, zoomLevel: real, colors: seq<string>, out: seq<ProcessedItem>)
    requires AllValid(items)
    requires |items| > 0 ==> |colors| > 0 && InputSpan(items) != 0
    requires IsLayout(items, zoomLevel, colors, out)
    ensures forall l :: LaneUsed(out, l) <==> 0 <= l < MaxLanes(out)
  {
    if |items| > 0 {
      LanesContiguous(out, zoomLevel);
    }
  }
}
