/** src/hooks/useTimelineLayout.ts: dates are attached and the items sorted
    by start (a stable sort), every item is normalised against the global
    span, and each is placed, in sorted order, into the first lane that has
    room for it, with a buffer, unless the readability rule skips that lane. */
module TimelineLayout {
  import opened Calendar
  import opened TimelineItems
  import opened TimelineBounds
  import opened LaneCount
  import opened Calculations
  import opened Numbers

  /** Gap, as a fraction of the span, kept between items of one lane. */
  const Buffer: real := 0.003
  /** Smallest normalised width of a bar. */
  const MinWidth: real := 0.02
  /** Container width in pixels assumed by the text-fit estimate. */
  const ReferenceWidth: real := 1200.0
  const CharWidth: int := 8
  const TextPadding: int := 32
  /** Names longer than this count as long. */
  const LongName: int := 20
  /** Long names that do not fit are kept out of lanes below this index ... */
  const TopLanes: int := 3
  /** ... while fewer lanes than this exist. */
  const LaneBudget: int := 10

  // ---------------------------------------------------------------------
  // Phase 1: attach dates and colour, then sort by start.

  /** An item with its instants, its colour and its index in the input. */
  datatype DatedItem = DatedItem(
    id: int,
    start: CivilDate,
    end: CivilDate,
    name: string,
    startDate: int,
    endDate: int,
    color: string,
    index: nat)

  predicate AllValid(items: seq<TimelineItem>) {
    forall k :: 0 <= k < |items| ==> ValidItem(items[k])
  }

  /** The map step: the colour is chosen by the item's index in the input. */
  function Dated(items: seq<TimelineItem>, colors: seq<string>): (d: seq<DatedItem>)
    requires AllValid(items)
    requires |colors| > 0
    ensures |d| == |items|
  {
    seq(|items|, k requires 0 <= k < |items| =>
      DatedItem(items[k].id, items[k].start, items[k].end, items[k].name,
                Instant(items[k].start), Instant(items[k].end),
                colors[k % |colors|], k))
  }

  /** Places x before the first element that does not start before it. */
  function InsertByStart(x: DatedItem, s: seq<DatedItem>): (r: seq<DatedItem>)
    ensures multiset(r) == multiset(s) + multiset{x}
    ensures forall y :: y in r <==> y == x || y in s
    ensures |r| == |s| + 1
  {
    if s == [] || x.startDate <= s[0].startDate then [x] + s
    else
      assert s == [s[0]] + s[1..];
      [s[0]] + InsertByStart(x, s[1..])
  }

  /** Array.prototype.sort by start instant, which is stable. */
  function SortByStart(s: seq<DatedItem>): (r: seq<DatedItem>)
    ensures multiset(r) == multiset(s)
    ensures forall y :: y in r <==> y in s
    ensures |r| == |s|
  {
    if s == [] then []
    else
      assert s == [s[0]] + s[1..];
      InsertByStart(s[0], SortByStart(s[1..]))
  }

  /** a comes before b: an earlier start, or the same start and an earlier input index. */
  predicate InOrder(a: DatedItem, b: DatedItem) {
    a.startDate < b.startDate || (a.startDate == b.startDate && a.index < b.index)
  }

  /** Ordered by start, and by input index among equal starts. */
  ghost predicate StablySorted(s: seq<DatedItem>) {
    forall i, j :: 0 <= i < j < |s| ==> InOrder(s[i], s[j])
  }

  lemma {:induction false} InsertKeepsStablySorted(x: DatedItem, s: seq<DatedItem>)
    requires StablySorted(s)
    requires forall y :: y in s ==> x.index < y.index
    ensures StablySorted(InsertByStart(x, s))
  {
    var r := InsertByStart(x, s);
    if s == [] || x.startDate <= s[0].startDate {
      forall j | 1 <= j < |r| ensures InOrder(r[0], r[j]) {
        assert r[j] == s[j - 1];
        assert r[j] in s;
        if j > 1 {
          assert InOrder(s[0], s[j - 1]);
        }
      }
    } else {
      var tail := InsertByStart(x, s[1..]);
      InsertKeepsStablySorted(x, s[1..]);
      assert r == [s[0]] + tail;
      forall j | 1 <= j < |r| ensures InOrder(r[0], r[j]) {
        var y := tail[j - 1];
        assert r[j] == y;
        assert y in tail;
        if y != x {
          var k :| 0 <= k < |s[1..]| && s[1..][k] == y;
          assert InOrder(s[0], s[k + 1]);
        }
      }
    }
  }

  /** Sorting items given in input order orders them by start, ties in input order. */
  lemma {:induction false} SortIsStable(s: seq<DatedItem>)
    requires forall i, j :: 0 <= i < j < |s| ==> s[i].index < s[j].index
    ensures StablySorted(SortByStart(s))
  {
    if s != [] {
      SortIsStable(s[1..]);
      var rest := SortByStart(s[1..]);
      forall y | y in rest
        ensures s[0].index < y.index
      {
        var j :| 0 <= j < |s[1..]| && s[1..][j] == y;
        assert s[j + 1] == y;
      }
      InsertKeepsStablySorted(s[0], rest);
    }
  }

  /** The items in the order the allocator visits them. */
  function SortedItems(items: seq<TimelineItem>, colors: seq<string>): (d: seq<DatedItem>)
    requires AllValid(items)
    requires |colors| > 0
    ensures |d| == |items|
    ensures StablySorted(d)
    ensures multiset(d) == multiset(Dated(items, colors))
    ensures forall y :: y in d <==> y in Dated(items, colors)
  {
    var dated := Dated(items, colors);
    SortIsStable(dated);
    SortByStart(dated)
  }

  // ---------------------------------------------------------------------
  // Phase 2: bounds of the input.

  function InputStarts(items: seq<TimelineItem>): (xs: seq<int>)
    requires AllValid(items)
    ensures |xs| == |items|
  {
    seq(|items|, k requires 0 <= k < |items| => Instant(items[k].start))
  }

  function InputEnds(items: seq<TimelineItem>): (xs: seq<int>)
    requires AllValid(items)
    ensures |xs| == |items|
  {
    seq(|items|, k requires 0 <= k < |items| => Instant(items[k].end))
  }

  /** Latest end minus earliest start, over the input; 0 for no items. */
  function InputSpan(items: seq<TimelineItem>): int
    requires AllValid(items)
  {
    if |items| == 0 then 0 else MaxOf(InputEnds(items)) - MinOf(InputStarts(items))
  }

  /** The reduce of the source: the latest end, starting from `acc`. */
  function LatestEnd(s: seq<DatedItem>, acc: int): (m: int)
    ensures acc <= m
    ensures forall i :: 0 <= i < |s| ==> s[i].endDate <= m
    ensures m == acc || exists i :: 0 <= i < |s| && s[i].endDate == m
  {
    if s == [] then acc
    else
      var next := if s[0].endDate > acc then s[0].endDate else acc;
      var m := LatestEnd(s[1..], next);
      assert forall i :: 1 <= i < |s| ==> s[i] == s[1..][i - 1];
      m
  }

  /** Where the k-th input item went in the sorted order. */
  lemma SortedPosition(items: seq<TimelineItem>, colors: seq<string>, k: nat) returns (j: nat)
    requires AllValid(items) && |colors| > 0 && k < |items|
    ensures j < |items| && SortedItems(items, colors)[j] == Dated(items, colors)[k]
  {
    var d := SortedItems(items, colors);
    assert Dated(items, colors)[k] in d;
    j :| 0 <= j < |d| && d[j] == Dated(items, colors)[k];
  }

  /** Which input item sits at the j-th sorted position. */
  lemma InputPosition(items: seq<TimelineItem>, colors: seq<string>, j: nat) returns (k: nat)
    requires AllValid(items) && |colors| > 0 && j < |items|
    ensures k < |items| && Dated(items, colors)[k] == SortedItems(items, colors)[j]
  {
    var dated := Dated(items, colors);
    assert SortedItems(items, colors)[j] in dated;
    k :| 0 <= k < |dated| && dated[k] == SortedItems(items, colors)[j];
  }

  /** The first sorted item starts earliest of all input items. */
  lemma {:induction false} SortedMinStart(items: seq<TimelineItem>, colors: seq<string>)
    requires AllValid(items) && |colors| > 0 && |items| > 0
    ensures SortedItems(items, colors)[0].startDate == MinOf(InputStarts(items))
  {
    var d := SortedItems(items, colors);
    var starts := InputStarts(items);
    forall k | 0 <= k < |items|
      ensures d[0].startDate <= starts[k]
    {
      var j := SortedPosition(items, colors, k);
      if j > 0 {
        assert InOrder(d[0], d[j]);
      }
    }
    var k0 := InputPosition(items, colors, 0);
    assert starts[k0] == d[0].startDate;
    MinOfUnique(starts, d[0].startDate);
  }

  /** The reduce over the sorted items' ends yields the latest end of the input. */
  lemma {:induction false} SortedMaxEnd(items: seq<TimelineItem>, colors: seq<string>)
    requires AllValid(items) && |colors| > 0 && |items| > 0
    ensures var d := SortedItems(items, colors);
      LatestEnd(d, d[0].endDate) == MaxOf(InputEnds(items))
  {
    var d := SortedItems(items, colors);
    var ends := InputEnds(items);
    var m := LatestEnd(d, d[0].endDate);
    forall k | 0 <= k < |items|
      ensures ends[k] <= m
    {
      var j := SortedPosition(items, colors, k);
      assert d[j].endDate <= m;
    }
    var j: nat;
    if m == d[0].endDate {
      j := 0;
    } else {
      j :| 0 <= j < |d| && d[j].endDate == m;
    }
    var k := InputPosition(items, colors, j);
    assert ends[k] == m;
    MaxOfUnique(ends, m);
  }

  // ---------------------------------------------------------------------
  // Phase 3: normalisation and lane allocation.

  /** An item's duration (at least one day), position and width (at least MinWidth)
      relative to the span, in the given lane. */
  function Normalize(item: DatedItem, lane: nat, minDate: int, totalDuration: int): (p: ProcessedItem)
    requires totalDuration != 0
    ensures p.duration >= MsPerDay && p.duration >= item.endDate - item.startDate
    ensures p.width >= MinWidth
    ensures p.position * totalDuration as real == (item.startDate - minDate) as real
    ensures p.lane == lane && p.id == item.id && p.name == item.name && p.color == item.color
    ensures p.start == item.start && p.end == item.end
    ensures p.startDate == item.startDate && p.endDate == item.endDate
  {
    var duration := if item.endDate - item.startDate > MsPerDay then item.endDate - item.startDate else MsPerDay;
    var position := (item.startDate - minDate) as real / totalDuration as real;
    var width := MaxReal(duration as real / totalDuration as real, MinWidth);
    ProcessedItem(item.id, item.start, item.end, item.name, item.startDate, item.endDate,
                  lane, duration, position, width, item.color)
  }

  /** The source's overlap test between an item already in a lane and a new one: the two
      intervals, each widened by the buffer, overlap; no conflict means they are Separated. */
  predicate Conflict(existing: ProcessedItem, position: real, width: real)
    ensures Conflict(existing, position, width) <==>
      position < existing.position + existing.width + Buffer && existing.position < position + width + Buffer
    ensures !Conflict(existing, position, width) <==> Separated(existing.(position := position, width := width), existing)
  {
    !(position >= existing.position + existing.width + Buffer
      || position + width + Buffer <= existing.position)
  }

  /** Intervals more than Buffer apart, in either order. */
  predicate Separated(a: ProcessedItem, b: ProcessedItem) {
    a.position >= b.position + b.width + Buffer || a.position + a.width + Buffer <= b.position
  }

  /** The text-fit estimate: 8 px per UTF-16 code unit of the name plus 32 px of padding. */
  predicate TextWillFit(width: real, name: string, zoomLevel: real)
    ensures width == 0.0 || zoomLevel == 0.0 ==> !TextWillFit(width, name, zoomLevel)
    ensures TextWillFit(width, name, zoomLevel) ==>
      BarPixelWidth(width, ReferenceWidth, zoomLevel) > (|name| * CharWidth + TextPadding) as real
  {
    BarPixelWidth(width, ReferenceWidth, zoomLevel) > (Utf16Length(name) * CharWidth + TextPadding) as real
  }

  /** Eleven astral characters, such as U+1F680, make a 22-unit name, which counts as long. */
  lemma AstralNameCountsAsLong()
    ensures var name := seq(11, _ => '\U{1F680}');
      |name| == 11 && Utf16Length(name) == 22 > LongName
  {
    var name := seq(11, _ => '\U{1F680}');
    assert forall i :: 0 <= i < |name| ==> Astral(name[i]);
  }

  /** The readability rule: a long label that will not fit skips the top lanes while few lanes exist. */
  predicate SkipLane(laneIndex: int, laneCount: int, width: real, name: string, zoomLevel: real)
    ensures SkipLane(laneIndex, laneCount, width, name, zoomLevel) ==> |name| > LongName / 2
    ensures laneIndex >= TopLanes || laneCount >= LaneBudget ==> !SkipLane(laneIndex, laneCount, width, name, zoomLevel)
  {
    !TextWillFit(width, name, zoomLevel) && Utf16Length(name) > LongName && laneIndex < TopLanes && laneCount < LaneBudget
  }

  /** No item already placed in `lane` conflicts with [position, position + width). */
  ghost predicate LaneFree(placed: seq<ProcessedItem>, lane: nat, position: real, width: real) {
    forall j :: 0 <= j < |placed| && placed[j].lane == lane ==> !Conflict(placed[j], position, width)
  }

  /** p went where first fit puts it after `placed`: an existing lane that is free and not skipped,
      with every lower lane full or skipped, or else a new lane numbered MaxLanes(placed). */
  ghost predicate FirstFit(placed: seq<ProcessedItem>, p: ProcessedItem, zoomLevel: real) {
    var laneCount := MaxLanes(placed);
    && p.lane <= laneCount
    && LaneFree(placed, p.lane, p.position, p.width)
    && (p.lane < laneCount ==> !SkipLane(p.lane, laneCount, p.width, p.name, zoomLevel))
    && forall l: nat :: l < p.lane ==>
         !LaneFree(placed, l, p.position, p.width) || SkipLane(l, laneCount, p.width, p.name, zoomLevel)
  }

  /** Every item went where first fit puts it, given the items before it. */
  ghost predicate FirstFitAllocation(out: seq<ProcessedItem>, zoomLevel: real) {
    forall i {:trigger FirstFit(out[..i], out[i], zoomLevel)} :: 0 <= i < |out| ==> FirstFit(out[..i], out[i], zoomLevel)
  }

  /** What useTimelineLayout returns for the given arguments. */
  ghost predicate IsLayout(items: seq<TimelineItem>, zoomLevel: real, colors: seq<string>, out: seq<ProcessedItem>)
    requires AllValid(items)
    requires |items| > 0 ==> |colors| > 0 && InputSpan(items) != 0
  {
    if |items| == 0 then out == []
    else
      var d := SortedItems(items, colors);
      var minDate := MinOf(InputStarts(items));
      && |out| == |d|
      && (forall i :: 0 <= i < |out| ==> out[i] == Normalize(d[i], out[i].lane, minDate, InputSpan(items)))
      && FirstFitAllocation(out, zoomLevel)
  }

  /** The items of `placed` in `lane`, in placement order: the source's lanes[lane]. */
  function Occupants(placed: seq<ProcessedItem>, lane: nat): (r: seq<ProcessedItem>)
    decreases |placed|
  {
    if placed == [] then []
    else
      var last := placed[|placed| - 1];
      Occupants(placed[..|placed| - 1], lane) + (if last.lane == lane then [last] else [])
  }

  lemma {:induction false} OccupantsMembers(placed: seq<ProcessedItem>, lane: nat)
    ensures forall x :: x in Occupants(placed, lane) ==> x.lane == lane && x in placed
    ensures forall j :: 0 <= j < |placed| && placed[j].lane == lane ==> placed[j] in Occupants(placed, lane)
    decreases |placed|
  {
    if placed != [] {
      var init := placed[..|placed| - 1];
      OccupantsMembers(init, lane);
      assert forall j :: 0 <= j < |init| ==> placed[j] == init[j];
      forall x | x in init ensures x in placed {
        var j :| 0 <= j < |init| && init[j] == x;
        assert placed[j] == x;
      }
    }
  }

  /** No item of the list conflicts with [position, position + width). */
  predicate NoConflictIn(lane: seq<ProcessedItem>, position: real, width: real) {
    forall m :: 0 <= m < |lane| ==> !Conflict(lane[m], position, width)
  }

  /** The conflict loop over lanes[lane] decides LaneFree. */
  lemma OccupantsDecideLaneFree(placed: seq<ProcessedItem>, lane: nat, position: real, width: real)
    ensures LaneFree(placed, lane, position, width) <==> NoConflictIn(Occupants(placed, lane), position, width)
  {
    OccupantsMembers(placed, lane);
    var occ := Occupants(placed, lane);
    if !LaneFree(placed, lane, position, width) {
      var j :| 0 <= j < |placed| && placed[j].lane == lane && Conflict(placed[j], position, width);
      assert placed[j] in occ;
      var m :| 0 <= m < |occ| && occ[m] == placed[j];
      assert Conflict(occ[m], position, width);
    } else {
      forall m | 0 <= m < |occ| ensures !Conflict(occ[m], position, width) {
        assert occ[m] in placed;
        var j :| 0 <= j < |placed| && placed[j] == occ[m];
      }
    }
  }

  /** A lane no item was placed in has no occupants. */
  lemma {:induction false} OccupantsOfUnusedLane(placed: seq<ProcessedItem>, lane: nat)
    requires forall j :: 0 <= j < |placed| ==> placed[j].lane != lane
    ensures Occupants(placed, lane) == []
    decreases |placed|
  {
    if placed != [] {
      var init := placed[..|placed| - 1];
      assert forall j :: 0 <= j < |init| ==> init[j] == placed[j];
      OccupantsOfUnusedLane(init, lane);
    }
  }

  /** No item lies beyond the last lane. */
  lemma OccupantsBeyond(placed: seq<ProcessedItem>)
    ensures Occupants(placed, MaxLanes(placed)) == []
  {
    OccupantsOfUnusedLane(placed, MaxLanes(placed));
  }

  /** lanes[l] is the list of items placed in lane l, one list per lane in use. */
  ghost predicate TracksLanes(lanes: seq<seq<ProcessedItem>>, placed: seq<ProcessedItem>) {
    && |lanes| == MaxLanes(placed)
    && forall l :: 0 <= l < |lanes| ==> lanes[l] == Occupants(placed, l)
  }

  /** Opening lane |lanes| when needed and pushing p onto lanes[p.lane] keeps lanes in step with the items. */
  lemma {:induction false} PushKeepsTracking(lanes: seq<seq<ProcessedItem>>, placed: seq<ProcessedItem>, p: ProcessedItem)
    requires TracksLanes(lanes, placed)
    requires p.lane <= |lanes|
    ensures var widened := if p.lane == |lanes| then lanes + [[]] else lanes;
      TracksLanes(widened[p.lane := widened[p.lane] + [p]], placed + [p])
  {
    var widened := if p.lane == |lanes| then lanes + [[]] else lanes;
    var pushed := widened[p.lane := widened[p.lane] + [p]];
    MaxLanesAppend(placed, p);
    OccupantsBeyond(placed);
    forall l | 0 <= l < |pushed| ensures pushed[l] == Occupants(placed + [p], l) {
      OccupantsAppend(placed, p, l);
    }
  }

  lemma OccupantsAppend(placed: seq<ProcessedItem>, p: ProcessedItem, lane: nat)
    ensures Occupants(placed + [p], lane) == Occupants(placed, lane) + (if p.lane == lane then [p] else [])
  {
    assert (placed + [p])[..|placed|] == placed;
  }

  lemma {:induction false} AllocationAppend(out: seq<ProcessedItem>, p: ProcessedItem, zoomLevel: real)
    requires FirstFitAllocation(out, zoomLevel)
    requires FirstFit(out, p, zoomLevel)
    ensures FirstFitAllocation(out + [p], zoomLevel)
  {
    var out' := out + [p];
    forall i | 0 <= i < |out'| ensures FirstFit(out'[..i], out'[i], zoomLevel) {
      if i < |out| {
        assert out'[..i] == out[..i];
        assert out'[i] == out[i];
      } else {
        assert out'[..i] == out;
      }
    }
  }

  /** The conflict loop: whether [position, position + width) keeps its distance from every item of a lane. */
  method LaneCanFit(lane: seq<ProcessedItem>, position: real, width: real) returns (canFit: bool)
    ensures canFit <==> NoConflictIn(lane, position, width)
  {
    canFit := true;
    var k := 0;
    while k < |lane|
      invariant 0 <= k <= |lane|
      invariant forall m :: 0 <= m < k ==> !Conflict(lane[m], position, width)
    {
      var existingItem := lane[k];
      var existingEnd := existingItem.position + existingItem.width;
      var newEnd := position + width;
      if !(position >= existingEnd + Buffer || newEnd + Buffer <= existingItem.position) {
        canFit := false;
        break;
      }
      k := k + 1;
    }
  }

  /** The lane scan: the lowest existing lane that is free and not skipped, or -1 when there is none. */
  method ScanLanes(lanes: seq<seq<ProcessedItem>>, ghost placed: seq<ProcessedItem>,
                   position: real, width: real, name: string, zoomLevel: real)
    returns (assignedLane: int)
    requires TracksLanes(lanes, placed)
    ensures -1 <= assignedLane < |lanes|
    ensures assignedLane >= 0 ==>
      LaneFree(placed, assignedLane, position, width) && !SkipLane(assignedLane, |lanes|, width, name, zoomLevel)
    ensures forall l: nat :: l < |lanes| && (assignedLane == -1 || l < assignedLane) ==>
      !LaneFree(placed, l, position, width) || SkipLane(l, |lanes|, width, name, zoomLevel)
  {
    var barPixelWidth := BarPixelWidth(width, ReferenceWidth, zoomLevel);
    var nameLength := Utf16Length(name);
    var textWillFit := barPixelWidth > (nameLength * CharWidth + TextPadding) as real;
    assignedLane := -1;
    var laneIndex := 0;
    while laneIndex < |lanes|
      invariant 0 <= laneIndex <= |lanes|
      invariant assignedLane == -1
      invariant forall l: nat :: l < laneIndex ==>
        !LaneFree(placed, l, position, width) || SkipLane(l, |lanes|, width, name, zoomLevel)
    {
      var canFit := LaneCanFit(lanes[laneIndex], position, width);
      OccupantsDecideLaneFree(placed, laneIndex, position, width);
      if canFit && !(!textWillFit && nameLength > LongName && laneIndex < TopLanes && |lanes| < LaneBudget) {
        assignedLane := laneIndex;
        break;
      }
      assert !LaneFree(placed, laneIndex, position, width) || SkipLane(laneIndex, |lanes|, width, name, zoomLevel);
      laneIndex := laneIndex + 1;
    }
  }

  /** One turn of the main loop: normalise the item, pick its lane (opening a new one when
      the scan finds none), and push it onto that lane. */
  method PlaceItem(lanes: seq<seq<ProcessedItem>>, ghost placed: seq<ProcessedItem>, item: DatedItem,
                   minDate: int, totalDuration: int, zoomLevel: real)
    returns (lanes': seq<seq<ProcessedItem>>, processedItem: ProcessedItem)
    requires TracksLanes(lanes, placed)
    requires totalDuration != 0
    ensures processedItem == Normalize(item, processedItem.lane, minDate, totalDuration)
    ensures FirstFit(placed, processedItem, zoomLevel)
    ensures TracksLanes(lanes', placed + [processedItem])
  {
    var duration := if item.endDate - item.startDate > MsPerDay then item.endDate - item.startDate else MsPerDay;
    var position := (item.startDate - minDate) as real / totalDuration as real;
    var width := MaxReal(duration as real / totalDuration as real, MinWidth);

    var assignedLane := ScanLanes(lanes, placed, position, width, item.name, zoomLevel);
    lanes' := lanes;
    if assignedLane == -1 {
      // A new lane: no item occupies it yet.
      assignedLane := |lanes|;
      OccupantsBeyond(placed);
      OccupantsDecideLaneFree(placed, assignedLane, position, width);
      lanes' := lanes' + [[]];
    }

    processedItem := ProcessedItem(item.id, item.start, item.end, item.name, item.startDate, item.endDate,
                                   assignedLane, duration, position, width, item.color);
    PushKeepsTracking(lanes, placed, processedItem);
    lanes' := lanes'[assignedLane := lanes'[assignedLane] + [processedItem]];
  }

  /** The items of `out` are the first |out| of `d`, normalised, each in its own lane. */
  ghost predicate NormalizedFrom(out: seq<ProcessedItem>, d: seq<DatedItem>, minDate: int, totalDuration: int)
    requires totalDuration != 0
  {
    |out| <= |d| &&
    forall j :: 0 <= j < |out| ==> out[j] == Normalize(d[j], out[j].lane, minDate, totalDuration)
  }

  lemma NormalizedAppend(out: seq<ProcessedItem>, p: ProcessedItem, d: seq<DatedItem>, minDate: int, totalDuration: int)
    requires totalDuration != 0 && |out| < |d|
    requires NormalizedFrom(out, d, minDate, totalDuration)
    requires p == Normalize(d[|out|], p.lane, minDate, totalDuration)
    ensures NormalizedFrom(out + [p], d, minDate, totalDuration)
  {
    var out' := out + [p];
    forall j | 0 <= j < |out'| ensures out'[j] == Normalize(d[j], out'[j].lane, minDate, totalDuration) {
      if j < |out| {
        assert out'[j] == out[j];
      }
    }
  }

  /** useTimelineLayout: the items in stable start order, normalised, each in its first-fit lane. */
  method ComputeLayout(items: seq<TimelineItem>, zoomLevel: real, colors: seq<string>)
    returns (processed: seq<ProcessedItem>)
    requires AllValid(items)
    requires |items| > 0 ==> |colors| > 0 && InputSpan(items) != 0
    ensures IsLayout(items, zoomLevel, colors, processed)
  {
    if |items| == 0 {
      return [];
    }
    var itemsWithDates := SortedItems(items, colors);
    SortedMinStart(items, colors);
    SortedMaxEnd(items, colors);
    var minDate := itemsWithDates[0].startDate;
    var maxDate := LatestEnd(itemsWithDates, itemsWithDates[0].endDate);
    var totalDuration := maxDate - minDate;
    assert totalDuration == InputSpan(items);

    var lanes: seq<seq<ProcessedItem>> := [];
    processed := [];
    var i := 0;
    while i < |itemsWithDates|
      invariant 0 <= i <= |itemsWithDates| && |processed| == i
      invariant NormalizedFrom(processed, itemsWithDates, minDate, totalDuration)
      invariant FirstFitAllocation(processed, zoomLevel)
      invariant TracksLanes(lanes, processed)
    {
      var processedItem;
      lanes, processedItem := PlaceItem(lanes, processed, itemsWithDates[i], minDate, totalDuration, zoomLevel);
      AllocationAppend(processed, processedItem, zoomLevel);
      NormalizedAppend(processed, processedItem, itemsWithDates, minDate, totalDuration);
      processed := processed + [processedItem];
      i := i + 1;
    }
  }
}
