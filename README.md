# Timeline layout engine

A Dafny model of the layout engine behind a React timeline. The engine has five parts:

- **Lane allocator** (`useTimelineLayout`). It parses each item's dates, stably sorts the items by start, and normalises each item to a `position` and `width` that are fractions of the total span. It then places items lane by lane with greedy first fit, keeping a 0.003 buffer between items in the same lane. A readability rule keeps long labels that do not fit out of the three top lanes while fewer than ten lanes exist.
- **Time-marker generator** (`useTimeMarkers`). It emits a marker on the 1st of every month from the earliest start's month. It also emits a marker every 14, 7, 3 or 1 days from the earliest start, depending on the zoom level. Both series stop after the latest end.
- **Pure helpers** (`calculations.ts`): the day step, the bar width in pixels, and the duration in days.
- **Zoom controller** (`useZoom`, repeated in `ZoomProvider`). One zoom level is multiplied or divided by a step and clamped to `[min, max]`. `canZoomIn`, `canZoomOut`, the percentage label and the responsive flags are derived from it.
- **Aggregates over the layout**: the lane count (`useMaxLanes`), and the earliest start, latest end and span (`useTimelineBounds`).

Modules:

- `Calendar`. Dates are `CivilDate(year, month, day)` in the proleptic Gregorian calendar. A date's instant counts milliseconds at local midnight since 1970-01-01, in whole days of 86,400,000 ms. Months to step through are `YearMonth` pairs.
- `TimelineItems`. The input item and the processed item.
- `TimelineLayout`. The layout is a method, `ComputeLayout`, with the source's loops:
  - an outer loop over the sorted items;
  - `ScanLanes`, a loop over lanes;
  - `LaneCanFit`, a loop over a lane's items.

  The lanes are a local `seq<seq<ProcessedItem>>` that the loop grows. The method is proved against a declarative predicate over the result, `IsLayout`, which says:
  - each item is its normalised sorted input;
  - each lane was chosen by first fit (`FirstFit`), given the items before it.
- `LayoutProperties`. Lemmas over `IsLayout`:
  - no overlap within a lane;
  - lanes contiguous from 0;
  - the layout is unique;
  - stable order and colour by input index;
  - geometry bounds;
  - agreement with the two aggregates.
- `TimeMarkers`. One loop method for months and one for days. Each is specified by a closed form of its k-th marker plus its stopping condition. Lemmas derive spacing, coverage, marker counts and position ranges.
- `Calculations`, `LaneCount`, `TimelineBounds`. The pure helpers and the aggregates, as functions with lemmas.
- `Numbers`. `Math.min` and `Math.max` on integers and reals, defined once for the other modules.
- `Zoom`. A class `ZoomController` with the one mutable field `level`. The state updaters are pure functions, with lemmas for clamping, range preservation and the percentage label.

Numbers: `position`, `width` and `zoomLevel` are Dafny `real`, so every ratio is exact. Instants, durations and lane indices are unbounded integers. Every constant is the source's own:

| constant | value |
|---|---|
| buffer | 0.003 |
| minimum width | 0.02 |
| reference width | 1200 px |
| text estimate | 8 px per UTF-16 code unit + 32 px |
| long name | more than 20 UTF-16 code units |
| top lanes | 3 |
| lane budget | 10 |
| day-step thresholds | 0.7, 1.0, 1.5 |
| zoom defaults | 0.5, 4, 1.5, 1 |
| responsive bands | 0.75, 1.25 |

Behaviour of the code that the model keeps as it is:

- **Zero span.** When the latest end is the earliest start, the layout divides by a zero span (src/hooks/useTimelineLayout.ts:69,82-83), and so do the markers (src/hooks/useTimeMarkers.ts:54,66,86). The result is NaN or Infinity. The layout therefore requires a non-zero span, and so do the markers.
- **Negative span.** When the latest end is before the earliest start, the span is negative. The layout still runs: the earliest item gets position 0, every position is at most 0, and every width is the 0.02 floor (`InvertedSpanGeometry`).
- **Marker times.** Markers sit at local midnight (src/hooks/useTimeMarkers.ts:62,79). Their positions are not clamped, so the first month marker can lie before 0.
- **Day step.** The day step depends on the zoom level alone (src/hooks/useTimeMarkers.ts:82).
- **Position range.** When the span is positive, an item that starts no later than the latest end has a position in [0, 1], and an item that starts after every end (an inverted range of its own) gets a position above 1. `LayoutGeometry` states the part that holds. When the span is negative, every position is at most 0 (see Negative span).
- **Name length.** A name's length is JavaScript's `length`, which counts UTF-16 code units (src/hooks/useTimelineLayout.ts:88,119). A character outside the Basic Multilingual Plane counts twice (`Utf16Length`).

## Model

| member | source | states |
|---|---|---|
| Calendar.DaysInMonth | src/hooks/useTimeMarkers.ts:73 | a month has 28 to 31 days, and 29 exactly for February of a leap year |
| Calendar.NextMonthDays | src/hooks/useTimeMarkers.ts:73 | advancing the 1st of a month by one month moves its instant forward by exactly that month's length in days |
| Calendar.FirstDayNotAfter | src/hooks/useTimeMarkers.ts:58-62 | aligning a date to the 1st of its month at midnight never moves it later |
| Calendar.DayNumberMonotone | src/hooks/useTimelineLayout.ts:55-59 | later calendar dates have strictly later instants, so sorting by getTime sorts by date |
| Calendar.InstantInjective | src/hooks/useTimeMarkers.ts:48-50 | two valid dates with the same instant are the same date, so the date of minDate is well defined |
| Calendar.DayNumber | src/hooks/useTimelineLayout.ts:55-56 | the day count from 1970-01-01 of a parsed date: 0 for 1970-01-01 itself, and non-negative exactly for years from 1970 on |
| Calendar.Instant | src/hooks/useTimelineLayout.ts:55-56 | getTime of a date parsed at local midnight: the day number in milliseconds |
| Calendar.NextMonth | src/hooks/useTimeMarkers.ts:73 | setMonth(getMonth() + 1) on the 1st of a month gives a valid month, exactly one month later in year * 12 + month order |
| Calendar.AddMonths | src/hooks/useTimeMarkers.ts:73 | stepping k months from a valid month gives a valid month |
| Calculations.OptimalDayStep | src/lib/calculations.ts:10-20 | the day step is one of 1, 3, 7 and 14 |
| Calculations.DayStepBands | src/lib/calculations.ts:10-20 | the step is 14 below 0.7, 7 in [0.7, 1), 3 in [1, 1.5) and 1 from 1.5, each band exactly |
| Calculations.DayStepNonIncreasing | src/lib/calculations.ts:10-20 | zooming in never makes the day step coarser |
| Calculations.BarPixelWidth | src/lib/calculations.ts:29-35 | the pixel width is non-negative for non-negative arguments, and 0 when any argument is 0 |
| Calculations.BarPixelWidthMonotone | src/lib/calculations.ts:29-35 | a wider bar is never narrower on screen |
| Calculations.CeilDiv | src/lib/calculations.ts:48 | Math.ceil of n / d is the least q with q * d >= n |
| Calculations.DurationInDays | src/lib/calculations.ts:43-49 | the day count k satisfies k days >= the interval > k - 1 days |
| Calculations.DurationInDaysLeast | src/lib/calculations.ts:43-49 | the day count is at most any k whose k days cover the interval |
| Calculations.DurationOfWholeDays | src/lib/calculations.ts:47-48 | exactly n whole days give n, and equal dates give 0 |
| TimelineBounds.MinOf | src/hooks/useTimelineBounds.ts:14 | Math.min of a list is at most every element and is one of them |
| TimelineBounds.MaxOf | src/hooks/useTimelineBounds.ts:15 | Math.max of a list is at least every element and is one of them |
| TimelineBounds.MinOfUnique | src/hooks/useTimelineBounds.ts:14 | any least element that occurs in the list is the minimum |
| TimelineBounds.MaxOfUnique | src/hooks/useTimelineBounds.ts:15 | any greatest element that occurs in the list is the maximum |
| TimelineBounds.ComputeBounds | src/hooks/useTimelineBounds.ts:10-18 | null bounds and span 0 for no items; otherwise minDate is the least start and attained, maxDate the greatest end and attained, and the span their difference, non-negative when some item ends no earlier than it starts |
| LaneCount.LargestLane | src/hooks/useMaxLanes.ts:10 | Math.max over the lanes and 0 bounds every lane and is 0 or some item's lane |
| LaneCount.MaxLanes | src/hooks/useMaxLanes.ts:9-10 | 0 exactly for no items; above every lane; one more than some item's lane |
| LaneCount.MaxLanesAppend | src/hooks/useMaxLanes.ts:10 | adding an item raises the count to cover its lane and no further |
| TimelineLayout.Dated | src/hooks/useTimelineLayout.ts:51-58 | one dated item per input item |
| TimelineLayout.InsertByStart | src/hooks/useTimelineLayout.ts:59 | inserting keeps every element and adds exactly the new one |
| TimelineLayout.SortByStart | src/hooks/useTimelineLayout.ts:59 | the sort is a permutation of its input |
| TimelineLayout.InsertKeepsStablySorted | src/hooks/useTimelineLayout.ts:59 | inserting an item with the lowest input index into a stably sorted list keeps it stably sorted |
| TimelineLayout.SortIsStable | src/hooks/useTimelineLayout.ts:59 | sorting items in input order yields ascending starts with ties in input order |
| TimelineLayout.SortedItems | src/hooks/useTimelineLayout.ts:51-59 | the sorted items are a permutation of the dated inputs, stably sorted by start |
| TimelineLayout.LatestEnd | src/hooks/useTimelineLayout.ts:65-68 | the reduce yields at least its seed, bounds every end and is the seed or some end |
| TimelineLayout.SortedMinStart | src/hooks/useTimelineLayout.ts:64 | the first sorted item's start is the earliest start of all items |
| TimelineLayout.SortedMaxEnd | src/hooks/useTimelineLayout.ts:65-68 | the reduce over sorted items yields the latest end of all items |
| TimelineLayout.SortedPosition | src/hooks/useTimelineLayout.ts:51-59 | every input item has a position in the sorted order |
| TimelineLayout.InputPosition | src/hooks/useTimelineLayout.ts:51-59 | every sorted position holds some input item |
| TimelineItems.Utf16Length | src/hooks/useTimelineLayout.ts:88-119 | a name's JavaScript length is between its character count and twice that: equal to it when no character is outside the Basic Multilingual Plane, twice it when every character is |
| TimelineLayout.AstralNameCountsAsLong | src/hooks/useTimelineLayout.ts:119 | a name of 11 rocket emoji has 11 characters but length 22, so it counts as a long name |
| TimelineLayout.Normalize | src/hooks/useTimelineLayout.ts:77-83 | duration is at least a day and at least end - start; width is at least 0.02; position times the span is start - minDate; the input's fields and colour are kept |
| TimelineLayout.Conflict | src/hooks/useTimelineLayout.ts:103-108 | a new item conflicts with a placed one exactly when the two intervals, each widened by the 0.003 buffer, overlap; no conflict is exactly the two being Separated |
| TimelineLayout.TextWillFit | src/hooks/useTimelineLayout.ts:86-88 | a zero width or zero zoom never fits; when the text fits, the bar is wider than 8 px per character plus 32 px |
| TimelineLayout.SkipLane | src/hooks/useTimelineLayout.ts:117-122 | a skipped name has more than 10 characters, and no lane from 3 on is skipped, nor any lane once 10 lanes exist |
| TimelineLayout.OccupantsMembers | src/hooks/useTimelineLayout.ts:146 | lanes[l] holds exactly the placed items whose lane is l |
| TimelineLayout.OccupantsDecideLaneFree | src/hooks/useTimelineLayout.ts:98-111 | scanning lanes[l] for a conflict decides whether lane l is free over all placed items |
| TimelineLayout.OccupantsOfUnusedLane | src/hooks/useTimelineLayout.ts:131-134 | a lane no item uses holds nothing, so a newly pushed lane starts empty |
| TimelineLayout.OccupantsBeyond | src/hooks/useTimelineLayout.ts:131-134 | the lane numbered lanes.length is empty |
| TimelineLayout.OccupantsAppend | src/hooks/useTimelineLayout.ts:146 | pushing an item onto lanes[l] appends it to lane l only |
| TimelineLayout.PushKeepsTracking | src/hooks/useTimelineLayout.ts:131-134 | opening a lane when needed and pushing the item keeps lanes equal to the per-lane lists of placed items |
| TimelineLayout.AllocationAppend | src/hooks/useTimelineLayout.ts:75-147 | a first-fit allocation extended by a first-fit placement is a first-fit allocation |
| TimelineLayout.LaneCanFit | src/hooks/useTimelineLayout.ts:95-112 | the inner loop reports canFit exactly when no item of the lane conflicts within the buffer |
| TimelineLayout.ScanLanes | src/hooks/useTimelineLayout.ts:88-128 | with the name measured in UTF-16 code units, the lane loop picks a free, unskipped lane with every lower lane conflicting or skipped, or -1 when every lane is one of those |
| TimelineLayout.PlaceItem | src/hooks/useTimelineLayout.ts:77-146 | one item is normalised and placed by first fit, judging text fit and long names by the name's UTF-16 length, in a new lane numbered lanes.length when needed, and the lanes keep tracking the placed items |
| TimelineLayout.ComputeLayout | src/hooks/useTimelineLayout.ts:46-150 | the result is empty for no items; otherwise it is the sorted items, normalised, each in the lane first fit gives it |
| LayoutProperties.FirstFitLane | src/hooks/useTimelineLayout.ts:117-134 | an item's lane is at most the lane count before it, and an existing lane is never a skipped one |
| LayoutProperties.FirstFitAllocationPrefix | src/hooks/useTimelineLayout.ts:75-147 | every prefix of a first-fit allocation is one |
| LayoutProperties.NoOverlap | src/hooks/useTimelineLayout.ts:98-111 | any two items in the same lane are separated by at least the 0.003 buffer, in one order or the other |
| LayoutProperties.LanesContiguous | src/hooks/useTimelineLayout.ts:131-134 | the lanes in use are exactly 0 to MaxLanes - 1 |
| LayoutProperties.LaneCountGrowsByAtMostOne | src/hooks/useTimelineLayout.ts:131-134 | each item raises the lane count by at most one, and by one exactly when it opens a new lane |
| LayoutProperties.SkippedItemsOpenNewLanes | src/hooks/useTimelineLayout.ts:117-134 | an item the readability rule would skip in its lane is in a new lane, so it is never rejected |
| LayoutProperties.FirstFitLaneUnique | src/hooks/useTimelineLayout.ts:93-128 | first fit leaves only one lane for an item |
| LayoutProperties.AllocationsAgree | src/hooks/useTimelineLayout.ts:75-147 | two first-fit allocations of the same items agree on every lane |
| LayoutProperties.AllocationStepAgrees | src/hooks/useTimelineLayout.ts:102-140 | after identical earlier placements, an item gets the same lane whichever first-fit run placed it |
| LayoutProperties.LayoutDeterministic | src/hooks/useTimelineLayout.ts:46-150 | the layout of given items, zoom and colours is unique |
| LayoutProperties.InputOrder | src/hooks/useTimelineLayout.ts:51-59 | one input index per output item |
| LayoutProperties.SortedFromInput | src/hooks/useTimelineLayout.ts:51-59 | each sorted item is the dated input item at its own index |
| LayoutProperties.LayoutOrder | src/hooks/useTimelineLayout.ts:51-59 | each input item appears exactly once; outputs ascend by start with ties in input order; colour is colors[input index mod length] |
| LayoutProperties.SpanAtLeastOneDay | src/hooks/useTimelineLayout.ts:69 | a positive span between midnight instants is at least a day |
| LayoutProperties.LayoutItem | src/hooks/useTimelineLayout.ts:137-147 | output item i is the normalisation of its input item, with that item's instants |
| LayoutProperties.NormalizeWithinSpan | src/hooks/useTimelineLayout.ts:77-83 | for a span of at least a day and an item inside it, width lies in [0.02, 1] and position is at least 0, at most 1 for starts up to the span's end, and 0 for the earliest start |
| LayoutProperties.LayoutGeometry | src/hooks/useTimelineLayout.ts:64-83 | for a positive span: every duration is at least a day; width is in [0.02, 1]; position is at least 0, and at most 1 when the start is not after the latest end; the first item's position is 0 |
| LayoutProperties.NormalizeInvertedSpan | src/hooks/useTimelineLayout.ts:77-83 | with a negative span, an item starting no earlier than minDate gets width 0.02 and position at most 0, and position 0 when it starts at minDate |
| LayoutProperties.InvertedSpanGeometry | src/hooks/useTimelineLayout.ts:64-83 | when the latest end is before the earliest start, the first item has position 0, every position is at most 0, and every width is 0.02 |
| LayoutProperties.SameExtremes | src/hooks/useTimelineBounds.ts:14-15 | lists holding the same values have the same min and max |
| LayoutProperties.LayoutBounds | src/hooks/useTimelineBounds.ts:14-16 | the bounds of the layout's output are the bounds the layout itself used |
| LayoutProperties.BoundsFromSameDates | src/hooks/useTimelineBounds.ts:14-16 | items whose start and end dates are the same sets of values as two lists get the minimum and maximum of those lists as bounds |
| LayoutProperties.LayoutDatesFromInput | src/hooks/useTimelineLayout.ts:55-56 | every start and end date in the layout is one of the input's |
| LayoutProperties.InputDatesInLayout | src/hooks/useTimelineLayout.ts:55-56 | every input start and end date appears in the layout |
| LayoutProperties.MaxLanesCountsLanes | src/hooks/useMaxLanes.ts:10 | on the layout's output the lanes in use are exactly 0 to MaxLanes - 1 |
| TimeMarkers.MarkerDayStep | src/hooks/useTimeMarkers.ts:110-120 | the hook's own day step is positive |
| TimeMarkers.MarkerDayStepAgrees | src/hooks/useTimeMarkers.ts:110-120 | the hook's copy equals calculateOptimalDayStep at every zoom level |
| TimeMarkers.MarkerPosition | src/hooks/useTimeMarkers.ts:65-66 | position times the span is 100 times the marker's offset from minDate |
| TimeMarkers.EarliestIndex | src/hooks/useTimeMarkers.ts:48-50 | the chosen item starts no later than any other |
| TimeMarkers.FirstMonth | src/hooks/useTimeMarkers.ts:58-62 | the month of minDate is a valid month |
| TimeMarkers.FirstMonthStart | src/hooks/useTimeMarkers.ts:58-62 | the first month marker is the 1st of minDate's month: not after minDate and before the next month's 1st |
| TimeMarkers.MonthInstantStep | src/hooks/useTimeMarkers.ts:73 | consecutive month instants differ by the month's length in days |
| TimeMarkers.MonthInstantsAscend | src/hooks/useTimeMarkers.ts:64-74 | month instants strictly ascend, so the month loop terminates |
| TimeMarkers.MonthsCover | src/hooks/useTimeMarkers.ts:64-74 | every instant from the first month's 1st to the n-th month's 1st falls in one of those months, whose index it returns |
| TimeMarkers.MonthMarkersCover | src/hooks/useTimeMarkers.ts:64-74 | there is a month marker, and every instant of the span lies in some marker's month |
| TimeMarkers.DayMarkerCount | src/hooks/useTimeMarkers.ts:78-94 | there is one day marker per whole step in the span, the first at minDate with position 0 |
| TimeMarkers.MonthMarkerSpacing | src/hooks/useTimeMarkers.ts:61-73 | month markers sit on the 1st of successive months, one calendar month apart and ascending |
| TimeMarkers.DayMarkerSpacing | src/hooks/useTimeMarkers.ts:84-94 | day markers are exactly step days apart and ascending |
| TimeMarkers.DayMarkerPositions | src/hooks/useTimeMarkers.ts:85-86 | with a positive span every day-marker position lies in [0, 100] |
| TimeMarkers.MonthMarkerPositions | src/hooks/useTimeMarkers.ts:58-66 | with a positive span, the first month marker is at or before 0 (no clamping) and later ones lie in (0, 100] |
| TimeMarkers.PositionInRange | src/hooks/useTimeMarkers.ts:85-86 | with a positive span, an instant inside the span is placed within 0 to 100 percent, and above 0 after minDate |
| TimeMarkers.PositionNotPositive | src/hooks/useTimeMarkers.ts:65-66 | with a positive span, an instant at or before minDate is placed at or before 0 |
| TimeMarkers.MonthMarkersFacts | src/hooks/useTimeMarkers.ts:48-74 | for a positive span: at least one month marker, the first on the 1st of minDate's month at or before position 0, later ones within 0 to 100, and the marked months cover the span |
| TimeMarkers.DayMarkersFacts | src/hooks/useTimeMarkers.ts:76-94 | for a positive span: one day marker per step in the span, the first at minDate and position 0, every position within 0 to 100 |
| TimeMarkers.MonthMarkers | src/hooks/useTimeMarkers.ts:57-74 | the month loop emits the 1st of each month from the first, while not after maxDate, and stops at the first after it |
| TimeMarkers.DayMarkers | src/hooks/useTimeMarkers.ts:76-94 | the day loop emits minDate plus k steps, while not after maxDate, and stops at the first after it |
| TimeMarkers.GenerateMarkers | src/hooks/useTimeMarkers.ts:43-100 | no markers for no items; otherwise month and day markers from the items' own bounds |
| Zoom.MergeConfig | src/hooks/useZoom.ts:25-59 | each field is the caller's when given and the default (0.5, 4, 1.5, 1) otherwise |
| Zoom.DefaultsAreSane | src/contexts/ZoomContext.tsx:26-49 | with no overrides the configuration is the defaults, which keep the level in range |
| Zoom.ZoomedIn | src/hooks/useZoom.ts:65-70 | zooming in never exceeds max nor prev times step |
| Zoom.ZoomedOut | src/hooks/useZoom.ts:72-77 | zooming out never goes below min nor below prev divided by step |
| Zoom.ZoomSaturates | src/contexts/ZoomContext.tsx:51-63 | at max zooming in stays at max, and at min zooming out stays at min |
| Zoom.ZoomStaysInRange | src/hooks/useZoom.ts:65-81 | with step >= 1 and 0 < min <= initial <= max both updaters keep the level in [min, max] |
| Zoom.ZoomInKeepsFloor | src/hooks/useZoom.ts:65-70 | zooming in from a level at least min stays at least min |
| Zoom.ZoomOutKeepsCeiling | src/hooks/useZoom.ts:72-77 | zooming out from a level at most max stays at most max |
| Zoom.ZoomInThenOut | src/hooks/useZoom.ts:65-77 | when prev times step stays within max, zooming out after zooming in gives prev back |
| Zoom.ZoomOutThenIn | src/hooks/useZoom.ts:65-77 | when prev divided by step stays within min, zooming in after zooming out gives prev back |
| Zoom.ZoomInRaises | src/hooks/useZoom.ts:65-70 | with step > 1, zooming in raises a positive level below max and leaves max where it is |
| Zoom.ZoomStaysInRangeIfSane | src/contexts/ZoomContext.tsx:51-67 | the same range preservation, for the provider's transitions |
| Zoom.CanZoomIn | src/hooks/useZoom.ts:84-86 | canZoomIn is level < max: when enabled, zooming in raises a positive level (step > 1); when disabled, zooming in leaves the level at max or snaps it to max |
| Zoom.CanZoomOut | src/hooks/useZoom.ts:88-90 | canZoomOut is level > min: when enabled, zooming out lowers a positive level (step > 1); when disabled, zooming out leaves the level at min or snaps it to min |
| Zoom.ButtonsEnabledIffEffective | src/hooks/useZoom.ts:84-90 | with step > 1, canZoomIn (level < max) holds exactly when zooming in changes the level, and canZoomOut (level > min) exactly when zooming out does |
| Zoom.ZoomInEnabledIffEffective | src/hooks/useZoom.ts:84-86 | with step > 1, canZoomIn holds exactly when zooming in changes the level |
| Zoom.ZoomOutEnabledIffEffective | src/hooks/useZoom.ts:88-90 | with step > 1, canZoomOut holds exactly when zooming out changes the level |
| Zoom.Round | src/hooks/useZoom.ts:94 | Math.round gives the nearest integer, halves rounded up |
| Zoom.NatToString | src/hooks/useZoom.ts:94 | a numeral is a non-empty string of digits |
| Zoom.NatToStringRoundTrip | src/hooks/useZoom.ts:94 | reading a printed number back gives the number, and the numeral has no leading zero |
| Zoom.IntToString | src/hooks/useZoom.ts:94 | the numeral starts with '-' exactly for negative numbers |
| Zoom.ZoomPercentage | src/hooks/useZoom.ts:93-95 | the label is at least two characters, ends in '%', and starts with '-' exactly when level * 100 rounds below 0 |
| Zoom.ZoomPercentageReadsBack | src/hooks/useZoom.ts:93-95 | the label ends in '%' and what precedes it reads back as round(level * 100) |
| Zoom.ZoomController.constructor | src/contexts/ZoomContext.tsx:41-49 | the configuration is the merged one and the level starts at its initial value, in range when the configuration is sane |
| Zoom.ZoomController.ZoomIn | src/contexts/ZoomContext.tsx:51-56 | the level becomes min(prev * step, max), and stays in range |
| Zoom.ZoomController.ZoomOut | src/contexts/ZoomContext.tsx:58-63 | the level becomes max(prev / step, min), and stays in range |
| Zoom.ZoomController.Reset | src/contexts/ZoomContext.tsx:65-67 | the level becomes initial whatever it was |
| Zoom.ZoomController.Controls | src/contexts/ZoomContext.tsx:69-79 | canZoomIn is level < max, canZoomOut is level > min, and the label is the percentage |
| Zoom.Responsive | src/hooks/useZoom.ts:112-122 | zoomed out and zoomed in never both hold, and normal holds exactly when neither does |
| Zoom.ResponsiveExactlyOne | src/hooks/useZoom.ts:112-122 | exactly one of zoomed out (< 0.75), zoomed in (> 1.25) and normal holds, and the category names it |

## Left out

- Dates. String parsing, time zones and daylight saving are not modelled. A date is a valid `CivilDate`, and its instant is a whole number of 86,400,000 ms days after 1970-01-01 at local midnight. Invalid date strings, which give NaN in the source, are excluded by the `AllValid` and `WellFormed` preconditions. Years before 0 are not modelled.
- Marker dates. A marker's `Date` object is represented by its instant.
- `setDate(getDate() + step)` is modelled as adding `step` whole days. This matches the source only when no daylight-saving shift falls inside the step.
- Floating point. IEEE rounding, NaN and Infinity are not modelled. Positions, widths and zoom levels are exact reals.
- TimelineLayout.ComputeLayout requires a non-zero span. The source divides by a zero span and produces NaN or Infinity. A negative span is modelled.
- TimelineLayout.ComputeLayout requires a non-empty palette. The source indexes `colors[index % 0]` and gets `undefined`.
- TimeMarkers.GenerateMarkers requires a non-zero span, for the same reason as the layout.
- Zoom.ZoomController.ZoomOut requires a non-zero step. The source divides by the step.
- Zoom.MergeConfig: a field that is present but `undefined` in the caller's config overrides the default in the source's object spread. The model treats it as absent.
- React plumbing is not modelled: `useMemo`, `useState`, `useCallback`, the context and its provider check. Zoom state is the one field of `ZoomController`, and the setState updaters are the pure functions `ZoomedIn` and `ZoomedOut`.
- Logging is not modelled: the two `console.log` calls in the layout hook have no effect on the result.
- Rendering components, formatters and locale strings are not part of this model. Neither is the label-placement check in the event component, which uses a padding of 40 and only decides where a label is drawn.
- `src/lib/constants.ts` is not modelled as a file. Its numbers appear as constants: the thresholds, the zoom defaults and the buffer.
