/** The zoom state machine of src/hooks/useZoom.ts, repeated in
    src/contexts/ZoomContext.tsx: a zoom level bounded by a configuration,
    multiplied or divided by a step, and the values derived from it. */
module Zoom {
  import opened TimelineItems
  import opened Numbers

  datatype ZoomConfig = ZoomConfig(min: real, max: real, step: real, initial: real)

  /** A Partial<ZoomConfig>: an absent field is None. */
  datatype PartialZoomConfig = PartialZoomConfig(
    min: Option<real>, max: Option<real>, step: Option<real>, initial: Option<real>)

  const DefaultConfig := ZoomConfig(0.5, 4.0, 1.5, 1.0)

  function OrElse(o: Option<real>, d: real): real {
    match o
    case Some(v) => v
    case None => d
  }

  /** The defaults overridden by whatever fields the caller gave. */
  function MergeConfig(partial: PartialZoomConfig): (c: ZoomConfig)
    ensures partial.min.None? ==> c.min == DefaultConfig.min
    ensures partial.max.None? ==> c.max == DefaultConfig.max
    ensures partial.step.None? ==> c.step == DefaultConfig.step
    ensures partial.initial.None? ==> c.initial == DefaultConfig.initial
    ensures partial.min.Some? ==> c.min == partial.min.value
    ensures partial.max.Some? ==> c.max == partial.max.value
    ensures partial.step.Some? ==> c.step == partial.step.value
    ensures partial.initial.Some? ==> c.initial == partial.initial.value
  {
    ZoomConfig(
      OrElse(partial.min, DefaultConfig.min),
      OrElse(partial.max, DefaultConfig.max),
      OrElse(partial.step, DefaultConfig.step),
      OrElse(partial.initial, DefaultConfig.initial))
  }

  /** A configuration under which the level stays in [min, max]: positive bounds in order, a step
      that does not shrink, and a starting level between the bounds. */
  predicate SaneConfig(c: ZoomConfig) {
    0.0 < c.min <= c.initial <= c.max && c.step >= 1.0
  }

  /** With no overrides the configuration is the default one, and it is sane. */
  lemma DefaultsAreSane()
    ensures MergeConfig(PartialZoomConfig(None, None, None, None)) == DefaultConfig
    ensures SaneConfig(DefaultConfig)
  {
  }

  /** The updater handleZoomIn passes to setZoomLevel. */
  function ZoomedIn(prev: real, c: ZoomConfig): (next: real)
    ensures next <= c.max
    ensures next <= prev * c.step
  {
    MinReal(prev * c.step, c.max)
  }

  /** The updater handleZoomOut passes to setZoomLevel. */
  function ZoomedOut(prev: real, c: ZoomConfig): (next: real)
    requires c.step != 0.0
    ensures next >= c.min
    ensures next >= prev / c.step
  {
    MaxReal(prev / c.step, c.min)
  }

  /** Zooming in at max stays at max, and zooming out at min stays at min. */
  lemma ZoomSaturates(c: ZoomConfig)
    requires c.min >= 0.0 && c.max >= 0.0 && c.step >= 1.0
    ensures ZoomedIn(c.max, c) == c.max
    ensures ZoomedOut(c.min, c) == c.min
  {
    assert c.max * c.step >= c.max * 1.0;
    assert c.min / c.step <= c.min;
  }

  /** Both updaters keep a level within [min, max] under a sane configuration. */
  lemma ZoomStaysInRange(prev: real, c: ZoomConfig)
    requires SaneConfig(c)
    requires c.min <= prev <= c.max
    ensures c.min <= ZoomedIn(prev, c) <= c.max
    ensures c.min <= ZoomedOut(prev, c) <= c.max
  {
    ZoomInKeepsFloor(prev, c);
    ZoomOutKeepsCeiling(prev, c);
  }

  /** Zooming in from at least min stays at least min. */
  lemma ZoomInKeepsFloor(prev: real, c: ZoomConfig)
    requires 0.0 <= c.min <= prev && c.min <= c.max && c.step >= 1.0
    ensures c.min <= ZoomedIn(prev, c)
  {
    ScalingUpKeepsOrder(prev, c.step);
    ClampAtLeast(c.min, prev * c.step, c.max);
  }

  /** Zooming out from at most max stays at most max. */
  lemma ZoomOutKeepsCeiling(prev: real, c: ZoomConfig)
    requires 0.0 <= prev <= c.max && c.min <= c.max && c.step >= 1.0
    ensures ZoomedOut(prev, c) <= c.max
  {
    ScalingDownKeepsOrder(prev, c.step);
    ClampAtMost(c.max, prev / c.step, c.min);
  }

  lemma ScalingUpKeepsOrder(x: real, s: real)
    requires x >= 0.0 && s >= 1.0
    ensures x <= x * s
  {
    assert x * s - x == x * (s - 1.0);
  }

  lemma ScalingDownKeepsOrder(x: real, s: real)
    requires x >= 0.0 && s >= 1.0
    ensures x / s <= x
  {
    var q := x / s;
    assert q * s == x;
    ScalingUpKeepsOrder(q, s);
  }

  lemma ClampAtLeast(lo: real, target: real, bound: real)
    requires lo <= target && lo <= bound
    ensures lo <= MinReal(target, bound)
  {
  }

  lemma ClampAtMost(hi: real, target: real, bound: real)
    requires target <= hi && bound <= hi
    ensures MaxReal(target, bound) <= hi
  {
  }

  /** Away from the bounds, zooming out undoes zooming in. */
  lemma ZoomInThenOut(prev: real, c: ZoomConfig)
    requires SaneConfig(c)
    requires c.min <= prev && prev * c.step <= c.max
    ensures ZoomedOut(ZoomedIn(prev, c), c) == prev
  {
    assert ZoomedIn(prev, c) == prev * c.step;
    assert prev * c.step / c.step == prev;
  }

  /** Away from the bounds, zooming in undoes zooming out. */
  lemma ZoomOutThenIn(prev: real, c: ZoomConfig)
    requires SaneConfig(c)
    requires prev <= c.max && c.min <= prev / c.step
    ensures ZoomedIn(ZoomedOut(prev, c), c) == prev
  {
    assert ZoomedOut(prev, c) == prev / c.step;
    assert prev / c.step * c.step == prev;
  }

  /** canZoomIn: the level is below max. Pressing an enabled button raises a positive level;
      a disabled one leaves the level at, or snaps it to, max. */
  predicate CanZoomIn(level: real, c: ZoomConfig)
    ensures 0.0 < level && c.step > 1.0 && CanZoomIn(level, c) ==> ZoomedIn(level, c) > level
    ensures 0.0 <= level && c.step >= 1.0 && !CanZoomIn(level, c) ==> ZoomedIn(level, c) == c.max
  {
    if 0.0 < level < c.max && c.step > 1.0 then
      ZoomInRaises(level, c);
      true
    else if 0.0 <= level && c.max <= level && c.step >= 1.0 then
      ScalingUpKeepsOrder(level, c.step);
      false
    else
      level < c.max
  }

  /** canZoomOut: the level is above min. Pressing an enabled button lowers a positive level;
      a disabled one leaves the level at, or snaps it to, min. */
  predicate CanZoomOut(level: real, c: ZoomConfig)
    ensures 0.0 < level && c.step > 1.0 && CanZoomOut(level, c) ==> ZoomedOut(level, c) < level
    ensures 0.0 <= level && c.step >= 1.0 && !CanZoomOut(level, c) ==> ZoomedOut(level, c) == c.min
  {
    if 0.0 < level && c.min < level && c.step > 1.0 then
      DivisionShrinks(level, c.step);
      true
    else if 0.0 <= level && level <= c.min && c.step >= 1.0 then
      ScalingDownKeepsOrder(level, c.step);
      false
    else
      level > c.min
  }

  /** With a step above 1, a zoom button is enabled exactly when pressing it changes the level. */
  lemma ButtonsEnabledIffEffective(level: real, c: ZoomConfig)
    requires SaneConfig(c) && c.step > 1.0
    requires c.min <= level <= c.max
    ensures CanZoomIn(level, c) <==> ZoomedIn(level, c) != level
    ensures CanZoomOut(level, c) <==> ZoomedOut(level, c) != level
  {
    ZoomInEnabledIffEffective(level, c);
    ZoomOutEnabledIffEffective(level, c);
  }

  lemma ZoomInEnabledIffEffective(level: real, c: ZoomConfig)
    requires SaneConfig(c) && c.step > 1.0
    requires c.min <= level <= c.max
    ensures CanZoomIn(level, c) <==> ZoomedIn(level, c) != level
  {
    ZoomInRaises(level, c);
  }

  /** Zooming in raises a positive level below max, and leaves a level at max where it is. */
  lemma ZoomInRaises(prev: real, c: ZoomConfig)
    requires 0.0 < prev <= c.max && c.step > 1.0
    ensures prev < c.max ==> ZoomedIn(prev, c) > prev
    ensures prev == c.max ==> ZoomedIn(prev, c) == prev
  {
    MultiplicationGrows(prev, c.step);
    ClampChangesIffBelow(prev, prev * c.step, c.max);
  }

  lemma ZoomOutEnabledIffEffective(level: real, c: ZoomConfig)
    requires SaneConfig(c) && c.step > 1.0
    requires c.min <= level <= c.max
    ensures CanZoomOut(level, c) <==> ZoomedOut(level, c) != level
  {
    DivisionShrinks(level, c.step);
    ClampChangesIffAbove(level, level / c.step, c.min);
  }

  /** Moving up to `target`, capped at `bound`, changes a level at or below the bound exactly when
      it is below the bound. */
  lemma ClampChangesIffBelow(level: real, target: real, bound: real)
    requires level < target && level <= bound
    ensures level < bound <==> MinReal(target, bound) != level
  {
  }

  /** Moving down to `target`, floored at `bound`, changes a level at or above the bound exactly
      when it is above the bound. */
  lemma ClampChangesIffAbove(level: real, target: real, bound: real)
    requires target < level && bound <= level
    ensures level > bound <==> MaxReal(target, bound) != level
  {
  }

  lemma MultiplicationGrows(x: real, s: real)
    requires x > 0.0 && s > 1.0
    ensures x < x * s
  {
    assert x * s - x == x * (s - 1.0);
    assert x * (s - 1.0) > 0.0;
  }

  lemma DivisionShrinks(x: real, s: real)
    requires x > 0.0 && s > 1.0
    ensures x / s < x
  {
    var q := x / s;
    assert q * s == x;
    assert q > 0.0;
    MultiplicationGrows(q, s);
  }

  /** Math.round: the nearest integer, halves rounded up. */
  function Round(x: real): (n: int)
    ensures x - 0.5 < n as real <= x + 0.5
  {
    (x + 0.5).Floor
  }

  predicate IsDigit(ch: char) { '0' <= ch <= '9' }

  function DigitChar(d: int): (ch: char)
    requires 0 <= d < 10
    ensures IsDigit(ch)
  {
    ('0' as int + d) as char
  }

  function DigitValue(ch: char): (d: int)
    requires IsDigit(ch)
    ensures 0 <= d < 10
  {
    ch as int - '0' as int
  }

  /** The decimal numeral of n, as a template literal prints it. */
  function NatToString(n: nat): (s: string)
    ensures |s| > 0
    ensures forall i :: 0 <= i < |s| ==> IsDigit(s[i])
    decreases n
  {
    if n < 10 then [DigitChar(n)] else NatToString(n / 10) + [DigitChar(n % 10)]
  }

  /** The value of a string of decimal digits. */
  function ParseNat(s: string): nat
    requires forall i :: 0 <= i < |s| ==> IsDigit(s[i])
    decreases |s|
  {
    if |s| == 0 then 0
    else
      assert forall i :: 0 <= i < |s| - 1 ==> s[..|s| - 1][i] == s[i];
      ParseNat(s[..|s| - 1]) * 10 + DigitValue(s[|s| - 1])
  }

  /** Printing a natural number and reading it back gives the number, and the numeral has no
      leading zero unless it is "0". */
  lemma {:induction false} NatToStringRoundTrip(n: nat)
    ensures ParseNat(NatToString(n)) == n
    ensures NatToString(n)[0] != '0' || n == 0
    decreases n
  {
    if n >= 10 {
      NatToStringRoundTrip(n / 10);
      var s := NatToString(n);
      assert s[..|s| - 1] == NatToString(n / 10);
    }
  }

  /** The numeral of an integer: a minus sign before the numeral of its magnitude when negative. */
  function IntToString(i: int): (s: string)
    ensures |s| > 0
    ensures s[0] == '-' <==> i < 0
  {
    if i < 0 then "-" + NatToString(-i) else NatToString(i)
  }

  /** zoomPercentage: the level times 100, rounded, followed by "%". The label is negative
      exactly when the level rounds to below 0 percent. */
  function ZoomPercentage(level: real): (s: string)
    ensures |s| >= 2 && s[|s| - 1] == '%'
    ensures s[0] == '-' <==> level * 100.0 < -0.5
  {
    IntToString(Round(level * 100.0)) + "%"
  }

  /** zoomPercentage ends in "%" and what precedes it reads back as round(level * 100). */
  lemma ZoomPercentageReadsBack(level: real)
    ensures var s := ZoomPercentage(level);
      var n := Round(level * 100.0);
      && |s| >= 2 && s[|s| - 1] == '%'
      && (n >= 0 ==> s[..|s| - 1] == NatToString(n) && ParseNat(s[..|s| - 1]) == n)
      && (n < 0 ==> s[0] == '-' && s[1..|s| - 1] == NatToString(-n) && ParseNat(s[1..|s| - 1]) == -n)
  {
    var s := ZoomPercentage(level);
    var n := Round(level * 100.0);
    if n >= 0 {
      assert s[..|s| - 1] == NatToString(n);
      NatToStringRoundTrip(n);
    } else {
      assert s[1..|s| - 1] == NatToString(-n);
      NatToStringRoundTrip(-n);
    }
  }

  /** The zoom state of useZoom / ZoomProvider: the merged configuration and the current level. */
  class ZoomController {
    const config: ZoomConfig
    var level: real

    /** The level stays within the configured bounds. */
    predicate Valid()
      reads this
    {
      SaneConfig(config) && config.min <= level <= config.max
    }

    /** useState(zoomConfig.initial) after merging the caller's overrides into the defaults. */
    constructor(partial: PartialZoomConfig)
      ensures config == MergeConfig(partial)
      ensures level == config.initial
      ensures SaneConfig(config) ==> Valid()
    {
      config := MergeConfig(partial);
      level := MergeConfig(partial).initial;
    }

    /** handleZoomIn. */
    method ZoomIn()
      modifies this
      ensures level == ZoomedIn(old(level), config)
      ensures old(Valid()) ==> Valid()
    {
      ZoomStaysInRangeIfSane(level, config);
      level := ZoomedIn(level, config);
    }

    /** handleZoomOut. */
    method ZoomOut()
      requires config.step != 0.0
      modifies this
      ensures level == ZoomedOut(old(level), config)
      ensures old(Valid()) ==> Valid()
    {
      ZoomStaysInRangeIfSane(level, config);
      level := ZoomedOut(level, config);
    }

    /** resetZoom. */
    method Reset()
      modifies this
      ensures level == config.initial
      ensures SaneConfig(config) ==> Valid()
    {
      level := config.initial;
    }

    /** canZoomIn, canZoomOut and zoomPercentage of the current level. */
    method Controls() returns (canZoomIn: bool, canZoomOut: bool, zoomPercentage: string)
      ensures canZoomIn <==> CanZoomIn(level, config)
      ensures canZoomOut <==> CanZoomOut(level, config)
      ensures zoomPercentage == ZoomPercentage(level)
    {
      canZoomIn := level < config.max;
      canZoomOut := level > config.min;
      zoomPercentage := ZoomPercentage(level);
    }
  }

  lemma ZoomStaysInRangeIfSane(prev: real, c: ZoomConfig)
    ensures SaneConfig(c) && c.min <= prev <= c.max ==>
      c.min <= ZoomedIn(prev, c) <= c.max && c.min <= ZoomedOut(prev, c) <= c.max
  {
    if SaneConfig(c) && c.min <= prev <= c.max {
      ZoomStaysInRange(prev, c);
    }
  }

  /** The flags useZoomResponsive derives from a zoom level. */
  datatype ZoomResponse = ZoomResponse(isZoomedOut: bool, isZoomedIn: bool, isNormalZoom: bool, zoomCategory: string)

  /** The three flags partition the zoom levels: normal is neither zoomed out nor zoomed in. */
  function Responsive(zoomLevel: real): (r: ZoomResponse)
    ensures !(r.isZoomedOut && r.isZoomedIn)
    ensures r.isNormalZoom <==> !r.isZoomedOut && !r.isZoomedIn
  {
    ZoomResponse(
      zoomLevel < 0.75,
      zoomLevel > 1.25,
      zoomLevel >= 0.75 && zoomLevel <= 1.25,
      if zoomLevel < 0.75 then "out" else if zoomLevel > 1.25 then "in" else "normal")
  }

  /** Exactly one flag holds, and the category names it. */
  lemma ResponsiveExactlyOne(zoomLevel: real)
    ensures var r := Responsive(zoomLevel);
      && (r.isZoomedOut || r.isZoomedIn || r.isNormalZoom)
      && !(r.isZoomedOut && r.isZoomedIn)
      && !(r.isZoomedOut && r.isNormalZoom)
      && !(r.isZoomedIn && r.isNormalZoom)
      && (r.zoomCategory == "out" <==> r.isZoomedOut)
      && (r.zoomCategory == "in" <==> r.isZoomedIn)
      && (r.zoomCategory == "normal" <==> r.isNormalZoom)
  {
  }
}
