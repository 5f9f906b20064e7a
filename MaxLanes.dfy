/** src/hooks/useMaxLanes.ts: the number of lanes a layout occupies. */
module LaneCount {
  import opened TimelineItems

  /** Math.max(...lanes, 0): the largest lane index, 0 for an empty list. */
  function LargestLane(items: seq<ProcessedItem>): (m: nat)
    ensures forall i :: 0 <= i < |items| ==> items[i].lane <= m
    ensures m == 0 || exists i :: 0 <= i < |items| && items[i].lane == m
    decreases |items|
  {
    if |items| == 0 then 0
    else
      var rest := LargestLane(items[..|items| - 1]);
      var last := items[|items| - 1].lane;
      assert forall i :: 0 <= i < |items| - 1 ==> items[i] == items[..|items| - 1][i];
      if last > rest then last else rest
  }

  /** 0 for no items, otherwise the largest lane plus one. */
  function MaxLanes(items: seq<ProcessedItem>): (n: nat)
    ensures |items| == 0 <==> n == 0
    ensures forall i :: 0 <= i < |items| ==> items[i].lane < n
    ensures |items| > 0 ==> exists i :: 0 <= i < |items| && items[i].lane == n - 1
  {
    if |items| == 0 then 0 else LargestLane(items) + 1
  }

  /** Adding one item raises the lane count to cover its lane, and no further. */
  lemma MaxLanesAppend(items: seq<ProcessedItem>, p: ProcessedItem)
    ensures MaxLanes(items + [p]) == if MaxLanes(items) > p.lane + 1 then MaxLanes(items) else p.lane + 1
  {
    assert (items + [p])[..|items|] == items;
  }
}
