/** The shapes of src/hooks/useTimelineLayout.ts: the input item and the
    laid-out item every other hook consumes. */
module TimelineItems {
  import opened Calendar

  datatype Option<T> = None | Some(value: T)

  /** An input event; `start` and `end` are the parsed "YYYY-MM-DD" strings. */
  datatype TimelineItem = TimelineItem(id: int, start: CivilDate, end: CivilDate, name: string)

  /** An event after layout: the input fields, the instants of its dates
      (local midnight, in ms), its lane, its duration in ms, its normalised
      position and width, and its colour. */
  datatype ProcessedItem = ProcessedItem(
    id: int,
    start: CivilDate,
    end: CivilDate,
    name: string,
    startDate: int,
    endDate: int,
    lane: nat,
    duration: int,
    position: real,
    width: real,
    color: string)

  /** A character outside the Basic Multilingual Plane, which UTF-16 stores as a surrogate pair. */
  predicate Astral(ch: char) {
    ch as int >= 0x1_0000
  }

  /** String.prototype.length: the number of UTF-16 code units, two for each astral character. */
  function Utf16Length(s: string): (n: nat)
    ensures |s| <= n <= 2 * |s|
    ensures (forall i :: 0 <= i < |s| ==> !Astral(s[i])) ==> n == |s|
    ensures (forall i :: 0 <= i < |s| ==> Astral(s[i])) ==> n == 2 * |s|
    decreases |s|
  {
    if s == [] then 0
    else
      var init := s[..|s| - 1];
      assert forall i :: 0 <= i < |init| ==> init[i] == s[i];
      Utf16Length(init) + (if Astral(s[|s| - 1]) then 2 else 1)
  }

  predicate ValidItem(item: TimelineItem) {
    ValidDate(item.start) && ValidDate(item.end)
  }

  /** The dates of a processed item are valid and its instants are theirs. */
  predicate WellFormed(p: ProcessedItem) {
    ValidDate(p.start) && ValidDate(p.end)
    && p.startDate == Instant(p.start) && p.endDate == Instant(p.end)
  }
}
