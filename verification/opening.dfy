/**
 * Opening ranges and the weekday tests `initMarker` applies to them.
 *
 * Dates are integer timestamps; the local-time calendar of `Date` is a given
 * weekday function (`getDay`, Sunday = 0).
 */
module Opening {
  import opened Js

  type Time = int

  /** `Date.prototype.getDay` on a timestamp: 0 for Sunday up to 6 for Saturday. */
  type Weekday = Time -> int

  /** One contiguous opening interval, `[from, till]` as the opening-hours library returns it. */
  datatype OpeningRange = OpeningRange(from: Time, till: Time)

  /** `DAY_INDEX`: the weekday renumbered so that Monday is 0 and Sunday is 6. */
  function DayIndex(getDay: int): (m: int)
    requires 0 <= getDay < 7
    ensures 0 <= m < 7
  {
    (getDay + 6) % 7
  }

  /** Inverse of `DayIndex`: back from Monday-first to Sunday-first numbering. */
  function SundayFirst(m: int): (d: int)
    requires 0 <= m < 7
    ensures 0 <= d < 7
  {
    (m + 1) % 7
  }

  /** `DayIndex` is a bijection on 0..6 that sends Monday (1) to 0 and Sunday (0) to 6. */
  lemma DayIndexBijective(d: int, m: int)
    requires 0 <= d < 7 && 0 <= m < 7
    ensures SundayFirst(DayIndex(d)) == d && DayIndex(SundayFirst(m)) == m
    ensures DayIndex(d) == DayIndex(m) ==> d == m
    ensures DayIndex(1) == 0 && DayIndex(0) == 6
  {
    assert DayIndex(d) == if d == 0 then 6 else d - 1;
    assert DayIndex(m) == if m == 0 then 6 else m - 1;
    assert SundayFirst(m) == if m == 6 then 0 else m + 1;
    assert SundayFirst(DayIndex(d)) == d;
  }

  /** `openingRangeMatchesDay`: both ends of the range fall on the weekday of `date`. */
  predicate MatchesDay(r: OpeningRange, date: Time, weekday: Weekday)
    ensures MatchesDay(r, date, weekday) ==> weekday(r.from) == weekday(r.till)
  {
    weekday(r.from) == weekday(date) && weekday(r.till) == weekday(date)
  }

  /** `openingRangeContainsTime`, taking moment-range's `contains` as inclusive at both ends. */
  predicate ContainsTime(r: OpeningRange, t: Time)
    ensures ContainsTime(r, t) ==> r.from <= r.till
  {
    r.from <= t <= r.till
  }

  /** Index of the first range that matches the weekday of `date`, or `|ranges|` if none does. */
  function FirstMatch(ranges: seq<OpeningRange>, date: Time, weekday: Weekday): (k: nat)
    ensures k <= |ranges|
    ensures forall j :: 0 <= j < k ==> !MatchesDay(ranges[j], date, weekday)
    ensures k < |ranges| ==> MatchesDay(ranges[k], date, weekday)
  {
    if ranges == [] then 0
    else if MatchesDay(ranges[0], date, weekday) then 0
    else 1 + FirstMatch(ranges[1..], date, weekday)
  }

  /** The range `getOpeningRangeForDate` picks from a defined list: the first one on the weekday of `date`. */
  function TodayRange(ranges: seq<OpeningRange>, date: Time, weekday: Weekday): (o: Option<OpeningRange>)
    ensures o.Some? ==> o.value in ranges && MatchesDay(o.value, date, weekday)
    ensures ranges == [] ==> o.None?
  {
    var k := FirstMatch(ranges, date, weekday);
    if k < |ranges| then Some(ranges[k]) else None
  }

  /**
   * `TodayRange` is undefined exactly when no range lies on the weekday of
   * `date`; otherwise it is a member of the list on that weekday, and every
   * range before it is on another weekday.
   */
  lemma TodayRangeIsFirstMatch(ranges: seq<OpeningRange>, date: Time, weekday: Weekday)
    ensures TodayRange(ranges, date, weekday).None? <==>
      forall i :: 0 <= i < |ranges| ==> !MatchesDay(ranges[i], date, weekday)
    ensures TodayRange(ranges, date, weekday).Some? ==>
      exists k :: 0 <= k < |ranges| && ranges[k] == TodayRange(ranges, date, weekday).value
        && MatchesDay(ranges[k], date, weekday)
        && forall j :: 0 <= j < k ==> !MatchesDay(ranges[j], date, weekday)
  {
    var k := FirstMatch(ranges, date, weekday);
    if k < |ranges| {
      assert ranges[k] == TodayRange(ranges, date, weekday).value;
    }
  }

  /**
   * `getOpeningRangeForDate`: walks a possibly undefined list of ranges with
   * an index and returns the first range on the weekday of `date`.
   */
  method GetOpeningRangeForDate(openingRanges: Option<seq<OpeningRange>>, date: Time, weekday: Weekday)
    returns (r: Option<OpeningRange>)
    ensures openingRanges.None? ==> r.None?
    ensures openingRanges.Some? ==> r == TodayRange(openingRanges.value, date, weekday)
  {
    if openingRanges.Some? {
      var ranges := openingRanges.value;
      var index := 0;
      while index < |ranges|
        invariant 0 <= index <= |ranges|
        invariant forall j :: 0 <= j < index ==> !MatchesDay(ranges[j], date, weekday)
      {
        var openingRange := ranges[index];
        if MatchesDay(openingRange, date, weekday) {
          return Some(openingRange);
        }
        index := index + 1;
      }
    }
    return None;
  }
}
