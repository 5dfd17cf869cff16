/** Calendar dates and the "published today" test shared by the RSS
    readers (`is_published_today`): a feed entry's `published_parsed` time
    tuple is turned into a `datetime`, and its date compared with today's. */
module Dates {
  import opened Wrappers

  datatype Date = Date(year: int, month: int, day: int)

  predicate IsLeapYear(year: int) {
    year % 4 == 0 && (year % 100 != 0 || year % 400 == 0)
  }

  function DaysInMonth(year: int, month: int): int
    requires 1 <= month <= 12
  {
    if month == 2 then (if IsLeapYear(year) then 29 else 28)
    else if month == 4 || month == 6 || month == 9 || month == 11 then 30
    else 31
  }

  /** The checks `datetime(year, month, day[, hour[, minute[, second]]])`
      makes before it accepts its arguments (`MINYEAR` is 1, `MAXYEAR` 9999). */
  predicate ValidDateTime(fields: seq<int>)
    requires 3 <= |fields| <= 6
  {
    && 1 <= fields[0] <= 9999
    && 1 <= fields[1] <= 12
    && 1 <= fields[2] <= DaysInMonth(fields[0], fields[1])
    && (|fields| > 3 ==> 0 <= fields[3] <= 23)
    && (|fields| > 4 ==> 0 <= fields[4] <= 59)
    && (|fields| > 5 ==> 0 <= fields[5] <= 59)
  }

  /** `is_published_today(published_time)`: a missing or empty time tuple,
      one too short for `datetime` (TypeError) or one `datetime` rejects
      (ValueError) is not today; otherwise the date part is compared. */
  function PublishedToday(published: Option<seq<int>>, today: Date): (b: bool)
    ensures published.None? || published == Some([]) ==> !b
    ensures b <==> (
      && published.Some? && |published.value| >= 3
      && ValidDateTime(published.value[..if |published.value| < 6 then |published.value| else 6])
      && today == Date(published.value[0], published.value[1], published.value[2]))
  {
    match published
    case None => false
    case Some(t) =>
      if t == [] then false
      else
        var fields := t[..if |t| < 6 then |t| else 6];
        if |fields| < 3 then false
        else ValidDateTime(fields) && Date(fields[0], fields[1], fields[2]) == today
  }

  /** Any well-formed time of today's date (a feed's 9-field time tuple)
      counts as published today, and no time of another date does. */
  lemma PublishedTodayOnlyToday(today: Date, hour: int, minute: int, second: int, rest: seq<int>, other: Date)
    requires ValidDateTime([today.year, today.month, today.day, hour, minute, second])
    requires other != today
    ensures PublishedToday(Some([today.year, today.month, today.day, hour, minute, second] + rest), today)
    ensures !PublishedToday(Some([today.year, today.month, today.day, hour, minute, second] + rest), other)
  {
    var t := [today.year, today.month, today.day, hour, minute, second] + rest;
    assert t[..6] == [today.year, today.month, today.day, hour, minute, second];
  }
}
