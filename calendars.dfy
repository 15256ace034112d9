/**
 * The calendar facilities the picker relies on, reduced to what the picker
 * observes of them. A `Date` is kept already resolved into the fields the
 * picker reads; a `Calendar` is the pair of maximum ranges that
 * `NSCalendar.maximumRange(of:)` reports for months and years, plus the
 * locale the picker may assign to it; `DateFrom` is `Calendar.date(from:)`,
 * a partial constructor from optional components.
 */
module Calendars {
  import opened Wrappers

  /** A point in time, as the picker's calendar decomposes it. */
  datatype Date = Date(year: int, month: int, day: int, hour: int)

  /** An `NSRange`: the first value and how many values follow it. */
  datatype Range = Range(location: int, length: nat) {
    predicate Contains(v: int) {
      location <= v < location + length
    }
  }

  datatype Locale = Locale(identifier: string)

  /** A calendar: its maximum month and year ranges and its locale. */
  datatype Calendar = Calendar(monthRange: Range, yearRange: Range, locale: Option<Locale>)

  /** `DateComponents` restricted to the fields the picker sets. */
  datatype DateComponents = DateComponents(year: Option<int>, month: Option<int>, hour: Option<int>)

  /** `components([.year, .month], from: d)`: the year and month of `d`, nothing else. */
  function YearMonthComponents(d: Date): DateComponents {
    DateComponents(Some(d.year), Some(d.month), None)
  }

  /**
   * `calendar.date(from: c)`. A missing year or month is taken to be the
   * first value of its range, a missing hour midnight, and the day is the
   * first of the month. Construction fails when the resolved year or month
   * lies outside the calendar's maximum range or the hour is not 0..23.
   */
  function DateFrom(cal: Calendar, c: DateComponents): (r: Option<Date>)
    ensures r.Some? <==>
      cal.yearRange.Contains(c.year.GetOr(cal.yearRange.location)) &&
      cal.monthRange.Contains(c.month.GetOr(cal.monthRange.location)) &&
      0 <= c.hour.GetOr(0) < 24
    ensures r.Some? ==> r.value.day == 1
    ensures r.Some? && c.year.Some? ==> r.value.year == c.year.value
    ensures r.Some? && c.month.Some? ==> r.value.month == c.month.value
    ensures r.Some? && c.hour.Some? ==> r.value.hour == c.hour.value
  {
    var year := c.year.GetOr(cal.yearRange.location);
    var month := c.month.GetOr(cal.monthRange.location);
    var hour := c.hour.GetOr(0);
    if cal.yearRange.Contains(year) && cal.monthRange.Contains(month) && 0 <= hour < 24 then
      Some(Date(year, month, 1, hour))
    else
      None
  }
}
