/**
 * Calendar dates as day numbers.
 *
 * A date is the number of days since 1970-01-01, which was a Thursday, so
 * weekday arithmetic is plain modular arithmetic. Weeks start on Monday, as
 * every `startOfWeek(..., { weekStartsOn: 1 })` call of the calendar asks.
 * Month arithmetic (`startOfMonth`, `addMonths`) depends on month lengths and
 * is not modelled: it is a parameter, `MonthArith`, whose only assumed laws
 * are stated by `Lawful`.
 */
module Dates {

  /** Days since 1970-01-01. */
  type Day = int

  /** The weekday of `d`: 0 is Monday, 5 Saturday, 6 Sunday. */
  function DayOfWeek(d: Day): (w: nat)
    ensures w < 7
    ensures (d + 3 - w) % 7 == 0
  {
    (d + 3) % 7
  }

  /** date-fns `isWeekend`: Saturday or Sunday. */
  predicate IsWeekend(d: Day) {
    DayOfWeek(d) >= 5
  }

  /** date-fns `startOfWeek(d, { weekStartsOn: 1 })`: the Monday of the week holding `d`. */
  function StartOfWeek(d: Day): (monday: Day)
    ensures DayOfWeek(monday) == 0
    ensures monday <= d < monday + 7
  {
    d - DayOfWeek(d)
  }

  /** Shifting a date by whole weeks keeps its weekday. */
  lemma WeekdayPeriodic(d: Day, k: int)
    ensures DayOfWeek(d + 7 * k) == DayOfWeek(d)
  {
    assert (d + 7 * k + 3) % 7 == (d + 3) % 7 by {
      assert d + 7 * k + 3 == (d + 3) + 7 * k;
    }
  }

  /** Days `monday + 0 .. monday + 4` are weekdays and `monday + 5`, `monday + 6` are not. */
  lemma WeekdaysOfWeek(monday: Day, i: int)
    requires DayOfWeek(monday) == 0 && 0 <= i < 7
    ensures DayOfWeek(monday + i) == i
    ensures IsWeekend(monday + i) <==> i >= 5
  {
  }

  /** Every week in the window starts on a Monday, so none of them is a weekend day. */
  lemma StartOfWeekIsWeekday(d: Day)
    ensures !IsWeekend(StartOfWeek(d))
  {
  }

  /** A strictly increasing sequence of dates. */
  predicate Increasing(s: seq<Day>) {
    forall i, j :: 0 <= i < j < |s| ==> s[i] < s[j]
  }

  /**
   * The two month operations of date-fns the calendar uses. They are kept
   * abstract: `startOfMonth(d)` is the first day of the month holding `d` and
   * `addMonths(d, n)` the same day-of-month `n` months later (clamped to the
   * month's end).
   */
  datatype MonthArith = MonthArith(startOfMonth: Day -> Day, addMonths: (Day, int) -> Day)

  /** What the model assumes of the month operations. */
  ghost predicate Lawful(cal: MonthArith) {
    && (forall d :: cal.startOfMonth(d) <= d)
    && (forall d :: cal.addMonths(d, 0) == d)
    && (forall d, i, j :: i < j ==> cal.addMonths(d, i) < cal.addMonths(d, j))
  }
}
