/**
 * The columns of the calendar grid (`generatePeriods` in
 * src/components/CalendarView.tsx) and the navigation step between windows.
 *
 * Day unit: the 7 x N days of the N weeks starting at the Monday of the
 * reference date's week, without Saturdays and Sundays when weekends are
 * hidden. Week unit: the Mondays from that same Monday up to (excluding) the
 * reference date plus N months. Month unit: 12 month starts from the
 * reference date's month.
 */
module Periods {
  import opened Dates
  import opened Types

  /** Weeks in a day-unit window: the `switch (viewMode)` whose default is 2. */
  function WeeksShown(mode: ViewMode): (n: nat)
    ensures 2 <= n <= 4
    ensures n == 3 <==> mode == ThreeW
    ensures n == 4 <==> mode == FourW
  {
    match mode
    case ThreeW => 3
    case FourW => 4
    case _ => 2
  }

  /** Months in a week-unit window: the `switch (viewMode)` whose default is 2. */
  function MonthsShown(mode: ViewMode): (n: nat)
    ensures 2 <= n <= 4
    ensures n == 3 <==> mode == ThreeM
    ensures n == 4 <==> mode == FourM
  {
    match mode
    case ThreeM => 3
    case FourM => 4
    case _ => 2
  }

  // ---------------------------------------------------------------- day unit

  /** The `n` consecutive days from `first`. */
  function ConsecutiveDays(first: Day, n: nat): (r: seq<Day>)
    ensures |r| == n
    ensures forall i :: 0 <= i < n ==> r[i] == first + i
  {
    seq(n, i => first + i)
  }

  /** `days.filter(day => !isWeekend(day))`. */
  function WithoutWeekends(days: seq<Day>): (r: seq<Day>)
    ensures |r| <= |days|
  {
    if days == [] then []
    else (if IsWeekend(days[0]) then [] else [days[0]]) + WithoutWeekends(days[1..])
  }

  /** The filter keeps exactly the days that are not weekend days. */
  lemma {:induction false} WithoutWeekendsKeeps(days: seq<Day>, d: Day)
    ensures d in WithoutWeekends(days) <==> d in days && !IsWeekend(d)
  {
    if days != [] {
      WithoutWeekendsKeeps(days[1..], d);
      assert days == [days[0]] + days[1..];
    }
  }

  lemma {:induction false} WithoutWeekendsAppend(a: seq<Day>, b: seq<Day>)
    ensures WithoutWeekends(a + b) == WithoutWeekends(a) + WithoutWeekends(b)
  {
    if a == [] {
      assert a + b == b;
    } else {
      assert (a + b)[1..] == a[1..] + b;
      WithoutWeekendsAppend(a[1..], b);
    }
  }

  /** Dropping weekends keeps the remaining days in increasing order. */
  lemma {:induction false} WithoutWeekendsIncreasing(days: seq<Day>)
    requires Increasing(days)
    ensures Increasing(WithoutWeekends(days))
  {
    if days != [] {
      WithoutWeekendsIncreasing(days[1..]);
      var rest := WithoutWeekends(days[1..]);
      forall k | 0 <= k < |rest| ensures days[0] < rest[k] {
        assert rest[k] in rest;
        WithoutWeekendsKeeps(days[1..], rest[k]);
        var m :| 0 <= m < |days[1..]| && days[1..][m] == rest[k];
        assert days[1..][m] == days[m + 1];
      }
    }
  }

  /** The days of one Monday-to-Sunday week, weekends dropped, are Monday to Friday. */
  lemma WeekWithoutWeekend(monday: Day)
    requires DayOfWeek(monday) == 0
    ensures WithoutWeekends(ConsecutiveDays(monday, 7)) == ConsecutiveDays(monday, 5)
  {
    var week := ConsecutiveDays(monday, 7);
    forall i | 0 <= i < 7 ensures IsWeekend(week[i]) <==> i >= 5 {
      WeekdaysOfWeek(monday, i);
    }
    assert week == [monday, monday + 1, monday + 2, monday + 3, monday + 4, monday + 5, monday + 6];
    calc {
      WithoutWeekends(week);
      [monday] + WithoutWeekends(week[1..]);
      [monday] + ([monday + 1] + WithoutWeekends(week[2..]));
      [monday] + ([monday + 1] + ([monday + 2] + WithoutWeekends(week[3..])));
      [monday] + ([monday + 1] + ([monday + 2] + ([monday + 3] + WithoutWeekends(week[4..]))));
      [monday] + ([monday + 1] + ([monday + 2] + ([monday + 3] + ([monday + 4] + WithoutWeekends(week[5..])))));
      { assert WithoutWeekends(week[5..]) == []; }
      [monday, monday + 1, monday + 2, monday + 3, monday + 4];
    }
  }

  /** `a + b` consecutive days are `a` of them followed by the `b` after those. */
  lemma ConsecutiveDaysSplit(first: Day, a: nat, b: nat)
    ensures ConsecutiveDays(first, a + b) == ConsecutiveDays(first, a) + ConsecutiveDays(first + a, b)
  {
    var whole, front, back := ConsecutiveDays(first, a + b), ConsecutiveDays(first, a), ConsecutiveDays(first + a, b);
    forall i | 0 <= i < a + b
      ensures whole[i] == (front + back)[i]
    {
      if i >= a {
        assert (front + back)[i] == back[i - a];
      }
    }
  }

  /** N whole weeks from a Monday hold 5 x N weekdays. */
  lemma {:induction false} WeekdaysInWeeks(monday: Day, n: nat)
    requires DayOfWeek(monday) == 0
    ensures |WithoutWeekends(ConsecutiveDays(monday, 7 * n))| == 5 * n
  {
    if n > 0 {
      var m := 7 * (n - 1);
      var last := monday + m;
      var before, week := ConsecutiveDays(monday, m), ConsecutiveDays(last, 7);
      ConsecutiveDaysSplit(monday, m, 7);
      assert m + 7 == 7 * n;
      WithoutWeekendsAppend(before, week);
      WeekdayPeriodic(monday, n - 1);
      WeekWithoutWeekend(last);
      WeekdaysInWeeks(monday, n - 1);
      var kept, keptWeek := WithoutWeekends(before), WithoutWeekends(week);
      assert |kept| == 5 * (n - 1);
      assert |keptWeek| == 5;
      assert WithoutWeekends(ConsecutiveDays(monday, 7 * n)) == kept + keptWeek;
    }
  }

  /** The day-unit columns. */
  function DayWindow(viewDate: Day, mode: ViewMode, showWeekends: bool): seq<Day> {
    var all := ConsecutiveDays(StartOfWeek(viewDate), 7 * WeeksShown(mode));
    if showWeekends then all else WithoutWeekends(all)
  }

  /** The nested loops of the day branch of `generatePeriods`, then its weekend filter. */
  method DayPeriods(viewDate: Day, mode: ViewMode, showWeekends: bool) returns (periods: seq<Day>)
    ensures periods == DayWindow(viewDate, mode, showWeekends)
  {
    var currentWeekStart := StartOfWeek(viewDate);
    var totalWeeks := WeeksShown(mode);
    var allDays: seq<Day> := [];
    for week := 0 to totalWeeks
      invariant allDays == ConsecutiveDays(currentWeekStart, 7 * week)
    {
      var weekStart := currentWeekStart + 7 * week;
      for day := 0 to 7
        invariant allDays == ConsecutiveDays(currentWeekStart, 7 * week + day)
      {
        allDays := allDays + [weekStart + day];
      }
    }
    periods := if showWeekends then allDays else WithoutWeekends(allDays);
  }

  /**
   * The day window: it starts at the Monday of the reference week, holds 7 x N
   * consecutive days (N = 2, 3 or 4 by view mode), and with weekends hidden it
   * is the same sequence less its Saturdays and Sundays, 5 x N days.
   */
  lemma DayWindowShape(viewDate: Day, mode: ViewMode)
    ensures var all := DayWindow(viewDate, mode, true);
            && |all| == 7 * WeeksShown(mode)
            && all[0] == StartOfWeek(viewDate) && DayOfWeek(all[0]) == 0
            && all[0] <= viewDate < all[0] + 7
            && (forall i :: 0 < i < |all| ==> all[i] == all[i - 1] + 1)
            && (forall d :: d in DayWindow(viewDate, mode, false) <==> d in all && !IsWeekend(d))
            && |DayWindow(viewDate, mode, false)| == 5 * WeeksShown(mode)
            && Increasing(DayWindow(viewDate, mode, false))
  {
    var all := DayWindow(viewDate, mode, true);
    WeekdaysInWeeks(StartOfWeek(viewDate), WeeksShown(mode));
    WithoutWeekendsIncreasing(all);
    forall d ensures d in DayWindow(viewDate, mode, false) <==> d in all && !IsWeekend(d) {
      WithoutWeekendsKeeps(all, d);
    }
  }

  // --------------------------------------------------------------- week unit

  /** The Mondays `w, w + 7, ...` that come before `end`. */
  function WeekStarts(w: Day, end: Day): (r: seq<Day>)
    decreases end - w
  {
    if w >= end then [] else [w] + WeekStarts(w + 7, end)
  }

  /** `WeekStarts` steps by exactly 7 days and stops at the first step that reaches `end`. */
  lemma {:induction false} WeekStartsShape(w: Day, end: Day)
    ensures var r := WeekStarts(w, end);
            && (forall k :: 0 <= k < |r| ==> r[k] == w + 7 * k && r[k] < end)
            && w + 7 * |r| >= end
            && (w < end ==> |r| > 0)
    decreases end - w
  {
    if w < end {
      WeekStartsShape(w + 7, end);
      var r := WeekStarts(w, end);
      forall k | 0 < k < |r| ensures r[k] == w + 7 * k {
        assert r[k] == WeekStarts(w + 7, end)[k - 1];
      }
    }
  }

  /** The week-unit columns. */
  function WeekWindow(viewDate: Day, mode: ViewMode, cal: MonthArith): seq<Day> {
    WeekStarts(StartOfWeek(viewDate), cal.addMonths(viewDate, MonthsShown(mode)))
  }

  /**
   * The `while` loop of the week branch of `generatePeriods`. Its weekend test
   * keeps every column, since every column is a Monday.
   */
  method WeekPeriods(viewDate: Day, mode: ViewMode, showWeekends: bool, cal: MonthArith) returns (weeks: seq<Day>)
    ensures weeks == WeekWindow(viewDate, mode, cal)
  {
    var currentWeekStart := StartOfWeek(viewDate);
    var totalMonths := MonthsShown(mode);
    weeks := [];
    var currentWeek := currentWeekStart;
    var endDate := cal.addMonths(viewDate, totalMonths);
    while currentWeek < endDate
      invariant DayOfWeek(currentWeek) == 0
      invariant weeks + WeekStarts(currentWeek, endDate) == WeekStarts(currentWeekStart, endDate)
      decreases endDate - currentWeek
    {
      assert !IsWeekend(currentWeek);
      if showWeekends || !IsWeekend(currentWeek) {
        weeks := weeks + [currentWeek];
      }
      WeekdayPeriodic(currentWeek, 1);
      currentWeek := currentWeek + 7;
    }
  }

  /**
   * The week window: Mondays, one week apart, from the Monday of the reference
   * week, each before the reference date plus N months (N = 2, 3 or 4 by view
   * mode), and none left out before that bound. With lawful month arithmetic it
   * is never empty.
   */
  lemma WeekWindowShape(viewDate: Day, mode: ViewMode, cal: MonthArith)
    ensures var r := WeekWindow(viewDate, mode, cal);
            var end := cal.addMonths(viewDate, MonthsShown(mode));
            && (forall k :: 0 <= k < |r| ==> r[k] == StartOfWeek(viewDate) + 7 * k && r[k] < end)
            && (forall k :: 0 <= k < |r| ==> DayOfWeek(r[k]) == 0)
            && StartOfWeek(viewDate) + 7 * |r| >= end
            && (Lawful(cal) ==> |r| > 0)
  {
    var r := WeekWindow(viewDate, mode, cal);
    WeekStartsShape(StartOfWeek(viewDate), cal.addMonths(viewDate, MonthsShown(mode)));
    forall k | 0 <= k < |r| ensures DayOfWeek(r[k]) == 0 {
      WeekdayPeriodic(StartOfWeek(viewDate), k);
    }
    if Lawful(cal) {
      assert cal.addMonths(viewDate, 0) < cal.addMonths(viewDate, MonthsShown(mode));
    }
  }

  // -------------------------------------------------------------- month unit

  /** The month-unit columns. */
  function MonthWindow(viewDate: Day, cal: MonthArith): seq<Day> {
    seq(12, i => cal.addMonths(cal.startOfMonth(viewDate), i))
  }

  /** The `for` loop of the month branch of `generatePeriods`. */
  method MonthPeriods(viewDate: Day, cal: MonthArith) returns (months: seq<Day>)
    ensures months == MonthWindow(viewDate, cal)
  {
    var currentMonthStart := cal.startOfMonth(viewDate);
    months := [];
    for i := 0 to 12
      invariant months == seq(i, k => cal.addMonths(currentMonthStart, k))
    {
      months := months + [cal.addMonths(currentMonthStart, i)];
    }
  }

  /**
   * The month window: exactly 12 month starts, the first the start of the
   * reference month, each the next month of the one before; with lawful month
   * arithmetic they strictly increase and the first is not after the reference.
   */
  lemma MonthWindowShape(viewDate: Day, cal: MonthArith)
    ensures var r := MonthWindow(viewDate, cal);
            && |r| == 12
            && (forall i :: 0 <= i < 12 ==> r[i] == cal.addMonths(cal.startOfMonth(viewDate), i))
            && (Lawful(cal) ==> r[0] == cal.startOfMonth(viewDate) <= viewDate && Increasing(r))
  {
  }

  // ------------------------------------------------------------------ all units

  /** What `generatePeriods` returns for the given view state. */
  function Window(unit: TimeUnit, mode: ViewMode, viewDate: Day, showWeekends: bool, cal: MonthArith): seq<Day> {
    match unit
    case D => DayWindow(viewDate, mode, showWeekends)
    case W => WeekWindow(viewDate, mode, cal)
    case M => MonthWindow(viewDate, cal)
  }

  method GeneratePeriods(unit: TimeUnit, mode: ViewMode, viewDate: Day, showWeekends: bool, cal: MonthArith)
    returns (periods: seq<Day>)
    ensures periods == Window(unit, mode, viewDate, showWeekends, cal)
  {
    match unit
    case D => periods := DayPeriods(viewDate, mode, showWeekends);
    case W => periods := WeekPeriods(viewDate, mode, showWeekends, cal);
    case M => periods := MonthPeriods(viewDate, cal);
  }

  /** Every window is strictly increasing and, for lawful month arithmetic, never empty. */
  lemma WindowIncreasingNonEmpty(unit: TimeUnit, mode: ViewMode, viewDate: Day, showWeekends: bool, cal: MonthArith)
    requires Lawful(cal)
    ensures Increasing(Window(unit, mode, viewDate, showWeekends, cal))
    ensures |Window(unit, mode, viewDate, showWeekends, cal)| > 0
  {
    match unit
    case D => DayWindowShape(viewDate, mode);
    case W => WeekWindowShape(viewDate, mode, cal);
    case M => MonthWindowShape(viewDate, cal);
  }

  // -------------------------------------------------------------- navigation

  /** `goToPreviousPeriod` / `goToNextPeriod`: weeks moved in the day unit (`'2W' ? 2 : '3W' ? 3 : 4`). */
  function NavWeeks(mode: ViewMode): nat {
    if mode == TwoW then 2 else if mode == ThreeW then 3 else 4
  }

  /** Months moved in the week unit (`'2M' ? 2 : '3M' ? 3 : 4`); the month unit moves 12. */
  function NavMonths(mode: ViewMode): nat {
    if mode == TwoM then 2 else if mode == ThreeM then 3 else 4
  }

  /**
   * The reference date after one navigation step forward (`forward`) or back.
   * `subWeeks` and `subMonths` are `addWeeks` and `addMonths` by the negated count.
   */
  function Navigate(unit: TimeUnit, mode: ViewMode, viewDate: Day, forward: bool, cal: MonthArith): (r: Day)
    ensures unit == D ==> DayOfWeek(r) == DayOfWeek(viewDate)
    ensures unit == D || Lawful(cal) ==> (forward ==> r > viewDate) && (!forward ==> r < viewDate)
  {
    var sign := if forward then 1 else -1;
    match unit
    case D =>
      WeekdayPeriodic(viewDate, sign * NavWeeks(mode));
      viewDate + 7 * (sign * NavWeeks(mode))
    case W =>
      MonthsMove(cal, viewDate, sign * NavMonths(mode));
      cal.addMonths(viewDate, sign * NavMonths(mode))
    case M =>
      MonthsMove(cal, viewDate, sign * 12);
      cal.addMonths(viewDate, sign * 12)
  }

  /** Under lawful month arithmetic, adding months moves a date forward and subtracting moves it back. */
  lemma MonthsMove(cal: MonthArith, d: Day, n: int)
    ensures Lawful(cal) && n > 0 ==> cal.addMonths(d, n) > d
    ensures Lawful(cal) && n < 0 ==> cal.addMonths(d, n) < d
  {
    if Lawful(cal) {
      assert cal.addMonths(d, 0) == d;
      if n > 0 {
        assert cal.addMonths(d, 0) < cal.addMonths(d, n);
      } else if n < 0 {
        assert cal.addMonths(d, n) < cal.addMonths(d, 0);
      }
    }
  }

  /**
   * While unit and mode are coupled, navigation moves by exactly the size of
   * the window shown, and in the day unit the next window starts the day
   * after the current one ends, and a step back undoes a step forward.
   */
  lemma NavigationMatchesWindow(unit: TimeUnit, mode: ViewMode, viewDate: Day, cal: MonthArith)
    requires Coupled(unit, mode)
    ensures unit == D ==> NavWeeks(mode) == WeeksShown(mode)
    ensures unit == W ==> NavMonths(mode) == MonthsShown(mode)
    ensures unit == D ==>
              var next := Navigate(D, mode, viewDate, true, cal);
              && StartOfWeek(next) == StartOfWeek(viewDate) + 7 * WeeksShown(mode)
              && DayWindow(next, mode, true)[0] == DayWindow(viewDate, mode, true)[7 * WeeksShown(mode) - 1] + 1
              && Navigate(D, mode, next, false, cal) == viewDate
  {
    if unit == D {
      var n := WeeksShown(mode);
      var next := Navigate(D, mode, viewDate, true, cal);
      assert next == viewDate + 7 * n;
      WeekdayPeriodic(viewDate, n);
    }
  }
}
