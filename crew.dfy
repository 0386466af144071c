/**
 * Crew totals per grid column (`calculatePeriodCrewCount` in
 * src/components/CalendarView.tsx): the sum of every task's crew count on a
 * day, over one day, the 7 days of a week, or the days of a month.
 */
module Crew {
  import opened Dates
  import opened Types
  import opened Store

  /** `tasks.reduce((sum, task) => sum + (task.crewCounts?.[day] || 0), 0)`. */
  function TasksCrew(tasks: seq<Task>, day: Day): int {
    if tasks == [] then 0 else TasksCrew(tasks[..|tasks| - 1], day) + CrewAt(tasks[|tasks| - 1], day)
  }

  /** The day-unit total: the sum over all phases of their tasks' crew on `day`. */
  function DayCrewTotal(phases: seq<Phase>, day: Day): int {
    if phases == [] then 0 else DayCrewTotal(phases[..|phases| - 1], day) + TasksCrew(phases[|phases| - 1].tasks, day)
  }

  /** The sum of the day totals of the `n` days from `first`. */
  function RangeCrewTotal(phases: seq<Phase>, first: Day, n: nat): int {
    if n == 0 then 0 else RangeCrewTotal(phases, first, n - 1) + DayCrewTotal(phases, first + n - 1)
  }

  /** The column total the grid shows for `period` in the given unit. */
  function PeriodCrewTotal(phases: seq<Phase>, period: Day, unit: TimeUnit, cal: MonthArith): int {
    match unit
    case D => DayCrewTotal(phases, period)
    case W => RangeCrewTotal(phases, period, 7)
    case M =>
      var monthEnd := cal.addMonths(period, 1);
      RangeCrewTotal(phases, period, if monthEnd > period then monthEnd - period else 0)
  }

  /** The nested `phases.forEach(phase => phase.tasks.forEach(...))` that adds one day's crew to a running total. */
  method AddDayCrew(phases: seq<Phase>, day: Day, acc: int) returns (total: int)
    ensures total == acc + DayCrewTotal(phases, day)
  {
    total := acc;
    for i := 0 to |phases|
      invariant total == acc + DayCrewTotal(phases[..i], day)
    {
      var tasks := phases[i].tasks;
      for j := 0 to |tasks|
        invariant total == acc + DayCrewTotal(phases[..i], day) + TasksCrew(tasks[..j], day)
      {
        assert tasks[..j + 1][..j] == tasks[..j];
        total := total + CrewAt(tasks[j], day);
      }
      assert tasks[..|tasks|] == tasks;
      assert phases[..i + 1][..i] == phases[..i];
    }
    assert phases[..|phases|] == phases;
  }

  /** The week branch: the `for (dayOffset = 0; dayOffset < 7; ...)` loop. */
  method WeekCrewTotal(phases: seq<Phase>, weekStart: Day) returns (weekTotal: int)
    ensures weekTotal == RangeCrewTotal(phases, weekStart, 7)
  {
    weekTotal := 0;
    for dayOffset := 0 to 7
      invariant weekTotal == RangeCrewTotal(phases, weekStart, dayOffset)
    {
      var currentDay := weekStart + dayOffset;
      weekTotal := AddDayCrew(phases, currentDay, weekTotal);
    }
  }

  /** The month branch: the `while (currentDay < monthEnd)` loop. */
  method MonthCrewTotal(phases: seq<Phase>, monthStart: Day, cal: MonthArith) returns (monthTotal: int)
    ensures var monthEnd := cal.addMonths(monthStart, 1);
            monthTotal == RangeCrewTotal(phases, monthStart, if monthEnd > monthStart then monthEnd - monthStart else 0)
  {
    var monthEnd := cal.addMonths(monthStart, 1);
    monthTotal := 0;
    var currentDay := monthStart;
    while currentDay < monthEnd
      invariant monthStart <= currentDay
      invariant currentDay == monthStart || currentDay <= monthEnd
      invariant monthTotal == RangeCrewTotal(phases, monthStart, currentDay - monthStart)
      decreases monthEnd - currentDay
    {
      monthTotal := AddDayCrew(phases, currentDay, monthTotal);
      currentDay := currentDay + 1;
    }
  }

  method CalculatePeriodCrewCount(phases: seq<Phase>, period: Day, unit: TimeUnit, cal: MonthArith)
    returns (total: int)
    ensures total == PeriodCrewTotal(phases, period, unit, cal)
  {
    match unit
    case D => total := DayCrewTotal(phases, period);
    case W => total := WeekCrewTotal(phases, period);
    case M => total := MonthCrewTotal(phases, period, cal);
  }

  // ------------------------------------------------------------------ lemmas

  /** Every crew count stored in the store is non-negative. */
  ghost predicate CountsNonNegative(phases: seq<Phase>) {
    forall i, j, d :: 0 <= i < |phases| && 0 <= j < |phases[i].tasks| && d in phases[i].tasks[j].crewCounts ==>
      phases[i].tasks[j].crewCounts[d] >= 0
  }

  lemma {:induction false} TasksCrewNonNegative(tasks: seq<Task>, day: Day)
    requires forall j, d :: 0 <= j < |tasks| && d in tasks[j].crewCounts ==> tasks[j].crewCounts[d] >= 0
    ensures TasksCrew(tasks, day) >= 0
  {
    if tasks != [] {
      TasksCrewNonNegative(tasks[..|tasks| - 1], day);
    }
  }

  lemma {:induction false} DayCrewNonNegative(phases: seq<Phase>, day: Day)
    requires CountsNonNegative(phases)
    ensures DayCrewTotal(phases, day) >= 0
  {
    if phases != [] {
      DayCrewNonNegative(phases[..|phases| - 1], day);
      TasksCrewNonNegative(phases[|phases| - 1].tasks, day);
    }
  }

  /** With non-negative counts, a sum over `n` days is at least the total of each of those days. */
  lemma {:induction false} RangeCoversEachDay(phases: seq<Phase>, first: Day, n: nat, k: nat)
    requires CountsNonNegative(phases)
    requires k < n
    ensures RangeCrewTotal(phases, first, n) >= DayCrewTotal(phases, first + k)
  {
    if k < n - 1 {
      RangeCoversEachDay(phases, first, n - 1, k);
      DayCrewNonNegative(phases, first + n - 1);
    } else {
      RangeCrewNonNegative(phases, first, n - 1);
    }
  }

  lemma {:induction false} RangeCrewNonNegative(phases: seq<Phase>, first: Day, n: nat)
    requires CountsNonNegative(phases)
    ensures RangeCrewTotal(phases, first, n) >= 0
  {
    if n > 0 {
      RangeCrewNonNegative(phases, first, n - 1);
      DayCrewNonNegative(phases, first + n - 1);
    }
  }

  /** A week column's total is at least the day total of each of its 7 days. */
  lemma WeekTotalCoversDays(phases: seq<Phase>, weekStart: Day, k: nat, cal: MonthArith)
    requires CountsNonNegative(phases) && k < 7
    ensures PeriodCrewTotal(phases, weekStart, W, cal) >= DayCrewTotal(phases, weekStart + k)
  {
    RangeCoversEachDay(phases, weekStart, 7, k);
  }

  /** A store whose phases hold no tasks has crew total 0 on every day. */
  lemma {:induction false} NoTasksNoCrew(phases: seq<Phase>, day: Day)
    requires forall i :: 0 <= i < |phases| ==> phases[i].tasks == []
    ensures DayCrewTotal(phases, day) == 0
  {
    if phases != [] {
      NoTasksNoCrew(phases[..|phases| - 1], day);
    }
  }

  /** Adding a task with crew `k` on `day` to the one phase with id `pid` raises that day's total by exactly `k`. */
  lemma {:induction false} AppendTaskAddsCrew(phases: seq<Phase>, pid: Id, t: Task, day: Day)
    requires exists i :: 0 <= i < |phases| && phases[i].id == pid
    requires forall i, i' :: 0 <= i < i' < |phases| ==> phases[i].id != phases[i'].id
    ensures DayCrewTotal(AppendTask(phases, pid, t), day) == DayCrewTotal(phases, day) + CrewAt(t, day)
  {
    var n := |phases|;
    var init, last := phases[..n - 1], phases[n - 1];
    var after := AppendTask(phases, pid, t);
    AppendTaskPrefix(phases, pid, t);
    assert DayCrewTotal(after, day) == DayCrewTotal(AppendTask(init, pid, t), day) + TasksCrew(after[n - 1].tasks, day);
    if last.id == pid {
      assert AppendTask(init, pid, t) == init by {
        forall i | 0 <= i < |init| ensures init[i].id != pid {
          assert init[i] == phases[i];
        }
        AppendTaskAbsent(init, pid, t);
      }
      TasksCrewAppend(last.tasks, t, day);
    } else {
      assert DayCrewTotal(AppendTask(init, pid, t), day) == DayCrewTotal(init, day) + CrewAt(t, day) by {
        var i :| 0 <= i < n && phases[i].id == pid;
        assert init[i] == phases[i];
        AppendTaskAddsCrew(init, pid, t, day);
      }
    }
  }

  /** Appending into all phases but the last is appending into the whole store, less its last phase. */
  lemma AppendTaskPrefix(phases: seq<Phase>, pid: Id, t: Task)
    requires phases != []
    ensures AppendTask(phases, pid, t)[..|phases| - 1] == AppendTask(phases[..|phases| - 1], pid, t)
  {
  }

  lemma TasksCrewAppend(tasks: seq<Task>, t: Task, day: Day)
    ensures TasksCrew(tasks + [t], day) == TasksCrew(tasks, day) + CrewAt(t, day)
  {
    assert (tasks + [t])[..|tasks|] == tasks;
  }

  lemma AppendTaskAbsent(phases: seq<Phase>, pid: Id, t: Task)
    requires forall i :: 0 <= i < |phases| ==> phases[i].id != pid
    ensures AppendTask(phases, pid, t) == phases
  {
  }

  /** Setting a crew count on one day leaves the totals of every other day unchanged. */
  lemma {:induction false} SetCrewCountOtherDays(phases: seq<Phase>, tid: Id, day: Day, n: int, other: Day)
    requires other != day
    ensures DayCrewTotal(SetCrewCount(phases, tid, day, n), other) == DayCrewTotal(phases, other)
  {
    if phases != [] {
      var m := |phases|;
      var after := SetCrewCount(phases, tid, day, n);
      assert after[..m - 1] == SetCrewCount(phases[..m - 1], tid, day, n);
      SetCrewCountOtherDays(phases[..m - 1], tid, day, n, other);
      TasksCrewSameOn(phases[m - 1].tasks, after[m - 1].tasks, other);
    }
  }

  /** Two task lists that agree task by task on a day's crew have the same total that day. */
  lemma {:induction false} TasksCrewSameOn(a: seq<Task>, b: seq<Task>, day: Day)
    requires |a| == |b|
    requires forall j :: 0 <= j < |a| ==> CrewAt(a[j], day) == CrewAt(b[j], day)
    ensures TasksCrew(a, day) == TasksCrew(b, day)
  {
    if a != [] {
      TasksCrewSameOn(a[..|a| - 1], b[..|b| - 1], day);
    }
  }
}
