/**
 * Placing tasks and phases on the grid's columns: `isTaskInPeriod` and
 * `getPhaseTimelineSpan` in src/components/CalendarView.tsx.
 */
module Grid {
  import opened Dates
  import opened Types

  /** The days a column stands for: one day, the 7 days from a Monday, or a month. */
  predicate InPeriod(d: Day, period: Day, unit: TimeUnit, cal: MonthArith) {
    match unit
    case D => d == period
    case W => period <= d <= period + 6
    case M => period <= d < cal.addMonths(period, 1)
  }

  /** The last day of a column. */
  function ColumnLast(period: Day, unit: TimeUnit, cal: MonthArith): Day {
    match unit
    case D => period
    case W => period + 6
    case M => cal.addMonths(period, 1) - 1
  }

  /**
   * `isTaskInPeriod`: whether a task's cell in a column is active. For an
   * ordered task and a non-empty column, that is when the task's interval and
   * the column's days intersect: the later of the two first days is not after
   * the earlier of the two last days.
   */
  function IsTaskInPeriod(t: Task, period: Day, unit: TimeUnit, cal: MonthArith): (active: bool)
    ensures t.startDate <= t.endDate && period <= ColumnLast(period, unit, cal) ==>
              (active <==> Max(t.startDate, period) <= Min(t.endDate, ColumnLast(period, unit, cal)))
  {
    match unit
    case D => t.startDate <= period <= t.endDate
    case W => !(t.endDate < period || t.startDate > period + 6)
    case M => !(t.endDate < period || t.startDate >= cal.addMonths(period, 1))
  }

  /**
   * For a task whose interval is ordered, its cell in a column is active
   * exactly when some day of the column lies in the task's interval (for a
   * month column, one that holds at least its first day).
   */
  lemma TaskInPeriodIffOverlap(t: Task, period: Day, unit: TimeUnit, cal: MonthArith)
    requires t.startDate <= t.endDate
    requires unit == M ==> period < cal.addMonths(period, 1)
    ensures IsTaskInPeriod(t, period, unit, cal) <==>
              exists d :: InPeriod(d, period, unit, cal) && t.startDate <= d <= t.endDate
  {
    if IsTaskInPeriod(t, period, unit, cal) {
      var d := if t.startDate < period then period else t.startDate;
      assert InPeriod(d, period, unit, cal) && t.startDate <= d <= t.endDate;
    }
  }

  function Max(a: int, b: int): int {
    if a >= b then a else b
  }

  function Min(a: int, b: int): int {
    if a <= b then a else b
  }

  // ---------------------------------------------------------- phase timeline

  /** The column range of a phase's timeline bar. */
  datatype Span = Span(startIndex: nat, endIndex: nat)

  /** `phase.tasks.filter(task => task.startDate.getTime() !== task.endDate.getTime())`. */
  function TimedTasks(tasks: seq<Task>): (r: seq<Task>)
    ensures forall t :: t in r <==> t in tasks && t.startDate != t.endDate
  {
    if tasks == [] then []
    else (if tasks[0].startDate != tasks[0].endDate then [tasks[0]] else []) + TimedTasks(tasks[1..])
  }

  /** `Math.min(...tasks.map(task => task.startDate.getTime()))`. */
  function EarliestStart(tasks: seq<Task>): (r: Day)
    requires tasks != []
    ensures exists t :: t in tasks && t.startDate == r
    ensures forall t :: t in tasks ==> r <= t.startDate
  {
    if |tasks| == 1 then tasks[0].startDate
    else
      var rest := EarliestStart(tasks[1..]);
      if tasks[0].startDate <= rest then tasks[0].startDate else rest
  }

  /** `Math.max(...tasks.map(task => task.endDate.getTime()))`. */
  function LatestEnd(tasks: seq<Task>): (r: Day)
    requires tasks != []
    ensures exists t :: t in tasks && t.endDate == r
    ensures forall t :: t in tasks ==> t.endDate <= r
  {
    if |tasks| == 1 then tasks[0].endDate
    else
      var rest := LatestEnd(tasks[1..]);
      if tasks[0].endDate >= rest then tasks[0].endDate else rest
  }

  /** `periods.findIndex(test)`: the first index passing `test`, or -1. */
  function FindIndex(periods: seq<Day>, test: Day -> bool): (r: int)
    ensures -1 <= r < |periods|
    ensures r == -1 <==> forall i :: 0 <= i < |periods| ==> !test(periods[i])
    ensures r >= 0 ==> test(periods[r]) && forall i :: 0 <= i < r ==> !test(periods[i])
  {
    if periods == [] then -1
    else if test(periods[0]) then 0
    else
      var k := FindIndex(periods[1..], test);
      assert forall i :: 1 <= i < |periods| ==> periods[1..][i - 1] == periods[i];
      if k == -1 then -1 else k + 1
  }

  /**
   * The column test `getPhaseTimelineSpan` uses to place date `x`: in the day
   * unit the first day not before `x` (both cut to the day), in the week and
   * month units the column that contains `x`.
   */
  function Locates(unit: TimeUnit, cal: MonthArith, x: Day): Day -> bool {
    match unit
    case D => (p: Day) => p >= x
    case W => (p: Day) => p <= x <= p + 6
    case M => (p: Day) => p <= x < cal.addMonths(p, 1)
  }

  /**
   * `getPhaseTimelineSpan` as written: the bar runs from the column that
   * locates the earliest start to the column that locates the latest end (the
   * last column when none does); there is no bar when no task has a timeline
   * or no column locates the start.
   */
  function PhaseTimelineSpan(phase: Phase, periods: seq<Day>, unit: TimeUnit, cal: MonthArith): (r: Option<Span>)
    ensures r.None? <==>
              TimedTasks(phase.tasks) == [] ||
              forall i :: 0 <= i < |periods| ==> !Locates(unit, cal, EarliestStart(TimedTasks(phase.tasks)))(periods[i])
    ensures r.Some? ==>
              var timed := TimedTasks(phase.tasks);
              var start := Locates(unit, cal, EarliestStart(timed));
              var end := Locates(unit, cal, LatestEnd(timed));
              && r.value.startIndex < |periods| && r.value.endIndex < |periods|
              && start(periods[r.value.startIndex])
              && (forall i :: 0 <= i < r.value.startIndex ==> !start(periods[i]))
              && (forall i :: 0 <= i < r.value.endIndex ==> !end(periods[i]))
              && (end(periods[r.value.endIndex]) || r.value.endIndex == |periods| - 1)
  {
    var timed := TimedTasks(phase.tasks);
    if timed == [] then None
    else
      var startIndex := FindIndex(periods, Locates(unit, cal, EarliestStart(timed)));
      var endIndex := FindIndex(periods, Locates(unit, cal, LatestEnd(timed)));
      if startIndex == -1 then None
      else Some(Span(startIndex, if endIndex == -1 then |periods| - 1 else endIndex))
  }

  /**
   * In the day unit, a phase whose every timed task ended before the first
   * visible day still gets a bar: at column 0, on a day outside its timeline.
   */
  lemma SpanBeforeWindowAsWritten()
    ensures var t := Task("1", "Excavation", 10, 20, "", Pending, [], map[], map[]);
            var periods := [100, 101, 102];
            && PhaseTimelineSpan(Phase("1", "Foundation", [t]), periods, D, MonthArith(d => d, (d, n) => d)) == Some(Span(0, 0))
            && periods[0] > t.endDate
  {
    var t := Task("1", "Excavation", 10, 20, "", Pending, [], map[], map[]);
    var timed := TimedTasks([t]);
    assert timed == [t] by {
      assert TimedTasks([t][1..]) == [];
    }
    assert EarliestStart(timed) == 10 && LatestEnd(timed) == 20;
  }

  /** Whether some visible day lies on the closed interval [from, to]. */
  predicate SomeDayWithin(periods: seq<Day>, from: Day, to: Day) {
    exists i :: 0 <= i < |periods| && from <= periods[i] <= to
  }

  /**
   * The span with the intended day-unit behaviour: no bar when no visible
   * day lies on the phase's timeline [earliest start, latest end]. The week
   * and month units are as written.
   */
  function PhaseTimelineSpanClipped(phase: Phase, periods: seq<Day>, unit: TimeUnit, cal: MonthArith): (r: Option<Span>)
    ensures unit != D ==> r == PhaseTimelineSpan(phase, periods, unit, cal)
    ensures unit == D && r.Some? ==> r == PhaseTimelineSpan(phase, periods, unit, cal)
  {
    var timed := TimedTasks(phase.tasks);
    if unit == D && timed != [] && !SomeDayWithin(periods, EarliestStart(timed), LatestEnd(timed)) then None
    else PhaseTimelineSpan(phase, periods, unit, cal)
  }

  /**
   * Over increasing day columns, the clipped span exists exactly when a
   * visible day lies on the phase's timeline, and its first column is the
   * first such day: the bar's start dot is always on the timeline.
   */
  lemma ClippedSpanOnTimeline(phase: Phase, periods: seq<Day>, cal: MonthArith)
    requires Increasing(periods)
    ensures var r := PhaseTimelineSpanClipped(phase, periods, D, cal);
            var timed := TimedTasks(phase.tasks);
            && (r.Some? <==> timed != [] && SomeDayWithin(periods, EarliestStart(timed), LatestEnd(timed)))
            && (r.Some? ==> EarliestStart(timed) <= periods[r.value.startIndex] <= LatestEnd(timed))
  {
    var r := PhaseTimelineSpanClipped(phase, periods, D, cal);
    var timed := TimedTasks(phase.tasks);
    if timed != [] && SomeDayWithin(periods, EarliestStart(timed), LatestEnd(timed)) {
      var lo, hi := EarliestStart(timed), LatestEnd(timed);
      var i :| 0 <= i < |periods| && lo <= periods[i] <= hi;
      assert Locates(D, cal, lo)(periods[i]);
      var s := r.value.startIndex;
      assert s <= i;
      assert periods[s] <= periods[i] by {
        if s < i {
          assert periods[s] < periods[i];
        }
      }
    }
  }
}
