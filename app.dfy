/**
 * The top-level view settings of src/App.tsx: the view mode and time unit,
 * kept coupled by their two change handlers, and the three display toggles.
 * The store of phases the App also owns lives in the calendar's state
 * (module CalendarView), which is where every update to it is made.
 */
module App {
  import opened Dates
  import opened Types
  import Store
  import Crew

  /** The seed store: one phase, one task from 2024-03-15 (a Friday) to 2024-03-18 with crew 3, 4, 4, 2. */
  function InitialPhases(): (phases: seq<Phase>)
    ensures Store.IntervalsOrdered(phases)
    ensures Crew.CountsNonNegative(phases)
  {
    [Phase("1", "Foundation", [
      Task("1", "Excavation", 19797, 19800, "John Doe", InProgress, [],
           map[19797 := 3, 19798 := 4, 19799 := 4, 19800 := 2], map[])])]
  }

  /**
   * With the seed store, the week of Monday 2024-03-11 holds crew 3 + 4 + 4
   * (Friday to Sunday) and the week of Monday 2024-03-18 holds 2: the task
   * straddles two weeks.
   */
  lemma SeedWeekTotals(cal: MonthArith)
    ensures Crew.PeriodCrewTotal(InitialPhases(), 19793, W, cal) == 11
    ensures Crew.PeriodCrewTotal(InitialPhases(), 19800, W, cal) == 2
  {
    var phases := InitialPhases();
    var t := phases[0].tasks[0];
    forall d | d < 19797 || d > 19800
      ensures Crew.DayCrewTotal(phases, d) == 0
    {
      assert CrewAt(t, d) == 0;
      assert Crew.TasksCrew(phases[0].tasks, d) == CrewAt(t, d);
    }
    forall d | 19797 <= d <= 19800
      ensures Crew.DayCrewTotal(phases, d) == CrewAt(t, d)
    {
      assert Crew.TasksCrew(phases[0].tasks, d) == CrewAt(t, d);
    }
    assert Crew.RangeCrewTotal(phases, 19793, 7) == 11 by {
      assert Crew.RangeCrewTotal(phases, 19793, 4) == 0;
    }
    assert Crew.RangeCrewTotal(phases, 19800, 7) == 2 by {
      assert Crew.RangeCrewTotal(phases, 19800, 1) == 2;
    }
  }

  class AppState {
    var viewMode: ViewMode
    var timeUnit: TimeUnit
    var showTodayView: bool
    var showCrewCount: bool
    var showWeekends: bool

    /** Two weeks of days, weekends shown, crew hidden, the calendar (not the today list) shown. */
    constructor ()
      ensures viewMode == TwoW && timeUnit == D
      ensures !showTodayView && !showCrewCount && showWeekends
      ensures Coupled(timeUnit, viewMode)
    {
      viewMode := TwoW;
      timeUnit := D;
      showTodayView := false;
      showCrewCount := false;
      showWeekends := true;
    }

    /**
     * `handleTimeUnitChange`: the unit is taken and the mode reset to the
     * smallest window of the matching kind, so the two stay coupled whatever
     * they were before.
     */
    method HandleTimeUnitChange(unit: TimeUnit)
      modifies this`timeUnit, this`viewMode
      ensures timeUnit == unit
      ensures viewMode == if unit == D then TwoW else TwoM
      ensures Coupled(timeUnit, viewMode)
    {
      timeUnit := unit;
      match unit {
        case D => viewMode := TwoW;
        case W => viewMode := TwoM;
        case M => viewMode := TwoM;
      }
    }

    /**
     * `handleViewModeChange`: the mode is taken; a week mode forces the day
     * unit, and a month mode replaces the day unit by the week unit and keeps
     * the week and month units, so the two end up coupled whatever they were.
     */
    method HandleViewModeChange(mode: ViewMode)
      modifies this`timeUnit, this`viewMode
      ensures viewMode == mode
      ensures IsWeekMode(mode) ==> timeUnit == D
      ensures !IsWeekMode(mode) ==> timeUnit == if old(timeUnit) == D then W else old(timeUnit)
      ensures Coupled(timeUnit, viewMode)
    {
      viewMode := mode;
      if mode == TwoW || mode == ThreeW || mode == FourW {
        timeUnit := D;
      } else if mode == TwoM || mode == ThreeM || mode == FourM {
        if timeUnit == D {
          timeUnit := W;
        }
      }
    }

    /** The crew-count button. */
    method ToggleCrewCount()
      modifies this`showCrewCount
      ensures showCrewCount == !old(showCrewCount)
    {
      showCrewCount := !showCrewCount;
    }

    /** The weekends button. */
    method ToggleWeekends()
      modifies this`showWeekends
      ensures showWeekends == !old(showWeekends)
    {
      showWeekends := !showWeekends;
    }

    /** The list button and the today list's back button. */
    method ShowTodayView(show: bool)
      modifies this`showTodayView
      ensures showTodayView == show
    {
      showTodayView := show;
    }
  }
}
