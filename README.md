# 2WLA scheduling calendar — verified model

2WLA is a React calendar for construction schedules. A schedule is a list of
phases. Each phase holds tasks, and each task has a date interval, a
per-day crew count and a per-day cell status. The grid shows the tasks
against columns of days, weeks or months. This project models the logic
underneath the rendering, in Dafny:

- the column generation of each time unit and the navigation between windows;
- the placement of tasks and phase bars on the columns;
- the crew totals per column;
- the copy-on-write store updates: delete, save (append or replace), set
  dates, set a cell status, set a crew count;
- the five-state status cycle of a cell;
- the calendar's state machine: task creation arms timeline setting, a press
  anchors the interval, moves stretch it, and a release ends it;
- the coupling of view mode and time unit in the App;
- the task form's date validation and submission;
- the today list and its status click.

Dates are day numbers counted from 1970-01-01, a Thursday. Weeks start on
Monday. `DayOfWeek(d) = (d + 3) % 7`, with 0 for Monday. Month arithmetic
(`startOfMonth`, `addMonths`) depends on month lengths, so it is a
parameter (`Dates.MonthArith`). The only laws assumed of it are in
`Dates.Lawful`: a month start is not after its date, adding 0 months is the
identity, and adding more months gives a later date. The current date
(`new Date()`) and the random ids (`Math.random`) are parameters (`today`,
`freshId`).

The files:

- `dates.dfy`: day numbers, weekdays, Monday alignment, the month-arithmetic parameter.
- `types.dfy`: the records of `src/types/index.ts`, per-day lookups, the status cycle.
- `store.dfy`: the store updates and their "nothing else changes" contracts.
- `periods.dfy`: `generatePeriods` and navigation.
- `crew.dfy`: `calculatePeriodCrewCount`.
- `grid.dfy`: `isTaskInPeriod` and `getPhaseTimelineSpan`.
- `calendar_view.dfy`: the state of the calendar component as a class with its handlers.
- `app.dfy`: the App's view settings as a class, and the seed data.
- `task_modal.dfy`: the task form as a class, with its validation.
- `today_view.dfy`: the today list.

The stateful parts are classes, as in the source: `CalendarView.CalendarView`,
`App.AppState` and `TaskModal.TaskForm`. Their methods state each field's new
value. The calendar's methods also keep the invariant
`CalendarView.CalendarView.Valid`, which says:

- every task's interval is ordered;
- the edited task's interval and the selected interval are ordered;
- a drag happens only while timeline setting is armed.

Loops of the source are loops here, proved against specification functions:
the three branches of `generatePeriods` and the week and month sums of
`calculatePeriodCrewCount`.

The seed store has one task from Friday 2024-03-15 to Monday 2024-03-18 with
crew 3, 4, 4, 2. It straddles two weeks. The week columns show 11 (the week
of 2024-03-11) and 2 (the week of 2024-03-18), as `App.SeedWeekTotals`
proves. No single week column shows the task's whole sum of 13.

## Model

| member | source | states |
|---|---|---|
| Dates.DayOfWeek | src/components/CalendarView.tsx:188 | the weekday is in 0..6 and agrees with the day number modulo 7 (1970-01-01 a Thursday) |
| Dates.StartOfWeek | src/components/CalendarView.tsx:164 | the result is a Monday, not after the date, and less than 7 days before it |
| Dates.WeekdayPeriodic | src/components/CalendarView.tsx:182 | moving a date by whole weeks keeps its weekday |
| Dates.WeekdaysOfWeek | src/components/CalendarView.tsx:180-188 | day i of a week from Monday has weekday i, and is a weekend day exactly when i is 5 or 6 |
| Dates.StartOfWeekIsWeekday | src/components/CalendarView.tsx:210-212 | a week start is never a weekend day, so the week branch's weekend test never drops a week |
| Types.StatusAt | src/components/CalendarView.tsx:482 | an absent status key reads as none, a present one as its entry |
| Types.CrewAt | src/components/CalendarView.tsx:555 | an absent crew key reads as 0, a present one as its entry |
| Types.NextStatus | src/components/CalendarView.tsx:484-500 | a click moves the status one step along the cycle none, on-track, flag, missed, completed, none |
| Types.ClicksRank | src/components/CalendarView.tsx:484-500 | n clicks move the status n steps along the cycle, modulo 5 |
| Types.CycleLengthFive | src/components/CalendarView.tsx:484-500 | for 1 to 5 clicks, the status comes back exactly after 5 clicks |
| Store.WithoutId | src/components/CalendarView.tsx:270 | the filter keeps exactly the tasks whose id differs from the deleted id |
| Store.WithoutIdAppend | src/components/CalendarView.tsx:270 | the filter distributes over concatenation, so the kept tasks stay in their order |
| Store.WithoutIdAbsent | src/components/CalendarView.tsx:263-277 | deleting an id that no task carries changes nothing |
| Store.RemoveTask | src/components/CalendarView.tsx:266-274 | the confirmed phase loses exactly the tasks with the confirmed id; every other phase is unchanged; ids and names are kept |
| Store.AppendTask | src/components/CalendarView.tsx:305-309 | the new task goes at the end of the selected phase; every other phase is unchanged |
| Store.ReplaceTask | src/components/CalendarView.tsx:297-304 | in the selected phase, the tasks with the edited id become the new task, in place; all else is unchanged |
| Store.SetTaskDates | src/components/CalendarView.tsx:333-352 | in the given phase, the tasks with the given id get the new interval and keep every other field; all else is unchanged |
| Store.SetCellStatus | src/components/CalendarView.tsx:502-516 | every task with the clicked id reads the new status on the day; every other day, field and task is unchanged |
| Store.SetCrewCount | src/components/CalendarView.tsx:533-547 | every task with the id reads the new count on the day; every other day, field and task is unchanged |
| Store.AllTasks | src/components/CalendarView.tsx:522 | the flattened list holds exactly the tasks of the phases; no phases give no tasks, one phase gives its tasks in order |
| Store.AllTasksAppend | src/components/CalendarView.tsx:522 | flattening distributes over concatenation: tasks come phase by phase, each phase's in order, each as often as stored |
| Store.FindTask | src/components/CalendarView.tsx:522 | the result is the first task with the id, and there is none exactly when no task has it |
| Store.ClickCell | src/components/CalendarView.tsx:477-517 | one click on a cell moves that cell's status one step and keeps the store's shape |
| Store.ClickCellTimes | src/components/CalendarView.tsx:477-517 | repeated clicks keep the store's shape |
| Store.ClickCellTimesStatus | src/components/CalendarView.tsx:477-517 | after n clicks on a cell, it shows the status n steps further along the cycle |
| Store.FiveClicksRestoreCell | src/components/CalendarView.tsx:482-500 | five clicks bring back the cell's status, an absent entry reading as none |
| Periods.WeeksShown | src/components/CalendarView.tsx:166-179 | 2, 3 or 4 weeks: 3 exactly for 3W, 4 exactly for 4W, else 2 |
| Periods.MonthsShown | src/components/CalendarView.tsx:193-206 | 2, 3 or 4 months: 3 exactly for 3M, 4 exactly for 4M, else 2 |
| Periods.ConsecutiveDays | src/components/CalendarView.tsx:180-186 | n days, the i-th being first + i |
| Periods.WithoutWeekendsKeeps | src/components/CalendarView.tsx:188 | the filter keeps exactly the days that are not Saturday or Sunday |
| Periods.WithoutWeekendsAppend | src/components/CalendarView.tsx:188 | the weekend filter distributes over concatenation |
| Periods.WithoutWeekendsIncreasing | src/components/CalendarView.tsx:188 | filtering an increasing sequence leaves it increasing |
| Periods.WeekWithoutWeekend | src/components/CalendarView.tsx:188 | a Monday-to-Sunday week without its weekend is Monday to Friday |
| Periods.WeekdaysInWeeks | src/components/CalendarView.tsx:180-188 | n weeks from a Monday hold 5n weekdays |
| Periods.DayPeriods | src/components/CalendarView.tsx:162-188 | the nested loops build the day window, with the weekend filter applied when weekends are hidden |
| Periods.DayWindowShape | src/components/CalendarView.tsx:162-188 | 7N consecutive days from the Monday of the reference week; hidden weekends leave the same days less Saturdays and Sundays, 5N of them, increasing |
| Periods.WeekStartsShape | src/components/CalendarView.tsx:207-216 | the loop steps by exactly 7 days, every week start is before the end, and it stops at the first step that reaches the end |
| Periods.WeekPeriods | src/components/CalendarView.tsx:189-218 | the `while` loop builds the week window |
| Periods.WeekWindowShape | src/components/CalendarView.tsx:189-218 | Mondays from the reference week, 7 days apart, each before the reference date plus N months, none missing before that bound; never empty for lawful month arithmetic |
| Periods.MonthPeriods | src/components/CalendarView.tsx:219-229 | the `for` loop builds the month window |
| Periods.MonthWindowShape | src/components/CalendarView.tsx:219-229 | exactly 12 month starts from the reference month; increasing for lawful month arithmetic, the first not after the reference date |
| Periods.GeneratePeriods | src/components/CalendarView.tsx:161-230 | the columns are the window of the current time unit |
| Periods.WindowIncreasingNonEmpty | src/components/CalendarView.tsx:161-230 | every window is strictly increasing and never empty |
| Periods.Navigate | src/components/CalendarView.tsx:78-100 | in the day unit a step keeps the weekday; a step forward moves the date later and a step back earlier (in the week and month units, for lawful month arithmetic) |
| Periods.MonthsMove | src/components/CalendarView.tsx:84 | for lawful month arithmetic, adding months moves a date later and subtracting moves it earlier |
| Periods.NavigationMatchesWindow | src/components/CalendarView.tsx:78-100 | with unit and mode coupled, a step moves by the window's size; in the day unit the next window starts the day after the current one ends, and a step back undoes a step forward |
| Crew.AddDayCrew | src/components/CalendarView.tsx:567-573 | the nested `forEach` loops add the day's total crew over all phases and tasks |
| Crew.WeekCrewTotal | src/components/CalendarView.tsx:558-577 | the week loop sums the day totals of the 7 days from the column's start |
| Crew.MonthCrewTotal | src/components/CalendarView.tsx:578-598 | the month loop sums the day totals from the column's start up to the next month's start, none if that is not later |
| Crew.CalculatePeriodCrewCount | src/components/CalendarView.tsx:550-601 | a column's total is the day total, the 7-day sum or the month sum, by time unit |
| Crew.TasksCrewNonNegative | src/components/CalendarView.tsx:553-556 | with non-negative counts, a phase's day total is non-negative |
| Crew.DayCrewNonNegative | src/components/CalendarView.tsx:552-557 | with non-negative counts, a day total is non-negative |
| Crew.RangeCoversEachDay | src/components/CalendarView.tsx:565-575 | with non-negative counts, a sum over consecutive days is at least each day's total |
| Crew.RangeCrewNonNegative | src/components/CalendarView.tsx:565-575 | with non-negative counts, a sum over consecutive days is non-negative |
| Crew.WeekTotalCoversDays | src/components/CalendarView.tsx:558-577 | with non-negative counts, a week column's total is at least each of its days' totals |
| Crew.NoTasksNoCrew | src/components/CalendarView.tsx:552-557 | a store with no tasks has crew 0 on every day |
| Crew.AppendTaskAddsCrew | src/components/CalendarView.tsx:305-309 | appending a task to an existing phase (with unique phase ids) adds exactly its count to each day's total |
| Crew.TasksCrewAppend | src/components/CalendarView.tsx:553-556 | the task sum over a list with one more task adds that task's count |
| Crew.AppendTaskAbsent | src/components/CalendarView.tsx:279-310 | saving a new task into a phase id that does not exist leaves the store unchanged |
| Crew.SetCrewCountOtherDays | src/components/CalendarView.tsx:531-548 | setting a crew count leaves the totals of every other day unchanged |
| Crew.TasksCrewSameOn | src/components/CalendarView.tsx:553-556 | two task lists with the same counts on a day have the same total on it |
| Grid.IsTaskInPeriod | src/components/CalendarView.tsx:823-840 | for an ordered task and a non-empty column, the cell is active exactly when the later of the two first days is not after the earlier of the two last days |
| Grid.TaskInPeriodIffOverlap | src/components/CalendarView.tsx:823-840 | for an ordered task, its cell is active exactly when some day of the column lies in its interval |
| Grid.TimedTasks | src/components/CalendarView.tsx:690-692 | the filter keeps exactly the tasks whose start and end differ |
| Grid.EarliestStart | src/components/CalendarView.tsx:696 | the earliest start is some task's start and not after any task's start |
| Grid.LatestEnd | src/components/CalendarView.tsx:697 | the latest end is some task's end and not before any task's end |
| Grid.FindIndex | src/components/CalendarView.tsx:705-733 | the result is the first index passing the test, or -1 exactly when none does |
| Grid.PhaseTimelineSpan | src/components/CalendarView.tsx:689-743 | no bar without timed tasks or without a column locating the earliest start; otherwise it starts at the first such column and ends at the first column locating the latest end, or at the last column |
| Grid.SpanBeforeWindowAsWritten | src/components/CalendarView.tsx:705-710 | in the day unit, a phase that ended before the first visible day still gets a bar at column 0 |
| Grid.PhaseTimelineSpanClipped | src/components/CalendarView.tsx:689-743 | the corrected span agrees with the source in the week and month units and whenever it draws a bar |
| Grid.ClippedSpanOnTimeline | src/components/CalendarView.tsx:689-743 | over increasing day columns, the corrected bar exists exactly when a visible day lies on the phase's timeline, and it starts on one |
| CalendarView.NewTask | src/components/CalendarView.tsx:282-295 | the saved task keeps the edited task's id, crew and statuses, takes the form's fields, and takes the form's dates, else the edited task's, else a week from today; it is ordered when the form's data is well formed |
| CalendarView.CalendarView.constructor | src/components/CalendarView.tsx:29-56 | the initial state: nothing selected, no drag, no timeline setting, the view at today |
| CalendarView.CalendarView.GoToPreviousPeriod | src/components/CalendarView.tsx:78-88 | the view date moves back by the unit's step |
| CalendarView.CalendarView.GoToNextPeriod | src/components/CalendarView.tsx:90-100 | the view date moves forward by the unit's step |
| CalendarView.CalendarView.GoToToday | src/components/CalendarView.tsx:102-104 | the view date becomes today |
| CalendarView.CalendarView.HandleSavePhase | src/components/CalendarView.tsx:234-241 | an empty phase with the fresh id is appended |
| CalendarView.CalendarView.HandleAddTask | src/components/CalendarView.tsx:243-248 | the form opens for a new task of the phase, with no dates selected |
| CalendarView.CalendarView.HandleEditTask | src/components/CalendarView.tsx:250-256 | the form opens on the task, with its interval selected |
| CalendarView.CalendarView.HandleDeleteTask | src/components/CalendarView.tsx:258-261 | the deletion waits for confirmation |
| CalendarView.CalendarView.ConfirmDeleteTask | src/components/CalendarView.tsx:263-277 | without a pending confirmation nothing changes; otherwise the confirmed tasks are removed and the confirmation cleared; intervals stay ordered |
| CalendarView.CalendarView.CancelDeleteTask | src/components/CalendarView.tsx:1205 | the delete dialog's cancel drops the pending confirmation and leaves the store as it is |
| CalendarView.CalendarView.CloseTaskModal | src/components/CalendarView.tsx:1239-1243 | closing the task form clears the selected task and interval; the view stays valid |
| CalendarView.CalendarView.HandleSaveTask | src/components/CalendarView.tsx:279-326 | without a selected phase nothing changes; otherwise the task replaces the edited one or is appended, the form closes, and a new task arms timeline setting for itself |
| CalendarView.CalendarView.HandleEditTimeline | src/components/CalendarView.tsx:603-607 | timeline setting is armed for the task |
| CalendarView.CalendarView.HandleCellMouseDown | src/components/CalendarView.tsx:328-353 | unless armed for the pressed task in the day unit nothing changes; otherwise a drag starts, anchored at the pressed day, and the task's interval becomes that day |
| CalendarView.CalendarView.HandleCellMouseEnter | src/components/CalendarView.tsx:385-411 | outside a drag nothing changes; during one the interval is the anchor to the later of anchor and hovered day, so start never passes end |
| CalendarView.CalendarView.HandleCellMouseUp | src/components/CalendarView.tsx:456-463 | the drag ends and timeline setting is disarmed, clearing the selected task and phase if it was armed |
| CalendarView.CalendarView.HandleCellTouchEnd | src/components/CalendarView.tsx:465-475 | when not armed nothing changes; otherwise drag and timeline setting end |
| CalendarView.CalendarView.HandleCellClick | src/components/CalendarView.tsx:477-517 | outside the day unit or the task's interval nothing changes; otherwise every task with the id moves the day's status one step along the cycle |
| CalendarView.CalendarView.HandleCrewCountClick | src/components/CalendarView.tsx:519-529 | the crew input opens only in the day unit on a day of the first task with that id |
| CalendarView.CalendarView.HandleCrewCountChange | src/components/CalendarView.tsx:531-548 | every task with the id gets the entered count on the day, an unreadable entry counting as 0 |
| App.InitialPhases | src/App.tsx:8-31 | the seed store has ordered intervals and non-negative counts |
| App.SeedWeekTotals | src/App.tsx:8-31 | with the seed store, the week columns of 2024-03-11 and 2024-03-18 total 11 and 2 |
| App.AppState.constructor | src/App.tsx:34-39 | mode 2W, unit D, weekends shown, crew hidden, the calendar shown; unit and mode coupled |
| App.AppState.HandleTimeUnitChange | src/App.tsx:41-55 | the unit is taken and the mode reset to 2W for days and 2M otherwise, so they are coupled afterwards |
| App.AppState.HandleViewModeChange | src/App.tsx:57-67 | a week mode forces unit D; a month mode turns D into W and keeps W and M; unit and mode are coupled afterwards, whatever they were before |
| App.AppState.ToggleCrewCount | src/App.tsx:161 | the crew setting flips |
| App.AppState.ToggleWeekends | src/App.tsx:173 | the weekend setting flips |
| App.AppState.ShowTodayView | src/App.tsx:150 | the today list is shown or hidden |
| TaskModal.DateError | src/components/TaskModal.tsx:45-66 | no error exactly when both dates or neither are given and the end is not before the start; the two messages for the two failures |
| TaskModal.ClearedEnd | src/components/TaskModal.tsx:71-74 | the end is cleared exactly when it precedes the new start, after which it is empty or not before the start |
| TaskModal.StartDateChangeAsWritten | src/components/TaskModal.tsx:68-77 | the start change as written: the end is cleared when overtaken, but the error is computed from the old end |
| TaskModal.StaleEndErrorAsWritten | src/components/TaskModal.tsx:68-77 | a start after the end empties the end field yet reports that the end is before the start |
| TaskModal.StartDateChange | src/components/TaskModal.tsx:68-77 | the corrected start change: the end is cleared exactly when overtaken, and the error shown is the one the resulting fields call for |
| TaskModal.StartDateChangeAgrees | src/components/TaskModal.tsx:68-77 | the corrected and as-written changes agree exactly when the end is not overtaken |
| TaskModal.Submission | src/components/TaskModal.tsx:86-107 | nothing is saved on invalid dates; saved data is well formed, carries the form's fields, the edited task's comments or none, and the dates only when both are given |
| TaskModal.TaskForm.constructor | src/components/TaskModal.tsx:15-20 | empty fields, status pending, no error |
| TaskModal.TaskForm.Open | src/components/TaskModal.tsx:22-43 | the fields come from the edited task or are reset; the error is cleared |
| TaskModal.TaskForm.ValidateDates | src/components/TaskModal.tsx:45-66 | the verdict is true exactly when no date error is found, and the error field holds the message |
| TaskModal.TaskForm.HandleStartDateChange | src/components/TaskModal.tsx:68-77 | as the program has it: the end is cleared when overtaken, so afterwards it is empty or not before the start, and the error is the one computed from the end the handler started from |
| TaskModal.TaskForm.HandleEndDateChange | src/components/TaskModal.tsx:79-82 | the end is taken and validated against the current start |
| TaskModal.TaskForm.HandleSubmit | src/components/TaskModal.tsx:86-107 | the result is the submission of the current fields and the error field holds the validation's message |
| TodayView.IsTodays | src/components/TodayView.tsx:14-18 | a listed task starts by today or ends today; an ordered task is listed exactly when today lies in its interval |
| TodayView.TodaysOf | src/components/TodayView.tsx:14-18 | the filter keeps exactly the tasks starting today, ending today, or spanning today |
| TodayView.TodaysOfAppend | src/components/TodayView.tsx:13-24 | the filter distributes over concatenation, so listed tasks keep their order |
| TodayView.Tagged | src/components/TodayView.tsx:19-22 | each listed task is tagged with its phase's name |
| TodayView.TodaysTasks | src/components/TodayView.tsx:13-24 | an entry is listed exactly when its task passes the filter and sits in a phase of that name |
| TodayView.TodaysTasksInOrder | src/components/TodayView.tsx:13-24 | the listed tasks are the store's passing tasks in phase and task order |
| TodayView.HandleStatusClick | src/components/TodayView.tsx:56-95 | nothing changes when no listed task has the id; otherwise every task with the id gets, for today, the status one step after the first listed task's, and nothing else changes |
| TodayView.StatusClickIsCalendarClick | src/components/TodayView.tsx:56-95 | a click on a listed task is the calendar's click on its cell for today, one step of the same cycle, and the calendar's guard admits it |
| TodayView.GetStatusLabel | src/components/TodayView.tsx:26-39 | the label is "Not Started" exactly for none |
| TodayView.StatusLabelsDistinct | src/components/TodayView.tsx:26-39 | different statuses get different labels |

## Left out

- Rendering is left out: JSX, colours and border classes, headers and date-range texts, column widths, the scroll listener, `isCurrentPeriod` and `isPastPeriod`.
- The touch-move handler is left out. It hit-tests the DOM with `document.elementFromPoint`. A drag is modelled by a press, moves to a column, and a release.
- `handleCellTouchStart` repeats `handleCellMouseDown` with the same guard and effect. `CalendarView.CalendarView.HandleCellMouseDown` stands for both.
- The three-second toast (`setTimeout`) and the task menu (`showTaskMenu`) are left out. They hold presentation state only.
- The clock and `Math.random` are left out. `today` and `freshId` are parameters.
- Time of day is left out. Dates are whole days, so `new Date()` is cut to its day. The source's dates derived from `new Date()` keep the time of day, which matters in these places:
  - the week loop compares week starts (midnight) with the reference date plus N months. When that end date is a Monday and the time is after midnight, the source shows one more week than `Periods.WeekWindowShape` states;
  - the default dates of a task saved without dates (see `CalendarView.NewTask` below) are a week from now, time of day included. On that task's own day column (midnight) the status-click guard and the crew-input guard find the column before the task's start, so the source refuses both clicks where `CalendarView.CalendarView.HandleCellClick` and `CalendarView.CalendarView.HandleCrewCountClick` accept them;
  - for that same task, if its default day is a Sunday, the week column's end (midnight of that Sunday) is before its start, so the source shows it in no week where `Grid.IsTaskInPeriod` shows it in that week.
- CalendarView.NewTask: the default start and end of a task saved without dates are the whole day `today + 7`, not that day at the current time of day.
- Time zones are left out. The model reads every date as a whole day in local time. The source parses the form's `yyyy-MM-dd` texts as UTC midnight (src/components/TaskModal.tsx:102-103). It formats them back in local time (src/components/TaskModal.tsx:30, 36) and compares them with local-midnight columns (src/components/CalendarView.tsx:479, 522, 826-834; src/components/TodayView.tsx:16-17). Outside UTC the model and the source differ:
  - east of UTC, a task saved from the form starts after its first day's local midnight, so the source's status-click and crew-input guards refuse clicks on that first day;
  - west of UTC, the task starts the evening before its first day, so the source shows it from the previous day's column;
  - west of UTC, every open-and-save of the form moves both dates one day back. `TaskModal.TaskForm.Open` followed by `TaskModal.Submission` gives back the same days, as the source does only in UTC.
- Month lengths are left out, with the rest of date-fns month arithmetic (`startOfMonth`, `addMonths`, `subMonths`). Only the laws in `Dates.Lawful` are assumed.
- Text parsing is left out. The form's date inputs hold a day or nothing. The crew input arrives already parsed, with `None` standing for NaN.
- The `description` and `crewCount` task fields are left out. They are optional and no modelled operation reads them. `Comment` is carried as data only.
- `PhaseModal` and `DaySquare` are not part of this model.
- CalendarView.CalendarView.HandleSaveTask requires well-formed data: both dates or neither, in order. Its only caller is the task form, whose `TaskModal.Submission` guarantees this. Other inputs are not modelled.
- CalendarView.CalendarView.HandleEditTask and CalendarView.CalendarView.HandleEditTimeline require an ordered task, as every task of the store is under `Valid`.

## Findings

| source | as written | input that shows it | evidently intended | confidence | as-written member | corrected member |
|---|---|---|---|---|---|---|
| src/components/CalendarView.tsx:705-710 | in the day unit the bar starts at the first visible day not before the phase's earliest start, even when the phase's latest end is also before that day | one timed task from day 10 to day 20, visible days 100, 101, 102: the bar is drawn at column 0 | no bar when no visible day lies on the phase's timeline | medium, not executed | Grid.SpanBeforeWindowAsWritten | Grid.ClippedSpanOnTimeline |
| src/components/TaskModal.tsx:68-77 | the end date is cleared when the new start overtakes it, but validation reads the end as it was before | end 2024-03-15, new start 2024-03-18: the end field is emptied, and the error says the end is before the start | the error describes the fields shown: both dates are required | medium, not executed | TaskModal.StaleEndErrorAsWritten | TaskModal.StartDateChange |
