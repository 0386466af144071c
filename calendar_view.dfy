/**
 * The state of the calendar component (src/components/CalendarView.tsx) and
 * its event handlers: navigation, task creation, editing and deletion, the
 * timeline drag (arm, press, move, release), status clicks and crew entry.
 *
 * The component's `useState` fields are the fields of `CalendarView`; the
 * store `phases` that the App owns and passes down with its setter is a field
 * too, replaced by the copy-on-write updates of module Store. The props
 * `timeUnit` and `viewMode` are parameters of the handlers that read them.
 */
module CalendarView {
  import opened Dates
  import opened Types
  import opened Store
  import Periods

  /** The deletion waiting for confirmation (`deleteConfirmation`). */
  datatype TaskRef = TaskRef(phaseId: Id, taskId: Id)

  /** The interval being selected (`selectedDates`). */
  datatype DateSelection = DateSelection(start: Option<Day>, end: Option<Day>)

  /** The crew cell being edited (`editingCrewCount`). */
  datatype CrewCell = CrewCell(taskId: Id, date: Day)

  /**
   * The task `handleSaveTask` builds: the edited task's id (a fresh one for a
   * new task), the form's fields, the form's dates or else the edited task's
   * or else a week from today, and the edited task's crew counts and statuses.
   */
  function NewTask(data: TaskData, selected: Option<Task>, freshId: Id, today: Day): (t: Task)
    ensures t.id == if selected.Some? && Truthy(selected.value.id) then selected.value.id else freshId
    ensures t.name == data.name && t.responsible == data.responsible
    ensures t.status == data.status && t.comments == data.comments
    ensures data.startDate.Some? ==> t.startDate == data.startDate.value
    ensures data.endDate.Some? ==> t.endDate == data.endDate.value
    ensures data.startDate.None? && data.endDate.None? ==>
              if selected.Some?
              then t.startDate == selected.value.startDate && t.endDate == selected.value.endDate
              else t.startDate == t.endDate == today + 7
    ensures selected.Some? ==> t.crewCounts == selected.value.crewCounts && t.cellStatuses == selected.value.cellStatuses
    ensures selected.None? ==> t.crewCounts == map[] && t.cellStatuses == map[]
    ensures WellFormedData(data) && (selected.Some? ==> selected.value.startDate <= selected.value.endDate) ==>
              t.startDate <= t.endDate
  {
    var futureDate := today + 7;
    Task(
      if selected.Some? && Truthy(selected.value.id) then selected.value.id else freshId,
      data.name,
      if data.startDate.Some? then data.startDate.value
      else if selected.Some? then selected.value.startDate else futureDate,
      if data.endDate.Some? then data.endDate.value
      else if selected.Some? then selected.value.endDate else futureDate,
      data.responsible,
      data.status,
      data.comments,
      if selected.Some? then selected.value.crewCounts else map[],
      if selected.Some? then selected.value.cellStatuses else map[])
  }

  class CalendarView {
    var phases: seq<Phase>
    var currentViewDate: Day
    var isTaskModalOpen: bool
    var selectedPhaseId: Option<Id>
    var selectedTask: Option<Task>
    var selectedDates: DateSelection
    var isDragging: bool
    var editingCrewCount: Option<CrewCell>
    var isSettingTimeline: bool
    var activePhaseId: Option<Id>
    var deleteConfirmation: Option<TaskRef>

    /**
     * The invariant every handler keeps: every task's interval is ordered, as
     * are the edited task's and the selected interval, and a drag only
     * happens in timeline-setting mode.
     */
    ghost predicate Valid()
      reads this
    {
      && IntervalsOrdered(phases)
      && (selectedTask.Some? ==> selectedTask.value.startDate <= selectedTask.value.endDate)
      && (selectedDates.start.Some? && selectedDates.end.Some? ==> selectedDates.start.value <= selectedDates.end.value)
      && (isDragging ==> isSettingTimeline)
    }

    /** The component's initial state; `today` stands for `new Date()`. */
    constructor (phases: seq<Phase>, today: Day)
      requires IntervalsOrdered(phases)
      ensures Valid()
      ensures this.phases == phases && currentViewDate == today
      ensures !isTaskModalOpen && !isDragging && !isSettingTimeline
      ensures selectedPhaseId == None && selectedTask == None && activePhaseId == None
      ensures selectedDates == DateSelection(None, None)
      ensures editingCrewCount == None && deleteConfirmation == None
    {
      this.phases := phases;
      currentViewDate := today;
      isTaskModalOpen := false;
      selectedPhaseId := None;
      selectedTask := None;
      selectedDates := DateSelection(None, None);
      isDragging := false;
      editingCrewCount := None;
      isSettingTimeline := false;
      activePhaseId := None;
      deleteConfirmation := None;
    }

    // ------------------------------------------------------------ navigation

    method GoToPreviousPeriod(unit: TimeUnit, mode: ViewMode, cal: MonthArith)
      modifies this`currentViewDate
      ensures currentViewDate == Periods.Navigate(unit, mode, old(currentViewDate), false, cal)
    {
      if unit == D {
        var weeksToSubtract := if mode == TwoW then 2 else if mode == ThreeW then 3 else 4;
        currentViewDate := currentViewDate - 7 * weeksToSubtract;
      } else if unit == W {
        var monthsToSubtract := if mode == TwoM then 2 else if mode == ThreeM then 3 else 4;
        currentViewDate := cal.addMonths(currentViewDate, -monthsToSubtract);
      } else {
        currentViewDate := cal.addMonths(currentViewDate, -12);
      }
    }

    method GoToNextPeriod(unit: TimeUnit, mode: ViewMode, cal: MonthArith)
      modifies this`currentViewDate
      ensures currentViewDate == Periods.Navigate(unit, mode, old(currentViewDate), true, cal)
    {
      if unit == D {
        var weeksToAdd := if mode == TwoW then 2 else if mode == ThreeW then 3 else 4;
        currentViewDate := currentViewDate + 7 * weeksToAdd;
      } else if unit == W {
        var monthsToAdd := if mode == TwoM then 2 else if mode == ThreeM then 3 else 4;
        currentViewDate := cal.addMonths(currentViewDate, monthsToAdd);
      } else {
        currentViewDate := cal.addMonths(currentViewDate, 12);
      }
    }

    /** `goToToday`: the window moves to the one holding `today`. */
    method GoToToday(today: Day)
      modifies this`currentViewDate
      ensures currentViewDate == today
    {
      currentViewDate := today;
    }

    // ------------------------------------------------------- phases and tasks

    /** `handleSavePhase`: append an empty phase; `freshId` stands for the random id. */
    method HandleSavePhase(name: string, freshId: Id)
      requires Valid()
      modifies this`phases
      ensures Valid()
      ensures phases == old(phases) + [Phase(freshId, name, [])]
    {
      phases := phases + [Phase(freshId, name, [])];
    }

    /** `handleAddTask`: open the form for a new task of phase `phaseId`. */
    method HandleAddTask(phaseId: Id)
      requires Valid()
      modifies this`selectedPhaseId, this`selectedTask, this`selectedDates, this`isTaskModalOpen
      ensures Valid()
      ensures selectedPhaseId == Some(phaseId) && selectedTask == None
      ensures selectedDates == DateSelection(None, None) && isTaskModalOpen
    {
      selectedPhaseId := Some(phaseId);
      selectedTask := None;
      selectedDates := DateSelection(None, None);
      isTaskModalOpen := true;
    }

    /** `handleEditTask`: open the form on a task of the store. */
    method HandleEditTask(task: Task, phaseId: Id)
      requires Valid()
      requires task.startDate <= task.endDate
      modifies this`selectedPhaseId, this`selectedTask, this`selectedDates, this`isTaskModalOpen
      ensures Valid()
      ensures selectedPhaseId == Some(phaseId) && selectedTask == Some(task)
      ensures selectedDates == DateSelection(Some(task.startDate), Some(task.endDate)) && isTaskModalOpen
    {
      selectedPhaseId := Some(phaseId);
      selectedTask := Some(task);
      selectedDates := DateSelection(Some(task.startDate), Some(task.endDate));
      isTaskModalOpen := true;
    }

    /** `handleDeleteTask`: ask for confirmation. */
    method HandleDeleteTask(phaseId: Id, taskId: Id)
      modifies this`deleteConfirmation
      ensures deleteConfirmation == Some(TaskRef(phaseId, taskId))
    {
      deleteConfirmation := Some(TaskRef(phaseId, taskId));
    }

    /**
     * `confirmDeleteTask`: without a pending confirmation nothing happens;
     * otherwise the tasks with the confirmed id leave the confirmed phase and
     * the confirmation is cleared.
     */
    method ConfirmDeleteTask()
      requires Valid()
      modifies this`phases, this`deleteConfirmation
      ensures Valid()
      ensures old(deleteConfirmation).None? ==> phases == old(phases) && deleteConfirmation == None
      ensures old(deleteConfirmation).Some? ==>
                var c := old(deleteConfirmation).value;
                phases == RemoveTask(old(phases), c.phaseId, c.taskId) && deleteConfirmation == None
    {
      if deleteConfirmation.None? {
        return;
      }
      var c := deleteConfirmation.value;
      phases := RemoveTask(phases, c.phaseId, c.taskId);
      deleteConfirmation := None;
    }

    /** The delete dialog's cancel button: the pending confirmation is dropped and the store is kept. */
    method CancelDeleteTask()
      modifies this`deleteConfirmation
      ensures deleteConfirmation == None
    {
      deleteConfirmation := None;
    }

    /** The task form's `onClose`: the form closes and the selected task and interval are cleared. */
    method CloseTaskModal()
      requires Valid()
      modifies this`isTaskModalOpen, this`selectedTask, this`selectedDates
      ensures Valid()
      ensures !isTaskModalOpen && selectedTask == None && selectedDates == DateSelection(None, None)
    {
      isTaskModalOpen := false;
      selectedTask := None;
      selectedDates := DateSelection(None, None);
    }

    /**
     * `handleSaveTask`: nothing happens without a selected phase. Otherwise the
     * built task replaces the edited one or is appended to the phase; the form
     * closes; a new task arms timeline setting for itself, an edit disarms.
     * `freshId` and `today` stand for the random id and `new Date()`.
     */
    method HandleSaveTask(data: TaskData, freshId: Id, today: Day)
      requires Valid()
      requires WellFormedData(data)
      modifies this`phases, this`isTaskModalOpen, this`isSettingTimeline, this`selectedTask, this`activePhaseId
      ensures Valid()
      ensures old(selectedPhaseId).None? || !Truthy(old(selectedPhaseId).value) ==> unchanged(this)
      ensures old(selectedPhaseId).Some? && Truthy(old(selectedPhaseId).value) ==>
                var pid := old(selectedPhaseId).value;
                var t := NewTask(data, old(selectedTask), freshId, today);
                && !isTaskModalOpen
                && (old(selectedTask).Some? ==>
                      && phases == ReplaceTask(old(phases), pid, old(selectedTask).value.id, t)
                      && selectedTask == None && activePhaseId == None
                      && isSettingTimeline == old(isSettingTimeline))
                && (old(selectedTask).None? ==>
                      && phases == AppendTask(old(phases), pid, t)
                      && isSettingTimeline && selectedTask == Some(t) && activePhaseId == Some(pid))
    {
      if selectedPhaseId.None? || !Truthy(selectedPhaseId.value) {
        return;
      }
      var pid := selectedPhaseId.value;
      var newTask := NewTask(data, selectedTask, freshId, today);
      if selectedTask.Some? {
        phases := ReplaceTask(phases, pid, selectedTask.value.id, newTask);
      } else {
        phases := AppendTask(phases, pid, newTask);
      }
      isTaskModalOpen := false;
      if selectedTask.None? {
        isSettingTimeline := true;
        selectedTask := Some(newTask);
        activePhaseId := Some(pid);
      } else {
        selectedTask := None;
        activePhaseId := None;
      }
    }

    // --------------------------------------------------------- timeline drag

    /** `handleEditTimeline`: arm timeline setting for a task of the store. */
    method HandleEditTimeline(task: Task)
      requires Valid()
      requires task.startDate <= task.endDate
      modifies this`selectedTask, this`isSettingTimeline
      ensures Valid()
      ensures selectedTask == Some(task) && isSettingTimeline
    {
      selectedTask := Some(task);
      isSettingTimeline := true;
    }

    /** The guard of a press: timeline setting is armed for this very task, in the day unit. */
    predicate ArmedFor(task: Task, unit: TimeUnit)
      reads this
    {
      isSettingTimeline && selectedTask.Some? && task.id == selectedTask.value.id && unit == D
    }

    /**
     * `handleCellMouseDown` (and `handleCellTouchStart`): when armed for the
     * pressed task, start a drag anchored at the pressed day and set the
     * task's interval to that one day; otherwise nothing happens.
     */
    method HandleCellMouseDown(period: Day, task: Task, phaseId: Id, unit: TimeUnit)
      requires Valid()
      modifies this`isDragging, this`selectedDates, this`activePhaseId, this`phases
      ensures Valid()
      ensures !old(ArmedFor(task, unit)) ==> unchanged(this)
      ensures old(ArmedFor(task, unit)) ==>
                && isDragging
                && selectedDates == DateSelection(Some(period), Some(period))
                && activePhaseId == Some(phaseId)
                && phases == SetTaskDates(old(phases), phaseId, task.id, period, period)
    {
      if !isSettingTimeline || selectedTask.None? || task.id != selectedTask.value.id || unit != D {
        return;
      }
      isDragging := true;
      selectedDates := DateSelection(Some(period), Some(period));
      activePhaseId := Some(phaseId);
      phases := SetTaskDates(phases, phaseId, task.id, period, period);
    }

    /** The guard of a move: a drag is under way with its anchor, task and phase known, in the day unit. */
    predicate DragActive(unit: TimeUnit)
      reads this
    {
      && isDragging && selectedTask.Some? && selectedDates.start.Some?
      && activePhaseId.Some? && Truthy(activePhaseId.value) && unit == D
    }

    /**
     * `handleCellMouseEnter`: during a drag, the interval becomes
     * [anchor, max(anchor, hovered)]; the anchor never moves, so the start is
     * never after the end; outside a drag nothing happens.
     */
    method HandleCellMouseEnter(period: Day, unit: TimeUnit)
      requires Valid()
      modifies this`selectedDates, this`phases
      ensures Valid()
      ensures !old(DragActive(unit)) ==> unchanged(this)
      ensures old(DragActive(unit)) ==>
                var anchor := old(selectedDates).start.value;
                var end := if period >= anchor then period else anchor;
                && selectedDates == DateSelection(Some(anchor), Some(end))
                && anchor <= end && (end == anchor || end == period)
                && phases == SetTaskDates(old(phases), old(activePhaseId).value, old(selectedTask).value.id, anchor, end)
    {
      if !(isDragging && selectedTask.Some? && selectedDates.start.Some? && activePhaseId.Some?
           && Truthy(activePhaseId.value) && unit == D) {
        return;
      }
      var start := selectedDates.start.value;
      var end := if period >= start then period else start;
      selectedDates := DateSelection(Some(start), Some(end));
      phases := SetTaskDates(phases, activePhaseId.value, selectedTask.value.id, start, end);
    }

    /** `handleCellMouseUp`: end the drag and, if armed, disarm. */
    method HandleCellMouseUp()
      requires Valid()
      modifies this`isDragging, this`isSettingTimeline, this`selectedTask, this`activePhaseId
      ensures Valid()
      ensures !isDragging && !isSettingTimeline
      ensures old(isSettingTimeline) ==> selectedTask == None && activePhaseId == None
      ensures !old(isSettingTimeline) ==> selectedTask == old(selectedTask) && activePhaseId == old(activePhaseId)
    {
      isDragging := false;
      if isSettingTimeline {
        isSettingTimeline := false;
        selectedTask := None;
        activePhaseId := None;
      }
    }

    /** `handleCellTouchEnd`: like a mouse release, but only when armed. */
    method HandleCellTouchEnd()
      requires Valid()
      modifies this`isDragging, this`isSettingTimeline, this`selectedTask, this`activePhaseId
      ensures Valid()
      ensures !old(isSettingTimeline) ==> unchanged(this)
      ensures old(isSettingTimeline) ==>
                !isDragging && !isSettingTimeline && selectedTask == None && activePhaseId == None
    {
      if !isSettingTimeline {
        return;
      }
      isDragging := false;
      isSettingTimeline := false;
      selectedTask := None;
      activePhaseId := None;
    }

    // ------------------------------------------------------ cells: status, crew

    /**
     * `handleCellClick`: in the day unit and on a day of the task's interval,
     * every task with the clicked task's id moves one step along the status
     * cycle, from the clicked task's status that day; otherwise nothing happens.
     */
    method HandleCellClick(task: Task, period: Day, unit: TimeUnit)
      requires Valid()
      modifies this`phases
      ensures Valid()
      ensures unit != D || period < task.startDate || period > task.endDate ==> phases == old(phases)
      ensures unit == D && task.startDate <= period <= task.endDate ==>
                phases == SetCellStatus(old(phases), task.id, period, NextStatus(StatusAt(task, period)))
    {
      if unit != D {
        return;
      }
      if period < task.startDate || period > task.endDate {
        return;
      }
      var newStatus := NextStatus(StatusAt(task, period));
      phases := SetCellStatus(phases, task.id, period, newStatus);
    }

    /** `handleCrewCountClick`: open the crew input on a day of the first task with that id. */
    method HandleCrewCountClick(taskId: Id, period: Day, unit: TimeUnit)
      modifies this`editingCrewCount
      ensures var t := FindTask(AllTasks(old(phases)), taskId);
              if unit == D && t.Some? && t.value.startDate <= period <= t.value.endDate
              then editingCrewCount == Some(CrewCell(taskId, period))
              else editingCrewCount == old(editingCrewCount)
    {
      if unit != D {
        return;
      }
      var task := FindTask(AllTasks(phases), taskId);
      if task.Some? && period >= task.value.startDate && period <= task.value.endDate {
        editingCrewCount := Some(CrewCell(taskId, period));
      }
    }

    /**
     * `handleCrewCountChange`: `parsed` is `parseInt` of the input, `None`
     * for NaN, which counts as 0; every task with that id gets the count.
     */
    method HandleCrewCountChange(taskId: Id, date: Day, parsed: Option<int>)
      requires Valid()
      modifies this`phases
      ensures Valid()
      ensures phases == SetCrewCount(old(phases), taskId, date, if parsed.Some? then parsed.value else 0)
    {
      var value := if parsed.Some? then parsed.value else 0;
      phases := SetCrewCount(phases, taskId, date, value);
    }
  }
}
