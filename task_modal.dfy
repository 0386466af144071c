/**
 * The task form (src/components/TaskModal.tsx): its fields, the date
 * validation that both dates or neither are given and in order, the start
 * date change that clears an end date it overtakes, and the submission that
 * hands the calendar well-formed task data.
 *
 * The form's date inputs hold '' or one 'yyyy-MM-dd' text; here they hold
 * `None` or that day.
 */
module TaskModal {
  import opened Dates
  import opened Types

  const BothRequired := "Both start and end dates are required when setting a timeline"
  const EndBeforeStart := "End date cannot be before start date"

  /**
   * The message `validateDates` leaves in `dateError`: none when both dates
   * or neither are given and the end is not before the start.
   */
  function DateError(start: Option<Day>, end: Option<Day>): (msg: string)
    ensures msg == "" <==>
              (start.Some? <==> end.Some?) && (start.Some? && end.Some? ==> start.value <= end.value)
    ensures msg == BothRequired <==> start.Some? != end.Some?
    ensures msg == EndBeforeStart <==> start.Some? && end.Some? && end.value < start.value
  {
    if start.Some? != end.Some? then BothRequired
    else if start.Some? && end.Some? && end.value < start.value then EndBeforeStart
    else ""
  }

  /** The end date after the start date changes to `start`: cleared when it now precedes the start. */
  function ClearedEnd(start: Option<Day>, end: Option<Day>): (r: Option<Day>)
    ensures r == end || r == None
    ensures r != end <==> start.Some? && end.Some? && end.value < start.value
    ensures start.Some? && r.Some? ==> start.value <= r.value
  {
    if end.Some? && start.Some? && end.value < start.value then None else end
  }

  /** The date fields of the form and the error shown under them. */
  datatype DateFields = DateFields(start: Option<Day>, end: Option<Day>, error: string)

  /**
   * `handleStartDateChange` as written: the end is cleared when the new start
   * overtakes it, but the validation reads the end date as it was before.
   */
  function StartDateChangeAsWritten(value: Option<Day>, end: Option<Day>): (r: DateFields)
    ensures r.start == value && r.end == ClearedEnd(value, end)
    ensures r.error == DateError(value, end)
  {
    DateFields(value, ClearedEnd(value, end), DateError(value, end))
  }

  /**
   * A start date after the end date clears the end, yet the form then reports
   * that the end is before the start, about an end field that is empty; the
   * fields it shows call for the other message.
   */
  lemma StaleEndErrorAsWritten()
    ensures var r := StartDateChangeAsWritten(Some(19800), Some(19797));
            && r.end == None
            && r.error == EndBeforeStart
            && r.error != DateError(r.start, r.end)
            && DateError(r.start, r.end) == BothRequired
  {
  }

  /**
   * The start date change with the validation of the fields as they end up:
   * the end is cleared when overtaken, after which it is empty or not before
   * the start, and the error shown is the one those fields call for.
   */
  function StartDateChange(value: Option<Day>, end: Option<Day>): (r: DateFields)
    ensures r.start == value
    ensures r.end == end || r.end == None
    ensures r.end != end <==> value.Some? && end.Some? && end.value < value.value
    ensures r.end.None? || value.None? || value.value <= r.end.value
    ensures r.error == DateError(r.start, r.end)
  {
    var newEnd := ClearedEnd(value, end);
    DateFields(value, newEnd, DateError(value, newEnd))
  }

  /** The two differ only when the end is cleared: otherwise the stale end is the current one. */
  lemma StartDateChangeAgrees(value: Option<Day>, end: Option<Day>)
    ensures StartDateChange(value, end) == StartDateChangeAsWritten(value, end) <==>
              !(value.Some? && end.Some? && end.value < value.value)
  {
    if value.Some? && end.Some? && end.value < value.value {
      assert StartDateChange(value, end).error == BothRequired;
    }
  }

  /**
   * What `handleSubmit` hands to `onSave`: nothing when the dates are
   * invalid; otherwise the fields, the comments of the edited task (none for
   * a new one) and the dates when both are given.
   */
  function Submission(name: string, responsible: string, status: TaskStatus,
                      start: Option<Day>, end: Option<Day>, task: Option<Task>): (r: Option<TaskData>)
    ensures r.None? <==> DateError(start, end) != ""
    ensures r.Some? ==> WellFormedData(r.value)
    ensures r.Some? ==> r.value.name == name && r.value.responsible == responsible && r.value.status == status
    ensures r.Some? ==> r.value.comments == if task.Some? then task.value.comments else []
    ensures r.Some? ==> r.value.startDate == start && r.value.endDate == end
  {
    if DateError(start, end) != "" then None
    else
      var comments := if task.Some? then task.value.comments else [];
      if start.Some? && end.Some? then Some(TaskData(name, responsible, status, comments, start, end))
      else Some(TaskData(name, responsible, status, comments, None, None))
  }

  class TaskForm {
    var taskName: string
    var responsible: string
    var status: TaskStatus
    var startDate: Option<Day>
    var endDate: Option<Day>
    var dateError: string

    /** The form's first render: empty fields, status pending, no error. */
    constructor ()
      ensures taskName == "" && responsible == "" && status == Pending
      ensures startDate == None && endDate == None && dateError == ""
    {
      taskName := "";
      responsible := "";
      status := Pending;
      startDate := None;
      endDate := None;
      dateError := "";
    }

    /**
     * The effect that runs when the form opens: the fields are loaded from
     * the edited task, or reset for a new one, and the error is cleared.
     */
    method Open(task: Option<Task>)
      modifies this
      ensures task.Some? ==>
                && taskName == task.value.name && responsible == task.value.responsible
                && status == task.value.status
                && startDate == Some(task.value.startDate) && endDate == Some(task.value.endDate)
      ensures task.None? ==>
                taskName == "" && responsible == "" && status == Pending && startDate == None && endDate == None
      ensures dateError == ""
    {
      if task.Some? {
        taskName := task.value.name;
        responsible := task.value.responsible;
        status := task.value.status;
        startDate := Some(task.value.startDate);
        endDate := Some(task.value.endDate);
      } else {
        taskName := "";
        responsible := "";
        status := Pending;
        startDate := None;
        endDate := None;
      }
      dateError := "";
    }

    /** `validateDates`: the verdict, with its message left in `dateError`. */
    method ValidateDates(start: Option<Day>, end: Option<Day>) returns (ok: bool)
      modifies this`dateError
      ensures ok <==> DateError(start, end) == ""
      ensures dateError == DateError(start, end)
    {
      dateError := "";
      if (start.Some? && end.None?) || (start.None? && end.Some?) {
        dateError := BothRequired;
        return false;
      }
      if start.Some? && end.Some? {
        if end.value < start.value {
          dateError := EndBeforeStart;
          return false;
        }
      }
      return true;
    }

    /**
     * `handleStartDateChange` as the program has it: the end is cleared when
     * the new start overtakes it, and the validation reads the end the
     * handler started from.
     */
    method HandleStartDateChange(value: Option<Day>)
      modifies this`startDate, this`endDate, this`dateError
      ensures DateFields(startDate, endDate, dateError) == StartDateChangeAsWritten(value, old(endDate))
      ensures endDate.None? || value.None? || value.value <= endDate.value
    {
      var staleEnd := endDate;
      startDate := value;
      if endDate.Some? && value.Some? && endDate.value < value.value {
        endDate := None;
      }
      var _ := ValidateDates(value, staleEnd);
    }

    /** `handleEndDateChange`. */
    method HandleEndDateChange(value: Option<Day>)
      modifies this`endDate, this`dateError
      ensures endDate == value
      ensures dateError == DateError(startDate, value)
    {
      endDate := value;
      var _ := ValidateDates(startDate, value);
    }

    /** `handleSubmit`: validate, then hand over the task data (or nothing). */
    method HandleSubmit(task: Option<Task>) returns (saved: Option<TaskData>)
      modifies this`dateError
      ensures saved == Submission(taskName, responsible, status, startDate, endDate, task)
      ensures dateError == DateError(startDate, endDate)
    {
      var ok := ValidateDates(startDate, endDate);
      if !ok {
        return None;
      }
      var comments := if task.Some? then task.value.comments else [];
      if startDate.Some? && endDate.Some? {
        saved := Some(TaskData(taskName, responsible, status, comments, startDate, endDate));
      } else {
        saved := Some(TaskData(taskName, responsible, status, comments, None, None));
      }
    }
  }
}
