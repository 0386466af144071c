/**
 * The today list (src/components/TodayView.tsx): the tasks whose interval
 * touches today, each with its phase's name, and the status click that moves
 * today's cell of a listed task one step along the status cycle. `today`
 * stands for `new Date()` cut to the day.
 */
module TodayView {
  import opened Dates
  import opened Types
  import opened Store

  /** A listed task with the name of the phase holding it. */
  datatype TodayEntry = TodayEntry(task: Task, phaseName: string)

  /**
   * The list's filter: the task starts today, ends today, or started by now
   * and ends no earlier. For an ordered task that is: today lies in its
   * interval. Comparing midnight dates with the current instant,
   * `startDate <= now` is `start <= today` and `endDate >= now` is
   * `end > today`; the end-today case is the `isToday(endDate)` test.
   */
  function IsTodays(t: Task, today: Day): (listed: bool)
    ensures listed ==> t.startDate <= today || t.endDate == today
    ensures t.startDate <= t.endDate ==> (listed <==> t.startDate <= today <= t.endDate)
  {
    t.startDate == today || t.endDate == today || (t.startDate <= today && t.endDate > today)
  }

  /** `phase.tasks.filter(...)` with the list's filter. */
  function TodaysOf(tasks: seq<Task>, today: Day): (r: seq<Task>)
    ensures |r| <= |tasks|
    ensures forall t :: t in r <==> t in tasks && IsTodays(t, today)
  {
    if tasks == [] then []
    else (if IsTodays(tasks[0], today) then [tasks[0]] else []) + TodaysOf(tasks[1..], today)
  }

  /** Filtering distributes over concatenation, so it keeps the order of what it keeps. */
  lemma {:induction false} TodaysOfAppend(a: seq<Task>, b: seq<Task>, today: Day)
    ensures TodaysOf(a + b, today) == TodaysOf(a, today) + TodaysOf(b, today)
  {
    if a == [] {
      assert a + b == b;
    } else {
      assert (a + b)[1..] == a[1..] + b;
      TodaysOfAppend(a[1..], b, today);
    }
  }

  /** Each task of `tasks`, tagged with `phaseName`. */
  function Tagged(tasks: seq<Task>, phaseName: string): (r: seq<TodayEntry>)
    ensures |r| == |tasks|
    ensures forall k :: 0 <= k < |r| ==> r[k] == TodayEntry(tasks[k], phaseName)
  {
    seq(|tasks|, k requires 0 <= k < |tasks| => TodayEntry(tasks[k], phaseName))
  }

  /**
   * `todaysTasks`: phase by phase, the phase's tasks that pass the filter,
   * tagged with the phase's name. An entry is listed exactly when its task
   * passes the filter and sits in a phase with that name.
   */
  function TodaysTasks(phases: seq<Phase>, today: Day): (r: seq<TodayEntry>)
    ensures forall e :: e in r <==>
              IsTodays(e.task, today) &&
              exists i :: 0 <= i < |phases| && e.task in phases[i].tasks && e.phaseName == phases[i].name
  {
    if phases == [] then []
    else
      var rest := TodaysTasks(phases[1..], today);
      assert forall i :: 1 <= i < |phases| ==> phases[1..][i - 1] == phases[i];
      var head := Tagged(TodaysOf(phases[0].tasks, today), phases[0].name);
      assert forall e :: e in head <==>
               IsTodays(e.task, today) && e.task in phases[0].tasks && e.phaseName == phases[0].name by {
        forall e: TodayEntry | e in head
          ensures IsTodays(e.task, today) && e.task in phases[0].tasks && e.phaseName == phases[0].name
        {
          var k :| 0 <= k < |head| && head[k] == e;
        }
        forall e: TodayEntry | IsTodays(e.task, today) && e.task in phases[0].tasks && e.phaseName == phases[0].name
          ensures e in head
        {
          var todays := TodaysOf(phases[0].tasks, today);
          var k :| 0 <= k < |todays| && todays[k] == e.task;
          assert head[k] == e;
        }
      }
      head + rest
  }

  /** The tasks of a list of entries, in order. */
  function EntryTasks(entries: seq<TodayEntry>): (r: seq<Task>)
    ensures |r| == |entries|
    ensures forall k :: 0 <= k < |r| ==> r[k] == entries[k].task
  {
    seq(|entries|, k requires 0 <= k < |entries| => entries[k].task)
  }

  /**
   * The list holds the store's tasks that pass the filter in the store's
   * order, phase by phase and task by task.
   */
  lemma {:induction false} TodaysTasksInOrder(phases: seq<Phase>, today: Day)
    ensures EntryTasks(TodaysTasks(phases, today)) == TodaysOf(AllTasks(phases), today)
  {
    if phases != [] {
      TodaysTasksInOrder(phases[1..], today);
      assert AllTasks(phases) == phases[0].tasks + AllTasks(phases[1..]);
      TodaysOfAppend(phases[0].tasks, AllTasks(phases[1..]), today);
      var head := Tagged(TodaysOf(phases[0].tasks, today), phases[0].name);
      var rest := TodaysTasks(phases[1..], today);
      assert EntryTasks(head + rest) == EntryTasks(head) + EntryTasks(rest);
      assert EntryTasks(head) == TodaysOf(phases[0].tasks, today);
    }
  }

  /**
   * `handleStatusClick`: the first listed task with that id decides the new
   * status, one step along the cycle from its status today, and every task
   * with that id gets it today; when no listed task has that id nothing
   * changes.
   */
  function HandleStatusClick(phases: seq<Phase>, today: Day, taskId: Id): (r: seq<Phase>)
    ensures (forall e :: e in TodaysTasks(phases, today) ==> e.task.id != taskId) ==> r == phases
    ensures SameShape(phases, r)
    ensures forall i, j :: 0 <= i < |r| && 0 <= j < |r[i].tasks| ==>
              var t, u := phases[i].tasks[j], r[i].tasks[j];
              && u == t.(cellStatuses := u.cellStatuses)
              && (t.id != taskId ==> u == t)
              && forall d :: d != today ==> StatusAt(u, d) == StatusAt(t, d)
    ensures var e := FindTask(EntryTasks(TodaysTasks(phases, today)), taskId);
            e.Some? ==> forall i, j :: 0 <= i < |r| && 0 <= j < |r[i].tasks| && phases[i].tasks[j].id == taskId ==>
                          StatusAt(r[i].tasks[j], today) == NextStatus(StatusAt(e.value, today))
  {
    var entry := FindTask(EntryTasks(TodaysTasks(phases, today)), taskId);
    if entry.None? then phases
    else SetCellStatus(phases, taskId, today, NextStatus(StatusAt(entry.value, today)))
  }

  /**
   * A click on a listed task is the calendar's status click on that task's
   * cell for today: the same step of the same cycle, for every task with its
   * id, and today lies in the task's interval, so the calendar's guard
   * would let that click through.
   */
  lemma StatusClickIsCalendarClick(phases: seq<Phase>, today: Day, taskId: Id)
    requires IntervalsOrdered(phases)
    requires exists e :: e in TodaysTasks(phases, today) && e.task.id == taskId
    ensures var t := FindTask(EntryTasks(TodaysTasks(phases, today)), taskId);
            && t.Some? && t.value.id == taskId
            && t.value.startDate <= today <= t.value.endDate
            && HandleStatusClick(phases, today, taskId) ==
                 SetCellStatus(phases, t.value.id, today, NextStatus(StatusAt(t.value, today)))
  {
    var entries := TodaysTasks(phases, today);
    var e :| e in entries && e.task.id == taskId;
    var k :| 0 <= k < |entries| && entries[k] == e;
    assert EntryTasks(entries)[k] == e.task;
    var t := FindTask(EntryTasks(entries), taskId);
    var m :| 0 <= m < |entries| && EntryTasks(entries)[m] == t.value;
    assert entries[m] in entries;
    var i :| 0 <= i < |phases| && t.value in phases[i].tasks;
  }

  /** The label of a cell status in the list; none reads "Not Started". */
  function GetStatusLabel(s: CellStatus): (text: string)
    ensures text == "Not Started" <==> s == NoStatus
  {
    match s
    case OnTrack => "On Track"
    case Flag => "Flagged"
    case Missed => "Missed"
    case Completed => "Completed"
    case NoStatus => "Not Started"
  }

  /** Different statuses get different labels. */
  lemma StatusLabelsDistinct(a: CellStatus, b: CellStatus)
    ensures GetStatusLabel(a) == GetStatusLabel(b) <==> a == b
  {
  }
}
