/**
 * The copy-on-write updates of the phase/task store. Every handler of the
 * calendar and of the today list replaces `phases` by one of these values
 * (`phases.map(...)` with object spreads in src/components/CalendarView.tsx
 * and src/components/TodayView.tsx); each changes one kind of entry and
 * leaves the rest of the store as it was.
 */
module Store {
  import opened Dates
  import opened Types

  /** Same phases (ids and names) holding the same number of tasks with the same ids. */
  ghost predicate SameShape(a: seq<Phase>, b: seq<Phase>) {
    && |a| == |b|
    && (forall i :: 0 <= i < |a| ==> a[i].id == b[i].id && a[i].name == b[i].name)
    && (forall i :: 0 <= i < |a| ==> |a[i].tasks| == |b[i].tasks|)
    && (forall i, j :: 0 <= i < |a| && 0 <= j < |a[i].tasks| ==> a[i].tasks[j].id == b[i].tasks[j].id)
  }

  /** Every task's interval is ordered: its end is not before its start. */
  ghost predicate IntervalsOrdered(phases: seq<Phase>) {
    forall p, t :: p in phases && t in p.tasks ==> t.startDate <= t.endDate
  }

  /** `tasks.filter(task => task.id !== tid)`. */
  function WithoutId(tasks: seq<Task>, tid: Id): (r: seq<Task>)
    ensures |r| <= |tasks|
    ensures forall t :: t in r <==> t in tasks && t.id != tid
  {
    if tasks == [] then []
    else (if tasks[0].id == tid then [] else [tasks[0]]) + WithoutId(tasks[1..], tid)
  }

  /** Filtering distributes over concatenation: the kept tasks stay in their order. */
  lemma {:induction false} WithoutIdAppend(a: seq<Task>, b: seq<Task>, tid: Id)
    ensures WithoutId(a + b, tid) == WithoutId(a, tid) + WithoutId(b, tid)
  {
    if a != [] {
      assert (a + b)[1..] == a[1..] + b;
      WithoutIdAppend(a[1..], b, tid);
    } else {
      assert a + b == b;
    }
  }

  /** Deleting an id no task carries changes nothing. */
  lemma {:induction false} WithoutIdAbsent(tasks: seq<Task>, tid: Id)
    requires forall t :: t in tasks ==> t.id != tid
    ensures WithoutId(tasks, tid) == tasks
  {
    if tasks != [] {
      WithoutIdAbsent(tasks[1..], tid);
      assert [tasks[0]] + tasks[1..] == tasks;
    }
  }

  /** `confirmDeleteTask`'s update: drop the tasks with id `tid` from the phases with id `pid`. */
  function RemoveTask(phases: seq<Phase>, pid: Id, tid: Id): (r: seq<Phase>)
    ensures |r| == |phases|
    ensures forall i :: 0 <= i < |r| ==> r[i].id == phases[i].id && r[i].name == phases[i].name
    ensures forall i :: 0 <= i < |r| && phases[i].id != pid ==> r[i] == phases[i]
    ensures forall i, t :: 0 <= i < |r| && phases[i].id == pid ==>
              (t in r[i].tasks <==> t in phases[i].tasks && t.id != tid)
    ensures forall i :: 0 <= i < |r| && phases[i].id == pid ==> r[i].tasks == WithoutId(phases[i].tasks, tid)
  {
    seq(|phases|, i requires 0 <= i < |phases| =>
      if phases[i].id == pid then phases[i].(tasks := WithoutId(phases[i].tasks, tid)) else phases[i])
  }

  /** `handleSaveTask`'s update for a new task: append it to the phases with id `pid`. */
  function AppendTask(phases: seq<Phase>, pid: Id, t: Task): (r: seq<Phase>)
    ensures |r| == |phases|
    ensures forall i :: 0 <= i < |r| ==> r[i].id == phases[i].id && r[i].name == phases[i].name
    ensures forall i :: 0 <= i < |r| ==>
              r[i].tasks == if phases[i].id == pid then phases[i].tasks + [t] else phases[i].tasks
  {
    seq(|phases|, i requires 0 <= i < |phases| =>
      if phases[i].id == pid then phases[i].(tasks := phases[i].tasks + [t]) else phases[i])
  }

  /** `handleSaveTask`'s update for an edited task: in the phases with id `pid`, the tasks with id `tid` become `t`. */
  function ReplaceTask(phases: seq<Phase>, pid: Id, tid: Id, t: Task): (r: seq<Phase>)
    ensures |r| == |phases|
    ensures forall i :: 0 <= i < |r| ==> r[i].id == phases[i].id && r[i].name == phases[i].name
    ensures forall i :: 0 <= i < |r| ==> |r[i].tasks| == |phases[i].tasks|
    ensures forall i, j :: 0 <= i < |r| && 0 <= j < |r[i].tasks| ==>
              r[i].tasks[j] == if phases[i].id == pid && phases[i].tasks[j].id == tid then t else phases[i].tasks[j]
  {
    seq(|phases|, i requires 0 <= i < |phases| =>
      if phases[i].id != pid then phases[i]
      else phases[i].(tasks := seq(|phases[i].tasks|, j requires 0 <= j < |phases[i].tasks| =>
        if phases[i].tasks[j].id == tid then t else phases[i].tasks[j])))
  }

  /**
   * The timeline handlers' update: in the phases with id `pid`, the tasks with
   * id `tid` get the interval [start, end]; nothing else in them changes.
   */
  function SetTaskDates(phases: seq<Phase>, pid: Id, tid: Id, start: Day, end: Day): (r: seq<Phase>)
    ensures SameShape(phases, r)
    ensures forall i, j :: 0 <= i < |r| && 0 <= j < |r[i].tasks| ==>
              var t, u := phases[i].tasks[j], r[i].tasks[j];
              if phases[i].id == pid && t.id == tid
              then u.startDate == start && u.endDate == end && u == t.(startDate := u.startDate, endDate := u.endDate)
              else u == t
  {
    seq(|phases|, i requires 0 <= i < |phases| =>
      if phases[i].id != pid then phases[i]
      else phases[i].(tasks := seq(|phases[i].tasks|, j requires 0 <= j < |phases[i].tasks| =>
        var t := phases[i].tasks[j];
        if t.id == tid then t.(startDate := start, endDate := end) else t)))
  }

  /**
   * The status-click update (calendar and today list alike): every task with
   * id `tid`, in every phase, gets status `s` on `day`; every other day, every
   * other field and every other task keeps its value.
   */
  function SetCellStatus(phases: seq<Phase>, tid: Id, day: Day, s: CellStatus): (r: seq<Phase>)
    ensures SameShape(phases, r)
    ensures forall i, j :: 0 <= i < |r| && 0 <= j < |r[i].tasks| ==>
              var t, u := phases[i].tasks[j], r[i].tasks[j];
              && u == t.(cellStatuses := u.cellStatuses)
              && (t.id != tid ==> u == t)
              && (t.id == tid ==> u.cellStatuses.Keys == t.cellStatuses.Keys + {day})
              && forall d :: StatusAt(u, d) == if t.id == tid && d == day then s else StatusAt(t, d)
  {
    seq(|phases|, i requires 0 <= i < |phases| =>
      phases[i].(tasks := seq(|phases[i].tasks|, j requires 0 <= j < |phases[i].tasks| =>
        var t := phases[i].tasks[j];
        if t.id == tid then t.(cellStatuses := t.cellStatuses[day := s]) else t)))
  }

  /**
   * `handleCrewCountChange`'s update: every task with id `tid` gets crew count
   * `n` on `day`; every other day, field and task keeps its value.
   */
  function SetCrewCount(phases: seq<Phase>, tid: Id, day: Day, n: int): (r: seq<Phase>)
    ensures SameShape(phases, r)
    ensures forall i, j :: 0 <= i < |r| && 0 <= j < |r[i].tasks| ==>
              var t, u := phases[i].tasks[j], r[i].tasks[j];
              && u == t.(crewCounts := u.crewCounts)
              && (t.id != tid ==> u == t)
              && (t.id == tid ==> u.crewCounts.Keys == t.crewCounts.Keys + {day})
              && forall d :: CrewAt(u, d) == if t.id == tid && d == day then n else CrewAt(t, d)
  {
    seq(|phases|, i requires 0 <= i < |phases| =>
      phases[i].(tasks := seq(|phases[i].tasks|, j requires 0 <= j < |phases[i].tasks| =>
        var t := phases[i].tasks[j];
        if t.id == tid then t.(crewCounts := t.crewCounts[day := n]) else t)))
  }

  /** All tasks, phase by phase (`phases.flatMap(p => p.tasks)`). */
  function AllTasks(phases: seq<Phase>): (r: seq<Task>)
    ensures forall t :: t in r <==> exists i :: 0 <= i < |phases| && t in phases[i].tasks
    ensures phases == [] ==> r == []
    ensures |phases| == 1 ==> r == phases[0].tasks
  {
    if phases == [] then []
    else
      assert forall i :: 1 <= i < |phases| ==> phases[1..][i - 1] == phases[i];
      phases[0].tasks + AllTasks(phases[1..])
  }

  /**
   * Flattening distributes over concatenation: the tasks come phase by phase,
   * each phase's in its own order, each as often as it is stored.
   */
  lemma {:induction false} AllTasksAppend(a: seq<Phase>, b: seq<Phase>)
    ensures AllTasks(a + b) == AllTasks(a) + AllTasks(b)
  {
    if a == [] {
      assert a + b == b;
    } else {
      assert (a + b)[1..] == a[1..] + b;
      AllTasksAppend(a[1..], b);
    }
  }

  /** `.find(t => t.id === tid)`: the first task with that id, if any. */
  function FindTask(tasks: seq<Task>, tid: Id): (r: Option<Task>)
    ensures r.None? <==> forall t :: t in tasks ==> t.id != tid
    ensures r.Some? ==> r.value in tasks && r.value.id == tid
    ensures r.Some? ==> exists k :: 0 <= k < |tasks| && tasks[k] == r.value &&
                           forall k' :: 0 <= k' < k ==> tasks[k'].id != tid
  {
    if tasks == [] then None
    else if tasks[0].id == tid then Some(tasks[0])
    else
      var rest := FindTask(tasks[1..], tid);
      assert rest.Some? ==> exists k :: 1 <= k < |tasks| && tasks[k] == rest.value &&
                                      forall k' :: 1 <= k' < k ==> tasks[k'].id != tid by {
        if rest.Some? {
          var k :| 0 <= k < |tasks[1..]| && tasks[1..][k] == rest.value &&
                   forall k' :: 0 <= k' < k ==> tasks[1..][k'].id != tid;
          assert forall k' :: 1 <= k' < k + 1 ==> tasks[k'] == tasks[1..][k' - 1];
        }
      }
      rest
  }

  /** One calendar status click on the task at position (i, j), past the click's guards. */
  function ClickCell(phases: seq<Phase>, i: nat, j: nat, day: Day): (r: seq<Phase>)
    requires i < |phases| && j < |phases[i].tasks|
    ensures SameShape(phases, r)
    ensures StatusAt(r[i].tasks[j], day) == NextStatus(StatusAt(phases[i].tasks[j], day))
  {
    var t := phases[i].tasks[j];
    SetCellStatus(phases, t.id, day, NextStatus(StatusAt(t, day)))
  }

  /** `n` clicks in a row on the same cell. */
  function ClickCellTimes(phases: seq<Phase>, i: nat, j: nat, day: Day, n: nat): (r: seq<Phase>)
    requires i < |phases| && j < |phases[i].tasks|
    ensures SameShape(phases, r)
  {
    if n == 0 then phases else ClickCell(ClickCellTimes(phases, i, j, day, n - 1), i, j, day)
  }

  /** After `n` clicks the cell shows the status `n` steps further along the cycle. */
  lemma {:induction false} ClickCellTimesStatus(phases: seq<Phase>, i: nat, j: nat, day: Day, n: nat)
    requires i < |phases| && j < |phases[i].tasks|
    ensures StatusAt(ClickCellTimes(phases, i, j, day, n)[i].tasks[j], day) == Clicks(StatusAt(phases[i].tasks[j], day), n)
  {
    if n > 0 {
      ClickCellTimesStatus(phases, i, j, day, n - 1);
    }
  }

  /** Five clicks on a cell bring back the status it showed, an absent entry reading as none. */
  lemma FiveClicksRestoreCell(phases: seq<Phase>, i: nat, j: nat, day: Day)
    requires i < |phases| && j < |phases[i].tasks|
    ensures StatusAt(ClickCellTimes(phases, i, j, day, 5)[i].tasks[j], day) == StatusAt(phases[i].tasks[j], day)
  {
    ClickCellTimesStatus(phases, i, j, day, 5);
    CycleLengthFive(StatusAt(phases[i].tasks[j], day), 5);
  }
}
