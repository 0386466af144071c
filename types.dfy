/**
 * The records of the calendar (src/types/index.ts) and the per-day lookups
 * every view shares: a cell's status, with an absent key read as "none", a
 * cell's crew count, with an absent key read as 0, and the five-state status
 * cycle.
 */
module Types {
  import opened Dates

  datatype Option<T> = None | Some(value: T)

  /** Ids are strings; the empty string is falsy in the source's `if (!id)` tests. */
  type Id = string

  predicate Truthy(s: string) {
    s != ""
  }

  datatype CellStatus = NoStatus | OnTrack | Flag | Missed | Completed

  datatype TaskStatus = Pending | InProgress | TaskCompleted | Behind

  /** Part of a task record; no operation of the calendar creates or reads one. */
  datatype Comment = Comment(id: Id, text: string, author: string, createdAt: Day)

  /**
   * A task. The source keys `crewCounts` and `cellStatuses` by the date's
   * 'yyyy-MM-dd' text, which names one day, so the keys here are days.
   */
  datatype Task = Task(
    id: Id,
    name: string,
    startDate: Day,
    endDate: Day,
    responsible: string,
    status: TaskStatus,
    comments: seq<Comment>,
    crewCounts: map<Day, int>,
    cellStatuses: map<Day, CellStatus>)

  datatype Phase = Phase(id: Id, name: string, tasks: seq<Task>)

  /**
   * What the task form hands to `onSave` (a `Partial<Task>`): the form always
   * fills name, responsible, status and comments, and the dates only when
   * both were entered.
   */
  datatype TaskData = TaskData(
    name: string,
    responsible: string,
    status: TaskStatus,
    comments: seq<Comment>,
    startDate: Option<Day>,
    endDate: Option<Day>)

  /** Data from the task form is well formed: both dates or neither, and then in order. */
  predicate WellFormedData(data: TaskData) {
    && (data.startDate.Some? <==> data.endDate.Some?)
    && (data.startDate.Some? && data.endDate.Some? ==> data.startDate.value <= data.endDate.value)
  }

  datatype ViewMode = TwoW | ThreeW | FourW | TwoM | ThreeM | FourM

  datatype TimeUnit = D | W | M

  predicate IsWeekMode(mode: ViewMode) {
    mode == TwoW || mode == ThreeW || mode == FourW
  }

  /** The App's coupling of the two view settings: days are shown exactly in the week-sized windows. */
  predicate Coupled(unit: TimeUnit, mode: ViewMode) {
    unit == D <==> IsWeekMode(mode)
  }

  /** `task.cellStatuses[dateStr] || 'none'`. */
  function StatusAt(t: Task, d: Day): (s: CellStatus)
    ensures d !in t.cellStatuses ==> s == NoStatus
    ensures d in t.cellStatuses ==> s == t.cellStatuses[d]
  {
    if d in t.cellStatuses then t.cellStatuses[d] else NoStatus
  }

  /** `task.crewCounts?.[dateStr] || 0`. */
  function CrewAt(t: Task, d: Day): (n: int)
    ensures d !in t.crewCounts ==> n == 0
    ensures d in t.crewCounts ==> n == t.crewCounts[d]
  {
    if d in t.crewCounts then t.crewCounts[d] else 0
  }

  /** Position of a status on the cycle none, on-track, flag, missed, completed. */
  function Rank(s: CellStatus): (r: nat)
    ensures r < 5
  {
    match s
    case NoStatus => 0
    case OnTrack => 1
    case Flag => 2
    case Missed => 3
    case Completed => 4
  }

  lemma RankInjective(a: CellStatus, b: CellStatus)
    ensures Rank(a) == Rank(b) ==> a == b
  {
  }

  /** The status a click moves a cell to (the `switch` in both the calendar and the today list). */
  function NextStatus(s: CellStatus): (r: CellStatus)
    ensures Rank(r) == (Rank(s) + 1) % 5
  {
    match s
    case NoStatus => OnTrack
    case OnTrack => Flag
    case Flag => Missed
    case Missed => Completed
    case Completed => NoStatus
  }

  /** `n` clicks in a row. */
  function Clicks(s: CellStatus, n: nat): CellStatus {
    if n == 0 then s else NextStatus(Clicks(s, n - 1))
  }

  lemma {:induction false} ClicksRank(s: CellStatus, n: nat)
    ensures Rank(Clicks(s, n)) == (Rank(s) + n) % 5
  {
    if n > 0 {
      ClicksRank(s, n - 1);
    }
  }

  /** The cycle closes: five clicks bring every status back, and fewer never do. */
  lemma CycleLengthFive(s: CellStatus, n: nat)
    requires 0 < n <= 5
    ensures Clicks(s, n) == s <==> n == 5
  {
    ClicksRank(s, n);
    RankInjective(Clicks(s, n), s);
  }
}
