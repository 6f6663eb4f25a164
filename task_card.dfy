/** The rules a task card applies: the next status in the cycle, the label
    of each status, the label of the toggle button, and the status change the
    toggle asks for. */
module TaskCard {
  import opened Types

  /** `getNextStatus`: TODO, then ONGOING, then COMPLETED, then TODO again. */
  function NextStatus(s: TaskStatus): (r: TaskStatus)
    ensures r != s
  {
    match s
    case TODO => ONGOING
    case ONGOING => COMPLETED
    case COMPLETED => TODO
  }

  /** The cycle has length three: three steps bring every status back,
      and fewer never do. */
  lemma NextStatusCycle(s: TaskStatus)
    ensures NextStatus(NextStatus(NextStatus(s))) == s
    ensures NextStatus(NextStatus(s)) != s
  {
  }

  /** Every status is reached from exactly one status. */
  lemma NextStatusBijective(s: TaskStatus, t: TaskStatus)
    ensures NextStatus(s) == NextStatus(t) ==> s == t
    ensures exists p :: NextStatus(p) == s
  {
    assert NextStatus(NextStatus(NextStatus(s))) == s;
  }

  /** `getStatusText`. */
  function StatusText(s: TaskStatus): (r: string)
    ensures r in {"To Do", "In Progress", "Completed"}
  {
    match s
    case TODO => "To Do"
    case ONGOING => "In Progress"
    case COMPLETED => "Completed"
  }

  /** Different statuses have different labels. */
  lemma StatusTextDistinct(s: TaskStatus, t: TaskStatus)
    ensures StatusText(s) == StatusText(t) <==> s == t
  {
    if s != t {
      assert StatusText(s)[0] != StatusText(t)[0];
    }
  }

  /** The label of the toggle button. */
  function ToggleLabel(s: TaskStatus): (r: string)
    ensures r == "Reset" <==> s == COMPLETED
    ensures r == "Progress" <==> s != COMPLETED
  {
    if s == COMPLETED then "Reset" else "Progress"
  }

  /** The button reads `Reset` exactly when pressing it sends the task back
      to TODO; otherwise it moves the task forward. */
  lemma ToggleLabelMatchesMove(s: TaskStatus)
    ensures ToggleLabel(s) == "Reset" <==> NextStatus(s) == TODO
  {
  }

  /** `handleStatusToggle`: the id of the card's task and the next status,
      which is the change the card asks the list to make. */
  function StatusToggle(task: Task): (change: (int, TaskStatus))
    ensures change.0 == task.taskId
    ensures change.1 != task.taskStatus
    ensures task.taskStatus == COMPLETED ==> change.1 == TODO
  {
    (task.taskId, NextStatus(task.taskStatus))
  }
}
