/** The task list screen: which tasks are shown for a search term and a
    status filter, the counts in its header, and how the list held in memory
    changes after each call to the API client. */
module TaskList {
  import opened Types
  import opened Text
  import opened Http
  import opened ApiClient
  import StatusChain

  // ---------------------------------------------------------------------
  // Filtering a sequence
  // ---------------------------------------------------------------------

  /** `s.filter(p)`: the elements satisfying `p`, in their order. */
  function Filter<T>(s: seq<T>, p: T -> bool): (r: seq<T>)
    ensures |r| <= |s|
    decreases |s|
  {
    if s == [] then [] else (if p(s[0]) then [s[0]] else []) + Filter(s[1..], p)
  }

  /** `r` is `s` with some elements left out, the rest in their order. */
  predicate IsSubsequence<T(==)>(r: seq<T>, s: seq<T>)
    decreases |s|
  {
    if r == [] then true
    else if s == [] then false
    else (r[0] == s[0] && IsSubsequence(r[1..], s[1..])) || IsSubsequence(r, s[1..])
  }

  /** The result of a filter is an order-preserving subsequence holding
      only elements that satisfy the predicate. */
  lemma {:induction false} FilterIsSubsequence<T>(s: seq<T>, p: T -> bool)
    ensures IsSubsequence(Filter(s, p), s)
    ensures forall i :: 0 <= i < |Filter(s, p)| ==> p(Filter(s, p)[i])
    decreases |s|
  {
    if s != [] {
      FilterIsSubsequence(s[1..], p);
      if p(s[0]) {
        assert Filter(s, p) == [s[0]] + Filter(s[1..], p);
        assert Filter(s, p)[1..] == Filter(s[1..], p);
      } else {
        assert Filter(s, p) == Filter(s[1..], p);
      }
    }
  }

  /** Each element occurs in the result as often as in the input when it
      satisfies the predicate, and not at all otherwise. */
  lemma {:induction false} FilterCounts<T>(s: seq<T>, p: T -> bool, x: T)
    ensures multiset(Filter(s, p))[x] == if p(x) then multiset(s)[x] else 0
    decreases |s|
  {
    if s != [] {
      FilterCounts(s[1..], p, x);
      assert s == [s[0]] + s[1..];
      assert multiset(s) == multiset([s[0]]) + multiset(s[1..]);
      assert multiset(Filter(s, p)) == multiset(if p(s[0]) then [s[0]] else []) + multiset(Filter(s[1..], p));
    }
  }

  lemma FilterMembership<T>(s: seq<T>, p: T -> bool, x: T)
    ensures x in Filter(s, p) <==> x in s && p(x)
  {
    FilterCounts(s, p, x);
    assert x in Filter(s, p) <==> x in multiset(Filter(s, p));
    assert x in s <==> x in multiset(s);
  }

  /** A filter keeps everything when every element satisfies it. */
  lemma {:induction false} FilterKeepsAll<T>(s: seq<T>, p: T -> bool)
    requires forall i :: 0 <= i < |s| ==> p(s[i])
    ensures Filter(s, p) == s
    decreases |s|
  {
    if s != [] {
      assert p(s[0]);
      FilterKeepsAll(s[1..], p);
      assert [s[0]] + s[1..] == s;
    }
  }

  /** Two predicates that agree on the elements give the same filter. */
  lemma {:induction false} FilterAgree<T>(s: seq<T>, p: T -> bool, q: T -> bool)
    requires forall i :: 0 <= i < |s| ==> p(s[i]) == q(s[i])
    ensures Filter(s, p) == Filter(s, q)
    decreases |s|
  {
    if s != [] {
      assert p(s[0]) == q(s[0]);
      FilterAgree(s[1..], p, q);
    }
  }

  /** Filtering twice is filtering once by the conjunction. */
  lemma {:induction false} FilterTwice<T>(s: seq<T>, p: T -> bool, q: T -> bool, both: T -> bool)
    requires forall i :: 0 <= i < |s| ==> both(s[i]) == (p(s[i]) && q(s[i]))
    ensures Filter(Filter(s, p), q) == Filter(s, both)
    decreases |s|
  {
    if s != [] {
      FilterTwice(s[1..], p, q, both);
      if p(s[0]) {
        assert Filter(s, p) == [s[0]] + Filter(s[1..], p);
        assert Filter(s, p)[1..] == Filter(s[1..], p);
        assert Filter(Filter(s, p), q)
            == (if q(s[0]) then [s[0]] else []) + Filter(Filter(s[1..], p), q);
      } else {
        assert Filter(s, p) == Filter(s[1..], p);
        assert !both(s[0]);
      }
    }
  }

  /** Filtering a filtered sequence by the same predicate changes nothing. */
  lemma FilterIdempotent<T>(s: seq<T>, p: T -> bool)
    ensures Filter(Filter(s, p), p) == Filter(s, p)
  {
    FilterIsSubsequence(s, p);
    FilterKeepsAll(Filter(s, p), p);
  }

  // ---------------------------------------------------------------------
  // Search and status filter
  // ---------------------------------------------------------------------

  /** The status filter: every status, or one. */
  datatype StatusFilter = All | Only(status: TaskStatus)

  /** The search condition: the lower-cased name or description contains
      the lower-cased term. */
  predicate MatchesSearch(t: Task, term: string) {
    Contains(Lower(t.taskName), Lower(term)) || Contains(Lower(t.taskDescription), Lower(term))
  }

  function SearchMatcher(term: string): Task -> bool {
    (t: Task) => MatchesSearch(t, term)
  }

  function StatusMatcher(status: TaskStatus): Task -> bool {
    (t: Task) => t.taskStatus == status
  }

  /** When a task is shown: the term is empty or found, and the filter is
      ALL or names the task's status. */
  predicate Visible(t: Task, term: string, filter: StatusFilter) {
    (term == "" || MatchesSearch(t, term)) && (filter.All? || t.taskStatus == filter.status)
  }

  function VisibleMatcher(term: string, filter: StatusFilter): Task -> bool {
    (t: Task) => Visible(t, term, filter)
  }

  /** `filterTasks`: the search pass when there is a term, then the status
      pass unless the filter is ALL. */
  function FilterTasks(tasks: seq<Task>, term: string, filter: StatusFilter): seq<Task> {
    var searched := if term != "" then Filter(tasks, SearchMatcher(term)) else tasks;
    if filter.Only? then Filter(searched, StatusMatcher(filter.status)) else searched
  }

  /** The two passes pick exactly the visible tasks, in their order. */
  lemma FilterTasksIsVisible(tasks: seq<Task>, term: string, filter: StatusFilter)
    ensures FilterTasks(tasks, term, filter) == Filter(tasks, VisibleMatcher(term, filter))
  {
    var v := VisibleMatcher(term, filter);
    if term != "" {
      if filter.Only? {
        FilterTwice(tasks, SearchMatcher(term), StatusMatcher(filter.status), v);
      } else {
        FilterAgree(tasks, SearchMatcher(term), v);
      }
    } else {
      if filter.Only? {
        FilterAgree(tasks, StatusMatcher(filter.status), v);
      } else {
        FilterKeepsAll(tasks, v);
      }
    }
  }

  /** The shown list is an order-preserving subsequence of the tasks, and a
      task is shown exactly when it is visible, as often as it is held. */
  lemma ShownAreVisible(tasks: seq<Task>, term: string, filter: StatusFilter, t: Task)
    ensures IsSubsequence(FilterTasks(tasks, term, filter), tasks)
    ensures t in FilterTasks(tasks, term, filter) <==> t in tasks && Visible(t, term, filter)
    ensures multiset(FilterTasks(tasks, term, filter))[t]
            == if Visible(t, term, filter) then multiset(tasks)[t] else 0
  {
    FilterTasksIsVisible(tasks, term, filter);
    FilterIsSubsequence(tasks, VisibleMatcher(term, filter));
    FilterMembership(tasks, VisibleMatcher(term, filter), t);
    FilterCounts(tasks, VisibleMatcher(term, filter), t);
  }

  /** With an empty term and the ALL filter every task is shown. */
  lemma NoCriteriaShowsAll(tasks: seq<Task>)
    ensures FilterTasks(tasks, "", All) == tasks
  {
  }

  /** Filtering the shown list again with the same criteria changes
      nothing. */
  lemma RefilterUnchanged(tasks: seq<Task>, term: string, filter: StatusFilter)
    ensures FilterTasks(FilterTasks(tasks, term, filter), term, filter) == FilterTasks(tasks, term, filter)
  {
    var shown := FilterTasks(tasks, term, filter);
    FilterTasksIsVisible(tasks, term, filter);
    FilterTasksIsVisible(shown, term, filter);
    FilterIdempotent(tasks, VisibleMatcher(term, filter));
  }

  /** The search ignores case: two terms that differ only in case show the
      same tasks, and a task passing the status filter is shown for every
      term that its name or description contains up to case (`milk` and
      `BUY` both find `Buy Milk`). */
  lemma SearchIgnoresCase(t: Task, term: string, variant: string, filter: StatusFilter)
    ensures Lower(term) == Lower(variant) ==> Visible(t, term, filter) == Visible(t, variant, filter)
    ensures Lower(term) == Lower(variant) && (filter.All? || t.taskStatus == filter.status)
            && (Contains(t.taskName, variant) || Contains(t.taskDescription, variant))
            ==> Visible(t, term, filter)
  {
    ContainsLower(t.taskName, variant);
    ContainsLower(t.taskDescription, variant);
  }

  // ---------------------------------------------------------------------
  // Counts
  // ---------------------------------------------------------------------

  datatype TaskStats = TaskStats(total: nat, completed: nat, inProgress: nat)

  /** `getTaskStats`: the number of tasks, of completed ones and of ongoing
      ones. */
  function GetTaskStats(tasks: seq<Task>): (st: TaskStats)
    ensures st.total == |tasks|
  {
    TaskStats(|tasks|, |Filter(tasks, StatusMatcher(COMPLETED))|, |Filter(tasks, StatusMatcher(ONGOING))|)
  }

  /** The statuses of the tasks, in order. */
  function Statuses(tasks: seq<Task>): (r: seq<TaskStatus>)
    ensures |r| == |tasks|
    decreases |tasks|
  {
    if tasks == [] then [] else [tasks[0].taskStatus] + Statuses(tasks[1..])
  }

  /** Filtering by a status keeps as many tasks as have that status. */
  lemma {:induction false} StatusFilterCount(tasks: seq<Task>, s: TaskStatus)
    ensures |Filter(tasks, StatusMatcher(s))| == multiset(Statuses(tasks))[s]
    decreases |tasks|
  {
    if tasks != [] {
      StatusFilterCount(tasks[1..], s);
      assert multiset(Statuses(tasks)) == multiset([tasks[0].taskStatus]) + multiset(Statuses(tasks[1..]));
    }
  }

  /** The counts are exact, and the completed and ongoing tasks together
      never outnumber the tasks. */
  lemma StatsExact(tasks: seq<Task>)
    ensures var st := GetTaskStats(tasks);
            && st.completed == multiset(Statuses(tasks))[COMPLETED]
            && st.inProgress == multiset(Statuses(tasks))[ONGOING]
            && st.completed + st.inProgress + multiset(Statuses(tasks))[TODO] == st.total
            && st.completed + st.inProgress <= st.total
  {
    StatusFilterCount(tasks, COMPLETED);
    StatusFilterCount(tasks, ONGOING);
    StatusesPartition(tasks);
  }

  /** Every task has one of the three statuses. */
  lemma {:induction false} StatusesPartition(tasks: seq<Task>)
    ensures multiset(Statuses(tasks))[TODO] + multiset(Statuses(tasks))[ONGOING]
            + multiset(Statuses(tasks))[COMPLETED] == |tasks|
    decreases |tasks|
  {
    if tasks != [] {
      StatusesPartition(tasks[1..]);
      var h, m := tasks[0].taskStatus, multiset(Statuses(tasks[1..]));
      assert Statuses(tasks) == [h] + Statuses(tasks[1..]);
      assert multiset(Statuses(tasks)) == multiset{h} + m;
      assert multiset{h}[TODO] + multiset{h}[ONGOING] + multiset{h}[COMPLETED] == 1 by {
        match h
        case TODO =>
        case ONGOING =>
        case COMPLETED =>
      }
    }
  }

  // ---------------------------------------------------------------------
  // The collection updates
  // ---------------------------------------------------------------------

  function OtherIdMatcher(id: int): Task -> bool {
    (t: Task) => t.taskId != id
  }

  /** `prev.map(task => task.taskId === updated.taskId ? updated : task)`. */
  function ReplaceById(tasks: seq<Task>, updated: Task): (r: seq<Task>)
    ensures |r| == |tasks|
  {
    seq(|tasks|, i requires 0 <= i < |tasks| => if tasks[i].taskId == updated.taskId then updated else tasks[i])
  }

  /** `prev.filter(task => task.taskId !== id)`. */
  function RemoveById(tasks: seq<Task>, id: int): seq<Task> {
    Filter(tasks, OtherIdMatcher(id))
  }

  /** A replacement touches exactly the tasks with the returned id: every
      other task stays where it was, and each position with that id now holds
      the returned task. */
  lemma ReplaceExactly(tasks: seq<Task>, updated: Task)
    ensures var r := ReplaceById(tasks, updated);
            && (forall i :: 0 <= i < |tasks| && tasks[i].taskId != updated.taskId ==> r[i] == tasks[i])
            && (forall i :: 0 <= i < |tasks| && tasks[i].taskId == updated.taskId ==> r[i] == updated)
            && RemoveById(r, updated.taskId) == RemoveById(tasks, updated.taskId)
  {
    var r := ReplaceById(tasks, updated);
    ReplaceThenRemove(tasks, updated);
  }

  lemma {:induction false} ReplaceThenRemove(tasks: seq<Task>, updated: Task)
    ensures RemoveById(ReplaceById(tasks, updated), updated.taskId) == RemoveById(tasks, updated.taskId)
    decreases |tasks|
  {
    if tasks != [] {
      var r := ReplaceById(tasks, updated);
      assert r[1..] == ReplaceById(tasks[1..], updated);
      ReplaceThenRemove(tasks[1..], updated);
    }
  }

  /** Replacing by an id nobody has changes nothing; replacing twice is
      replacing once. */
  lemma ReplaceAbsentOrRepeated(tasks: seq<Task>, updated: Task)
    ensures (forall i :: 0 <= i < |tasks| ==> tasks[i].taskId != updated.taskId) ==>
              ReplaceById(tasks, updated) == tasks
    ensures ReplaceById(ReplaceById(tasks, updated), updated) == ReplaceById(tasks, updated)
  {
    if forall i :: 0 <= i < |tasks| ==> tasks[i].taskId != updated.taskId {
      assert forall i :: 0 <= i < |tasks| ==> ReplaceById(tasks, updated)[i] == tasks[i];
    }
  }

  /** A removal drops exactly the tasks with the id, keeps the order of the
      rest, and is a no-op for an absent id. */
  lemma RemoveExactly(tasks: seq<Task>, id: int, t: Task)
    ensures IsSubsequence(RemoveById(tasks, id), tasks)
    ensures multiset(RemoveById(tasks, id))[t] == if t.taskId != id then multiset(tasks)[t] else 0
    ensures forall i :: 0 <= i < |RemoveById(tasks, id)| ==> RemoveById(tasks, id)[i].taskId != id
    ensures (forall i :: 0 <= i < |tasks| ==> tasks[i].taskId != id) ==> RemoveById(tasks, id) == tasks
  {
    FilterIsSubsequence(tasks, OtherIdMatcher(id));
    FilterCounts(tasks, OtherIdMatcher(id), t);
    if forall i :: 0 <= i < |tasks| ==> tasks[i].taskId != id {
      FilterKeepsAll(tasks, OtherIdMatcher(id));
    }
  }

  // ---------------------------------------------------------------------
  // The screen's state
  // ---------------------------------------------------------------------

  /** The state of the task list screen and its handlers. Each handler is
      given the outcomes of the requests it makes (or, for the plain fetch
      wrappers, the settled promise) and runs to completion. */
  class TaskListState {
    var tasks: seq<Task>
    var isLoading: bool
    var error: string
    var showModal: bool
    var editingTask: Option<Task>
    var searchTerm: string
    var statusFilter: StatusFilter
    const api: ApiService

    constructor(api: ApiService)
      ensures this.api == api
      ensures tasks == [] && isLoading && error == "" && !showModal && editingTask == None
      ensures searchTerm == "" && statusFilter == All
    {
      this.api := api;
      tasks := [];
      isLoading := true;
      error := "";
      showModal := false;
      editingTask := None;
      searchTerm := "";
      statusFilter := All;
    }

    /** The tasks on screen, as the re-filter effect leaves them after any
        change of the tasks, the search term or the status filter: the
        visible tasks, in their order. */
    function Shown(): (r: seq<Task>)
      reads this
      ensures IsSubsequence(r, tasks)
      ensures forall t :: t in r <==> t in tasks && Visible(t, searchTerm, statusFilter)
    {
      var r := FilterTasks(tasks, searchTerm, statusFilter);
      assert forall t :: t in r <==> t in tasks && Visible(t, searchTerm, statusFilter) by {
        forall t
          ensures t in r <==> t in tasks && Visible(t, searchTerm, statusFilter)
        {
          ShownAreVisible(tasks, searchTerm, statusFilter, t);
        }
      }
      FilterTasksIsVisible(tasks, searchTerm, statusFilter);
      FilterIsSubsequence(tasks, VisibleMatcher(searchTerm, statusFilter));
      r
    }

    /** `fetchTasks`, given how `getTasks` settled: the fetched list replaces
        the tasks, an error is shown, and loading ends either way. */
    method FetchTasks(fetched: Promise<seq<Task>>)
      modifies this
      ensures fetched.Resolved? ==> tasks == fetched.value && error == "" && !isLoading
      ensures fetched.Rejected? ==> tasks == old(tasks) && error == fetched.message && !isLoading
      ensures fetched.Pending? ==> tasks == old(tasks) && error == old(error) && isLoading
      ensures showModal == old(showModal) && editingTask == old(editingTask)
      ensures searchTerm == old(searchTerm) && statusFilter == old(statusFilter)
    {
      isLoading := true;
      match fetched {
        case Pending =>
          return;
        case Resolved(list) =>
          tasks := list;
          error := "";
        case Rejected(message) =>
          error := message;
      }
      isLoading := false;
    }

    /** `handleCreateTask`: the created task goes in front of the others;
        a failure is shown and passed on to the modal. */
    method HandleCreateTask(taskName: string, taskDescription: string, network: seq<Outcome>)
      returns (saved: Promise<()>)
      modifies this
      ensures var x := api.CreateTask(taskName, taskDescription, network);
              && (x.reply.Resolved? ==> tasks == [x.reply.value] + old(tasks) && error == "" && saved == Resolved(()))
              && (x.reply.Rejected? ==> tasks == old(tasks) && error == x.reply.message
                                        && saved == Rejected(x.reply.message))
              && (x.reply.Pending? ==> tasks == old(tasks) && error == old(error) && saved == Pending)
      ensures isLoading == old(isLoading) && showModal == old(showModal) && editingTask == old(editingTask)
      ensures searchTerm == old(searchTerm) && statusFilter == old(statusFilter)
    {
      var x := api.CreateTask(taskName, taskDescription, network);
      match x.reply {
        case Resolved(t) =>
          tasks := [t] + tasks;
          error := "";
          saved := Resolved(());
        case Rejected(message) =>
          error := message;
          saved := Rejected(message);
        case Pending =>
          saved := Pending;
      }
    }

    /** `handleUpdateTask`: without a task being edited nothing happens;
        otherwise the returned task replaces every task with its id and the
        edit ends; a failure is shown and passed on. */
    method HandleUpdateTask(taskName: string, taskDescription: string, network: seq<Outcome>)
      returns (saved: Promise<()>)
      modifies this
      ensures old(editingTask).None? ==> saved == Resolved(()) && tasks == old(tasks)
                                         && error == old(error) && editingTask == None
      ensures old(editingTask).Some? ==>
                var x := api.UpdateTask(old(editingTask).value.taskId, taskName, taskDescription, network);
                && (x.reply.Resolved? ==> tasks == ReplaceById(old(tasks), x.reply.value) && error == ""
                                          && editingTask == None && saved == Resolved(()))
                && (x.reply.Rejected? ==> tasks == old(tasks) && error == x.reply.message
                                          && editingTask == old(editingTask) && saved == Rejected(x.reply.message))
                && (x.reply.Pending? ==> tasks == old(tasks) && error == old(error)
                                         && editingTask == old(editingTask) && saved == Pending)
      ensures isLoading == old(isLoading) && showModal == old(showModal)
      ensures searchTerm == old(searchTerm) && statusFilter == old(statusFilter)
    {
      if editingTask.None? {
        return Resolved(());
      }
      var x := api.UpdateTask(editingTask.value.taskId, taskName, taskDescription, network);
      match x.reply {
        case Resolved(updated) =>
          tasks := ReplaceById(tasks, updated);
          editingTask := None;
          error := "";
          saved := Resolved(());
        case Rejected(message) =>
          error := message;
          saved := Rejected(message);
        case Pending =>
          saved := Pending;
      }
    }

    /** `handleDeleteTask`, given how `deleteTask` settled: the tasks with
        the id are removed, or the error is shown. */
    method HandleDeleteTask(taskId: int, deleted: Promise<()>)
      modifies this
      ensures deleted.Resolved? ==> tasks == RemoveById(old(tasks), taskId) && error == ""
      ensures deleted.Rejected? ==> tasks == old(tasks) && error == deleted.message
      ensures deleted.Pending? ==> tasks == old(tasks) && error == old(error)
      ensures isLoading == old(isLoading) && showModal == old(showModal) && editingTask == old(editingTask)
      ensures searchTerm == old(searchTerm) && statusFilter == old(statusFilter)
    {
      match deleted {
        case Resolved(_) =>
          tasks := RemoveById(tasks, taskId);
          error := "";
        case Rejected(message) =>
          error := message;
        case Pending =>
      }
    }

    /** `handleStatusChange`: the task the status update returns replaces
        every task with its id, or the error is shown. */
    method HandleStatusChange(taskId: int, status: TaskStatus, network: seq<Outcome>, now: string)
      modifies this
      ensures var x := StatusChain.StatusUpdate(api.GetHeaders(true), taskId, status, network, now);
              && (x.reply.Resolved? ==> tasks == ReplaceById(old(tasks), x.reply.value) && error == "")
              && (x.reply.Rejected? ==> tasks == old(tasks) && error == x.reply.message)
              && (x.reply.Pending? ==> tasks == old(tasks) && error == old(error))
      ensures isLoading == old(isLoading) && showModal == old(showModal) && editingTask == old(editingTask)
      ensures searchTerm == old(searchTerm) && statusFilter == old(statusFilter)
    {
      var x := api.UpdateTaskStatus(taskId, status, network, now);
      match x.reply {
        case Resolved(updated) =>
          tasks := ReplaceById(tasks, updated);
          error := "";
        case Rejected(message) =>
          error := message;
        case Pending =>
      }
    }

    /** `openCreateModal`: no task is being edited. */
    method OpenCreateModal()
      modifies this
      ensures showModal && editingTask == None
      ensures tasks == old(tasks) && error == old(error) && isLoading == old(isLoading)
      ensures searchTerm == old(searchTerm) && statusFilter == old(statusFilter)
    {
      editingTask := None;
      showModal := true;
    }

    /** The modal's `onClose`. */
    method CloseModal()
      modifies this
      ensures !showModal && editingTask == old(editingTask)
      ensures tasks == old(tasks) && error == old(error) && isLoading == old(isLoading)
      ensures searchTerm == old(searchTerm) && statusFilter == old(statusFilter)
    {
      showModal := false;
    }

    /** `openEditModal`: the card's task is being edited. */
    method OpenEditModal(task: Task)
      modifies this
      ensures showModal && editingTask == Some(task)
      ensures tasks == old(tasks) && error == old(error) && isLoading == old(isLoading)
      ensures searchTerm == old(searchTerm) && statusFilter == old(statusFilter)
    {
      editingTask := Some(task);
      showModal := true;
    }
  }
}
