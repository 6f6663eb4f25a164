/** Turning parsed server objects into the client's `Task` record: the
    whitelist projections of `createTask` and `updateTaskStatus`, the verbatim
    reading `updateTask` relies on, and the task synthesised when a status
    update succeeds without a usable body. */
module Projection {
  import opened Types
  import opened Http

  /** `raw.user?.userId`: the id of the nested user object, if any. */
  function NestedUserId(o: JsonObject): Option<int> {
    if o.user.Some? then o.user.value.userId else None
  }

  /** True when the object has every key a `Task` cannot do without. */
  predicate HasTaskCore(o: JsonObject) {
    o.taskId.Some? && o.taskName.Some? && o.taskDescription.Some? && o.taskStatus.Some?
  }

  /** The sanitised task `createTask` builds: only the whitelisted keys are
      copied, and the owner is flattened to the nested `user.userId`. */
  function SanitizeCreated(o: JsonObject): Option<Task> {
    if HasTaskCore(o) then
      Some(Task(o.taskId.value, o.taskName.value, o.taskDescription.value, o.taskStatus.value,
                NestedUserId(o), o.completionTime, o.startTime, o.createdAt, o.updatedAt))
    else None
  }

  /** The body `updateTask` returns, taken as a task as it stands (no
      projection, so the owner is the object's own `userId` key). */
  function AsTask(o: JsonObject): Option<Task> {
    if HasTaskCore(o) then
      Some(Task(o.taskId.value, o.taskName.value, o.taskDescription.value, o.taskStatus.value,
                o.userId, o.completionTime, o.startTime, o.createdAt, o.updatedAt))
    else None
  }

  /** The sanitised task of a status update: id and status fall back to the
      caller's when missing or falsy (an id of 0), name and description to the
      empty string. */
  function SanitizeStatusResult(o: JsonObject, taskId: int, status: TaskStatus): Task {
    Task(if o.taskId.Some? && o.taskId.value != 0 then o.taskId.value else taskId,
         o.taskName.GetOr(""),
         o.taskDescription.GetOr(""),
         o.taskStatus.GetOr(status),
         NestedUserId(o), o.completionTime, o.startTime, o.createdAt, o.updatedAt)
  }

  /** The task returned when a status update succeeds with an empty or
      unusable body; `now` stands for `new Date().toISOString()`. */
  function Synthesized(taskId: int, status: TaskStatus, now: string): Task {
    Task(taskId, "", "", status, None, None, None, Some(now), Some(now))
  }

  /** The result of a status update whose response was ok. */
  function StatusSuccessTask(p: Payload, taskId: int, status: TaskStatus, now: string): Task {
    match p
    case Unreadable(_) => Synthesized(taskId, status, now)
    case Payload(text, json) =>
      if text == "" || json.NotJson? then Synthesized(taskId, status, now)
      else SanitizeStatusResult(Props(json), taskId, status)
  }

  // ---------------------------------------------------------------------
  // The partner: how the server serialises a task
  // ---------------------------------------------------------------------

  /** The object a server sends for task `t`, with arbitrary values for every
      other key taken from `other` (and from `other.user` for the nested user
      object, whose `userId` is the task's owner). */
  function ServerJson(t: Task, other: JsonObject): JsonObject {
    other.(taskId := Some(t.taskId),
           taskName := Some(t.taskName),
           taskDescription := Some(t.taskDescription),
           taskStatus := Some(t.taskStatus),
           user := Some(other.user.GetOr(EmptyObject).(userId := t.userId)),
           completionTime := t.completionTime,
           startTime := t.startTime,
           createdAt := t.createdAt,
           updatedAt := t.updatedAt)
  }

  /** `createTask`'s projection recovers every task the server sends, whatever
      else the object carries (a back-reference to the owner, tokens, error
      texts, a top-level `userId`). */
  lemma SanitizeCreatedRecoversTask(t: Task, other: JsonObject)
    ensures SanitizeCreated(ServerJson(t, other)) == Some(t)
  {
  }

  /** Conversely, a sanitised task holds exactly the whitelisted values of
      the object it came from. */
  lemma SanitizeCreatedCopiesWhitelist(o: JsonObject)
    ensures SanitizeCreated(o).Some? <==> HasTaskCore(o)
    ensures SanitizeCreated(o).Some? ==>
              var t := SanitizeCreated(o).value;
              && Some(t.taskId) == o.taskId && Some(t.taskName) == o.taskName
              && Some(t.taskDescription) == o.taskDescription && Some(t.taskStatus) == o.taskStatus
              && t.userId == NestedUserId(o)
              && t.completionTime == o.completionTime && t.startTime == o.startTime
              && t.createdAt == o.createdAt && t.updatedAt == o.updatedAt
  {
  }

  /** The status-update projection also recovers any server task whose id is
      not 0. */
  lemma StatusResultRecoversTask(t: Task, other: JsonObject, taskId: int, status: TaskStatus)
    requires t.taskId != 0
    ensures SanitizeStatusResult(ServerJson(t, other), taskId, status) == t
  {
  }

  /** The fallbacks of the status-update projection: the caller's id when
      the body's is missing or 0, the caller's status when the body has none,
      empty name and description when missing, the nested user's id as owner. */
  lemma StatusResultFallbacks(o: JsonObject, taskId: int, status: TaskStatus)
    ensures var t := SanitizeStatusResult(o, taskId, status);
            && (o.taskId.None? || o.taskId == Some(0) ==> t.taskId == taskId)
            && (o.taskId.Some? && o.taskId != Some(0) ==> t.taskId == o.taskId.value)
            && (o.taskStatus.None? ==> t.taskStatus == status)
            && (o.taskStatus.Some? ==> t.taskStatus == o.taskStatus.value)
            && (o.taskName.None? ==> t.taskName == "")
            && (o.taskDescription.None? ==> t.taskDescription == "")
            && t.userId == NestedUserId(o)
  {
  }

  /** An ok status response never yields an error: an empty, unreadable or
      unparsable body gives the caller's id and status with empty name and
      description, and a parsed body keeps the caller's id and status as
      fallbacks. */
  lemma StatusSuccessWithoutBody(p: Payload, taskId: int, status: TaskStatus, now: string)
    ensures var t := StatusSuccessTask(p, taskId, status, now);
            (p.Unreadable? || p.text == "" || p.json.NotJson?) ==>
              t.taskId == taskId && t.taskStatus == status
              && t.taskName == "" && t.taskDescription == ""
              && t.createdAt == Some(now) && t.updatedAt == Some(now)
  {
  }

  /** `updateTask` keeps the server's object as it is: its owner is the
      object's own top-level `userId`, not the nested user's, so the same
      server task can come back with a different owner than `createTask`
      reports. */
  lemma AsTaskKeepsTopLevelOwner(t: Task, other: JsonObject)
    ensures AsTask(ServerJson(t, other)) == Some(t.(userId := other.userId))
    ensures other.userId == t.userId ==> AsTask(ServerJson(t, other)) == SanitizeCreated(ServerJson(t, other))
  {
  }
}
