/** The specification of `updateTaskStatus`: a main chain of up to three
    requests tried in order with early exit, followed, when the chain fails
    in any way, by a recovery that re-fetches the task list and re-sends the
    task in full. Written as an ordered list of attempts; the client method
    that implements it step by step is `ApiClient.ApiService.UpdateTaskStatus`. */
module StatusChain {
  import opened Types
  import opened Http
  import opened Messages
  import opened Projection

  /** One request of the main chain and the statuses of the latest response
      that make the client try it. */
  datatype Attempt = Attempt(verb: HttpMethod, endpoint: Endpoint, retryOn: set<int>)

  /** PATCH /tasks/{id}/status, always tried first. */
  function Primary(taskId: int): Attempt {
    Attempt(PATCH, TaskStatusById(taskId), {})
  }

  /** PATCH /tasks/{id} after a 404, then PUT /tasks/{id} after a 404 or 405. */
  function Fallbacks(taskId: int): seq<Attempt> {
    [Attempt(PATCH, TaskById(taskId), {404}), Attempt(PUT, TaskById(taskId), {404, 405})]
  }

  function AttemptRequest(a: Attempt, headers: Headers, status: TaskStatus): Request {
    Request(a.verb, a.endpoint, headers, StatusBody(status))
  }

  /** How the main chain ends: with its latest response, with a thrown
      error, or with a request that is never answered. */
  datatype ChainEnd = Answered(response: Response) | Threw(error: JsError) | Stalled

  /** Tries each attempt whose condition the latest response meets (not ok,
      status in `retryOn`), in order; an attempt whose condition fails is
      skipped and the next one is checked against the same response. The
      `k`-th outcome of `network` answers the next request. */
  function RunFallbacks(atts: seq<Attempt>, headers: Headers, status: TaskStatus,
                        network: seq<Outcome>, k: nat, latest: Response): (ChainEnd, seq<Request>)
    decreases |atts|
  {
    if atts == [] then (Answered(latest), [])
    else if !IsOk(latest) && latest.status in atts[0].retryOn then
      var req := AttemptRequest(atts[0], headers, status);
      match OutcomeAt(network, k)
      case None => (Stalled, [req])
      case Some(Failed(e)) => (Threw(e), [req])
      case Some(Received(r)) =>
        var (end, more) := RunFallbacks(atts[1..], headers, status, network, k + 1, r);
        (end, [req] + more)
    else RunFallbacks(atts[1..], headers, status, network, k, latest)
  }

  /** The main chain: the primary request, then the fallbacks. */
  function MainChain(headers: Headers, taskId: int, status: TaskStatus,
                     network: seq<Outcome>): (ChainEnd, seq<Request>)
  {
    var req := AttemptRequest(Primary(taskId), headers, status);
    match OutcomeAt(network, 0)
    case None => (Stalled, [req])
    case Some(Failed(e)) => (Threw(e), [req])
    case Some(Received(r)) =>
      var (end, more) := RunFallbacks(Fallbacks(taskId), headers, status, network, 1, r);
      (end, [req] + more)
  }

  /** `tasks.find(t => t.taskId === taskId)`: the first object with that id. */
  function FirstWithId(items: seq<JsonObject>, taskId: int): Option<JsonObject>
    decreases |items|
  {
    if items == [] then None
    else if items[0].taskId == Some(taskId) then Some(items[0])
    else FirstWithId(items[1..], taskId)
  }

  /** `find` returns the first object with the id, or nothing exactly when
      no object has it. */
  lemma {:induction false} FirstWithIdIsFirst(items: seq<JsonObject>, taskId: int)
    ensures FirstWithId(items, taskId).None? <==>
              (forall i :: 0 <= i < |items| ==> items[i].taskId != Some(taskId))
    ensures FirstWithId(items, taskId).Some? ==>
              exists i :: 0 <= i < |items| && items[i] == FirstWithId(items, taskId).value
                          && items[i].taskId == Some(taskId)
                          && forall j :: 0 <= j < i ==> items[j].taskId != Some(taskId)
    decreases |items|
  {
    if items != [] && items[0].taskId != Some(taskId) {
      FirstWithIdIsFirst(items[1..], taskId);
      if FirstWithId(items[1..], taskId).Some? {
        var i :| 0 <= i < |items[1..]| && items[1..][i] == FirstWithId(items[1..], taskId).value
                 && items[1..][i].taskId == Some(taskId)
                 && forall j :: 0 <= j < i ==> items[1..][j].taskId != Some(taskId);
        assert items[i + 1] == items[1..][i];
        forall j | 0 <= j < i + 1
          ensures items[j].taskId != Some(taskId)
        {
          if j > 0 {
            assert items[j] == items[1..][j - 1];
          }
        }
      } else {
        forall i | 0 <= i < |items|
          ensures items[i].taskId != Some(taskId)
        {
          if i > 0 {
            assert items[i] == items[1..][i - 1];
          }
        }
      }
    } else if items != [] {
      assert items[0] == FirstWithId(items, taskId).value;
    }
  }

  /** How the recovery ends. */
  datatype RecoveryEnd = Recovered(task: Task) | NotRecovered | RecoveryStalled

  function RefetchRequest(headers: Headers): Request {
    Request(GET, TaskCollection, headers, NoBody)
  }

  function ResendRequest(headers: Headers, taskId: int, current: JsonObject, status: TaskStatus): Request {
    Request(PUT, TaskById(taskId), headers, FullTask(current.taskName, current.taskDescription, status))
  }

  /** After the PUT of the recovery succeeded: the listed object spread into
      a new one, with the new status and a fresh `updatedAt`. Every other key
      is kept as listed, the owner being the object's own `userId`; a name or
      description the listing lacks is read as the empty string. */
  function RecoveredTask(current: JsonObject, taskId: int, status: TaskStatus, now: string): Task {
    Task(current.taskId.GetOr(taskId), current.taskName.GetOr(""), current.taskDescription.GetOr(""),
         status, current.userId, current.completionTime, current.startTime, current.createdAt, Some(now))
  }

  /** The `k`-th outcome is an ok listing, a JSON array, in which some
      object has the id `taskId`. */
  predicate ListsTask(network: seq<Outcome>, k: nat, taskId: int) {
    && k < |network| && network[k].Received? && IsOk(network[k].response)
    && network[k].response.payload.Payload? && network[k].response.payload.json.Array?
    && exists i :: 0 <= i < |network[k].response.payload.json.items|
                   && network[k].response.payload.json.items[i].taskId == Some(taskId)
  }

  /** The recovery, starting at the `k`-th outcome: GET /tasks; if that is ok
      and its body is an array holding the task, PUT the task's current name
      and description with the new status; success only if that PUT is ok.
      Any error inside the recovery is swallowed. */
  function Recovery(headers: Headers, taskId: int, status: TaskStatus,
                    network: seq<Outcome>, k: nat, now: string): (RecoveryEnd, seq<Request>)
  {
    var get := RefetchRequest(headers);
    match OutcomeAt(network, k)
    case None => (RecoveryStalled, [get])
    case Some(Failed(_)) => (NotRecovered, [get])
    case Some(Received(r)) =>
      if !IsOk(r) || r.payload.Unreadable? || !r.payload.json.Array? then (NotRecovered, [get])
      else match FirstWithId(r.payload.json.items, taskId)
        case None => (NotRecovered, [get])
        case Some(current) =>
          var put := ResendRequest(headers, taskId, current, status);
          match OutcomeAt(network, k + 1)
          case None => (RecoveryStalled, [get, put])
          case Some(Failed(_)) => (NotRecovered, [get, put])
          case Some(Received(r2)) =>
            if IsOk(r2) then (Recovered(RecoveredTask(current, taskId, status, now)), [get, put])
            else (NotRecovered, [get, put])
  }

  /** What happens once the main chain has failed with `e` after issuing
      `main`: the recovery, and the final error if it does not succeed. */
  function AfterFailure(headers: Headers, taskId: int, status: TaskStatus, network: seq<Outcome>,
                        now: string, e: JsError, main: seq<Request>): Exchange<Task>
  {
    var (rec, more) := Recovery(headers, taskId, status, network, |main|, now);
    var reply := match rec
      case Recovered(t) => Resolved(t)
      case RecoveryStalled => Pending
      case NotRecovered => Rejected(FinalStatusError(e));
    Exchange(reply, main + more)
  }

  /** The whole of `updateTaskStatus`: the main chain; a final ok response is
      turned into a task (never an error); a final non-ok response throws an
      `Error` with the status failure message, which is caught like a
      transport failure and leads to the recovery. */
  function StatusUpdate(headers: Headers, taskId: int, status: TaskStatus,
                        network: seq<Outcome>, now: string): Exchange<Task>
  {
    var (end, main) := MainChain(headers, taskId, status, network);
    match end
    case Stalled => Exchange(Pending, main)
    case Threw(e) => AfterFailure(headers, taskId, status, network, now, e, main)
    case Answered(r) =>
      if IsOk(r) then Exchange(Resolved(StatusSuccessTask(r.payload, taskId, status, now)), main)
      else AfterFailure(headers, taskId, status, network, now,
                        JsError(false, StatusFailureMessage(r)), main)
  }
}
