/** What `updateTaskStatus` promises, proved of its specification
    `StatusChain.StatusUpdate`: request order, the status codes that trigger
    each fallback, early exit on the first ok response, recovery after any
    failure of the main chain, and the final error message. */
module StatusChainProperties {
  import opened Types
  import opened Http
  import opened Messages
  import opened Projection
  import opened StatusChain

  /** Once the latest response is ok, no further attempt is made. */
  lemma {:induction false} OkLatestStops(atts: seq<Attempt>, headers: Headers, status: TaskStatus,
                                         network: seq<Outcome>, k: nat, latest: Response)
    requires IsOk(latest)
    ensures RunFallbacks(atts, headers, status, network, k, latest) == (Answered(latest), [])
    decreases |atts|
  {
    if atts != [] {
      OkLatestStops(atts[1..], headers, status, network, k, latest);
    }
  }

  /** The fallbacks issue at most one request per attempt, and each request
      they issue is the request of some attempt. */
  lemma {:induction false} FallbacksIssueAttemptRequests(atts: seq<Attempt>, headers: Headers,
      status: TaskStatus, network: seq<Outcome>, k: nat, latest: Response)
    ensures var (_, reqs) := RunFallbacks(atts, headers, status, network, k, latest);
            |reqs| <= |atts|
            && forall q :: q in reqs ==> exists i :: 0 <= i < |atts| && q == AttemptRequest(atts[i], headers, status)
    decreases |atts|
  {
    if atts != [] {
      FallbacksIssueAttemptRequests(atts[1..], headers, status, network, k, latest);
      var (_, rest) := RunFallbacks(atts[1..], headers, status, network, k, latest);
      forall q | q in rest
        ensures exists i :: 0 <= i < |atts| && q == AttemptRequest(atts[i], headers, status)
      {
        var i :| 0 <= i < |atts[1..]| && q == AttemptRequest(atts[1..][i], headers, status);
        assert atts[1..][i] == atts[i + 1];
      }
      if !IsOk(latest) && latest.status in atts[0].retryOn {
        match OutcomeAt(network, k)
        case None =>
        case Some(Failed(_)) =>
        case Some(Received(r)) =>
          FallbacksIssueAttemptRequests(atts[1..], headers, status, network, k + 1, r);
          var (_, more) := RunFallbacks(atts[1..], headers, status, network, k + 1, r);
          forall q | q in more
            ensures exists i :: 0 <= i < |atts| && q == AttemptRequest(atts[i], headers, status)
          {
            var i :| 0 <= i < |atts[1..]| && q == AttemptRequest(atts[1..][i], headers, status);
            assert atts[1..][i] == atts[i + 1];
          }
      }
    }
  }

  function PrimaryRequest(h: Headers, taskId: int, status: TaskStatus): Request {
    Request(PATCH, TaskStatusById(taskId), h, StatusBody(status))
  }

  function SecondPatchRequest(h: Headers, taskId: int, status: TaskStatus): Request {
    Request(PATCH, TaskById(taskId), h, StatusBody(status))
  }

  function PutRequest(h: Headers, taskId: int, status: TaskStatus): Request {
    Request(PUT, TaskById(taskId), h, StatusBody(status))
  }

  /** The PUT step as the source writes it: issued when the latest response
      is not ok with status 404 or 405. */
  function PutIfNeeded(h: Headers, taskId: int, status: TaskStatus, network: seq<Outcome>,
                       k: nat, latest: Response, sent: seq<Request>): (ChainEnd, seq<Request>)
  {
    var u := PutRequest(h, taskId, status);
    if !IsOk(latest) && (latest.status == 404 || latest.status == 405) then
      match OutcomeAt(network, k)
      case None => (Stalled, sent + [u])
      case Some(Failed(e)) => (Threw(e), sent + [u])
      case Some(Received(r)) => (Answered(r), sent + [u])
    else (Answered(latest), sent)
  }

  /** The main chain as nested conditionals, the way the source writes it:
      the primary PATCH; the second PATCH after a 404; then the PUT step. */
  function MainChainNested(h: Headers, taskId: int, status: TaskStatus,
                           network: seq<Outcome>): (ChainEnd, seq<Request>)
  {
    var p, q := PrimaryRequest(h, taskId, status), SecondPatchRequest(h, taskId, status);
    match OutcomeAt(network, 0)
    case None => (Stalled, [p])
    case Some(Failed(e)) => (Threw(e), [p])
    case Some(Received(r0)) =>
      if !IsOk(r0) && r0.status == 404 then
        match OutcomeAt(network, 1)
        case None => (Stalled, [p, q])
        case Some(Failed(e)) => (Threw(e), [p, q])
        case Some(Received(r1)) => PutIfNeeded(h, taskId, status, network, 2, r1, [p, q])
      else PutIfNeeded(h, taskId, status, network, 1, r0, [p])
  }

  lemma PutStep(h: Headers, taskId: int, status: TaskStatus, network: seq<Outcome>,
                k: nat, latest: Response, sent: seq<Request>)
    ensures var (end, more) := RunFallbacks(Fallbacks(taskId)[1..], h, status, network, k, latest);
            (end, sent + more) == PutIfNeeded(h, taskId, status, network, k, latest, sent)
  {
    var atts := Fallbacks(taskId)[1..];
    var u := PutRequest(h, taskId, status);
    assert atts == [Attempt(PUT, TaskById(taskId), {404, 405})];
    assert atts[1..] == [];
    assert AttemptRequest(atts[0], h, status) == u;
    if !IsOk(latest) && latest.status in atts[0].retryOn {
      match OutcomeAt(network, k)
      case None =>
      case Some(Failed(e)) =>
      case Some(Received(r)) =>
        assert RunFallbacks(atts[1..], h, status, network, k + 1, r) == (Answered(r), []);
        assert RunFallbacks(atts, h, status, network, k, latest) == (Answered(r), [u] + []);
        assert [u] + [] == [u];
    } else {
      assert RunFallbacks(atts, h, status, network, k, latest)
          == RunFallbacks(atts[1..], h, status, network, k, latest)
          == (Answered(latest), []);
      assert sent + [] == sent;
    }
  }

  /** The attempt list and the nested conditionals describe the same chain:
      same requests in the same order, same ending. */
  lemma MainChainIsNested(h: Headers, taskId: int, status: TaskStatus, network: seq<Outcome>)
    ensures MainChain(h, taskId, status, network) == MainChainNested(h, taskId, status, network)
  {
    var p, q := PrimaryRequest(h, taskId, status), SecondPatchRequest(h, taskId, status);
    var atts := Fallbacks(taskId);
    assert AttemptRequest(Primary(taskId), h, status) == p;
    assert AttemptRequest(atts[0], h, status) == q;
    match OutcomeAt(network, 0)
    case None =>
    case Some(Failed(e)) =>
    case Some(Received(r0)) =>
      if !IsOk(r0) && r0.status == 404 {
        assert r0.status in atts[0].retryOn;
        match OutcomeAt(network, 1)
        case None =>
          assert RunFallbacks(atts, h, status, network, 1, r0) == (Stalled, [q]);
          assert [p] + [q] == [p, q];
        case Some(Failed(e)) =>
          assert RunFallbacks(atts, h, status, network, 1, r0) == (Threw(e), [q]);
          assert [p] + [q] == [p, q];
        case Some(Received(r1)) =>
          PutStep(h, taskId, status, network, 2, r1, [p, q]);
          var (end, more) := RunFallbacks(atts[1..], h, status, network, 2, r1);
          assert RunFallbacks(atts, h, status, network, 1, r0) == (end, [q] + more);
          assert [p] + ([q] + more) == [p, q] + more;
      } else {
        assert r0.status !in atts[0].retryOn || IsOk(r0);
        assert RunFallbacks(atts, h, status, network, 1, r0)
            == RunFallbacks(atts[1..], h, status, network, 1, r0);
        PutStep(h, taskId, status, network, 1, r0, [p]);
      }
  }

  /** The main chain issues the primary PATCH first, then possibly the
      second PATCH, then possibly the PUT, in that order and nothing else. */
  lemma MainChainOrder(h: Headers, taskId: int, status: TaskStatus, network: seq<Outcome>)
    ensures var (_, main) := MainChain(h, taskId, status, network);
            var p, q, u := PrimaryRequest(h, taskId, status), SecondPatchRequest(h, taskId, status),
                           PutRequest(h, taskId, status);
            main == [p] || main == [p, q] || main == [p, u] || main == [p, q, u]
  {
    MainChainIsNested(h, taskId, status, network);
  }

  /** The second PATCH is issued exactly when the primary was answered
      with a 404. */
  lemma SecondPatchIff404(h: Headers, taskId: int, status: TaskStatus, network: seq<Outcome>)
    ensures var (_, main) := MainChain(h, taskId, status, network);
            SecondPatchRequest(h, taskId, status) in main <==>
              (|network| > 0 && network[0].Received? && network[0].response.status == 404)
  {
    MainChainIsNested(h, taskId, status, network);
  }

  /** The PUT is issued exactly when the latest response before it was not
      ok with status 404 or 405: either the primary's 405, which skips the
      second PATCH, or a 404 on the primary followed by a 404 or 405 on the
      second PATCH. It is then the last request of the chain. */
  lemma PutIffLatest404Or405(h: Headers, taskId: int, status: TaskStatus, network: seq<Outcome>)
    ensures var (_, main) := MainChain(h, taskId, status, network);
            var u := PutRequest(h, taskId, status);
            u in main <==>
              (|network| > 0 && network[0].Received?
               && (network[0].response.status == 405
                   || (network[0].response.status == 404 && |network| > 1 && network[1].Received?
                       && network[1].response.status in {404, 405})))
    ensures var (_, main) := MainChain(h, taskId, status, network);
            var u := PutRequest(h, taskId, status);
            u in main ==>
              (|main| >= 2 && main[|main| - 1] == u
               && OutcomeAt(network, |main| - 2).Some?
               && OutcomeAt(network, |main| - 2).value.Received?
               && OutcomeAt(network, |main| - 2).value.response.status in {404, 405})
  {
    MainChainIsNested(h, taskId, status, network);
  }

  /** A 405 from the primary goes straight to the PUT. */
  lemma Primary405GoesToPut(h: Headers, taskId: int, status: TaskStatus, network: seq<Outcome>, now: string)
    requires |network| > 0 && network[0].Received? && network[0].response.status == 405
    ensures var x := StatusUpdate(h, taskId, status, network, now);
            |x.requests| >= 2 && x.requests[1] == PutRequest(h, taskId, status)
  {
    MainChainIsNested(h, taskId, status, network);
  }

  /** An ok primary response ends the operation at once: one request, and a
      task built from its body. */
  lemma OkPrimaryResolves(h: Headers, taskId: int, status: TaskStatus, network: seq<Outcome>, now: string)
    requires |network| > 0 && network[0].Received? && IsOk(network[0].response)
    ensures StatusUpdate(h, taskId, status, network, now)
            == Exchange(Resolved(StatusSuccessTask(network[0].response.payload, taskId, status, now)),
                        [PrimaryRequest(h, taskId, status)])
  {
    MainChainIsNested(h, taskId, status, network);
  }

  /** If the main chain ends with an ok response, that response answered its
      last request, and the operation resolves without recovery. */
  lemma OkEndResolves(h: Headers, taskId: int, status: TaskStatus, network: seq<Outcome>, now: string)
    ensures var (end, main) := MainChain(h, taskId, status, network);
            end.Answered? && IsOk(end.response) ==>
              && |main| >= 1 && OutcomeAt(network, |main| - 1) == Some(Received(end.response))
              && StatusUpdate(h, taskId, status, network, now)
                 == Exchange(Resolved(StatusSuccessTask(end.response.payload, taskId, status, now)), main)
  {
    MainChainIsNested(h, taskId, status, network);
  }

  /** Any failure of the main chain — a transport error or a final non-ok
      response such as a 500 — is followed by GET /tasks. */
  lemma MainFailureRefetches(h: Headers, taskId: int, status: TaskStatus, network: seq<Outcome>, now: string)
    ensures var (end, main) := MainChain(h, taskId, status, network);
            var x := StatusUpdate(h, taskId, status, network, now);
            (end.Threw? || (end.Answered? && !IsOk(end.response))) ==>
              |x.requests| > |main| && x.requests[..|main|] == main
              && x.requests[|main|] == RefetchRequest(h)
  {
  }

  /** The recovery's PUT is issued only when GET /tasks was ok and listed the
      task, and it re-sends that task's name and description with the new
      status. */
  lemma RecoveryResendsListedTask(h: Headers, taskId: int, status: TaskStatus,
                                  network: seq<Outcome>, k: nat, now: string)
    ensures var (_, reqs) := Recovery(h, taskId, status, network, k, now);
            |reqs| == 2 ==>
              && k < |network| && network[k].Received? && IsOk(network[k].response)
              && network[k].response.payload.Payload? && network[k].response.payload.json.Array?
              && var found := FirstWithId(network[k].response.payload.json.items, taskId);
                 found.Some? && found.value.taskId == Some(taskId)
                 && reqs[1] == ResendRequest(h, taskId, found.value, status)
                 && reqs[1].body == FullTask(found.value.taskName, found.value.taskDescription, status)
  {
    var (_, reqs) := Recovery(h, taskId, status, network, k, now);
    if |reqs| == 2 {
      var items := network[k].response.payload.json.items;
      FirstWithIdIsFirst(items, taskId);
    }
  }

  /** A successful recovery followed an ok PUT and returns the listed task
      with the new status and a fresh `updatedAt`, its other fields kept. */
  lemma RecoveredIsListedTask(h: Headers, taskId: int, status: TaskStatus,
                              network: seq<Outcome>, k: nat, now: string)
    ensures var (rec, _) := Recovery(h, taskId, status, network, k, now);
            rec.Recovered? ==>
              && ListsTask(network, k, taskId)
              && k + 1 < |network| && network[k + 1].Received? && IsOk(network[k + 1].response)
              && var found := FirstWithId(network[k].response.payload.json.items, taskId).value;
                 rec.task.taskId == taskId && rec.task.taskStatus == status
                 && rec.task.taskName == found.taskName.GetOr("")
                 && rec.task.taskDescription == found.taskDescription.GetOr("")
                 && rec.task.userId == found.userId
                 && rec.task.completionTime == found.completionTime
                 && rec.task.startTime == found.startTime
                 && rec.task.createdAt == found.createdAt
                 && rec.task.updatedAt == Some(now)
  {
    var (rec, _) := Recovery(h, taskId, status, network, k, now);
    if rec.Recovered? {
      var items := network[k].response.payload.json.items;
      FirstWithIdIsFirst(items, taskId);
    }
  }

  /** Conversely, an ok listing that holds the task followed by an ok PUT
      always recovers, whatever keys the listed object has, after exactly
      the GET and the PUT. */
  lemma ListedTaskRecovers(h: Headers, taskId: int, status: TaskStatus,
                           network: seq<Outcome>, k: nat, now: string)
    requires ListsTask(network, k, taskId)
    requires k + 1 < |network| && network[k + 1].Received? && IsOk(network[k + 1].response)
    ensures var (rec, reqs) := Recovery(h, taskId, status, network, k, now);
            rec.Recovered? && |reqs| == 2
  {
    var items := network[k].response.payload.json.items;
    FirstWithIdIsFirst(items, taskId);
  }

  /** Whole-operation form: once the main chain has failed (a thrown error
      or a final non-ok answer such as a 500), an ok listing holding the task
      and an ok PUT make `updateTaskStatus` resolve with the task, its status
      replaced and `updatedAt` fresh. */
  lemma FailedChainResolvesWithListedTask(h: Headers, taskId: int, status: TaskStatus,
                                          network: seq<Outcome>, now: string)
    ensures var (end, main) := MainChain(h, taskId, status, network);
            var x := StatusUpdate(h, taskId, status, network, now);
            (end.Threw? || (end.Answered? && !IsOk(end.response)))
            && ListsTask(network, |main|, taskId)
            && |main| + 1 < |network| && network[|main| + 1].Received? && IsOk(network[|main| + 1].response)
            ==>
              && x.reply.Resolved? && |x.requests| == |main| + 2
              && x.reply.value.taskId == taskId && x.reply.value.taskStatus == status
              && x.reply.value.updatedAt == Some(now)
  {
    var (end, main) := MainChain(h, taskId, status, network);
    if (end.Threw? || (end.Answered? && !IsOk(end.response)))
       && ListsTask(network, |main|, taskId)
       && |main| + 1 < |network| && network[|main| + 1].Received? && IsOk(network[|main| + 1].response)
    {
      ListedTaskRecovers(h, taskId, status, network, |main|, now);
      RecoveredIsListedTask(h, taskId, status, network, |main|, now);
    }
  }

  /** A listed task without a description is still recovered: a 500 on the
      primary PATCH, then a listing whose task has only id, name and status,
      then an ok PUT. */
  lemma RecoveryWithoutDescription(h: Headers, now: string)
    ensures var boom := Response(500, "Internal Server Error", Payload("boom", NotJson("Unexpected token")));
            var listed := EmptyObject.(taskId := Some(7), taskName := Some("a"), taskStatus := Some(TODO));
            var listing := Response(200, "OK", Payload("[...]", Array([listed])));
            var ok := Response(200, "OK", Payload("", NotJson("Unexpected end of JSON input")));
            StatusUpdate(h, 7, ONGOING, [Received(boom), Received(listing), Received(ok)], now).reply
            == Resolved(Task(7, "a", "", ONGOING, None, None, None, None, Some(now)))
  {
    var boom := Response(500, "Internal Server Error", Payload("boom", NotJson("Unexpected token")));
    var listed := EmptyObject.(taskId := Some(7), taskName := Some("a"), taskStatus := Some(TODO));
    var listing := Response(200, "OK", Payload("[...]", Array([listed])));
    var ok := Response(200, "OK", Payload("", NotJson("Unexpected end of JSON input")));
    var network := [Received(boom), Received(listing), Received(ok)];
    MainChainIsNested(h, 7, ONGOING, network);
    assert MainChain(h, 7, ONGOING, network) == (Answered(boom), [PrimaryRequest(h, 7, ONGOING)]);
  }

  /** The operation issues at most five requests: three in the main chain
      and two in the recovery. */
  lemma AtMostFiveRequests(h: Headers, taskId: int, status: TaskStatus, network: seq<Outcome>, now: string)
    ensures var x := StatusUpdate(h, taskId, status, network, now);
            1 <= |x.requests| <= 5 && x.requests[0] == PrimaryRequest(h, taskId, status)
  {
    MainChainOrder(h, taskId, status, network);
  }

  /** When the recovery does not succeed the operation rejects with the
      message chosen from the error that ended the main chain: for a 500
      that is `Network error: ` and the response text. */
  lemma ServerErrorWithoutRecovery(h: Headers, taskId: int, status: TaskStatus, now: string,
                                   text: string, other: Outcome)
    requires text != ""
    requires other.Failed? || (other.Received? && !IsOk(other.response))
    ensures var r := Response(500, "Internal Server Error", Payload(text, NotJson("Unexpected token")));
            StatusUpdate(h, taskId, status, [Received(r), other], now)
            == Exchange(Rejected(NetworkErrorPrefix + text), [PrimaryRequest(h, taskId, status), RefetchRequest(h)])
  {
    var r := Response(500, "Internal Server Error", Payload(text, NotJson("Unexpected token")));
    MainChainIsNested(h, taskId, status, [Received(r), other]);
    assert MainChain(h, taskId, status, [Received(r), other]) == (Answered(r), [PrimaryRequest(h, taskId, status)]);
    assert StatusFailureMessage(r) == text;
  }

  /** A server that cannot be reached at all gives the connectivity
      message after the recovery's GET fails too. */
  lemma UnreachableServer(h: Headers, taskId: int, status: TaskStatus, now: string)
    ensures var down := Failed(JsError(true, "Failed to fetch"));
            StatusUpdate(h, taskId, status, [down, down], now)
            == Exchange(Rejected(UnreachableMessage), [PrimaryRequest(h, taskId, status), RefetchRequest(h)])
  {
    assert Text.StartsWith("Failed to fetch", "Failed to fetch");
  }
}
