/** The API client: the bearer token it holds and mirrors into persistent
    storage, the headers it derives from it, and the operations whose
    behaviour goes beyond an ok check (login, create, update, and the status
    update with its fallbacks). Each operation receives the outcomes of the
    requests it will issue as `network`, in order. */
module ApiClient {
  import opened Types
  import opened Http
  import opened Messages
  import opened Projection
  import opened StatusChain
  import opened StatusChainProperties

  /** The browser's persistent key-value storage. */
  class Storage {
    var items: map<string, string>

    constructor(initial: map<string, string>)
      ensures items == initial
    {
      items := initial;
    }

    /** `getItem`: the stored value, or nothing for an absent key. */
    function GetItem(key: string): (r: Option<string>)
      reads this
      ensures r.Some? <==> key in items
      ensures r.Some? ==> r.value == items[key]
    {
      if key in items then Some(items[key]) else None
    }

    method SetItem(key: string, value: string)
      modifies this
      ensures items == old(items)[key := value]
    {
      items := items[key := value];
    }

    method RemoveItem(key: string)
      modifies this
      ensures items == old(items) - {key}
    {
      items := items - {key};
    }
  }

  const TokenKey := "token"

  /** The headers every request carries. */
  const JsonHeaders: Headers := map["Content-Type" := "application/json"]

  /** The body of a successful login, when it has every field the client
      uses. */
  function AuthFields(o: JsonObject): Option<AuthResponse> {
    if o.token.Some? && o.userId.Some? && o.firstName.Some? && o.lastName.Some? && o.email.Some? then
      Some(AuthResponse(o.token.value, o.userId.value, o.firstName.value, o.lastName.value, o.email.value))
    else None
  }

  /** The object a server sends for a successful login, with arbitrary
      values for the keys the client does not read. */
  function AuthJson(a: AuthResponse, other: JsonObject): JsonObject {
    other.(token := Some(a.token), userId := Some(a.userId), firstName := Some(a.firstName),
           lastName := Some(a.lastName), email := Some(a.email))
  }

  /** `register`: POST /auth/register without the Authorization header; a
      non-ok response throws the server's `error` or `Registration failed`;
      an ok response resolves once its body has been parsed. */
  function RegisterExchange(firstName: string, lastName: string, email: string, password: string,
                            network: seq<Outcome>): (x: Exchange<()>)
    ensures x.requests == [Request(POST, AuthRegister, JsonHeaders, Registration(firstName, lastName, email, password))]
  {
    var req := Request(POST, AuthRegister, JsonHeaders, Registration(firstName, lastName, email, password));
    var reply :=
      match OutcomeAt(network, 0)
      case None => Pending
      case Some(Failed(e)) => Rejected(e.message)
      case Some(Received(r)) =>
        if !IsOk(r) then Rejected(AuthErrorMessage(r, "Registration failed"))
        else match r.payload
          case Unreadable(e) => Rejected(e)
          case Payload(_, json) => if json.NotJson? then Rejected(json.syntaxError) else Resolved(());
    Exchange(reply, [req])
  }

  /** `login`: POST /auth/login without the Authorization header; a non-ok
      response throws the server's `error` or `Login failed`; an ok body is
      the `AuthResponse`. */
  function LoginExchange(email: string, password: string, network: seq<Outcome>): (x: Exchange<AuthResponse>)
    ensures x.requests == [Request(POST, AuthLogin, JsonHeaders, Credentials(email, password))]
  {
    var req := Request(POST, AuthLogin, JsonHeaders, Credentials(email, password));
    var reply :=
      match OutcomeAt(network, 0)
      case None => Pending
      case Some(Failed(e)) => Rejected(e.message)
      case Some(Received(r)) =>
        if !IsOk(r) then Rejected(AuthErrorMessage(r, "Login failed"))
        else match r.payload
          case Unreadable(e) => Rejected(e)
          case Payload(_, json) =>
            if json.NotJson? then Rejected(json.syntaxError)
            else match AuthFields(Props(json))
              case Some(a) => Resolved(a)
              case None => Rejected(InvalidFormat);
    Exchange(reply, [req])
  }

  /** An ok login response carrying an `AuthResponse` yields exactly it. */
  lemma LoginAcceptsServerAuth(email: string, password: string, a: AuthResponse, other: JsonObject,
                               status: int, statusText: string, text: string, rest: seq<Outcome>)
    requires 200 <= status <= 299
    ensures var r := Response(status, statusText, Payload(text, Object(AuthJson(a, other))));
            LoginExchange(email, password, [Received(r)] + rest).reply == Resolved(a)
  {
  }

  /** A rejected login carries the server's non-empty `error` field, else
      `Login failed`. */
  lemma LoginRejection(email: string, password: string, r: Response, o: JsonObject, rest: seq<Outcome>)
    requires !IsOk(r) && r.payload.Payload? && r.payload.json == Object(o)
    ensures var reply := LoginExchange(email, password, [Received(r)] + rest).reply;
            && (o.error.Some? && o.error.value != "" ==> reply == Rejected(o.error.value))
            && (o.error.None? || o.error.value == "" ==> reply == Rejected("Login failed"))
  {
  }

  /** A registration resolves exactly when the server answers ok with a
      body that parses; a refusal carries the server's non-empty `error`,
      else `Registration failed`. */
  lemma RegisterOutcome(firstName: string, lastName: string, email: string, password: string,
                        r: Response, rest: seq<Outcome>)
    ensures var reply := RegisterExchange(firstName, lastName, email, password, [Received(r)] + rest).reply;
            && (reply.Resolved? <==> IsOk(r) && r.payload.Payload? && !r.payload.json.NotJson?)
            && (!IsOk(r) && r.payload.Payload? && r.payload.json.Object? ==>
                  var o := r.payload.json.obj;
                  reply == Rejected(if o.error.Some? && o.error.value != "" then o.error.value
                                    else "Registration failed"))
  {
    assert OutcomeAt([Received(r)] + rest, 0) == Some(Received(r));
  }

  class ApiService {
    /** The bearer token, `null` when signed out. */
    var token: Option<string>
    /** The storage the token is mirrored into. */
    const storage: Storage

    /** The token is read from storage when the client is created. */
    constructor(storage: Storage)
      ensures this.storage == storage
      ensures token == storage.GetItem(TokenKey)
    {
      this.storage := storage;
      token := storage.GetItem(TokenKey);
    }

    /** `getHeaders`: always the JSON content type; the Authorization header
        only when asked for and the token is truthy (present and non-empty). */
    function GetHeaders(includeAuth: bool): (h: Headers)
      reads this
      ensures "Content-Type" in h && h["Content-Type"] == "application/json"
      ensures "Authorization" in h <==> includeAuth && token.Some? && token.value != ""
      ensures "Authorization" in h ==> h["Authorization"] == "Bearer " + token.value
      ensures h.Keys <= {"Content-Type", "Authorization"}
    {
      if includeAuth && token.Some? && token.value != "" then
        JsonHeaders["Authorization" := "Bearer " + token.value]
      else JsonHeaders
    }

    method SetToken(t: string)
      modifies this, storage
      ensures token == Some(t)
      ensures storage.items == old(storage.items)[TokenKey := t]
    {
      token := Some(t);
      storage.SetItem(TokenKey, t);
    }

    /** After `clearToken` no request carries the Authorization header. */
    method ClearToken()
      modifies this, storage
      ensures token == None && storage.GetItem(TokenKey) == None
      ensures storage.items == old(storage.items) - {TokenKey}
      ensures "Authorization" !in GetHeaders(true)
    {
      token := None;
      storage.RemoveItem(TokenKey);
    }

    /** `login`: a successful login stores its token, in memory and in
        storage; any failure leaves both as they were. */
    method Login(email: string, password: string, network: seq<Outcome>) returns (x: Exchange<AuthResponse>)
      modifies this, storage
      ensures x == LoginExchange(email, password, network)
      ensures x.reply.Resolved? ==> token == Some(x.reply.value.token)
                                    && storage.items == old(storage.items)[TokenKey := x.reply.value.token]
      ensures !x.reply.Resolved? ==> token == old(token) && storage.items == old(storage.items)
    {
      x := LoginExchange(email, password, network);
      if x.reply.Resolved? {
        SetToken(x.reply.value.token);
      }
    }

    /** `createTask`: one POST /tasks carrying the name and description. */
    function CreateTask(taskName: string, taskDescription: string, network: seq<Outcome>): (x: Exchange<Task>)
      reads this
      ensures x.requests == [Request(POST, TaskCollection, GetHeaders(true), NameAndDescription(taskName, taskDescription))]
      ensures x.reply == Pending <==> network == []
    {
      var req := Request(POST, TaskCollection, GetHeaders(true), NameAndDescription(taskName, taskDescription));
      var reply :=
        match OutcomeAt(network, 0)
        case None => Pending
        case Some(Failed(e)) => Rejected(e.message)
        case Some(Received(r)) =>
          if !IsOk(r) then Rejected(ServerErrorMessage(r, "Failed to create task"))
          else if r.payload.Unreadable? || r.payload.json.NotJson? then Rejected(InvalidFormat)
          else match SanitizeCreated(Props(r.payload.json))
            case Some(t) => Resolved(t)
            case None => Rejected(InvalidFormat);
      Exchange(reply, [req])
    }

    /** `updateTask`: one PUT /tasks/{id} carrying the name and description;
        the ok body is taken as the task as it stands. */
    function UpdateTask(taskId: int, taskName: string, taskDescription: string, network: seq<Outcome>): (x: Exchange<Task>)
      reads this
      ensures x.requests == [Request(PUT, TaskById(taskId), GetHeaders(true), NameAndDescription(taskName, taskDescription))]
      ensures x.reply == Pending <==> network == []
    {
      var req := Request(PUT, TaskById(taskId), GetHeaders(true), NameAndDescription(taskName, taskDescription));
      var reply :=
        match OutcomeAt(network, 0)
        case None => Pending
        case Some(Failed(e)) => Rejected(e.message)
        case Some(Received(r)) =>
          if !IsOk(r) then Rejected(ServerErrorMessage(r, "Failed to update task"))
          else if r.payload.Unreadable? || !r.payload.json.Object? then Rejected(InvalidFormat)
          else match AsTask(r.payload.json.obj)
            case Some(t) => Resolved(t)
            case None => Rejected(InvalidFormat);
      Exchange(reply, [req])
    }

    /** The main chain of `updateTaskStatus`, step by step: the primary
        PATCH, then the second PATCH and the PUT, each reassigning the latest
        response; a thrown error ends the chain. */
    method MainChainSteps(headers: Headers, taskId: int, status: TaskStatus, network: seq<Outcome>)
      returns (end: ChainEnd, sent: seq<Request>)
      ensures (end, sent) == MainChain(headers, taskId, status, network)
    {
      MainChainIsNested(headers, taskId, status, network);
      sent := [Request(PATCH, TaskStatusById(taskId), headers, StatusBody(status))];
      var outcome := OutcomeAt(network, 0);
      if outcome.None? {
        return Stalled, sent;
      }
      if outcome.value.Failed? {
        return Threw(outcome.value.error), sent;
      }
      var response := outcome.value.response;
      assert OutcomeAt(network, 0) == Some(Received(response));
      if !IsOk(response) && response.status == 404 {
        outcome := OutcomeAt(network, |sent|);
        sent := sent + [Request(PATCH, TaskById(taskId), headers, StatusBody(status))];
        if outcome.None? {
          return Stalled, sent;
        }
        if outcome.value.Failed? {
          return Threw(outcome.value.error), sent;
        }
        response := outcome.value.response;
        assert sent == [PrimaryRequest(headers, taskId, status), SecondPatchRequest(headers, taskId, status)];
        assert MainChainNested(headers, taskId, status, network)
            == PutIfNeeded(headers, taskId, status, network, 2, response, sent);
      } else {
        assert MainChainNested(headers, taskId, status, network)
            == PutIfNeeded(headers, taskId, status, network, 1, response, sent);
      }
      if !IsOk(response) && (response.status == 404 || response.status == 405) {
        outcome := OutcomeAt(network, |sent|);
        sent := sent + [Request(PUT, TaskById(taskId), headers, StatusBody(status))];
        if outcome.None? {
          return Stalled, sent;
        }
        if outcome.value.Failed? {
          return Threw(outcome.value.error), sent;
        }
        response := outcome.value.response;
      }
      end := Answered(response);
    }

    /** The recovery of `updateTaskStatus`, step by step, from the `start`-th
        outcome: re-fetch the list, find the task, re-send it in full. */
    method RecoverySteps(headers: Headers, taskId: int, status: TaskStatus, network: seq<Outcome>,
                         start: nat, now: string)
      returns (rec: RecoveryEnd, sent: seq<Request>)
      ensures (rec, sent) == Recovery(headers, taskId, status, network, start, now)
    {
      sent := [RefetchRequest(headers)];
      var outcome := OutcomeAt(network, start);
      if outcome.None? {
        return RecoveryStalled, sent;
      }
      rec := NotRecovered;
      if outcome.value.Received? {
        var listing := outcome.value.response;
        if IsOk(listing) && listing.payload.Payload? && listing.payload.json.Array? {
          var current := FirstWithId(listing.payload.json.items, taskId);
          if current.Some? {
            sent := sent + [ResendRequest(headers, taskId, current.value, status)];
            assert sent == [RefetchRequest(headers), ResendRequest(headers, taskId, current.value, status)];
            outcome := OutcomeAt(network, start + 1);
            if outcome.None? {
              return RecoveryStalled, sent;
            }
            if outcome.value.Received? && IsOk(outcome.value.response) {
              rec := Recovered(RecoveredTask(current.value, taskId, status, now));
            }
          }
        }
      }
    }

    /** `updateTaskStatus`: the main chain; an ok end is turned into a task;
        a non-ok end is thrown and caught like a transport error, and the
        recovery runs; if it does not succeed, the final error is chosen
        from what the main chain failed with. */
    method UpdateTaskStatus(taskId: int, status: TaskStatus, network: seq<Outcome>, now: string)
      returns (x: Exchange<Task>)
      ensures x == StatusUpdate(GetHeaders(true), taskId, status, network, now)
    {
      var headers := GetHeaders(true);
      var end, main := MainChainSteps(headers, taskId, status, network);
      var failure: JsError;
      match end {
        case Stalled =>
          return Exchange(Pending, main);
        case Threw(e) =>
          failure := e;
        case Answered(response) =>
          if IsOk(response) {
            return Exchange(Resolved(StatusSuccessTask(response.payload, taskId, status, now)), main);
          }
          failure := JsError(false, StatusFailureMessage(response));
      }
      var rec, more := RecoverySteps(headers, taskId, status, network, |main|, now);
      match rec {
        case Recovered(t) =>
          x := Exchange(Resolved(t), main + more);
        case RecoveryStalled =>
          x := Exchange(Pending, main + more);
        case NotRecovered =>
          x := Exchange(Rejected(FinalStatusError(failure)), main + more);
      }
    }
  }

  /** `createTask` resolves with exactly the task the server sends, whatever
      else its object carries; an ok body that is not JSON is an invalid
      format; a refusal carries the server's non-empty `error` field. */
  lemma CreateTaskOutcomes(api: ApiService, taskName: string, taskDescription: string,
                           r: Response, rest: seq<Outcome>)
    ensures var reply := api.CreateTask(taskName, taskDescription, [Received(r)] + rest).reply;
            && (IsOk(r) && r.payload.Payload? && r.payload.json.Object? ==>
                  forall t, other :: r.payload.json.obj == ServerJson(t, other) ==> reply == Resolved(t))
            && (IsOk(r) && r.payload.Payload? && r.payload.json.NotJson? ==> reply == Rejected(InvalidFormat))
            && (!IsOk(r) && r.payload.Payload? && r.payload.json.Object?
                && r.payload.json.obj.error.Some? && r.payload.json.obj.error.value != "" ==>
                  reply == Rejected(r.payload.json.obj.error.value))
  {
    assert OutcomeAt([Received(r)] + rest, 0) == Some(Received(r));
    if IsOk(r) && r.payload.Payload? && r.payload.json.Object? {
      forall t, other | r.payload.json.obj == ServerJson(t, other)
        ensures api.CreateTask(taskName, taskDescription, [Received(r)] + rest).reply == Resolved(t)
      {
        SanitizeCreatedRecoversTask(t, other);
      }
    }
  }

  /** `updateTask` resolves with the server's task as it stands, the owner
      being the object's top-level `userId`; an ok body that is not a JSON
      object is an invalid format; a refusal carries the server's non-empty
      `error` field. */
  lemma UpdateTaskOutcomes(api: ApiService, taskId: int, taskName: string, taskDescription: string,
                           r: Response, rest: seq<Outcome>)
    ensures var reply := api.UpdateTask(taskId, taskName, taskDescription, [Received(r)] + rest).reply;
            && (IsOk(r) && r.payload.Payload? && r.payload.json.Object? ==>
                  forall t, other :: r.payload.json.obj == ServerJson(t, other)
                    ==> reply == Resolved(t.(userId := other.userId)))
            && (IsOk(r) && r.payload.Payload? && !r.payload.json.Object? ==> reply == Rejected(InvalidFormat))
            && (!IsOk(r) && r.payload.Payload? && r.payload.json.Object?
                && r.payload.json.obj.error.Some? && r.payload.json.obj.error.value != "" ==>
                  reply == Rejected(r.payload.json.obj.error.value))
  {
    assert OutcomeAt([Received(r)] + rest, 0) == Some(Received(r));
    if IsOk(r) && r.payload.Payload? && r.payload.json.Object? {
      forall t, other | r.payload.json.obj == ServerJson(t, other)
        ensures api.UpdateTask(taskId, taskName, taskDescription, [Received(r)] + rest).reply
                == Resolved(t.(userId := other.userId))
      {
        AsTaskKeepsTopLevelOwner(t, other);
      }
    }
  }
}
