/** The client's view of the task server: the requests it sends, the
    responses it can receive, and parsed JSON bodies seen through the keys the
    client reads. No HTTP or JSON machinery is modelled: a response carries
    its text and the result of parsing that text side by side. */
module Http {
  import opened Types
  import Text

  datatype HttpMethod = GET | POST | PUT | PATCH | DELETE

  /** The paths under the configured base URL. */
  datatype Endpoint =
    | AuthLogin                   // /auth/login
    | AuthRegister                // /auth/register
    | TaskCollection              // /tasks
    | TaskById(id: int)           // /tasks/{id}
    | TaskStatusById(id: int)     // /tasks/{id}/status

  /** The JSON bodies the client sends; a field that is `undefined` is left
      out of the body, hence the options in `FullTask`. */
  datatype RequestBody =
    | NoBody
    | StatusBody(status: TaskStatus)
    | NameAndDescription(name: string, description: string)
    | FullTask(currentName: Option<string>, currentDescription: Option<string>, newStatus: TaskStatus)
    | Credentials(email: string, password: string)
    | Registration(firstName: string, lastName: string, email: string, password: string)

  type Headers = map<string, string>

  datatype Request = Request(verb: HttpMethod, endpoint: Endpoint, headers: Headers, body: RequestBody)

  /** A parsed JSON object, seen through every key this client reads. A key
      that is absent (or `undefined`) is `None`. */
  datatype JsonObject = JsonObject(
    error: Option<string>,
    message: Option<string>,
    token: Option<string>,
    taskId: Option<int>,
    taskName: Option<string>,
    taskDescription: Option<string>,
    taskStatus: Option<TaskStatus>,
    user: Option<JsonObject>,
    userId: Option<int>,
    firstName: Option<string>,
    lastName: Option<string>,
    email: Option<string>,
    completionTime: Option<string>,
    startTime: Option<string>,
    createdAt: Option<string>,
    updatedAt: Option<string>)

  const EmptyObject := JsonObject(None, None, None, None, None, None, None, None,
                                  None, None, None, None, None, None, None, None)

  /** What `JSON.parse` makes of a body: a syntax error (with its message), an
      object, an array of objects, or any other value (number, string,
      boolean). */
  datatype Json =
    | NotJson(syntaxError: string)
    | Object(obj: JsonObject)
    | Array(items: seq<JsonObject>)
    | Scalar

  /** Property reads on a parsed value: an object answers with its own keys;
      on arrays and scalars every key the client reads is `undefined`. */
  function Props(j: Json): JsonObject
    requires !j.NotJson?
  {
    if j.Object? then j.obj else EmptyObject
  }

  /** A response body: either reading it fails (with the reader's error
      message), or it has a text and the result of parsing that text. The
      two halves are not tied together: any pairing can be represented, and
      every operation reads each half where the client reads the text or
      parses it, so a result never depends on a pairing no server could
      send. */
  datatype Payload = Unreadable(readError: string) | Payload(text: string, json: Json)

  datatype Response = Response(status: int, statusText: string, payload: Payload)

  /** `response.ok`: a status in the range 200-299. */
  predicate IsOk(r: Response) {
    200 <= r.status <= 299
  }

  /** An error thrown in JavaScript: whether it is a `TypeError` (what `fetch`
      rejects with when the server cannot be reached) and its message. */
  datatype JsError = JsError(isTypeError: bool, message: string)

  /** What one `fetch` produces. */
  datatype Outcome = Failed(error: JsError) | Received(response: Response)

  /** The outcome of the `k`-th request of an operation, `None` when the
      network never answers it. */
  function OutcomeAt(network: seq<Outcome>, k: nat): Option<Outcome> {
    if k < |network| then Some(network[k]) else None
  }

  /** One operation of the API client: the requests it issued, in order, and
      the state of the promise it returned. */
  datatype Exchange<T> = Exchange(reply: Promise<T>, requests: seq<Request>)

  /** `HTTP ${status}: ${statusText}`. */
  function StatusLine(r: Response): string {
    "HTTP " + Text.IntToString(r.status) + ": " + r.statusText
  }

  /** The message the client gives when a success body cannot be used. */
  const InvalidFormat := "Invalid response format from server"
}
