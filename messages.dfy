/** How the API client chooses the message of the `Error` it throws. */
module Messages {
  import opened Types
  import opened Http
  import Text

  /** `a || b || fallback` on optional strings: the first one that is present
      and non-empty (the empty string is falsy in JavaScript). */
  function FirstTruthy(a: Option<string>, b: Option<string>, fallback: string): string {
    if a.Some? && a.value != "" then a.value
    else if b.Some? && b.value != "" then b.value
    else fallback
  }

  // ---------------------------------------------------------------------
  // createTask / updateTask: the error cascade on a non-ok response
  // ---------------------------------------------------------------------

  /** The message `createTask` and `updateTask` throw on a non-ok response:
      the JSON `error` field, else the `message` field, else `fallback`; when
      the body is not JSON, its raw text if non-empty, else the status line;
      and the status line when the body cannot be read at all. The body is
      read once. */
  function ServerErrorMessage(r: Response, fallback: string): string {
    match r.payload
    case Unreadable(_) => StatusLine(r)
    case Payload(text, json) =>
      if json.NotJson? then (if text != "" then text else StatusLine(r))
      else FirstTruthy(Props(json).error, Props(json).message, fallback)
  }

  /** The cascade in order: `error`, then `message`, then the default; raw
      text, then the status line for a body that is not JSON. */
  lemma ServerErrorCascade(r: Response, fallback: string)
    requires r.payload.Payload?
    ensures var j := r.payload.json;
            var m := ServerErrorMessage(r, fallback);
            && (!j.NotJson? && Props(j).error.Some? && Props(j).error.value != "" ==>
                  m == Props(j).error.value)
            && (!j.NotJson? && (Props(j).error.None? || Props(j).error.value == "")
                && Props(j).message.Some? && Props(j).message.value != "" ==>
                  m == Props(j).message.value)
            && (!j.NotJson? && (Props(j).error.None? || Props(j).error.value == "")
                && (Props(j).message.None? || Props(j).message.value == "") ==>
                  m == fallback)
            && (j.NotJson? && r.payload.text != "" ==> m == r.payload.text)
            && (j.NotJson? && r.payload.text == "" ==> m == StatusLine(r))
  {
  }

  /** The result of reading a body with `json()` or `text()`. */
  datatype Read<T> = Read(value: T) | ReadFailed(message: string)

  /** `response.json()`: the body is consumed whether or not it parses. */
  function ReadJson(p: Payload, used: bool): (Read<Json>, bool) {
    if used then (ReadFailed("body stream already read"), true)
    else match p
         case Unreadable(e) => (ReadFailed(e), true)
         case Payload(_, json) =>
           (if json.NotJson? then ReadFailed(json.syntaxError) else Read(json), true)
  }

  /** `response.text()`: fails once the body has been consumed. */
  function ReadText(p: Payload, used: bool): (Read<string>, bool) {
    if used then (ReadFailed("body stream already read"), true)
    else match p
         case Unreadable(e) => (ReadFailed(e), true)
         case Payload(text, _) => (Read(text), true)
  }

  /** The error path of `createTask` and `updateTask` exactly as written:
      `json()` first, and `text()` on the same response only after `json()`
      has failed, when the body has already been consumed. */
  function ServerErrorMessageAsWritten(r: Response, fallback: string): string {
    var (j, used) := ReadJson(r.payload, false);
    if j.Read? then FirstTruthy(Props(j.value).error, Props(j.value).message, fallback)
    else
      var (t, _) := ReadText(r.payload, used);
      if t.Read? && t.value != "" then t.value else StatusLine(r)
  }

  /** As written, the raw text of a non-JSON error body never reaches the
      message: the status line is always used instead. */
  lemma AsWrittenLosesErrorText(r: Response, fallback: string)
    requires r.payload.Payload? && r.payload.json.NotJson? && r.payload.text != ""
    ensures ServerErrorMessageAsWritten(r, fallback) == StatusLine(r)
    ensures ServerErrorMessage(r, fallback) == r.payload.text
  {
  }

  /** A concrete response on which the two differ: a 400 whose body is the
      plain text `Task name is required`. */
  lemma AsWrittenLosesErrorTextExample()
    ensures var r := Response(400, "Bad Request",
                              Payload("Task name is required", NotJson("Unexpected token 'T'")));
            ServerErrorMessageAsWritten(r, "Failed to create task") != ServerErrorMessage(r, "Failed to create task")
  {
    var r := Response(400, "Bad Request",
                      Payload("Task name is required", NotJson("Unexpected token 'T'")));
    assert StatusLine(r)[0] == 'H';
    assert ServerErrorMessage(r, "Failed to create task")[0] == 'T';
  }

  /** Everywhere else the two agree. */
  lemma AsWrittenAgreesOnJson(r: Response, fallback: string)
    requires !(r.payload.Payload? && r.payload.json.NotJson? && r.payload.text != "")
    ensures ServerErrorMessageAsWritten(r, fallback) == ServerErrorMessage(r, fallback)
  {
  }

  // ---------------------------------------------------------------------
  // updateTaskStatus: the message of a non-ok response and the final error
  // ---------------------------------------------------------------------

  /** The message thrown when the last response of the status chain is not
      ok: its text if non-empty, else the status line (also when the text
      cannot be read). */
  function StatusFailureMessage(r: Response): string {
    match r.payload
    case Unreadable(_) => StatusLine(r)
    case Payload(text, _) => if text != "" then text else StatusLine(r)
  }

  const NetworkErrorPrefix := "Network error: "

  const UnreachableMessage := NetworkErrorPrefix
    + "Unable to reach server. Please check if the backend is running and CORS is configured."

  /** The message `updateTaskStatus` rejects with when the recovery did not
      succeed, chosen from the error that ended the main chain. */
  function FinalStatusError(e: JsError): string {
    if e.isTypeError && Text.Contains(e.message, "Failed to fetch") then UnreachableMessage
    else NetworkErrorPrefix + e.message
  }

  /** The connectivity message is used exactly for a `TypeError` whose
      message contains `Failed to fetch`; every other error keeps its own
      message behind the `Network error: ` prefix. */
  lemma FinalStatusErrorCases(e: JsError)
    ensures (e.isTypeError && Text.Contains(e.message, "Failed to fetch")) ==>
              FinalStatusError(e) == UnreachableMessage
    ensures !(e.isTypeError && Text.Contains(e.message, "Failed to fetch")) ==>
              FinalStatusError(e) == NetworkErrorPrefix + e.message
    ensures Text.StartsWith(FinalStatusError(e), NetworkErrorPrefix)
  {
    assert UnreachableMessage[..|NetworkErrorPrefix|] == NetworkErrorPrefix;
    assert (NetworkErrorPrefix + e.message)[..|NetworkErrorPrefix|] == NetworkErrorPrefix;
  }

  // ---------------------------------------------------------------------
  // register and login
  // ---------------------------------------------------------------------

  /** The message `register` and `login` throw on a non-ok response: the
      body must parse (otherwise the reading error propagates), then its
      `error` field if truthy, else `fallback`. */
  function AuthErrorMessage(r: Response, fallback: string): string {
    match r.payload
    case Unreadable(e) => e
    case Payload(_, json) =>
      if json.NotJson? then json.syntaxError
      else FirstTruthy(Props(json).error, None, fallback)
  }

  /** Unlike the task operations, `register` and `login` ignore a `message`
      field and have no text fallback: a body that does not parse rejects
      with the parser's own error. */
  lemma AuthErrorCases(r: Response, fallback: string)
    requires r.payload.Payload?
    ensures var j := r.payload.json;
            var m := AuthErrorMessage(r, fallback);
            && (j.NotJson? ==> m == j.syntaxError)
            && (!j.NotJson? && Props(j).error.Some? && Props(j).error.value != "" ==> m == Props(j).error.value)
            && (!j.NotJson? && (Props(j).error.None? || Props(j).error.value == "") ==> m == fallback)
  {
  }
}
