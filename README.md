# Task manager client — a verified model

This project models the client-side logic of a small task-manager web
client. It covers:

- the API client's bearer token and the request headers derived from it;
- `login`, `register`, `createTask` and `updateTask`, with the rule that
  picks the message of the error they throw;
- `updateTaskStatus`, with its chain of fallback requests and its recovery;
- the projections that turn server objects into `Task` records;
- the task list's filter, counts and collection updates;
- the status cycle and labels of a task card;
- the create/edit modal's pre-fill, submit guard and save/close sequence;
- the session context: startup restore, login, register-then-login and
  logout.

The network is a parameter. Each operation receives `network: seq<Outcome>`,
and its k-th request gets `network[k]`: either a thrown JavaScript error or a
response with a status, a status text and a body. A body is abstracted as its
text plus what `JSON.parse` makes of it. Running out of outcomes means the
request never settles, which gives the `Pending` promise state. Every
API-client operation records the requests it issues, so request order is stated and
proved.

Browser storage is a `Storage` class holding a `map<string, string>`. React
state becomes the fields of the classes `TaskListState`, `TaskModalState` and
`AuthProvider`, and each handler is a method that updates them.

Modules, one per file:

- `Types` — the records of `src/types/index.ts`.
- `Text` — lower-casing, substring search, trimming, and integer printing and parsing.
- `Http` — requests, responses, JSON values and network outcomes.
- `Messages` — the error-message rules.
- `Projection` — the whitelist projections and their partner `ServerJson`, which says how the server writes a task.
- `StatusChain` — the specification of `updateTaskStatus`.
- `StatusChainProperties` — its properties.
- `StoredUser` — the `'user'` storage entry and its reading back.
- `ApiClient` — storage and the API client.
- `TaskCard`, `TaskList`, `TaskModal`, `AuthContext` — the components.

## Model

| member | source | states |
|---|---|---|
| ApiClient.ApiService.GetHeaders | src/services/api.ts:8-18 | Content-Type is always `application/json`; Authorization is present iff auth is asked for and the token is truthy, and is then exactly `Bearer ` + token; no other header |
| ApiClient.ApiService.constructor | src/services/api.ts:5-6 | the token starts as the stored `'token'` entry, or none |
| ApiClient.ApiService.SetToken | src/services/api.ts:20-23 | the token and the stored `'token'` entry both become `t`; no other entry changes |
| ApiClient.ApiService.ClearToken | src/services/api.ts:25-28 | the token and the stored `'token'` entry are both gone, nothing else in storage changes, and the next headers carry no Authorization |
| ApiClient.Storage.GetItem | src/services/api.ts:6 | an entry is returned iff the key is stored, and it is the stored value |
| ApiClient.Storage.SetItem | src/services/api.ts:22 | storage maps the key to the value, every other entry unchanged |
| ApiClient.Storage.RemoveItem | src/services/api.ts:27 | storage loses exactly that key |
| ApiClient.RegisterExchange | src/services/api.ts:30-43 | exactly one POST /auth/register, without Authorization, carrying the four fields |
| ApiClient.RegisterOutcome | src/services/api.ts:37-42 | a registration resolves iff the response is ok and its body parses; a refusal carries the server's non-empty `error`, else `Registration failed` |
| ApiClient.LoginExchange | src/services/api.ts:45-50 | exactly one POST /auth/login, without Authorization, carrying email and password |
| ApiClient.LoginAcceptsServerAuth | src/services/api.ts:57-59 | an ok response carrying an auth object resolves with exactly that `AuthResponse`, whatever else the object holds |
| ApiClient.LoginRejection | src/services/api.ts:52-55 | a refused login rejects with the server's non-empty `error` field, else `Login failed` |
| ApiClient.ApiService.Login | src/services/api.ts:45-60 | the result is the login exchange; a resolved login stores its token in memory and in storage; any other outcome leaves both unchanged |
| ApiClient.ApiService.CreateTask | src/services/api.ts:86-93 | exactly one POST /tasks with the auth headers, name and description; it stays pending iff no outcome arrives; a refusal takes its message from the intended cascade `ServerErrorMessage` (see "## Findings") |
| ApiClient.UpdateTaskOutcomes | src/services/api.ts:155-183 | the server's task comes back as it stands, with the object's own top-level `userId` as owner; an ok body that is not a JSON object gives `Invalid response format from server`; a refusal carries the server's non-empty `error` |
| ApiClient.CreateTaskOutcomes | src/services/api.ts:97-152 | the server's task comes back exactly, whatever else its object carries; an ok body that is not JSON gives `Invalid response format from server`; a refusal carries the server's non-empty `error` |
| ApiClient.ApiService.UpdateTask | src/services/api.ts:155-183 | exactly one PUT /tasks/{id} with the auth headers, name and description; it stays pending iff no outcome arrives; a refusal takes its message from the intended cascade `ServerErrorMessage` (see "## Findings") |
| ApiClient.ApiService.MainChainSteps | src/services/api.ts:198-226 | the step-by-step reassignment of `response` ends where the chain specification `MainChain` says, having sent the same requests; `MainChain`'s order and trigger conditions are the `StatusChainProperties` lemmas |
| ApiClient.ApiService.RecoverySteps | src/services/api.ts:298-333 | the step-by-step recovery ends where the specification `Recovery` says, having sent the same requests |
| ApiClient.ApiService.UpdateTaskStatus | src/services/api.ts:185-341 | the result and the requests are those of the specification `StatusUpdate`, built with the client's current auth headers |
| Messages.ServerErrorCascade | src/services/api.ts:97-113 | the intended cascade of a create/update refusal (the corrected half of the first finding; the code as written is `ServerErrorMessageAsWritten`): the JSON `error`, else `message`, else the default; a body that is not JSON gives its raw text, else `HTTP <status>: <statusText>` |
| Messages.AsWrittenLosesErrorText | src/services/api.ts:162-176 | as written, a non-empty non-JSON error body always yields the status line, not its text |
| Messages.AsWrittenLosesErrorTextExample | src/services/api.ts:97-113 | a concrete 400 response on which the as-written and the intended messages differ |
| Messages.AsWrittenAgreesOnJson | src/services/api.ts:97-113 | for every other response, the as-written and the intended messages agree |
| Messages.FinalStatusErrorCases | src/services/api.ts:336-340 | a `TypeError` containing `Failed to fetch` gives the fixed connectivity message; every other error gives `Network error: ` + its message; both start with `Network error: ` |
| Messages.AuthErrorCases | src/services/api.ts:37-40 | a refused register/login takes the JSON `error`, else the default, with no `message` or text fallback; a body that does not parse rejects with the parser's error |
| Projection.SanitizeCreatedRecoversTask | src/services/api.ts:127-137 | the create projection recovers every task the server sends, whatever other keys its object has |
| Projection.SanitizeCreatedCopiesWhitelist | src/services/api.ts:127-137 | a sanitised task exists iff the core keys are present, and holds exactly the whitelisted values, with the owner taken from the nested `user.userId` |
| Projection.AsTaskKeepsTopLevelOwner | src/services/api.ts:178-179 | `updateTask` returns the server object unprojected, so the owner is the top-level `userId`; when the two ids coincide it agrees with the create projection |
| Projection.StatusResultRecoversTask | src/services/api.ts:262-272 | the status projection recovers every server task whose id is not 0 |
| Projection.StatusResultFallbacks | src/services/api.ts:262-272 | a missing or 0 id falls back to the caller's id, a missing status to the caller's status, a missing name or description to the empty string; the owner is the nested user's id |
| Projection.StatusSuccessWithoutBody | src/services/api.ts:245-256 | an ok response whose body is empty, unreadable or not JSON yields the caller's id and status, empty name and description, and never an error |
| StatusChain.FirstWithIdIsFirst | src/services/api.ts:306 | the lookup finds nothing iff no listed task has the id, and otherwise finds the first one that has it |
| StatusChainProperties.OkLatestStops | src/services/api.ts:207-218 | once the latest response is ok, no further fallback is tried |
| StatusChainProperties.FallbacksIssueAttemptRequests | src/services/api.ts:207-226 | the fallbacks issue at most one request per attempt, each being that attempt's request |
| StatusChainProperties.PutStep | src/services/api.ts:218-226 | the last fallback step sends the PUT iff the latest response is non-ok with status 404 or 405 |
| StatusChainProperties.MainChainIsNested | src/services/api.ts:198-226 | the attempt-list specification equals the source's nested conditionals |
| StatusChainProperties.MainChainOrder | src/services/api.ts:198-226 | the main chain sends the primary PATCH /tasks/{id}/status first, then at most two more requests, each a PATCH or PUT /tasks/{id} |
| StatusChainProperties.SecondPatchIff404 | src/services/api.ts:207-215 | the second PATCH is sent iff the primary was answered 404 |
| StatusChainProperties.PutIffLatest404Or405 | src/services/api.ts:198-226 | the PUT is sent iff the primary was answered 405, or 404 followed by a 404 or 405 on the second PATCH; it is then the last request, right after that 404/405 answer |
| StatusChainProperties.Primary405GoesToPut | src/services/api.ts:207-226 | a 405 from the primary skips the second PATCH and goes straight to the PUT |
| StatusChainProperties.OkPrimaryResolves | src/services/api.ts:198-274 | an ok primary response ends the operation with one request and the task read from its body |
| StatusChainProperties.OkEndResolves | src/services/api.ts:240-286 | an ok end of the main chain resolves with the task read from that response, and no recovery runs |
| StatusChainProperties.MainFailureRefetches | src/services/api.ts:228-302 | any failure of the main chain, a non-ok 500 included, is followed by GET /tasks |
| StatusChainProperties.RecoveryResendsListedTask | src/services/api.ts:304-319 | the recovery PUT is sent only after an ok listing that contains the id, and re-sends that task's name and description with the new status |
| StatusChainProperties.RecoveredIsListedTask | src/services/api.ts:321-328 | a successful recovery follows an ok listing holding the task and an ok PUT, and returns the listed task's id, name, description, owner and times with the new status and `updatedAt` set to the current time |
| StatusChainProperties.ListedTaskRecovers | src/services/api.ts:304-328 | conversely, an ok listing holding the task followed by an ok PUT always recovers, whatever keys the listed object has, after exactly those two requests |
| StatusChainProperties.FailedChainResolvesWithListedTask | src/services/api.ts:228-328 | once the main chain fails, a 500 included, an ok listing holding the task and an ok PUT make the operation resolve with that task's id, the new status and a fresh `updatedAt` |
| StatusChainProperties.RecoveryWithoutDescription | src/services/api.ts:304-328 | a 500, then a listing whose task lacks a description, then an ok PUT resolves with the listed task, its status replaced |
| StatusChainProperties.AtMostFiveRequests | src/services/api.ts:185-341 | the operation sends at most five requests |
| StatusChainProperties.ServerErrorWithoutRecovery | src/services/api.ts:228-340 | a 500 with a text body whose recovery fails rejects with `Network error: ` + that text |
| StatusChainProperties.UnreachableServer | src/services/api.ts:336-337 | an unreachable server gives the connectivity message after the primary and the GET |
| TaskList.FilterTasksIsVisible | src/components/TaskList.tsx:41-56 | the two successive filters equal one filter by the visibility predicate |
| TaskList.ShownAreVisible | src/components/TaskList.tsx:41-56 | the shown list is an order-preserving subsequence of the tasks; a task is shown iff it is listed and visible, and as often as it is listed |
| TaskList.NoCriteriaShowsAll | src/components/TaskList.tsx:44-53 | with no search term and the `ALL` filter every task is shown |
| TaskList.RefilterUnchanged | src/components/TaskList.tsx:41-56 | filtering the shown list again with the same criteria changes nothing |
| TaskList.SearchIgnoresCase | src/components/TaskList.tsx:44-48 | for all tasks and terms: terms equal up to case show the same tasks, and a task passing the status filter is shown for every term its name or description literally contains up to case |
| Text.ContainsLower | src/components/TaskList.tsx:46-47 | a literal occurrence of the term is still an occurrence once both strings are lower-cased |
| TaskList.TaskListState.Shown | src/components/TaskList.tsx:24-56 | the list on screen after the re-filter effect is an order-preserving subsequence of the tasks holding exactly the visible ones |
| TaskList.FilterIsSubsequence | src/components/TaskList.tsx:45 | a filter keeps an order-preserving subsequence of elements that satisfy the predicate |
| TaskList.FilterCounts | src/components/TaskList.tsx:45 | a filter keeps every occurrence of an element that satisfies the predicate and none of one that does not |
| TaskList.FilterMembership | src/components/TaskList.tsx:45 | an element is kept iff it is present and satisfies the predicate |
| TaskList.FilterKeepsAll | src/components/TaskList.tsx:45 | when every element satisfies the predicate, nothing is removed |
| TaskList.FilterAgree | src/components/TaskList.tsx:45 | predicates that agree on the elements give the same filter |
| TaskList.FilterTwice | src/components/TaskList.tsx:45-53 | filtering twice is filtering once by the conjunction |
| TaskList.FilterIdempotent | src/components/TaskList.tsx:45 | filtering twice by the same predicate equals filtering once |
| TaskList.GetTaskStats | src/components/TaskList.tsx:117-122 | the total is the number of tasks |
| TaskList.StatsExact | src/components/TaskList.tsx:117-122 | the completed and in-progress counts are the exact numbers of COMPLETED and ONGOING tasks; with the TODO tasks they add up to the total, so they never exceed it |
| TaskList.StatusFilterCount | src/components/TaskList.tsx:119-120 | filtering by a status keeps exactly as many tasks as have it |
| TaskList.StatusesPartition | src/types/index.ts:23-27 | every task has one of the three statuses |
| TaskList.ReplaceById | src/components/TaskList.tsx:75 | replacing keeps the length |
| TaskList.ReplaceExactly | src/components/TaskList.tsx:75 | exactly the positions whose id equals the returned id hold the returned task; every other position is untouched |
| TaskList.ReplaceThenRemove | src/components/TaskList.tsx:75-88 | replacing then removing an id equals removing it |
| TaskList.ReplaceAbsentOrRepeated | src/components/TaskList.tsx:75 | replacing an absent id changes nothing, and replacing twice equals replacing once |
| TaskList.RemoveExactly | src/components/TaskList.tsx:88 | removing keeps an order-preserving subsequence with every occurrence of the other tasks and none with the id; an absent id changes nothing |
| TaskList.TaskListState.constructor | src/components/TaskList.tsx:10-17 | the initial state: no tasks, loading, no error, modal closed, no criteria |
| TaskList.TaskListState.FetchTasks | src/components/TaskList.tsx:28-39 | a fetch replaces the tasks and clears the error; a failure keeps the tasks and shows the error; loading ends once settled; nothing else changes |
| TaskList.TaskListState.HandleCreateTask | src/components/TaskList.tsx:58-68 | the created task is prepended with every other task kept in order; a failure keeps the tasks, shows the message and is passed on; nothing else changes |
| TaskList.TaskListState.HandleUpdateTask | src/components/TaskList.tsx:70-83 | with no task being edited nothing changes; otherwise the returned task replaces those with its id and the edit ends, or a failure is shown and passed on |
| TaskList.TaskListState.HandleDeleteTask | src/components/TaskList.tsx:85-94 | a delete removes exactly the tasks with the id; a failure keeps the tasks and shows the message |
| TaskList.TaskListState.HandleStatusChange | src/components/TaskList.tsx:96-105 | the task the status update returns replaces those with its id; a failure keeps the tasks and shows the message |
| TaskList.TaskListState.OpenCreateModal | src/components/TaskList.tsx:107-110 | the modal opens with no task being edited; nothing else changes |
| TaskList.TaskListState.OpenEditModal | src/components/TaskList.tsx:112-115 | the modal opens editing the given task; nothing else changes |
| TaskList.TaskListState.CloseModal | src/components/TaskList.tsx:262 | the modal closes; nothing else changes |
| TaskCard.NextStatus | src/components/TaskCard.tsx:41-52 | the next status never equals the current one |
| TaskCard.NextStatusCycle | src/components/TaskCard.tsx:41-52 | three steps return to the start, and two never do |
| TaskCard.NextStatusBijective | src/components/TaskCard.tsx:41-52 | every status is reached from exactly one status |
| TaskCard.StatusText | src/components/TaskCard.tsx:28-39 | the label is `To Do`, `In Progress` or `Completed` |
| TaskCard.StatusTextDistinct | src/components/TaskCard.tsx:28-39 | different statuses have different labels |
| TaskCard.ToggleLabel | src/components/TaskCard.tsx:135 | the button reads `Reset` iff the task is COMPLETED, and `Progress` otherwise |
| TaskCard.ToggleLabelMatchesMove | src/components/TaskCard.tsx:135 | the button reads `Reset` exactly when pressing it sends the task back to TODO |
| TaskCard.StatusToggle | src/components/TaskCard.tsx:67-70 | the toggle asks for the card's own task id and a different status, TODO after COMPLETED |
| TaskModal.TaskModalState.constructor | src/components/TaskModal.tsx:13-15 | the fields start empty and not loading |
| TaskModal.TaskModalState.Prefill | src/components/TaskModal.tsx:17-25 | a supplied task pre-fills name and description; with none both are empty |
| TaskModal.TaskModalState.SubmitDisabled | src/components/TaskModal.tsx:100 | the button is disabled iff loading or the name is blank |
| TaskModal.TaskModalState.HandleSubmit | src/components/TaskModal.tsx:27-40 | a blank name emits nothing and leaves loading unchanged; otherwise `onSave` gets the trimmed name and description, `onClose` follows only a successful save, and loading ends once the save settles; when not already loading, a submit is ignored exactly when the button is disabled |
| Text.TrimEmptyIffBlank | src/components/TaskModal.tsx:29 | the trimmed name is empty iff the name is all whitespace |
| Text.TrimStartSpec | src/components/TaskModal.tsx:29-33 | leading trimming keeps a suffix that is empty or starts with a non-space, dropping only white space |
| Text.TrimEndSpec | src/components/TaskModal.tsx:29-33 | trailing trimming keeps a prefix that is empty or ends with a non-space, dropping only white space |
| Text.TrimIsCore | src/components/TaskModal.tsx:33 | trimming yields a slice of the input with no whitespace at either end |
| Text.TrimIdempotent | src/components/TaskModal.tsx:33 | trimming twice equals trimming once |
| Text.ContainsIffOccurs | src/components/TaskList.tsx:46-47 | `includes` holds iff the term occurs at some position |
| Text.ContainsEmpty | src/components/TaskList.tsx:44-47 | every string includes the empty term |
| Text.ParseIntToString | src/contexts/AuthContext.tsx:29-44 | a printed integer followed by a non-digit reads back as itself, leaving the rest |
| StoredUser.ParseEscaped | src/contexts/AuthContext.tsx:29-44 | an escaped string followed by a closing quote reads back as itself, leaving the rest |
| StoredUser.StringFieldOfEscaped | src/contexts/AuthContext.tsx:29-44 | a written string field reads back as its value |
| StoredUser.ParseUserJson | src/contexts/AuthContext.tsx:29-44 | the `'user'` text the client writes parses back to the same user |
| AuthContext.Restored | src/contexts/AuthContext.tsx:24-32 | the corrected startup of the second finding: it always ends loading, and restores a user only when both `'token'` and `'user'` are truthy and the stored user parses |
| AuthContext.RestoreAsWrittenHangs | src/contexts/AuthContext.tsx:28-31 | as written, a truthy token with an unparsable `'user'` entry never clears loading, where the corrected startup does |
| AuthContext.RestoreAsWrittenAgrees | src/contexts/AuthContext.tsx:24-32 | on every other storage content the as-written and the corrected startup agree |
| AuthContext.SessionSurvivesReload | src/contexts/AuthContext.tsx:34-45 | what a login stores is restored on the next start as the same user, unless the token is empty |
| AuthContext.AuthProvider.constructor | src/contexts/AuthContext.tsx:21-22 | no user, loading |
| AuthContext.AuthProvider.Restore | src/contexts/AuthContext.tsx:24-32 | the state after startup is `Restored` of the stored entries, the corrected startup of the second finding |
| AuthContext.AuthProvider.IsAuthenticated | src/contexts/AuthContext.tsx:59-62 | `isAuthenticated` holds exactly when a user is signed in |
| AuthContext.AuthProvider.Login | src/contexts/AuthContext.tsx:34-45 | a successful login signs in the four identity fields without the token, and stores them under `'user'` and the token under `'token'`; a failure changes nothing and is passed on |
| AuthContext.AuthProvider.Register | src/contexts/AuthContext.tsx:47-51 | registration first, then a login with the same email and password on the following outcomes; a failed registration skips the login and changes nothing |
| AuthContext.AuthProvider.Logout | src/contexts/AuthContext.tsx:53-57 | the user, the token and both stored entries are gone, no one is authenticated, and no Authorization header is sent |

## Left out

- Real HTTP, `fetch`, `clone()` and the JSON parser are not modelled. A response body is its text plus an abstract parse result: an object, an array, a scalar, or a syntax error. JSON `null` is not distinguished from an absent key. A body that is the bare literal `null`, and an array holding anything other than objects, are not represented: for instance an ok status-update body `null` makes the source's property read throw, and it returns the synthesised task from its catch at src/services/api.ts:275-285.
- Missing keys: where the source would build a record holding `undefined` in a required field, the model rejects with the message `Invalid response format from server` instead. This applies to a create/update body lacking `taskId`, `taskName`, `taskDescription` or `taskStatus`, and to a login body lacking a field of `AuthResponse`.
- ApiClient.ApiService.Login: a login body without `token` resolves in the source after storing `undefined`; the model rejects it, as the previous line says.
- The recovery of `updateTaskStatus`: the error thrown for a non-ok end of the main chain (src/services/api.ts:237) sits inside the outer `try` and is caught at line 287, so a 500 also triggers the re-fetch, exactly like a transport error.
- StatusChain.RecoveredTask: the source returns the listed object spread with the new status, so a key the listing lacks stays absent; the model's `Task` has no absent name or description, and reads a missing one as the empty string. Whether the recovery resolves does not depend on it.
- ApiClient.ApiService.CreateTask: a refusal uses the intended message cascade `ServerErrorMessage`, not the code as written, which gives `HTTP <status>: <statusText>` for every non-JSON body (first finding, modelled by `ServerErrorMessageAsWritten`).
- ApiClient.ApiService.UpdateTask: likewise uses the intended cascade `ServerErrorMessage` rather than the as-written one.
- AuthContext.AuthProvider.Restore: runs the corrected startup `Restored`, which ends loading on an unparsable `'user'` entry; the code as written never does (second finding, modelled by `RestoreAsWritten`).
- `getHeaders` tests the token for truthiness, so an empty token sends no Authorization header. The model follows this rather than a "non-null" reading.
- `getProfile`, `getTasks` and `deleteTask` only check `ok`. `getProfile` is not used by any modelled component. The settled results of `getTasks` and `deleteTask` are parameters of `FetchTasks` and `HandleDeleteTask`.
- Timestamps from `new Date().toISOString()` are a `now` string parameter.
- Unicode: `toLowerCase` is ASCII lower-casing, and `trim` removes ASCII whitespace (space, tab, line feed, carriage return, form feed, vertical tab).
- StoredUser.ParseUser reads exactly the text the client itself writes. `JSON.stringify` escaping of control characters is not modelled. Any other `'user'` text, such as reordered keys or extra whitespace, counts as unparsable.
- Logging, the `useAuth` guard, rendering, colours, icons and the card's menu flag are presentation.
- Concurrency is not modelled: each handler runs atomically. React's batching and effect scheduling are not modelled; the re-filter effect is the function `TaskListState.Shown`.
- `getStatusText`'s and `getNextStatus`'s `default` branches cannot be reached with the three-valued enum.
- `src/App.tsx` is not modelled: what the page shows once the startup effect has thrown (React's handling of an error escaping an effect) is outside the model, which states only the context's own state. `src/components/AuthForm.tsx` is not part of this model.

## Findings

| source | as written | input that shows it | evidently intended | confidence | as-written member | corrected member |
|---|---|---|---|---|---|---|
| src/services/api.ts:97-113 (also 162-176) | after `response.json()` fails, `response.text()` is called on a body that has already been consumed, so it fails too and the status line is used | a 400 `Bad Request` whose body is the plain text `Task name is required` yields `HTTP 400: Bad Request` | the raw error text is used when the body is not JSON | high; not executed | Messages.AsWrittenLosesErrorTextExample | Messages.ServerErrorCascade |
| src/contexts/AuthContext.tsx:24-32 | `JSON.parse` of the stored user throws before `setIsLoading(false)`, so `isLoading` is never cleared, and the bad entry stays in storage, so every later start fails the same way | storage `token` = `abc`, `user` = `{` | loading always ends, and an unreadable entry leaves the user signed out | high; not executed | AuthContext.RestoreAsWrittenHangs | AuthContext.Restored |
