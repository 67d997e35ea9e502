# Todo client: views, session store and routes

A model of the client side of a small todo application: a React single-page app
whose todo list view fetches, adds, edits, toggles and deletes items through a
remote API, whose session store keeps the logged-in user in memory and in the
browser's durable storage, whose shell picks a view by path and session, and
whose login form commits a session or shows an error.

Every network call is an input. A reply is a parameter of the handler that sends
the request, so each handler is one atomic, deterministic step. The re-fetch that
follows a successful change gets a reply parameter of its own.

- `TodoApp` (`todo_app.dfy`) is the todo list view. The pure step functions `Fetch`,
  `Add`, `SubmitEditing` and the rest are the specification. Each returns the new state,
  the requests sent and the toasts shown. Class `TodoView` keeps the same six state
  fields and updates them in place. Each of its methods is proved to match its step
  function.
- `TodoList` (`todo_list.dfy`) covers what the list renders: the status filter, and which
  row shows its edit input.
- `JsString` (`js_string.dfy`) models `String.prototype.trim` and the blank-text test
  `!s.trim()`.
- `AuthContext` (`auth_context.dfy`) is the session store. It holds the `user` slot and a
  `Storage` class for the durable key/value storage. The pure functions `LogIn` and
  `LogOut` specify the methods of the class `AuthProvider`.
- `App` (`app_routes.dfy`) is the route table and what following its redirects gives.
- `Login` (`login.dfy`) is the login form's submit handler.
- `Wrappers` and `Notify` hold the `Option` type and the toast kinds.

`JSON.parse` at `src/AuthContext.js:7` is unguarded, so malformed stored text throws.
The model does not represent stored text (see "## Left out").

## Model

| member | source | states |
|---|---|---|
| `TodoList.Visible` | src/TodoApp.js:174-180 | an item is shown exactly when it is in the list and passes the filter callback; the view never grows the list |
| `TodoList.AllShowsEverything` | src/TodoApp.js:177 | filter `all` renders every fetched item, in its original order |
| `TodoList.VisibleIsSubsequence` | src/TodoApp.js:174-180 | every filter keeps the relative order of the items it shows |
| `TodoList.CompletedIncompleteInterleave` | src/TodoApp.js:178-179 | the list is a merge of the `completed` view and the `incomplete` view, so each item goes to exactly one of them and both keep list order |
| `TodoList.CompletedIncompletePartition` | src/TodoApp.js:178-179 | the two status views together hold each item exactly as many times as the list does, and their lengths add up to the list's |
| `TodoList.VisibleKeepsUniqueIds` | src/TodoApp.js:181-182 | if the fetched ids are distinct, the rendered rows' keys are distinct too |
| `TodoList.AtMostOneEditing` | src/TodoApp.js:183 | with distinct ids at most one row is in edit mode, and exactly one is when `editId` names a rendered row |
| `TodoList.AtMostOneRowEditing` | src/TodoApp.js:174-183 | with distinct item ids, under every filter at most one rendered row is in edit mode |
| `JsString.Trim` | src/TodoApp.js:41 | `trim` returns a contiguous slice of the text. What it removes before and after the slice is whitespace only, and the slice has no whitespace at either end |
| `JsString.BlankIffAllWhitespace` | src/TodoApp.js:41 | `!s.trim()` holds exactly when the text is empty or whitespace only |
| `TodoApp.Fetch` | src/TodoApp.js:28-37 | `fetchTodos` sends one GET. On success the list is replaced wholesale. On failure the list is kept and one error toast is shown. Loading is off afterwards, and no other field changes |
| `TodoApp.Change` | src/TodoApp.js:45-56 | a changing request is sent first. Only the expected status applies the accepted state, shows the success toast and re-fetches. Any other status or a thrown error leaves the state unchanged and shows the matching error toast |
| `TodoApp.Add` | src/TodoApp.js:39-57 | blank input: no request, state unchanged, a warning. Otherwise the untrimmed input is posted. On 201 the input is cleared, the list becomes the re-fetched one, and the requests are the POST then one GET, with the success toast. Any other status or a thrown error sends only the POST, leaves the state unchanged and shows the matching error toast |
| `TodoApp.StartEditing` | src/TodoApp.js:59-62 | row `id` enters edit mode with its text as the draft, replacing any earlier draft, with no request |
| `TodoApp.TypeDraft` | src/TodoApp.js:64 | the edit input replaces the draft and nothing else |
| `TodoApp.TypeInput` | src/TodoApp.js:142 | the add input replaces `input` and nothing else |
| `TodoApp.ChooseFilter` | src/TodoApp.js:150-170 | a filter button changes only the filter and sends no request |
| `TodoApp.SubmitEditing` | src/TodoApp.js:66-84 | a blank draft: no request, state unchanged. Otherwise the draft is put. On 200 it leaves edit mode, clears the draft, and the state becomes the re-fetched one with input and filter kept. The requests are the PUT then one GET, with the success toast. Any other outcome sends only the PUT, keeps the whole state, edit state included, and shows the matching error toast |
| `TodoApp.CancelEditing` | src/TodoApp.js:86-89 | cancelling leaves edit mode and clears the draft, with no request |
| `TodoApp.EditKey` | src/TodoApp.js:189-192 | Enter in the edit input is `submitEdit`, Escape is `cancelEdit`, and any other key does nothing |
| `TodoApp.Toggle` | src/TodoApp.js:91-103 | on 200: PATCH then one GET, the state becomes the re-fetched one, success toast. Otherwise: only the PATCH, state unchanged, the matching error toast |
| `TodoApp.Remove` | src/TodoApp.js:105-117 | no confirmation. On 200: DELETE then one GET, the state becomes the re-fetched one, success toast. Otherwise: only the DELETE, state unchanged, the matching error toast |
| `TodoApp.Handle` | src/TodoApp.js:137-222 | each rendered element calls its handler, and the dispatch is the function's definition. Proved: only the filter buttons change the filter; only the add input and the add form change `input`; typing, filtering, Edit and Cancel send no request |
| `TodoApp.Enabled` | src/TodoApp.js:183-222 | an event can come only from an element on screen. The edit input, Save, Cancel and the key handler belong to the row whose id is `editId`. The text, Edit and Delete belong to rows not in edit mode |
| `TodoApp.HandleOnlyFetchesList` | src/TodoApp.js:28-117 | no handler patches the list locally. After each step the list is the reply to the GET that step sent, when that GET succeeded; otherwise it is the old list |
| `TodoApp.HandleKeepsDraftRule` | src/TodoApp.js:183-200 | every event the rendered view offers keeps the rule that a draft exists only while a row is in edit mode |
| `TodoApp.RunKeepsDraftRule` | src/TodoApp.js:59-89 | any sequence of offered events keeps that rule |
| `TodoApp.RunHoldsLastFetched` | src/TodoApp.js:28-117 | after any sequence of events the list held is the server's last response: the list of the last GET actually sent that succeeded (`LastFetched`), or the starting list when there was none |
| `TodoApp.SwitchingRowsDiscardsDraft` | src/TodoApp.js:59-62 | starting to edit row B while row A has an unsaved draft discards A's draft unsent, and the list is unchanged |
| `TodoApp.TodoView.constructor` | src/TodoApp.js:10-15 | the initial state fields: empty list, empty input, no edited row, empty draft, filter `all`, not loading |
| `TodoApp.TodoView.FetchTodos` | src/TodoApp.js:28-37 | the in-place handler does exactly what `Fetch` specifies |
| `TodoApp.TodoView.AddTodo` | src/TodoApp.js:39-57 | the in-place handler does exactly what `Add` specifies |
| `TodoApp.TodoView.SetInput` | src/TodoApp.js:142 | the in-place setter does exactly what `TypeInput` specifies |
| `TodoApp.TodoView.SetFilter` | src/TodoApp.js:151-165 | the in-place setter does exactly what `ChooseFilter` specifies |
| `TodoApp.TodoView.StartEdit` | src/TodoApp.js:59-62 | the in-place handler does exactly what `StartEditing` specifies |
| `TodoApp.TodoView.HandleEdit` | src/TodoApp.js:64 | the in-place handler does exactly what `TypeDraft` specifies; it is called only from the edit-mode row |
| `TodoApp.TodoView.SubmitEdit` | src/TodoApp.js:66-84 | the in-place handler does exactly what `SubmitEditing` specifies |
| `TodoApp.TodoView.CancelEdit` | src/TodoApp.js:86-89 | the in-place handler does exactly what `CancelEditing` specifies |
| `TodoApp.TodoView.EditKeyDown` | src/TodoApp.js:189-192 | the in-place key handler does exactly what `EditKey` specifies |
| `TodoApp.TodoView.ToggleCompleted` | src/TodoApp.js:91-103 | the in-place handler does exactly what `Toggle` specifies |
| `TodoApp.TodoView.DeleteTodo` | src/TodoApp.js:105-117 | the in-place handler does exactly what `Remove` specifies |
| `AuthContext.Storage.GetItem` | src/AuthContext.js:7 | returns the stored value when the key is present, and null exactly when it is absent |
| `AuthContext.Storage.SetItem` | src/AuthContext.js:12 | stores the value under the key; every other key is unchanged |
| `AuthContext.Storage.RemoveItem` | src/AuthContext.js:17 | removes the key; every other key is unchanged |
| `AuthContext.Restore` | src/AuthContext.js:6-8 | the initial user is the session stored under `'user'`, and null exactly when that key is absent |
| `AuthContext.LogIn` | src/AuthContext.js:10-13 | `login(d)` sets the user to `d` and stores `d` under `'user'`, leaving other keys alone |
| `AuthContext.LogOut` | src/AuthContext.js:15-18 | `logout()` clears the user and removes `'user'`, leaving other keys alone |
| `AuthContext.ReloadAfterLogin` | src/AuthContext.js:7-12 | re-initialising after `login(d)` yields `d` |
| `AuthContext.ReloadAfterLogout` | src/AuthContext.js:7-17 | re-initialising after `logout()` yields no session |
| `AuthContext.ReplayKeepsSync` | src/AuthContext.js:10-18 | after any sequence of login/logout calls, memory equals what a re-initialisation reads: the stored session, or null exactly when the key is absent |
| `AuthContext.ReplayEndsWithLastCall` | src/AuthContext.js:10-18 | after a sequence of calls the user is the one the last call set |
| `AuthContext.ReplayKeepsOtherKeys` | src/AuthContext.js:12-17 | the session store never changes any storage key other than `'user'` |
| `AuthContext.AuthProvider.constructor` | src/AuthContext.js:5-8 | a new provider starts with the session read from storage, so memory and storage agree |
| `AuthContext.AuthProvider.Login` | src/AuthContext.js:10-13 | the in-place `login` does exactly what `LogIn` specifies and keeps memory and storage in agreement |
| `AuthContext.AuthProvider.Logout` | src/AuthContext.js:15-18 | the in-place `logout` does exactly what `LogOut` specifies and keeps memory and storage in agreement |
| `AuthContext.SessionSurvivesReload` | src/AuthContext.js:6-13 | a provider created over the same storage after `login(d)` starts with `d` |
| `AuthContext.LogoutSurvivesReload` | src/AuthContext.js:6-18 | a provider created over the same storage after `logout()` starts with no session |
| `App.Route` | src/App.js:17-21 | `/` shows the todo view iff a session exists, else it redirects to `/login`. `/login` and `/signup` show their view iff no session exists, else they redirect to `/`. Every other path redirects to `/`. Each redirect target is stated exactly. A view is shown only at its own path |
| `App.RedirectsSettle` | src/App.js:17-21 | following redirects from any path reaches a view within two hops: the todo view with a session; without one, signup at `/signup` and login from everywhere else |
| `App.UnknownPathNeedsTwoHops` | src/App.js:17-21 | the two-hop bound is needed: an unknown path with no session still redirects after one hop |
| `App.ProtectedViewNeedsSession` | src/App.js:17 | however many redirects are followed, the todo view is never reached without a session |
| `Login.FailureMessage` | src/Login.js:22 | the failure toast is the response's `error` when it is a non-empty string, else `'Login failed'`; it is never empty |
| `Login.LoginForm.constructor` | src/Login.js:9-10 | both fields start empty |
| `Login.LoginForm.SetUsername` | src/Login.js:34 | the username input replaces the username only |
| `Login.LoginForm.SetPassword` | src/Login.js:41 | the password input replaces the password only |
| `Login.LoginForm.HandleSubmit` | src/Login.js:14-24 | posts the fields as they are, with no content check. On success it commits exactly `{token, username}` from the response, shows the success toast and navigates to `/`, where the todo view renders. On failure it commits nothing and shows the fallback-chosen message. The fields are never changed |

## Left out

- HTTP plumbing is not modelled: the axios instance, the base URL, the Bearer header (`src/TodoApp.js:19-22`) and request serialisation. Requests are recorded as values, and replies are inputs.
- Status checking by the HTTP client is not modelled. The HTTP client throws on non-2xx statuses, but the model lets any status be given. The non-201/non-200 branches are therefore modelled for every status, as the code writes them.
- Async interleaving is not modelled. The re-fetch after a change is not awaited (`src/TodoApp.js:49, 76, 95, 109`), and overlapping requests may resolve out of order. Each handler is one atomic step, so `loading` is true only inside a step.
- The backend version fetch is not modelled (`src/TodoApp.js:119-123` and `src/VersionDisplay.js`). It is a single GET with a placeholder on failure.
- Rendering is not modelled: JSX, styles, disabled filter buttons, the "Logged in as" header, the logout button's wiring and the `createdAt` display (`src/TodoApp.js:214`). The display depends on dates and locale, so `Todo` carries no `createdAt`.
- Toasts are recorded as output values (kind and message) and are not displayed.
- JSON serialisation is not modelled. Storage holds session values, not text. The throw on malformed stored text (`src/AuthContext.js:7`) and the `|| null` mapping of falsy parsed values are therefore not modelled.
- Other writers of durable storage (other tabs, the user) are not modelled.
- The Signup component is not part of this model; it appears only as a view tag.
- The button that navigates from the login form to `/signup` (`src/Login.js:48`) is not modelled.
- Router matching is not modelled beyond exact paths with a `*` fallback. The router's case-insensitive matching and trailing-slash handling are left out.
- `Login.LoginForm.HandleSubmit` does not model a 2xx reply whose body lacks the fields. With an empty body, `res.data` is `''`, so `token` and `username` are `undefined` and nothing throws. The handler then commits a session with undefined fields, shows the success toast and navigates to `/`; `LoginReply.Accepted` cannot represent those undefined fields. Only a body that parses to `null` throws at `src/Login.js:18`, and that throw falls back to `'Login failed'`. An `error` field that is not a string is not modelled either.
- `AuthContext.AuthProvider.constructor` does not model `localStorage.getItem` throwing, for example when site storage is blocked. In that case the initialiser at `src/AuthContext.js:7` fails.
- `AuthContext.AuthProvider.Login` does not model `setItem` throwing, for example when storage is full. By then `src/AuthContext.js:11` has already set `user`, so memory and storage would disagree, and the `InSync` invariant would not hold.
- `Login.LoginForm.HandleSubmit` does not model that same `setItem` throw. It would reach the catch at `src/Login.js:21-22` and show `'Login failed'` while the session is live in memory.
- `TodoList.AtMostOneEditing` and `TodoList.AtMostOneRowEditing` assume distinct item ids, which the server assigns. With duplicate ids, every row sharing the edited id would render in edit mode.
- `TodoApp.TodoView.HandleEdit` requires a row to be in edit mode, because its input exists only on that row (`src/TodoApp.js:183-188`).
- `TodoApp.HandleKeepsDraftRule` covers only events from elements on screen (`Enabled`), which is what the rendered view offers.
