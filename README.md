# Task manager: the request pipeline, session, task-list bookkeeping and backend rules

This project models the core of a small task manager. The client is written in React and the server in Django REST framework. The model covers:

- **Client request pipeline.** The token store keeps one access-token slot. `apiFetch` adds a bearer header. On a 401 from any URL except the refresh URL it refreshes the token and calls itself again. Any other failure becomes an error carrying the server's `detail`.
- **Endpoint table and page URLs.** The `API` endpoint table, and the query each task page builds and its redirect rule.
- **Session controller.** `AuthProvider`, with the startup check, login, register-then-login and logout.
- **Task-list bookkeeping.** The shared page template, the task list, the pagination bar and the edit form.
- **Backend rules.** The task status rule, the five-minute title window, the checks of the task actions, registration and login validation, the response dictionary, pagination, logout and cookie-based refresh.

Each source file is one module:

| Module | What it holds |
|---|---|
| `Wrappers` | `Option` and `Result` |
| `Text` | substring search, ASCII case folding, decimal numerals |
| `JsonValues` | JavaScript and JSON values with truthiness and `String(v)` |
| `Endpoints` | the endpoint table |
| `Fetch` | `TokenStore` and a scripted `Network` as classes, with `ApiFetch` |
| `AuthContext` | `AuthProvider` as a class |
| `TasksPageTemplate` | `TasksPage` as a class |
| `TasksList` | the task list |
| `PaginationControls` | the pagination bar |
| `TaskEditForm` | `EditForm` as a class |
| `MyTasksPage`, `SearchResultsPage`, `UserTasksPage` | the three task pages |
| `QueryParams` | `URLSearchParams` |
| `Models` | the database models |
| `Serializers` | the serializers |
| `Utils` | the response dictionary builder |
| `Views` | the views; `TaskTable` is a class |

How the model treats what it cannot execute:

- **Network.** The server is a script of replies that `Network.Send` consumes in order. What was sent is logged.
- **Clock and JWT library.** The clock reading, what the JWT library answers, and Django's `authenticate` are parameters.
- **Async callbacks.** Each handler that awaits a call receives that call's outcome as a parameter.
- **Recursion in `apiFetch`.** `apiFetch` recurses with no bound. The model gives it a `fuel` count, and running out of fuel is an outcome of its own (`OutOfFuel`).

Behaviour of the code worth knowing:

- **Retries.** The retry after a refresh is not capped at one. `Fetch.RetriesAreUnbounded` exhibits `n` rounds.
- **Failed refresh.** A failed refresh leaves the stored token as it was. It does not clear it.
- **Current-user lookup.** `API.USERS.ME` does not exist, so the lookup calls `apiFetch(undefined)`. That is one request to the relative URL "undefined", and a 401 reply makes it throw.
- **Deleting a task.** The server answers a deletion with status 204. The view puts a `detail` into that answer, but `fetch` treats a 204 as a reply without a body, so `response.json()` rejects. The edit form therefore shows an error although the task is gone (`TaskEditForm.DeletionAnswerThrows`).
- **Deletion report.** The task list's delete branch reads `id` of `null` and throws on any non-empty list. The task card drops the list's `onTaskUpdated`, so nothing in these sources calls that branch.
- **Owner check.** `update_status` is missing from the owner-only action list.
- **User filter.** The user page sends `username`, which the server never reads. The list action starts from every task and never applies the `user_id` filter of `get_queryset`, so every user's page lists every user's tasks.
- **Status check.** `update_status` tests the value with Python truthiness, so an empty list or dict is refused as missing, and a non-empty one raises.
- **Login fields.** A missing or blank credential is refused by its declared field before `validate` runs, so the "Must include" error of `validate` is never raised.
- **Disabled accounts.** Django's default authentication backend answers no user for an inactive account, and the settings name no other backend. So "User account is disabled." is never raised either, and an inactive user fails as bad credentials (`Serializers.DisabledAccountUnreachable`).
- **User lookup parameter.** The server reads the last `user_id` of a query, and the lookup converts it as Python's `int()` does, so a sign and surrounding whitespace, non-ASCII whitespace included, are accepted (`Views.PaddedUserIdIsRead`).
- **Registration limits.** The registration serializer declares `password` and `first_name` itself, so it checks neither the model's password minimum nor its first-name maximum. A first name over 30 characters then fails the PostgreSQL insert, which the view does not catch: the answer is a server error (`Serializers.LongFirstNameFailsInsert`).
- **Title length.** `update_title` does not check the title column's 200-character limit. PostgreSQL refuses to save a longer title, and the view does not catch the error, so the answer is a server error.
- **Page size.** The paginated envelope always reports `page_size` 10, whatever page size was asked for.

## Model

| member | source | states |
|---|---|---|
| Text.Includes | frontend/src/api/fetch.js:26 | `includes` is true exactly when the substring occurs at some index |
| Text.IncludesAt | frontend/src/api/fetch.js:26 | an occurrence at a given index is found |
| Text.LowerChar | backend/to_do_list/views.py:276-278 | upper-case ASCII letters map to their lower case, every other character is kept |
| Text.Lower | backend/to_do_list/views.py:276-278 | case folding keeps the length and folds each character |
| Text.NatToString | frontend/src/components/tasks/TasksPageTemplate.jsx:86 | `String(n)` is a non-empty string of digits |
| Text.DecimalRoundTrip | frontend/src/components/tasks/TasksPageTemplate.jsx:74-77 | `Number(String(n)) == n`: a page number written into the URL reads back as itself |
| Text.TrimStart | backend/to_do_list/views.py:212 | exactly the leading characters of the given kind are removed: the rest is a suffix that does not start with one |
| Text.TrimEnd | backend/to_do_list/views.py:212 | exactly the trailing characters of the given kind are removed: the rest is a prefix that does not end with one |
| Text.StripProperties | backend/to_do_list/models.py:8-9 | Python's `strip()`, which DRF applies to the name fields, leaves no whitespace (as `isspace` counts it) at either end, strips whitespace-only text to "", and is idempotent |
| Text.PyInt | backend/to_do_list/views.py:212 | Python's `int()` of the `user_id` text: the whitespace `int` skips (ASCII space and tab to carriage return, and non-ASCII whitespace), an optional sign, then digits |
| Text.PyIntRoundTrip | backend/to_do_list/views.py:212 | `int(str(n)) == n` for every integer, negative ones included |
| Text.PyIntReadsSign | backend/to_do_list/views.py:212 | `int("-1")` is -1 |
| Text.PyIntReadsPlusAndSpaces | backend/to_do_list/views.py:212 | `int(" +2 ")` is 2 |
| Text.PyIntSkipsNoBreakSpace | backend/to_do_list/views.py:212 | `int("\u00a05")` is 5: non-ASCII whitespace is skipped |
| Text.PyIntRefusesUnitSeparator | backend/to_do_list/views.py:212 | `int("\x1f5")` raises: `int` does not skip U+001C to U+001F |
| Text.StripRemovesUnitSeparator | backend/to_do_list/models.py:8-9 | `strip()`, unlike `int()`, removes the separator U+001F |
| Text.PyIntRefusesBlank | backend/to_do_list/views.py:210-212 | `int(" ")` raises, although `" "` passes the `if user_id` test |
| JsonValues.Or | frontend/src/context/AuthContext.jsx:65 | `a \|\| b` is `a` when `a` is truthy and `b` otherwise |
| JsonValues.Prop | frontend/src/api/fetch.js:60 | a property read gives the field's value, or `undefined` when there is none |
| JsonValues.PyTruthy | backend/to_do_list/views.py:348 | `not v` on a decoded value: an empty list or dict is false, unlike in JavaScript |
| Endpoints.Entry | frontend/src/api/endpoints.js:1-30 | every entry of the table is `API_BASE + "/api/"` followed by a path that ends in `/` |
| Endpoints.EntriesAreTheConstants | frontend/src/api/endpoints.js:4-24 | the named endpoints are the entries of the table |
| Endpoints.MeOnlyUnderAuth | frontend/src/api/endpoints.js:12-20 | `ME` exists under `AUTH` only, and `USERS.ME` is undefined |
| Endpoints.TaskBuildersExtendById | frontend/src/api/endpoints.js:22-29 | `BY_ID(id)` is `BASE + id + "/"`, and each action URL is `BY_ID(id)` plus the action name and `/` |
| Endpoints.GetUserExtendsById | frontend/src/api/endpoints.js:18-19 | `GET_USER(id)` is `BY_ID(id) + "get_user/"` |
| Endpoints.RefreshIsExempt | frontend/src/api/endpoints.js:9 | the refresh URL contains `/token/refresh/`, which `apiFetch` exempts from retry |
| Fetch.TokenStore.constructor | frontend/src/api/fetch.js:68-79 | the store starts with the given slot |
| Fetch.TokenStore.Store | frontend/src/api/fetch.js:68-70 | storing writes `String(access)` into the slot, so `undefined` becomes "undefined" |
| Fetch.TokenStore.Clear | frontend/src/api/fetch.js:72-75 | clearing empties the slot |
| Fetch.TokenStore.Read | frontend/src/api/fetch.js:77-79 | reading answers the slot and changes nothing |
| Fetch.TokenStoreRoundTrip | frontend/src/api/fetch.js:68-79 | after a store, a read returns the stored text; after a clear, it returns null |
| Fetch.Network.constructor | frontend/src/api/fetch.js:16 | the network starts with its script and nothing sent |
| Fetch.Network.Send | frontend/src/api/fetch.js:16-23 | a call logs the request and consumes the next scripted reply; an exhausted script means `fetch` rejects |
| Fetch.DefaultHeaders | frontend/src/api/fetch.js:5-13 | JSON content type, with `Authorization: Bearer <token>` exactly when a truthy token is stored |
| Fetch.ErrorFromBody | frontend/src/api/fetch.js:35-38 | a non-ok reply throws an error carrying the body's `detail` or "API request failed"; a JSON `null` body throws a TypeError |
| Fetch.TryRefreshToken | frontend/src/api/fetch.js:48-65 | one credentialed POST to the refresh URL; only an ok JSON reply stores `String(data.access)`; otherwise the slot is unchanged |
| Fetch.ApiFetch | frontend/src/api/fetch.js:4-45 | the result, the token left behind, the requests sent and the replies left are those of `ApiFetchRun` |
| Fetch.BuildRequest | frontend/src/api/fetch.js:5-23 | the request has the default headers with the caller's headers spread over them, and credentials included |
| Fetch.Settle | frontend/src/api/fetch.js:35-40 | a reply that does not trigger a refresh settles as `DirectOutcome` |
| Fetch.DirectOutcome | frontend/src/api/fetch.js:34-40 | a rejected `fetch` throws; a non-ok reply throws the body's `detail`; an ok reply answers its JSON body, and throws when there is none |
| Fetch.ApiFetchRun | frontend/src/api/fetch.js:4-45 | `apiFetch` as a function of the stored token and the replies: one request, then a refresh and the same call on a 401 from a non-refresh URL, otherwise `DirectOutcome` |
| Fetch.RetryRun | frontend/src/api/fetch.js:26-32 | after the 401: a successful refresh is followed by the same call with the new token, a failed one by "Session expired" |
| Fetch.RefreshAndRetry | frontend/src/api/fetch.js:26-32 | after a 401, the refresh is followed either by the same call again or by "Session expired" |
| Fetch.FirstRequestHeaders | frontend/src/api/fetch.js:5-23 | the first request carries the caller's headers over the defaults, and has a bearer header exactly when a token is stored and not overridden |
| Fetch.OkReplyReturnsBody | frontend/src/api/fetch.js:40 | an ok JSON reply returns its body after exactly one request |
| Fetch.NonOkReplyFailsWithDetail | frontend/src/api/fetch.js:35-38 | a non-ok reply other than a retried 401 throws the body's `detail` |
| Fetch.RefreshUrlIsNotRetried | frontend/src/api/fetch.js:26 | a 401 from a URL containing the marker is not retried and fails with the server's detail |
| Fetch.RefreshEndpointIsNotRetried | frontend/src/api/fetch.js:26 | the refresh endpoint itself is never retried |
| Fetch.FailedRefreshExpiresSession | frontend/src/api/fetch.js:27-32 | a 401 followed by a failed refresh throws "Session expired. Please login again." and leaves the token as it was |
| Fetch.FirstRequestIsApiRequest | frontend/src/api/fetch.js:16-23 | the first request sent is always the built request |
| Fetch.RefreshStoresAccess | frontend/src/api/fetch.js:55-61 | an ok refresh stores `String(data.access)` and consumes exactly one reply |
| Fetch.RetryAfterRefresh | frontend/src/api/fetch.js:27-31 | after a successful refresh, the run is the refresh followed by the same call with the new token |
| Fetch.RetryUsesRefreshedToken | frontend/src/api/fetch.js:26-31 | the retried request is the same call carrying the refreshed bearer token |
| Fetch.RetryScript | frontend/src/api/fetch.js:26-31 | the script of `n` rounds of 401 followed by a successful refresh, then an ok reply, has `2n + 1` replies |
| Fetch.RetriesAreUnbounded | frontend/src/api/fetch.js:28-31 | `n` rounds of 401 followed by a successful refresh are all retried: `2n + 1` requests, then success |
| AuthContext.UserLookupIsOneRequest | frontend/src/context/AuthContext.jsx:44-51 | the user lookup sends one request to "undefined" and never refreshes; a network failure, any non-ok reply (a 401 included) or a non-JSON body gives `null`, and an ok JSON reply gives its body |
| AuthContext.SessionRefreshRules | frontend/src/context/AuthContext.jsx:53-81 | only an ok JSON reply answers data; it stores `String(data.access)`; the user is `data.user` when truthy, else built from the top-level fields; otherwise the answer is null and the token is unchanged |
| AuthContext.LoginSucceedsWhateverTheLookup | frontend/src/context/AuthContext.jsx:83-96 | an ok login stores the access token and succeeds whatever the user lookup answers, `null` included |
| AuthContext.FailedLoginReportsError | frontend/src/context/AuthContext.jsx:97-99 | a failed login reports the error `apiFetch` threw; success holds exactly when the call returned a non-null body |
| AuthContext.UserDataRun | frontend/src/context/AuthContext.jsx:44-51 | the lookup is `apiFetch(undefined)`, and any throw answers `null` |
| AuthContext.SessionRefreshRun | frontend/src/context/AuthContext.jsx:53-81 | the credentialed refresh POST; an ok JSON reply stores the access token and answers it with the user |
| AuthContext.LoginRun | frontend/src/context/AuthContext.jsx:83-100 | the login POST, then on success the token is stored and the user looked up |
| AuthContext.AuthProvider.constructor | frontend/src/context/AuthContext.jsx:8-11 | the initial state has no user, is not authenticated, is loading, and shows no modal |
| AuthContext.AuthProvider.SetAuthModalType | frontend/src/context/AuthContext.jsx:11 | only the modal changes |
| AuthContext.AuthProvider.GetUserData | frontend/src/context/AuthContext.jsx:44-51 | the lookup's value and effects are those of `UserDataRun` |
| AuthContext.AuthProvider.TryRefreshSession | frontend/src/context/AuthContext.jsx:53-81 | the refresh's value and effects are those of `SessionRefreshRun` |
| AuthContext.AuthProvider.CheckAuth | frontend/src/context/AuthContext.jsx:15-38 | a truthy lookup authenticates with that user; otherwise a successful refresh authenticates with the refreshed user; otherwise the login modal opens; loading always ends |
| AuthContext.AuthProvider.Login | frontend/src/context/AuthContext.jsx:83-100 | success sets the looked-up user, authenticates and closes the modal; failure changes no session value |
| AuthContext.AuthProvider.OpenSession | frontend/src/context/AuthContext.jsx:90-95 | stores the access token, looks up the user, authenticates and closes the modal |
| AuthContext.AuthProvider.Register | frontend/src/context/AuthContext.jsx:102-117 | login runs, with the registration's username and password, only after registration succeeds; a failed registration changes no session value |
| AuthContext.AuthProvider.Logout | frontend/src/context/AuthContext.jsx:119-143 | one POST with `Bearer <token>` (`Bearer null` when none); then, whatever the reply, the token is cleared, the user is null, the session is not authenticated and the login modal opens |
| TasksPageTemplate.CeilDivBounds | frontend/src/components/tasks/TasksPageTemplate.jsx:96 | `Math.ceil(a / b)` is the least page count that covers `a` items, and is 0 for no items |
| TasksPageTemplate.FallbackCoversItems | frontend/src/components/tasks/TasksPageTemplate.jsx:43-48 | without a server pagination: the requested page, pages of ten, `count` items (or the number of results when `count` is 0), and as few pages as hold them |
| TasksPageTemplate.TasksPage.constructor | frontend/src/components/tasks/TasksPageTemplate.jsx:19-31 | no tasks, loading, no error, pagination `{1, 1, 10, 0}`, and the refs holding the current search and builder |
| TasksPageTemplate.TasksPage.FetchTasks | frontend/src/components/tasks/TasksPageTemplate.jsx:33-56 | a throw sets its message (or the page's message); a reply with results replaces the tasks and takes its pagination or the fallback; a reply without results changes neither; loading ends false |
| TasksPageTemplate.TasksPage.HandlePageChange | frontend/src/components/tasks/TasksPageTemplate.jsx:83-89 | navigates exactly when `1 <= n <= total_pages`, to a query whose `page` is `n` and whose other parameters are unchanged |
| TasksPageTemplate.TasksPage.HandleTaskUpdated | frontend/src/components/tasks/TasksPageTemplate.jsx:91-105 | the tasks become the new list; a shorter list decrements `total_items` by one, recomputes the page count and caps the current page |
| TasksPageTemplate.TasksPage.InitialLoadEffect | frontend/src/components/tasks/TasksPageTemplate.jsx:59-64 | page 1 is fetched once, only when authenticated and not redirected |
| TasksPageTemplate.TasksPage.RouteEffect | frontend/src/components/tasks/TasksPageTemplate.jsx:67-81 | redirects when signed out or when the condition holds; otherwise refetches the URL's page (default 1) only if the search or the builder changed |
| TasksPageTemplate.PageChangeRefetchesThatPage | frontend/src/components/tasks/TasksPageTemplate.jsx:74-87 | the query a page change navigates to makes the route effect fetch exactly that page |
| TasksPageTemplate.DeletionBookkeeping | frontend/src/components/tasks/TasksPageTemplate.jsx:94-103 | after a deletion the page count still covers the items; removing the last item gives 0 pages and current page 0 |
| TasksPageTemplate.ListReportsKeepPagination | frontend/src/components/tasks/TasksList.jsx:16-24 | the list never passes up a shorter list, so the deletion bookkeeping is never reached through it |
| TasksPageTemplate.ControlsStayInRange | frontend/src/components/tasks/PaginationControls.jsx:11-31 | on a page in range, an enabled Previous or Next and every page button request a page the guard accepts; a disabled button's target is one the guard refuses |
| TasksList.ReplaceById | frontend/src/components/tasks/TasksList.jsx:20-22 | the map keeps the length and replaces exactly the elements with the edited id |
| TasksList.EditReplacesById | frontend/src/components/tasks/TasksList.jsx:19-22 | an edit keeps the length and order, replaces the matching task, and leaves the list equal when no id matches |
| TasksList.DeletionThrows | frontend/src/components/tasks/TasksList.jsx:17-18 | a `null` report throws exactly when the list is non-empty |
| TasksList.NeverShrinks | frontend/src/components/tasks/TasksList.jsx:16-24 | whatever is reported, a list that is passed on has the original length |
| TasksList.ShowsEmptyMessage | frontend/src/components/tasks/TasksList.jsx:30-31 | "No tasks found" is shown for an empty list |
| TasksList.ShowsPagination | frontend/src/components/tasks/TasksList.jsx:44 | the bar is shown for a non-empty list with more than one page |
| TasksList.EditKeepsWhatIsShown | frontend/src/components/tasks/TasksList.jsx:30-50 | the bar never appears beside the empty message, and an edit changes neither |
| PaginationControls.PageNumbers | frontend/src/components/tasks/PaginationControls.jsx:4-7 | the loop yields `[1, ..., totalPages]`, which is empty when `totalPages < 1` |
| PaginationControls.PageListIsTheRange | frontend/src/components/tasks/PaginationControls.jsx:4-7 | the list is strictly ascending and holds exactly `1..totalPages` |
| PaginationControls.ExactlyOneActive | frontend/src/components/tasks/PaginationControls.jsx:22 | on a page in range, exactly the current page's button is active |
| TaskEditForm.Diff | frontend/src/components/tasks/TaskEditForm.jsx:27-30 | `updates` holds exactly the fields whose form value differs from the task, each with the form's value |
| TaskEditForm.ComputeUpdates | frontend/src/components/tasks/TaskEditForm.jsx:27-30 | the three conditional assignments build `Diff` |
| TaskEditForm.MergeDiffIsForm | frontend/src/components/tasks/TaskEditForm.jsx:37 | `{...task, ...updates}` is the task as the form shows it, under its own id |
| TaskEditForm.EmptyDiffIffUnchanged | frontend/src/components/tasks/TaskEditForm.jsx:32 | no PATCH is needed exactly when the form still shows the task |
| TaskEditForm.StatusOptions | frontend/src/components/tasks/TaskEditForm.jsx:91-95 | IN_PROGRESS and COMPLETED are always offered; NEW only while the task is NEW |
| TaskEditForm.OptionsMatchStatusRule | frontend/src/components/tasks/TaskEditForm.jsx:91-95 | the options offered for a stored task are exactly the values `update_status` accepts for it |
| TaskEditForm.EditForm.constructor | frontend/src/components/tasks/TaskEditForm.jsx:12-14 | the form starts with the initial data, no error, and not submitting |
| TaskEditForm.EditForm.HandleSubmit | frontend/src/components/tasks/TaskEditForm.jsx:21-45 | a PATCH to `BY_ID(id)` with the diff is sent exactly when the diff is non-empty; success reports the merged task and cancels; failure sets the message (or "Failed to update task") and does not cancel; submitting ends false |
| TaskEditForm.EditForm.HandleDelete | frontend/src/components/tasks/TaskEditForm.jsx:47-56 | a DELETE is sent exactly when confirmed; a failed DELETE sets its message (or "Failed to delete task"); were the `null` report passed to the task list, a DELETE that returns a value would make it throw on a non-empty list, with the TypeError shown |
| TaskEditForm.DeletionAnswerThrows | frontend/src/components/tasks/TaskEditForm.jsx:47-55 | a 204 reply, which `fetch` gives no body, makes the DELETE's `apiFetch` throw after one request, so the form takes its failure branch and `onTaskUpdated(null)` is not reached |
| TaskEditForm.SubmitShowsFormInList | frontend/src/components/tasks/TaskEditForm.jsx:37 | were the form's report passed to the task list, the list would show the form's values at the edited task's place and leave every other task untouched |
| MyTasksPage.StatusFilter | frontend/src/pages/MyTasksPage/MyTasksPage.jsx:9 | the filter is the URL's `status`, or `''` when absent |
| MyTasksPage.Query | frontend/src/pages/MyTasksPage/MyTasksPage.jsx:11-19 | the query is `page`, `page_size=10`, then `status` only when filtering |
| MyTasksPage.Redirects | frontend/src/components/tasks/TasksPageTemplate.jsx:10 | the page gives no redirect condition, so the default `() => false` holds |
| MyTasksPage.RouteNeverRedirectsSignedIn | frontend/src/pages/MyTasksPage/MyTasksPage.jsx:21-26 | the page's route effect redirects exactly when the user is signed out |
| MyTasksPage.BuildEndpoint | frontend/src/pages/MyTasksPage/MyTasksPage.jsx:11-19 | `my_tasks` with `page`, `page_size=10`, then `status` only when filtering, appended in that order |
| MyTasksPage.QueryReadsBack | frontend/src/pages/MyTasksPage/MyTasksPage.jsx:13-17 | the server reads back the page, a page size of 10, and the status exactly when one is set; no `user_id` is sent |
| SearchResultsPage.BuildEndpoint | frontend/src/pages/SearchResultsPage/SearchResultsPage.jsx:11-20 | `search` with `q` (or "null"), `page`, `page_size=10`, then `status` only when filtering |
| SearchResultsPage.QueryReadsBack | frontend/src/pages/SearchResultsPage/SearchResultsPage.jsx:13-18 | the server reads back the term, the page, a page size of 10, and the status exactly when one is set |
| SearchResultsPage.ShownSearchIsAccepted | frontend/src/pages/SearchResultsPage/SearchResultsPage.jsx:22 | when the page does not redirect, the server's search accepts its term and answers the tasks whose titles contain it in any case; a missing term would be sent as "null" and searched |
| SearchResultsPage.Redirects | frontend/src/pages/SearchResultsPage/SearchResultsPage.jsx:22 | the page redirects exactly when `q` is missing or empty |
| SearchResultsPage.Query | frontend/src/pages/SearchResultsPage/SearchResultsPage.jsx:11-20 | the query is `q` (or "null"), `page`, `page_size=10`, then `status` only when filtering |
| UserTasksPage.Redirects | frontend/src/pages/UserTasksPage/UserTaskPage.jsx:22 | the page redirects exactly when the route has no user name |
| UserTasksPage.Query | frontend/src/pages/UserTasksPage/UserTaskPage.jsx:11-20 | the query is `username` (or "undefined"), `page`, `page_size=10`, then `status` only when filtering |
| UserTasksPage.BuildEndpoint | frontend/src/pages/UserTasksPage/UserTaskPage.jsx:11-20 | `tasks/` with `username` (or "undefined"), `page`, `page_size=10`, then `status` only when filtering |
| UserTasksPage.QueryReadsBack | frontend/src/pages/UserTasksPage/UserTaskPage.jsx:13-18 | the server reads back the name, the page and a page size of 10; `user_id` is never sent |
| UserTasksPage.EveryUserSeesAllTasks | backend/to_do_list/views.py:289-295 | the list answers every task, the same whatever `username` the page sends |
| QueryParams.Get | frontend/src/pages/MyTasksPage/MyTasksPage.jsx:9 | `get` answers a value exactly when the key occurs, and it is the value of the first pair with that key |
| QueryParams.GetLast | backend/to_do_list/views.py:210 | `QueryDict.get` answers a value exactly when the key occurs, and it is the value of the last pair with that key |
| QueryParams.GetLastSingle | backend/to_do_list/views.py:210 | for a key that occurs once, the server's read and the client's `get` agree |
| QueryParams.Append | frontend/src/pages/MyTasksPage/MyTasksPage.jsx:13-16 | `append` adds one pair at the end and keeps the rest |
| QueryParams.Without | frontend/src/components/tasks/TasksPageTemplate.jsx:86 | removing a key leaves no pair with that key |
| QueryParams.GetWithout | frontend/src/components/tasks/TasksPageTemplate.jsx:86 | removing a key does not change what any other key reads |
| QueryParams.WithoutAbsent | frontend/src/components/tasks/TasksPageTemplate.jsx:86 | removing a key that is absent changes nothing |
| QueryParams.ReplaceProperties | frontend/src/components/tasks/TasksPageTemplate.jsx:86 | `set` on a present key reads back the new value, keeps other keys and keeps the order of the other pairs |
| QueryParams.GetAppended | frontend/src/pages/MyTasksPage/MyTasksPage.jsx:13-16 | an appended key that was absent reads back its value; other keys are unaffected |
| QueryParams.WithoutAppended | frontend/src/pages/MyTasksPage/MyTasksPage.jsx:13-16 | appending and then removing the same key is the same as removing it |
| QueryParams.SetProperties | frontend/src/components/tasks/TasksPageTemplate.jsx:86 | after `set`, the key reads the new value, every other key reads as before, and the other pairs keep their order |
| Models.ParseStatus | backend/to_do_list/models.py:30-42 | a stored value names a status exactly when it is one of the choices, and that status is stored under that value |
| Models.StatusRoundTrip | backend/to_do_list/models.py:30-42 | every status is stored as one of the choices and reads back as itself |
| Models.ChoicesAreTheThreeCodes | backend/to_do_list/models.py:30-34 | the choices are exactly NEW, IN_PROGRESS and COMPLETED |
| Models.NewTask | backend/to_do_list/models.py:38-61 | a new task starts NEW, may be set to NEW again, and may be renamed until exactly five minutes after its creation |
| Models.EditWindowCloses | backend/to_do_list/models.py:55-57 | the title window is open at creation, closed exactly five minutes later, and never reopens |
| Serializers.PublicUser | backend/to_do_list/serializers.py:7-11 | a user renders as id, username, first_name and last_name with the user's values |
| Serializers.PublicUserShape | backend/to_do_list/serializers.py:10 | the rendered keys are the declared fields; the password and e-mail never appear |
| Serializers.UserUpdateErrors | backend/to_do_list/models.py:8-9 | of a partial update only the submitted names are checked: a first name is refused when it strips to nothing or to more than 30 characters, a last name only when it is longer than 30 |
| Serializers.ApplyUserUpdate | backend/to_do_list/serializers.py:7-11 | a partial update is refused with the field errors, or takes the submitted names, stripped, and ignores the read-only fields |
| Serializers.UpdateKeepsReadOnlyFields | backend/to_do_list/serializers.py:7-11 | a partial update is refused exactly when a submitted first name is blank or a submitted name is over 30 characters once stripped; an accepted one changes only the submitted names, and the id and username are read-only |
| Serializers.UpdateKeepsUserValid | backend/to_do_list/models.py:8-9 | an accepted update keeps a user within the model's name limits |
| Serializers.BlankFirstNameRefused | backend/to_do_list/models.py:8 | an empty or blank first name is refused as blank |
| Serializers.LongNameRefused | backend/to_do_list/models.py:8-9 | a first or last name over 30 characters once stripped is refused as too long |
| Serializers.RegistrationErrors | backend/to_do_list/serializers.py:14-26 | every field is checked: a field is refused exactly when its own check fails |
| Serializers.UsernameError | backend/to_do_list/serializers.py:23-26 | the username must be sent, non-blank, 4 to 100 characters, unique, and then unique ignoring case |
| Serializers.ValidateRegistration | backend/to_do_list/serializers.py:14-26 | `is_valid()` accepts the submitted fields exactly when no field is refused |
| Serializers.Create | backend/to_do_list/serializers.py:28-35 | the insert succeeds exactly when the names fit their columns (username 100, first and last name 30); the user then gets the submitted username, password and first name, last name `''` when absent, and is active |
| Serializers.AcceptedRegistrationInserted | backend/to_do_list/serializers.py:14-35 | an accepted registration is inserted exactly when its first name has at most 30 characters: the serializer does not check that length |
| Serializers.LongFirstNameFailsInsert | backend/to_do_list/serializers.py:16 | a 31-character first name passes the serializer and fails the insert |
| Serializers.RegistrationAccepted | backend/to_do_list/serializers.py:14-35 | registration is accepted exactly when no field is refused; the accepted name matches no existing name in any case |
| Serializers.CaseVariantIsRefused | backend/to_do_list/serializers.py:23-26 | a name equal to an existing one up to case is refused, with the `iexact` error when it is not an exact duplicate |
| Serializers.FirstNameIsRequired | backend/to_do_list/serializers.py:16 | a registration without `first_name` is refused as required |
| Serializers.IgnoringCaseImpliesExact | backend/to_do_list/models.py:10-14 | names unique ignoring case are unique as the column requires |
| Serializers.RegistrationKeepsNamesUnique | backend/to_do_list/serializers.py:23-35 | a registration accepted and inserted keeps the user table unique ignoring case |
| Serializers.ModelLimitsNotChecked | backend/to_do_list/serializers.py:15-17 | a three-character password is accepted: the model's minimum of six is not enforced |
| Serializers.ValidateLogin | backend/to_do_list/serializers.py:42-57 | `validate`: missing credentials, then failed authentication, then a disabled account |
| Serializers.LoginCheckOrder | backend/to_do_list/serializers.py:42-57 | `validate` alone refuses missing credentials, then failed authentication, then a disabled account, in that order; a success adds the active user to the data |
| Serializers.LoginFieldErrors | backend/to_do_list/serializers.py:38-40 | each declared credential field is refused exactly when it is missing or blank |
| Serializers.LoginIsValid | backend/to_do_list/serializers.py:38-57 | `is_valid()`: the field checks, then `validate` on the declared fields only |
| Serializers.MissingCredentialsUnreachable | backend/to_do_list/serializers.py:38-47 | through `is_valid()` a missing or blank credential gets field errors and never the "Must include" error; otherwise the answer is `validate`'s, and a success carries only the two credentials |
| Serializers.DisabledAccountUnreachable | backend/to_do_list/serializers.py:49-55 | when `authenticate` answers no user for an inactive account, as the default backend does, "User account is disabled." is never raised |
| Utils.UserPart | backend/to_do_list/utils.py:4-9 | the response starts with exactly the four user keys |
| Utils.CreateUserResponse | backend/to_do_list/utils.py:3-22 | the dictionary built step by step is `ResponseData` |
| Utils.ResponseCarriesUser | backend/to_do_list/utils.py:4-9 | the user keys are always present; they carry the user's values, with the last name under `second_name`, unless a dictionary overrides them |
| Utils.ResponseMergesDict | backend/to_do_list/utils.py:16-17 | a non-empty dictionary is merged in, and only a truthy `access_token` overrides its `access` |
| Utils.ResponseCarriesTokens | backend/to_do_list/utils.py:13-20 | a refresh token adds `refresh` and `access`; a truthy `access_token` wins for `access` |
| Utils.ResponseKeys | backend/to_do_list/utils.py:3-22 | without a dictionary, the keys are the user keys plus `access` and `refresh` exactly as the arguments provide them |
| Views.StatusChange | backend/to_do_list/views.py:344-369 | the checks of `update_status` in source order |
| Views.StatusChangeRules | backend/to_do_list/views.py:344-369 | `update_status` accepts exactly a choice that is not a return to NEW; it refuses a missing value (an empty list or dict included) first, then an unknown one, then the return to NEW; a non-empty list or dict raises |
| Views.NeverBackToNew | backend/to_do_list/views.py:361-365 | through any run of `update_status` requests, a task that has left NEW never returns to it |
| Views.NewToNewAllowed | backend/to_do_list/views.py:361 | NEW to NEW is allowed |
| Views.TitleChange | backend/to_do_list/views.py:305-333 | the checks of `update_title` in source order, then the save, which fails on a title over 200 characters |
| Views.TitleChangeRules | backend/to_do_list/views.py:305-333 | `update_title` refuses in order (window 403, missing 400, duplicate 400); a title over 200 characters that passes these ends in a server error; an accepted title is non-empty, at most 200 characters, and keeps each owner's titles unique |
| Views.TaskTable.constructor | backend/to_do_list/views.py:188-200 | the table starts with the given rows |
| Views.TaskTable.UpdateStatus | backend/to_do_list/views.py:344-369 | an unknown task gets 404; otherwise the row changes exactly when `StatusChange` accepts, and nothing else changes |
| Views.TaskTable.UpdateTitle | backend/to_do_list/views.py:305-333 | an unknown task gets 404; otherwise the row changes exactly when `TitleChange` accepts, and a refusal or a failed save leaves the table as it was; title uniqueness and the title column's limits are preserved |
| Views.TaskTable.Complete | backend/to_do_list/views.py:297-303 | the status becomes COMPLETED whatever it was; title uniqueness is preserved |
| Views.UpdateField | backend/to_do_list/views.py:72-85 | `update_field` accepts only `email` or `contact_number` with a value and answers the public user |
| Views.UpdateFieldRules | backend/to_do_list/views.py:72-85 | only `email` or `contact_number` with a non-empty value is accepted; a refusal changes nothing; `contact_number` is never stored; the answer shows the public shape |
| Views.Search | backend/to_do_list/views.py:267-287 | a missing or empty `q` is refused with 400; otherwise the answer is a subset of the tasks |
| Views.SearchMatchesIgnoringCase | backend/to_do_list/views.py:276-278 | a task is found exactly when its title contains the term in any case |
| Views.LookupQueryset | backend/to_do_list/views.py:202-214 | the lookup queryset reads the last `user_id`; it keeps every task when that is absent or empty, raises when `int()` refuses it, and otherwise keeps the tasks of that owner |
| Views.LookupNarrowsOnlyByUserId | backend/to_do_list/views.py:209-213 | without `user_id` the lookup queryset holds every task; only `user_id` removes tasks |
| Views.ListTasks | backend/to_do_list/views.py:289-295 | `list` starts from the whole table |
| Views.NoParameterNarrowsList | backend/to_do_list/views.py:289-295 | no query parameter narrows the list: every task is listed for every query |
| Views.UserIdIgnoredByList | backend/to_do_list/views.py:198-214 | a task that the last `user_id` removes from the lookup queryset is still listed |
| Views.PaddedUserIdIsRead | backend/to_do_list/views.py:210-212 | a `user_id` padded with a no-break space filters by the owner `int()` reads |
| Views.SeparatorInUserIdRaises | backend/to_do_list/views.py:210-212 | a `user_id` led by U+001F, which `int()` does not skip, makes the lookup raise |
| Views.LastUserIdDecides | backend/to_do_list/views.py:210-212 | an empty last `user_id` filters nothing whatever came before, and any integer, negative ones included, filters by that owner |
| Views.PermissionsFor | backend/to_do_list/views.py:216-225 | the owner check is added exactly for the listed actions |
| Views.StatusChangeIsNotOwnerChecked | backend/to_do_list/views.py:222-223 | `update_status` is not owner-checked, while `complete` and `update_title` are |
| Views.PaginatedEnvelope | backend/to_do_list/views.py:170-186 | the envelope has `pagination` (six keys, with `page_size` 10) and `results` |
| Views.FallbackEnvelope | backend/to_do_list/views.py:245-255 | an unpaginated answer is page 1 of 1 with no results and the queryset's count |
| Views.EnvelopesAgree | backend/to_do_list/views.py:238-255 | both envelopes have the same keys |
| Views.Logout | backend/to_do_list/views.py:137-168 | once authentication has passed, the view body answers 200 and expires the refresh cookie, whatever blacklisting did |
| Views.LogoutIgnoresBlacklisting | backend/to_do_list/views.py:140-148 | the answer is the same whatever blacklisting did |
| Views.RefreshInput | backend/to_do_list/views.py:21-23 | a refresh cookie replaces the body's `refresh` |
| Views.RefreshReply | backend/to_do_list/views.py:28-43 | the library's answer, with the cookie's user added after a successful refresh |
| Views.RefreshReplyRules | backend/to_do_list/views.py:28-43 | the public user is added exactly after a 200 with `access` through a cookie that names an existing user; otherwise the answer is passed on unchanged |

## Left out

- Network, local storage, timers and rendering are modelled as described above. Percent-encoding and URL resolution against the page origin are not modelled: URLs are kept as built.
- Concurrency between React state updates is not modelled. Each handler runs to completion on the state it reads, and stale closures are not modelled.
- `TasksPageTemplate.TasksPage.RouteEffect`: requires the URL's `page` to be absent, empty or a decimal numeral. `Number()` of other text (NaN, signs, spaces) is not modelled.
- `TasksPageTemplate.TasksPage.HandleTaskUpdated`: requires a positive `page_size`. A zero page size would divide by zero in the client. The server always reports 10 (`Views.PaginatedEnvelope`).
- `TasksPageTemplate.TasksPage.FetchTasks`: requires a positive `page_size` in the server's pagination, for the same reason. The server always reports 10.
- `TaskEditForm.EditForm.HandleSubmit`: `onTaskUpdated` and `onCancel` are taken not to throw. None of the files modelled here renders the edit form, so what its callbacks do is not known from them.
- `TaskEditForm.EditForm.HandleDelete` and `TaskEditForm.SubmitShowsFormInList`: both take the form's `onTaskUpdated` to be the task list's `handleTaskUpdated`. In these sources no report from the form reaches the list: the task card takes only `task` and drops the `onTaskUpdated` the list hands it, and nothing renders the edit form.
- `TaskEditForm.EditForm.HandleDelete`: the DELETE's outcome is a parameter. Against this server it is always a failure (`TaskEditForm.DeletionAnswerThrows`), whose text is the browser's JSON parse error. The error text after a `null` report is the V8 TypeError message.
- The JSON text of request bodies (`JSON.stringify`, including key order) is not modelled. Bodies are kept as values.
- `Fetch.ApiFetch`: the recursion is bounded by `fuel`. Fuel exhaustion ends the run with `OutOfFuel`, which the client code cannot produce.
- The DRF filter backends (the status filter through `filterset_fields`, ordering, the search filter) are not modelled. `TaskSerializer` and `permissions.py` (`IsTaskCreator` itself) are not part of this model.
- The paginator's page arithmetic (`page.number`, `num_pages`, next and previous links) belongs to DRF. These values are parameters of the envelope.
- JWT signing, verification and blacklisting, and Django's `authenticate` and password hashing, are parameters or outcomes.
- The `me`, `get_user`, registration and login views are not part of this model. The serializers and the response builder they use are modelled.
- `Views.TaskTable.UpdateTitle`: the title is taken as text: a non-string JSON title is not modelled.
- `Utils.CreateUserResponse`: `access_token` is taken as its string form, so truthiness is that of a non-empty string. Non-string values are not modelled.
- `Views.UpdateField`: the value is taken as text. Non-string JSON values are not modelled.
- `Serializers.RegistrationErrors`: whitespace trimming and the NUL-character check by DRF's `CharField`, and the e-mail field, are not modelled.
- `Text.Lower`: case folding is ASCII only. Unicode case rules are not modelled.
- Authentication before `LogoutViewSet.create` is not modelled. The view declares no permission of its own, so the default JWT authentication and `IsAuthenticated` apply. With a missing or expired access token the server answers 401 before the view body runs, and the refresh cookie is neither blacklisted nor expired.
- Object lookup by `get_object` is not modelled. The task actions take the row by its key, without the `user_id` filter of `Views.LookupQueryset`.
- `Text.PyInt`: Python's `int()` also reads underscores between digits and non-ASCII digits. `Text.PyInt` refuses both.
- `Views.LookupQueryset`: a `user_id` with underscores between digits or with non-ASCII digits makes the lookup raise, where the server reads it as a number, for the reason given under `Text.PyInt`.
- JSON numbers are integers. Fractions and exponents are not modelled.
- `Serializers.ApplyUserUpdate`: the names are taken as text, and DRF's refusal of text holding a NUL character is not modelled.
- `Serializers.LoginFieldErrors`: whitespace trimming by DRF's `CharField` is not modelled. A credential of spaces only counts as present.
- Test files and the remaining components (task cards, task controls, modals, home page, header) are not part of this model.
