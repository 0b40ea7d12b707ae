# EstadisticaPudahuel core, modelled in Dafny

The project models the statistics platform's client stores and server endpoints. Users
upload Excel workbooks as statistics, compose dashboards of chart widgets, and generate
reports. The model covers these parts:

- **Client stores.** There are four Redux slices: statistics, reports, dashboard and auth.
  Each store is a class with a `loading` flag, an `error` message and an ordered `seq` of
  records. The pending, fulfilled and rejected cases of the async operations are methods.
  A server reply is an input to the case that handles it. The dashboard store also keeps
  the `currentConfiguration` selection. The auth store also keeps the browser's persisted
  `"token"` entry (`storedToken`).
- **HTTP client** (`api.ts`). The request interceptor attaches a bearer token. The
  response interceptor reacts to 401. `handleError` classifies failures, and the service
  wrappers use it.
- **Dashboard widget.** The effect resolves `statisticId` against the statistics store.
  The model also covers the chart's data projection and the order in which the component
  decides what to show.
- **Server endpoints.** These are dashboard configurations, reports, users and
  statistics, each over an in-memory table: a class with a `seq` of rows and the next id
  to assign. Every table keeps ids unique. The dashboard table also keeps at most one
  default configuration per user, and the users table keeps e-mails unique. The acting
  user is a parameter. Background generation jobs are an appended `seq<Job>`, and
  generated files are a set of paths.

Shared pieces:

- `Collections` holds the generic key-indexed operations that every store and table
  uses: `findIndex`, overwrite by index, `push`, `filter`, and a query's `.first()`. Each
  one has a specification function, and `FindIndex` is the loop proved against it.
- `Thunk` holds the rejected-case error rule, `message || default`.
- `Http` holds request outcomes and the `skip`/`limit` window.

A delete filters the list, so the elements after the deleted one move up one index and
keep their relative order; `Collections.RemoveUniqueAt` and `Collections.RemoveAllConcat`
state this.

## Model

| member | source | states |
|---|---|---|
| Collections.FirstIndex | frontend/src/store/slices/statisticsSlice.ts:85 | -1 exactly when no element has the id; otherwise the position of the first element with it |
| Collections.FindIndex | frontend/src/store/slices/statisticsSlice.ts:85 | the search loop returns exactly the first position with the id, or -1 |
| Collections.ReplaceFirst | frontend/src/store/slices/statisticsSlice.ts:116-119 | length is kept; the first element with the id becomes the payload and every other position is unchanged; with no match nothing changes |
| Collections.Upsert | frontend/src/store/slices/statisticsSlice.ts:85-90 | overwrite the first match when the id is present, else append; length grows by at most one and the id is present afterwards |
| Collections.RemoveAll | frontend/src/store/slices/statisticsSlice.ts:132 | no element with the id remains; every survivor comes from the input; every element with another id survives |
| Collections.KeepAll | backend/app/api/v1/endpoints/dashboard.py:20-22 | exactly the elements whose key is the given one, each from the input |
| Collections.RemoveAllConcat | frontend/src/store/slices/statisticsSlice.ts:132 | filtering distributes over concatenation, so the survivors keep their relative order |
| Collections.RemoveAbsent | frontend/src/store/slices/statisticsSlice.ts:132 | deleting an id that is not present leaves the collection unchanged |
| Collections.RemoveAllIdempotent | frontend/src/store/slices/statisticsSlice.ts:130-133 | deleting the same id twice is the same as deleting it once |
| Collections.RemoveUniqueAt | frontend/src/store/slices/statisticsSlice.ts:132 | with unique ids, the filter removes exactly the one position holding the id and shifts the later ones down |
| Collections.ReplaceFirstKeepsKeysUnique | frontend/src/store/slices/statisticsSlice.ts:114-120 | an update keeps ids unique |
| Collections.UpsertKeepsKeysUnique | frontend/src/store/slices/statisticsSlice.ts:83-91 | fetch-by-id keeps ids unique, and afterwards the only element with the payload's id is the payload |
| Collections.AppendKeepsKeysUnique | frontend/src/store/slices/statisticsSlice.ts:101-104 | appending keeps ids unique exactly when the appended id is new |
| Collections.RemoveAllKeepsKeysUnique | frontend/src/store/slices/statisticsSlice.ts:130-133 | a delete keeps the remaining ids unique |
| Thunk.RejectionMessage | frontend/src/store/slices/statisticsSlice.ts:76 | the thrown message when present and non-empty, otherwise the operation's default; never empty when the default is not |
| StatisticsSlice.DefaultError | frontend/src/store/slices/statisticsSlice.ts:74-137 | every rejected case has a non-empty Spanish default |
| StatisticsSlice.StatisticsStore.constructor | frontend/src/store/slices/statisticsSlice.ts:5-9 | empty list, not loading, no error |
| StatisticsSlice.StatisticsStore.ClearError | frontend/src/store/slices/statisticsSlice.ts:55-57 | only the error is cleared |
| StatisticsSlice.StatisticsStore.ResetState | frontend/src/store/slices/statisticsSlice.ts:58-61 | empties the list and clears the error; `loading` is untouched |
| StatisticsSlice.StatisticsStore.Pending | frontend/src/store/slices/statisticsSlice.ts:66-69 | loading, no error, list unchanged |
| StatisticsSlice.StatisticsStore.FetchStatisticsFulfilled | frontend/src/store/slices/statisticsSlice.ts:70-73 | the list is exactly the payload, in payload order; loading ends |
| StatisticsSlice.StatisticsStore.FetchStatisticByIdFulfilled | frontend/src/store/slices/statisticsSlice.ts:83-91 | the list becomes the upsert of the payload |
| StatisticsSlice.StatisticsStore.CreateStatisticFulfilled | frontend/src/store/slices/statisticsSlice.ts:101-104 | the payload is appended at the end and the earlier elements are unchanged |
| StatisticsSlice.StatisticsStore.UpdateStatisticFulfilled | frontend/src/store/slices/statisticsSlice.ts:114-120 | the first element with the payload's id is replaced; no match, no change |
| StatisticsSlice.StatisticsStore.DeleteStatisticFulfilled | frontend/src/store/slices/statisticsSlice.ts:130-133 | every element with the id is removed, order otherwise kept |
| StatisticsSlice.StatisticsStore.Rejected | frontend/src/store/slices/statisticsSlice.ts:74-77 | loading ends; the error is the thrown message or the operation's default; the list is untouched |
| ReportsSlice.DefaultError | frontend/src/store/slices/reportsSlice.ts:82-158 | every rejected case has a non-empty Spanish default |
| ReportsSlice.ReportsStore.constructor | frontend/src/store/slices/reportsSlice.ts:5-9 | empty list, not loading, no error |
| ReportsSlice.ReportsStore.ClearError | frontend/src/store/slices/reportsSlice.ts:63-65 | only the error is cleared |
| ReportsSlice.ReportsStore.ResetState | frontend/src/store/slices/reportsSlice.ts:66-69 | empties the list and clears the error; `loading` is untouched |
| ReportsSlice.ReportsStore.Pending | frontend/src/store/slices/reportsSlice.ts:74-77 | loading, no error, list unchanged |
| ReportsSlice.ReportsStore.FetchReportsFulfilled | frontend/src/store/slices/reportsSlice.ts:78-81 | the list is exactly the payload; loading ends |
| ReportsSlice.ReportsStore.FetchReportByIdFulfilled | frontend/src/store/slices/reportsSlice.ts:91-99 | the list becomes the upsert of the payload |
| ReportsSlice.ReportsStore.CreateReportFulfilled | frontend/src/store/slices/reportsSlice.ts:109-112 | exactly one element is appended at the end |
| ReportsSlice.ReportsStore.UpdateReportFulfilled | frontend/src/store/slices/reportsSlice.ts:122-128 | the first id match is replaced in place; absent id, no change |
| ReportsSlice.ReportsStore.DeleteReportFulfilled | frontend/src/store/slices/reportsSlice.ts:138-141 | every element with the id is filtered out, order otherwise kept |
| ReportsSlice.ReportsStore.GenerateReportFulfilled | frontend/src/store/slices/reportsSlice.ts:151-154 | the generated report is appended |
| ReportsSlice.ReportsStore.Rejected | frontend/src/store/slices/reportsSlice.ts:155-158 | loading ends; a non-empty error is set; the list is untouched |
| ReportsSlice.GenerateTwice | frontend/src/store/slices/reportsSlice.ts:147-154 | two successful generations add two reports, in call order |
| DashboardSlice.DefaultError | frontend/src/store/slices/dashboardSlice.ts:87-177 | every rejected case has a non-empty Spanish default |
| DashboardSlice.DashboardStore.constructor | frontend/src/store/slices/dashboardSlice.ts:5-10 | empty list, no selection, not loading, no error |
| DashboardSlice.DashboardStore.ClearError | frontend/src/store/slices/dashboardSlice.ts:64-66 | only the error is cleared |
| DashboardSlice.DashboardStore.SetCurrentConfig | frontend/src/store/slices/dashboardSlice.ts:67-69 | the selection becomes the payload, possibly none; nothing else moves |
| DashboardSlice.DashboardStore.ResetState | frontend/src/store/slices/dashboardSlice.ts:70-74 | empties the list, clears selection and error; `loading` is untouched |
| DashboardSlice.DashboardStore.Pending | frontend/src/store/slices/dashboardSlice.ts:79-82 | loading, no error, list and selection unchanged |
| DashboardSlice.DashboardStore.FetchConfigsFulfilled | frontend/src/store/slices/dashboardSlice.ts:83-86 | the list is the payload; the selection is not touched |
| DashboardSlice.DashboardStore.FetchConfigByIdFulfilled | frontend/src/store/slices/dashboardSlice.ts:96-105 | upsert by id, and the payload becomes the selection |
| DashboardSlice.DashboardStore.CreateConfigFulfilled | frontend/src/store/slices/dashboardSlice.ts:115-119 | the payload is appended and selected |
| DashboardSlice.DashboardStore.ReplaceFulfilled | frontend/src/store/slices/dashboardSlice.ts:129-138 | the first id match is replaced; the selection is refreshed exactly when it has the payload's id |
| DashboardSlice.DashboardStore.UpdateConfigFulfilled | frontend/src/store/slices/dashboardSlice.ts:129-138 | the first id match is replaced; the selection is refreshed exactly when it has the payload's id |
| DashboardSlice.DashboardStore.SetDefaultConfigFulfilled | frontend/src/store/slices/dashboardSlice.ts:164-173 | only the returned entry is replaced, so the other entries keep their `isDefault` flags |
| DashboardSlice.DashboardStore.DeleteConfigFulfilled | frontend/src/store/slices/dashboardSlice.ts:148-154 | every entry with the id is removed; the selection is cleared exactly when it has that id |
| DashboardSlice.DashboardStore.Rejected | frontend/src/store/slices/dashboardSlice.ts:155-158 | loading ends and an error is set; list and selection are untouched |
| DashboardSlice.SetDefaultKeepsStaleDefault | frontend/src/store/slices/dashboardSlice.ts:164-173 | after a set-default the store can hold two entries flagged as default |
| AuthSlice.DefaultError | frontend/src/store/slices/authSlice.ts:70-105 | every rejected case has a non-empty Spanish default |
| AuthSlice.AuthStore.constructor | frontend/src/store/slices/authSlice.ts:5-10 | no user, not loading, no error; the token is the persisted one |
| AuthSlice.AuthStore.ClearError | frontend/src/store/slices/authSlice.ts:49-51 | only the error is cleared; state token and stored token stay in step |
| AuthSlice.AuthStore.ResetState | frontend/src/store/slices/authSlice.ts:52-56 | clears user, token and error but not storage; the two tokens agree afterwards exactly when nothing was stored |
| AuthSlice.AuthStore.Pending | frontend/src/store/slices/authSlice.ts:61-64 | loading, no error; session and storage unchanged |
| AuthSlice.AuthStore.SessionFulfilled | frontend/src/store/slices/authSlice.ts:12-18 | the reply's token is stored, then user and token come from the reply, so the two tokens agree |
| AuthSlice.AuthStore.LoginFulfilled | frontend/src/store/slices/authSlice.ts:65-69 | a successful login stores the token and sets user and token; the two tokens agree |
| AuthSlice.AuthStore.RegisterFulfilled | frontend/src/store/slices/authSlice.ts:79-83 | a successful registration stores the token and sets user and token; the two tokens agree |
| AuthSlice.AuthStore.LogoutFulfilled | frontend/src/store/slices/authSlice.ts:88-93 | clears user, token and error; storage untouched |
| AuthSlice.AuthStore.Logout | frontend/src/store/slices/authSlice.ts:30-35 | the stored token is removed with no network call, then the session is cleared; the two tokens agree |
| AuthSlice.AuthStore.GetCurrentUserFulfilled | frontend/src/store/slices/authSlice.ts:99-102 | only the user is replaced; the token is unchanged |
| AuthSlice.AuthStore.Rejected | frontend/src/store/slices/authSlice.ts:103-109 | sets the error; a failed current-user lookup clears user, token and storage, while a failed login or registration changes neither session nor storage |
| AuthSlice.AuthStore.Dispatch | frontend/src/store/slices/authSlice.ts:45-111 | an action type the reducer does not handle leaves the state unchanged; `auth/logout/fulfilled` clears the session |
| ApiClient.WithBearer | frontend/src/services/api.ts:23-26 | `Authorization` is `Bearer <token>` iff the token is truthy and headers exist; every other header is kept |
| ApiClient.OnRequest | frontend/src/services/api.ts:21-28 | the config's headers are edited in place by that rule, the URL is kept, and the same config is returned |
| ApiClient.OnResponse | frontend/src/services/api.ts:36-38 | a successful reply is passed on unchanged |
| ApiClient.OnResponseError | frontend/src/services/api.ts:39-45 | on 401 the bare `auth/logout` type is dispatched once and the same error is rejected; the session is left as it was |
| ApiClient.LogoutIsUnhandled | frontend/src/services/api.ts:42 | the type dispatched on 401 is not one the auth reducer handles |
| ApiClient.UnauthorizedKeepsCredentials | frontend/src/services/api.ts:39-45 | as written, the request after a 401 still carries the rejected token |
| ApiClient.OnResponseErrorEndingSession | frontend/src/services/api.ts:40-42 | a 401 clears the session in state and storage; other failures leave it alone |
| ApiClient.UnauthorizedThenRequest | frontend/src/services/api.ts:21-45 | after a 401 handled as intended, the next request is sent without credentials |
| ApiClient.LoginThenRequest | frontend/src/services/api.ts:21-28 | after a login, the next request carries `Bearer <new token>` |
| ApiClient.HandleError | frontend/src/services/api.ts:49-61 | three exclusive branches: the server's message or the generic text, the connection text, the generic text; never empty; the connection text is only produced without a reply, unless the server sent that exact message |
| ApiClient.ServiceCall | frontend/src/services/api.ts:80-158 | success yields the reply data (for the delete wrapper, whose data is `()`, no value); every failure yields `handleError`'s message |
| ApiClient.AuthServiceCall | frontend/src/services/api.ts:64-77 | success yields the reply data; a failure is the raw error, unclassified |
| DashboardWidget.Labels | frontend/src/components/DashboardWidget.tsx:77 | labels are the points' labels, same length and order |
| DashboardWidget.Values | frontend/src/components/DashboardWidget.tsx:81 | values are the points' values, same length and order |
| DashboardWidget.ChartDataOf | frontend/src/components/DashboardWidget.tsx:76-86 | labels and values project the statistic's data point-wise; the dataset is named after the statistic |
| DashboardWidget.ChartKindOf | frontend/src/components/DashboardWidget.tsx:105-109 | a line chart iff the type is `line`, else a bar chart |
| DashboardWidget.WidgetState.constructor | frontend/src/components/DashboardWidget.tsx:39-41 | loading, no statistic, no error |
| DashboardWidget.WidgetState.Resolve | frontend/src/components/DashboardWidget.tsx:45-54 | the first statistic with the id is kept, else the not-found error is set; loading ends; an error once set stays set |
| DashboardWidget.WidgetState.Render | frontend/src/components/DashboardWidget.tsx:56-109 | spinner iff loading; then a non-empty error; a chart is shown only for a found statistic, with its kind and projected data |
| DashboardWidget.NotFoundIsSticky | frontend/src/components/DashboardWidget.tsx:46-70 | once not found, the widget shows the error even after the statistic arrives |
| Http.Page | backend/app/api/v1/endpoints/users.py:22 | the `offset(skip).limit(limit)` window: its length, and element i is row skip + i |
| Http.DefaultWindow | backend/app/api/v1/endpoints/users.py:16-22 | with the default `skip=0, limit=100` a listing returns the first hundred rows, or all of them when fewer |
| DashboardEndpoints.DemoteAll | backend/app/api/v1/endpoints/dashboard.py:41-43 | every row is the demoted row at the same position, so length is kept |
| DashboardEndpoints.DemoteAllSettlesDefaults | backend/app/api/v1/endpoints/dashboard.py:35-43 | after the demotion the user's only possible default is the kept one; other users' rows, ids and owners are unchanged; at most one default per user still holds |
| DashboardEndpoints.ReplaceKeepsConsistent | backend/app/api/v1/endpoints/dashboard.py:127-132 | overwriting with the same id and owner, where no other default of the owner remains, keeps ids unique and one default per user |
| DashboardEndpoints.RemoveKeepsConsistent | backend/app/api/v1/endpoints/dashboard.py:165-167 | deleting a row keeps the table consistent |
| DashboardEndpoints.Patched | backend/app/api/v1/endpoints/dashboard.py:131-132 | exactly the fields the request set change; id and owner never do |
| DashboardEndpoints.DashboardTable.ReadConfigs | backend/app/api/v1/endpoints/dashboard.py:20-23 | exactly the current user's configurations |
| DashboardEndpoints.DashboardTable.ReadDefault | backend/app/api/v1/endpoints/dashboard.py:65-74 | a default of the user, or 404 exactly when the user has none |
| DashboardEndpoints.DashboardTable.ReadConfig | backend/app/api/v1/endpoints/dashboard.py:86-95 | the user's configuration with that id; 404 exactly when it is absent or foreign |
| DashboardEndpoints.DashboardTable.DemoteDefaults | backend/app/api/v1/endpoints/dashboard.py:41-43 | the loop clears `is_default` on the user's defaults other than the kept one and touches nothing else |
| DashboardEndpoints.DashboardTable.Create | backend/app/api/v1/endpoints/dashboard.py:35-55 | a new default first demotes the user's defaults; a non-default leaves every row unchanged; ids unique and one default per user are kept |
| DashboardEndpoints.DashboardTable.Update | backend/app/api/v1/endpoints/dashboard.py:108-137 | 404 with no change for an absent or foreign id; otherwise the patch is applied after demoting the other defaults when it sets `is_default` true |
| DashboardEndpoints.DashboardTable.Delete | backend/app/api/v1/endpoints/dashboard.py:149-167 | 404 for an absent or foreign id, 400 with the row kept for the default, otherwise exactly that row is removed |
| ReportsEndpoints.JobsFor | backend/app/api/v1/endpoints/reports.py:50-53 | one Excel or PDF job by type, none for a dashboard report |
| ReportsEndpoints.Patched | backend/app/api/v1/endpoints/reports.py:107-108 | exactly the fields the request set change; id, owner, file and statistics never do |
| ReportsEndpoints.Updated | backend/app/api/v1/endpoints/reports.py:102-108 | the file path is cleared iff the type changes |
| ReportsEndpoints.WithoutFile | backend/app/api/v1/endpoints/reports.py:103-104 | a truthy path is removed from disk; otherwise the disk is unchanged |
| ReportsEndpoints.RegenerationJobs | backend/app/api/v1/endpoints/reports.py:115-119 | regeneration is requested iff the report has no file, with the job chosen by type |
| ReportsEndpoints.TypeChangeRegenerates | backend/app/api/v1/endpoints/reports.py:102-119 | a type change always requests one job, unless the new type is a dashboard report |
| ReportsEndpoints.ReplaceKeepsConsistent | backend/app/api/v1/endpoints/reports.py:107-112 | overwriting a row with one of the same id keeps ids unique |
| ReportsEndpoints.ReportsTable.ReadReports | backend/app/api/v1/endpoints/reports.py:25 | the `skip`/`limit` window over the current user's reports only |
| ReportsEndpoints.ReportsTable.ReadReport | backend/app/api/v1/endpoints/reports.py:67-76 | the user's report with that id; 404 exactly when it is absent or foreign |
| ReportsEndpoints.ReportsTable.Create | backend/app/api/v1/endpoints/reports.py:38-55 | the report is stored for the user with no file, and its jobs are queued by type |
| ReportsEndpoints.ReportsTable.Update | backend/app/api/v1/endpoints/reports.py:89-121 | 404 with no change; otherwise a type change removes the file, the patch is applied, and regeneration is queued iff no file is left |
| ReportsEndpoints.ReportsTable.Delete | backend/app/api/v1/endpoints/reports.py:133-149 | 404 with no change; otherwise the row and its file are removed |
| ReportsEndpoints.ReportsTable.AddStatistic | backend/app/api/v1/endpoints/reports.py:162-188 | 404 for the report, then 404 for the statistic; otherwise the statistic is appended and regeneration is queued by type |
| UsersEndpoints.Patched | backend/app/api/v1/endpoints/users.py:71-76 | exactly the fields the request set change; a supplied password is stored as its hash |
| UsersEndpoints.ReplaceKeepsConsistent | backend/app/api/v1/endpoints/users.py:75-79 | an update with the same id and an e-mail no other user has keeps ids and e-mails unique |
| UsersEndpoints.RemoveKeepsConsistent | backend/app/api/v1/endpoints/users.py:105-106 | deleting a user keeps ids and e-mails unique |
| UsersEndpoints.UsersTable.ReadUsers | backend/app/api/v1/endpoints/users.py:22 | the `skip`/`limit` window over all users |
| UsersEndpoints.UsersTable.Create | backend/app/api/v1/endpoints/users.py:35-51 | 400 with nothing added for a taken e-mail; otherwise an active user storing the password's hash is appended; e-mails stay unique |
| UsersEndpoints.UsersTable.Update | backend/app/api/v1/endpoints/users.py:64-81 | 404 with no change for an unknown id; otherwise the patch is applied, or refused with no change when the new e-mail belongs to another user |
| UsersEndpoints.UsersTable.Delete | backend/app/api/v1/endpoints/users.py:93-107 | 404 for an unknown id, 400 with the user kept for oneself, otherwise exactly that user is removed |
| StatisticsEndpoints.ExcelNamesAccepted | backend/app/api/v1/endpoints/statistics.py:40 | every name ending in `.xls` or `.xlsx` passes the guard |
| StatisticsEndpoints.GuardIsCaseSensitiveSuffixTest | backend/app/api/v1/endpoints/statistics.py:40-44 | upper-case extensions, other extensions and a bare `xlsx` are refused; a name that is only `.xls` passes |
| StatisticsEndpoints.FromSheet | backend/app/api/v1/endpoints/statistics.py:50-60 | the stored row carries the form fields, the sheet's records, the file name, and the sheet's columns and row count as metadata |
| StatisticsEndpoints.Patched | backend/app/api/v1/endpoints/statistics.py:107-109 | exactly the fields the request set change; id and source file never do |
| StatisticsEndpoints.ReplaceKeepsConsistent | backend/app/api/v1/endpoints/statistics.py:107-113 | overwriting a row with one of the same id keeps ids unique |
| StatisticsEndpoints.RemoveKeepsConsistent | backend/app/api/v1/endpoints/statistics.py:133-134 | deleting a row keeps ids unique |
| StatisticsEndpoints.StatisticsTable.ReadStatistics | backend/app/api/v1/endpoints/statistics.py:24 | the `skip`/`limit` window over all statistics, whoever owns them |
| StatisticsEndpoints.StatisticsTable.ReadStatistic | backend/app/api/v1/endpoints/statistics.py:81-87 | the statistic with that id; 404 exactly when it is absent |
| StatisticsEndpoints.StatisticsTable.Upload | backend/app/api/v1/endpoints/statistics.py:40-69 | a name failing the guard gets 400 before the workbook is read; a read or store failure gets 400 with the message appended; otherwise one row is appended |
| StatisticsEndpoints.StatisticsTable.Update | backend/app/api/v1/endpoints/statistics.py:100-114 | 404 with no change; otherwise the patch is applied in place |
| StatisticsEndpoints.StatisticsTable.Delete | backend/app/api/v1/endpoints/statistics.py:126-135 | 404 with no change; otherwise exactly that statistic is removed |

## Left out

- Async thunk bodies, axios transport, base URL and timeout: each server reply or failure is an input to the reducer case or interceptor that handles it.
- Overlapping in-flight requests and the order in which they complete: that is concurrency.
- Pages, layout, routing, the route guard, hooks and the development mock server: they are UI and glue, not store or endpoint logic.
- The Celery worker, Excel and PDF writers and templating: a queued generation job is an appended `Job`, and generated files are a set of paths.
- pandas workbook parsing in the upload: its outcome (a sheet, or an exception message) is a parameter of `StatisticsEndpoints.StatisticsTable.Upload`.
- SQLAlchemy sessions, the authentication dependencies and password hashing: the acting user is a parameter, hashing is the table's uninterpreted `hash` function, and a commit is the reassignment of the row sequence.
- backend/app/schemas/auth.py is not part of this model. The user create and update fields follow the `User` table in backend/app/models/user.py.
- UsersEndpoints.UsersTable.Update: changing an e-mail to one another user has is refused by the unique index on `users.email` when the change is committed. The model returns 500 with the table unchanged; the exact error body is not modelled.
- Explicit `null` in an update: the report and statistic patches allow it for their nullable columns (`description`, `parameters`, `metadata`); the other patch fields do not admit it.
- DashboardEndpoints.DashboardTable.Update: an explicit `"is_default": null` is kept by `exclude_unset` and stored as NULL in the nullable `is_default` column; the patch type cannot express it, so that update is not modelled.
- UsersEndpoints.UsersTable.Update: an explicit `null` for the nullable `role` or `is_active` columns is not modelled either.
- Negative `skip` or `limit`: these are `nat` in the model.
- ReportsEndpoints.ReportsTable.AddStatistic: appending a statistic already linked to the report is modelled as a second entry in the list. The association table's primary key would refuse it at commit, and that error is not modelled.
- JavaScript numbers are `real` and chart values are not rounded.
- Browser `localStorage` is the single optional field `AuthSlice.AuthStore.storedToken`.
- The data-point field `label` is named `caption`, because `label` is a Dafny keyword. In the auth store the `'user'` role is named `Member`, because `User` is the user record there.
- The `setattr` loops over the set fields are one functional update per field (`Patched`). The fields are distinct, so the order of the loop does not matter.
- DashboardSlice.Widget: the widget's free-form `config` record (`Record<string, any>`) is not modelled; no reducer reads it.
- The widget's chart options (title, legend, colours) and the React rendering itself.

## Findings

| source | as written | input that shows it | evidently intended | confidence | as-written member | corrected member |
|---|---|---|---|---|---|---|
| frontend/src/services/api.ts:42 | on a 401 the interceptor dispatches the bare type `auth/logout`, but the auth reducer only handles `auth/logout/fulfilled` (frontend/src/store/slices/authSlice.ts:89), so the dispatch changes nothing | a store holding token `t`, then any request answered with status 401: the session and the stored token stay, and the next request is sent with `Bearer t` again | a 401 ends the session, in state and in storage, as the logout thunk does | high; not executed | ApiClient.UnauthorizedKeepsCredentials | ApiClient.OnResponseErrorEndingSession |
