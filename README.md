# Disaster alert system: a verified model of its decision logic

The disaster alert system is a Next.js dashboard over a hosted database and auth service.
Operators schedule alerts, draw zones and watch a live alert list. A background worker
turns due scheduled alerts into live alerts. Roles (admin, operator, viewer) decide what
each user may do.

This project models the parts of the system that make decisions, in Dafny. The database
and auth service are replaced by parameters: the rows a query returns, whether a write
fails, what the provider answers. Each model is proved against that abstract store.

- **Dispatcher** (`scheduler.dfy`, module `AlertScheduler`). One pass of
  `processScheduledAlerts`, written as a class `Store` that holds the `scheduled_alerts`
  table as a map and the `alerts` table as a sequence. Its loop is proved equal to the
  fold `Pass`. Lemmas about `Pass` state:
  - which rows change and to what;
  - that alerts are appended in schedule order;
  - that a row's failure affects no other row;
  - that every write carries the single `now`.
- **Roles and permissions** (`auth_types.dfy`, `permissions.dfy`, `guard.dfy`):
  - the role-to-permission table, checked against a rule-based policy;
  - the `hasPermission` and `can` lookups;
  - the hook's role state and its `fetchUserRole` transition;
  - the `withPermissions` guard.
- **Route gate** (`middleware.dfy`, module `RouteGate`). The session and path decision,
  together with the framework's path matcher.
- **Live alert list** (`alert_list.dfy`). The fetch URL, the realtime INSERT, DELETE and
  UPDATE reducer, the render precedence, and the component state.
- **Session store** (`auth_store.dfy`). The `user` and `isLoading` fields with their
  actions and queries.
- **API handlers**: signup (`signup_route.dfy`), alerts (`alerts_route.dfy`) and zones
  (`zones_route.dfy`). Request bodies are JSON values (`json.dfy`) and responses carry a
  status and a body (`http.dfy`). The schema rules are predicates with parse and encode
  round trips. Every path of each handler ends in a stated status.
- **Forms**: the registration form (`register_form.dfy`) and the schedule-alert form
  (`schedule_form.dfy`). The email pattern `^[^\s@]+@[^\s@]+\.[^\s@]+$` is given as a
  language, and a direct test is proved equal to it.
- **Analytics tallies** (`analytics.dfy`). The per-priority loop and the per-month loop.
  The per-month loop uses a map plus an insertion order, as a JavaScript `Map` does. Both
  are proved against counting functions, and the counts are proved to add up to the
  number of rows.

Whitespace (`trim`, `\s`) is JavaScript's whitespace class (`strings.dfy`). Timestamps are
integers.

The code behaves as follows where a reader might expect otherwise:

- A recurring scheduled alert that fires stays `pending` with its `schedule_date`
  unchanged. Advancing it is left to a database trigger.
- When the role lookup fails or finds no role, the current role is kept. The role is not
  reset to `viewer`.
- Zone outlines have no minimum number of vertices.
- A successful `POST /api/alerts` or `POST /api/zones` answers with the default status
  200, not 201.

The code also does a few things a reader might not expect. Each is proved as stated here.

**Signup route**
- A numeric password passes the length check (`SignupRoute.NumericPasswordSkipsLengthCheck`).
- An error status returned by the provider is passed through as is, so an error can be
  answered with 201. A status the JSON response cannot carry (outside 200 to 599, or 204,
  205 and 304, which allow no body) makes the response throw, and the catch answers 500
  (`SignupRoute.AuthErrorResponse`, `SignupRoute.NullBodyStatusFallsToCatch`).

**Route gate**
- `/authx` counts as an auth route for the gate. The matcher never sends that path to
  the gate (`RouteGate.AuthPrefixIsNotSegment`).
- `/alerts`, `/zones` and `/analytics` are outside the matcher, so signed-out users are
  not redirected from them (`RouteGate.UnmatchedPathsPass`).

**Schedule form**
- The form inserts the date under the column name `scheduleDate`. The dispatcher reads
  `schedule_date` (`ScheduleForm.InsertUsesCamelCaseDate`).

**Analytics**
- `fetchMetrics` builds its per-zone query with `.group(...)`. If that call throws, the
  catch leaves every metric at its initial value. The model takes whether it throws as
  a parameter (`Analytics.AnalyticsState.FetchMetrics`).

## Model

Source paths are relative to the repository root.

| member | source | states |
|---|---|---|
| Common.ParsePriority | disaster-alert-system/src/app/api/alerts/route.ts:9 | a string is a priority exactly when it is one of `low`, `medium`, `high`, and then names it |
| Common.PriorityNameRoundTrip | disaster-alert-system/src/app/api/alerts/route.ts:9 | every priority's name parses back to it |
| Common.ParseFrequency | disaster-alert-system/src/components/alerts/ScheduleAlertForm.tsx:15 | a string is a frequency exactly when it is `daily`, `weekly` or `monthly`, and then names it |
| Strings.Trim | disaster-alert-system/src/components/auth/RegisterForm.tsx:31-37 | `String.prototype.trim`: drops leading and trailing JavaScript whitespace (definition; its properties are the two rows below) |
| Strings.TrimShape | disaster-alert-system/src/components/auth/RegisterForm.tsx:31-37 | `trim()` gives the empty string exactly for blank input, and otherwise starts and ends with non-whitespace |
| Strings.TrimIdempotent | disaster-alert-system/src/components/auth/RegisterForm.tsx:83 | trimming an already trimmed value changes nothing |
| AlertScheduler.MarkFailed | disaster-alert-system/src/lib/workers/alertScheduler.ts:55-66 | the catch block's write keeps the table's keys and the inserted alerts |
| AlertScheduler.Step | disaster-alert-system/src/lib/workers/alertScheduler.ts:23-66 | one iteration keeps the table's keys and touches no row other than its own |
| AlertScheduler.Pass | disaster-alert-system/src/lib/workers/alertScheduler.ts:22-67 | a pass keeps the set of scheduled rows |
| AlertScheduler.AlertsOf | disaster-alert-system/src/lib/workers/alertScheduler.ts:25-32 | the i-th inserted alert carries the i-th row's title, content, priority and zone |
| AlertScheduler.PassAppendsPromoted | disaster-alert-system/src/lib/workers/alertScheduler.ts:22-34 | the alerts table ends as before plus one alert per row whose insert succeeded, in visiting order |
| AlertScheduler.PassLeavesOthers | disaster-alert-system/src/lib/workers/alertScheduler.ts:10-22 | a row not among the due rows is unchanged |
| AlertScheduler.Outcome | disaster-alert-system/src/lib/workers/alertScheduler.ts:23-66 | the state one due row is left in by its own insert, update and mark-failed faults, as written (definition; the pass is proved against it by PassRowOutcome) |
| AlertScheduler.PassRowOutcome | disaster-alert-system/src/lib/workers/alertScheduler.ts:22-67 | each due row ends in the state determined by its own failures alone (failure isolation) |
| AlertScheduler.PassOnlyStampsNow | disaster-alert-system/src/lib/workers/alertScheduler.ts:7-63 | only `status` and `last_run_at` change, and every changed row has `last_run_at = now` |
| AlertScheduler.DueRowCases | disaster-alert-system/src/lib/workers/alertScheduler.ts:37-66 | success makes a one-off row `completed` and keeps a recurring row `pending` with its date, both stamped `now`; any failure gives `failed` at `now`, except that when the mark-failed write also fails the row is left as it was |
| AlertScheduler.InsertedAlertSurvivesUpdateFailure | disaster-alert-system/src/lib/workers/alertScheduler.ts:25-66 | an alert inserted before the status update fails stays inserted, and the row ends `failed` |
| AlertScheduler.PromotedInScheduleOrder | disaster-alert-system/src/lib/workers/alertScheduler.ts:15-22 | the rows that produce alerts keep the ascending schedule-date order of the query |
| AlertScheduler.Store.ProcessScheduledAlerts | disaster-alert-system/src/lib/workers/alertScheduler.ts:6-67 | a failed due-rows query changes nothing; otherwise the tables end exactly as the fold `Pass` over the due rows says |
| AlertScheduler.PassSummary | disaster-alert-system/src/lib/workers/alertScheduler.ts:10-67 | after a pass, rows that were not due are untouched and due rows are in their per-row outcome |
| AuthTypes.ParseRole | disaster-alert-system/src/lib/auth/types.ts:1 | a string names a role exactly when it is `admin`, `operator` or `viewer` |
| AuthTypes.RoleNameRoundTrip | disaster-alert-system/src/lib/auth/types.ts:1 | every role's name parses back to it |
| AuthTypes.DefaultRolePermissions | disaster-alert-system/src/lib/auth/types.ts:14-43 | the `DEFAULT_ROLE_PERMISSIONS` table, transcribed (definition; checked against the policy by TableMatchesPolicy) |
| AuthTypes.TableMatchesPolicy | disaster-alert-system/src/lib/auth/types.ts:14-43 | a permission is in a role's table row exactly when the role's rule grants it |
| AuthTypes.OperatorWithinAdmin | disaster-alert-system/src/lib/auth/types.ts:15-37 | every operator permission is an admin permission |
| AuthTypes.ViewerWithinOperator | disaster-alert-system/src/lib/auth/types.ts:30-42 | every viewer permission is an operator permission |
| AuthTypes.AdminHoldsAllManagedActions | disaster-alert-system/src/lib/auth/types.ts:15-29 | admin holds all four actions on alerts, zones and users, and reads analytics |
| AuthTypes.AnalyticsReadOnlyForAll | disaster-alert-system/src/lib/auth/types.ts:28-41 | every role reads analytics and none writes it |
| AuthTypes.OnlyAdminDeletesOrManagesUsers | disaster-alert-system/src/lib/auth/types.ts:19-42 | a role holding a delete or users permission is admin |
| AuthTypes.ViewerOnlyReads | disaster-alert-system/src/lib/auth/types.ts:38-42 | every viewer permission is a read |
| Permissions.AnyMatches | disaster-alert-system/src/lib/auth/usePermissions.ts:42 | `some` is true exactly when some listed permission has that action and resource |
| Permissions.RoleHasPermission | disaster-alert-system/src/lib/auth/usePermissions.ts:40-43 | `hasPermission` for a given role: `some` over that role's table row (definition; characterised by RoleHasPermissionMeansListed) |
| Permissions.PermissionState.HasPermission | disaster-alert-system/src/lib/auth/usePermissions.ts:40-43 | `hasPermission` on the hook's current role (definition) |
| Permissions.RoleHasPermissionMeansListed | disaster-alert-system/src/lib/auth/usePermissions.ts:40-43 | `hasPermission` is true exactly for the pairs in the current role's table row, which are the pairs its rule grants |
| Permissions.Can | disaster-alert-system/src/lib/auth/usePermissions.ts:45-56 | each `can` shortcut is `hasPermission` on its fixed action and resource (definition; characterised by ShortcutFacts) |
| Permissions.ShortcutFacts | disaster-alert-system/src/lib/auth/usePermissions.ts:45-56 | `manageUsers` is `hasPermission('create','users')` and holds only for admin; `viewAnalytics` holds for every role |
| Permissions.ResolveRole | disaster-alert-system/src/lib/auth/usePermissions.ts:27-29 | a fetched role name replaces the role only when it names a role; otherwise the role is kept |
| Permissions.StoredRoleAsWritten | disaster-alert-system/src/lib/auth/usePermissions.ts:27-29 | as written, any truthy fetched string is stored; otherwise the role is kept |
| Permissions.HasPermissionByName | disaster-alert-system/src/lib/auth/usePermissions.ts:40-43 | looking up a stored name succeeds exactly when the name is a role, and then agrees with the table |
| Permissions.UnknownRoleBreaksLookup | disaster-alert-system/src/lib/auth/usePermissions.ts:27-42 | as written, a stored role `superuser` makes every permission check fail |
| Permissions.ResolvedRoleAlwaysHasTable | disaster-alert-system/src/lib/auth/usePermissions.ts:27-43 | with the resolved role, every permission check succeeds and agrees with the table |
| Permissions.PermissionState.constructor | disaster-alert-system/src/lib/auth/usePermissions.ts:8-9 | the role starts as `viewer` and `loading` as true |
| Permissions.PermissionState.FetchUserRole | disaster-alert-system/src/lib/auth/usePermissions.ts:12-35 | `loading` ends false on every path; with no user, a thrown error or no profile row the role is kept; otherwise the fetched role is resolved |
| PermissionGuard.HasAll | disaster-alert-system/src/lib/auth/withPermissions.tsx:24-26 | `every` holds exactly when each requirement is granted |
| PermissionGuard.Guard | disaster-alert-system/src/lib/auth/withPermissions.tsx:22-38 | while loading: spinner and no redirect; once loaded: the wrapped component, with a redirect to `/unauthorized` exactly when some requirement fails |
| PermissionGuard.EmptyRequirementsNeverRedirect | disaster-alert-system/src/lib/auth/withPermissions.tsx:24-26 | no requirements, no redirect |
| PermissionGuard.MoreRequirementsOnlyDeny | disaster-alert-system/src/lib/auth/withPermissions.tsx:24-30 | if a larger requirement list passes, every sub-list passes |
| PermissionGuard.AdminPassesUnlessAnalyticsWrite | disaster-alert-system/src/lib/auth/withPermissions.tsx:24-30 | admin is never redirected unless an analytics write is required |
| RouteGate.Middleware | disaster-alert-system/src/middleware.ts:16-40 | signed out: public or `/auth…` paths pass, others go to login with the path; signed in: public or `/auth…` paths go to the dashboard, others pass |
| RouteGate.RedirectTargetsPass | disaster-alert-system/src/middleware.ts:6-52 | the login and dashboard redirect targets are let through for the same session state |
| RouteGate.DecisionDependsOnOpenness | disaster-alert-system/src/middleware.ts:16-18 | two paths that agree on "public or auth route" get the same kind of decision, so the dashboard flag never matters |
| RouteGate.Matched | disaster-alert-system/src/middleware.ts:43-52 | `config.matcher`: `/`, `/login`, `/register` and the `:path*` trees of `/dashboard`, `/auth`, `/api/protected` (definition) |
| RouteGate.AuthPrefixIsNotSegment | disaster-alert-system/src/middleware.ts:16-49 | `/authx` is an auth route for the gate but is not matched |
| RouteGate.DashboardIsProtected | disaster-alert-system/src/middleware.ts:21-48 | a signed-out request under `/dashboard` goes to login carrying its path; a signed-in one passes |
| RouteGate.UnmatchedPathsPass | disaster-alert-system/src/middleware.ts:43-52 | signed-out requests for `/alerts`, `/zones`, `/analytics` pass |
| Json.Member | disaster-alert-system/src/app/api/auth/signup/route.ts:21 | reading a member gives the object's value for that key, and `undefined` otherwise |
| Json.Length | disaster-alert-system/src/app/api/auth/signup/route.ts:31 | strings and arrays have their length; `null`, booleans and numbers have none |
| Json.Truthy | disaster-alert-system/src/app/api/auth/signup/route.ts:23 | JavaScript truthiness of a JSON value or `undefined` (definition) |
| Http.SearchParam | disaster-alert-system/src/app/api/alerts/route.ts:38-39 | `new URL(url).searchParams.get(key)` without percent-decoding (definition; read back by FetchUrlCarriesZone) |
| AlertList.FetchUrl | disaster-alert-system/src/components/alerts/AlertList.tsx:21 | the URL `fetchAlerts` requests: with `?zone_id=` exactly when the zone filter is a non-empty string (definition) |
| AlertList.AcceptsInsert | disaster-alert-system/src/components/alerts/AlertList.tsx:48 | the INSERT guard `!zoneId || newAlert.zone_id === zoneId` (definition; used by ApplyEvent and FetchAgreesWithInsertGuard) |
| AlertList.FetchUrlCarriesZone | disaster-alert-system/src/components/alerts/AlertList.tsx:21 | the handler reads back from the fetch URL the zone the list filters by, and no zone when unfiltered |
| AlertList.FetchAgreesWithInsertGuard | disaster-alert-system/src/components/alerts/AlertList.tsx:21-48 | the rows the API hands the list are exactly the stored rows the INSERT guard would accept |
| AlertList.WithoutId | disaster-alert-system/src/components/alerts/AlertList.tsx:52-54 | DELETE keeps exactly the alerts with a different id |
| AlertList.ReplaceById | disaster-alert-system/src/components/alerts/AlertList.tsx:55-61 | UPDATE keeps the length and replaces exactly the entries with the updated id |
| AlertList.ApplyEvent | disaster-alert-system/src/components/alerts/AlertList.tsx:45-63 | INSERT prepends iff unfiltered or same zone; DELETE removes that id; UPDATE keeps ids in place; other events change nothing |
| AlertList.WithoutIdConcat | disaster-alert-system/src/components/alerts/AlertList.tsx:54 | DELETE keeps the order of the survivors |
| AlertList.WithoutIdIdempotent | disaster-alert-system/src/components/alerts/AlertList.tsx:54 | a repeated DELETE changes nothing |
| AlertList.DeleteAfterUpdate | disaster-alert-system/src/components/alerts/AlertList.tsx:52-61 | UPDATE then DELETE of the same id equals the DELETE |
| AlertList.DeleteAfterInsert | disaster-alert-system/src/components/alerts/AlertList.tsx:46-54 | INSERT then DELETE of the same id equals the DELETE |
| AlertList.Render | disaster-alert-system/src/components/alerts/AlertList.tsx:72-82 | loading wins, then a non-empty error, then the empty message, then the list |
| AlertList.AlertListState.constructor | disaster-alert-system/src/components/alerts/AlertList.tsx:14-16 | no alerts, loading, no error |
| AlertList.AlertListState.FetchAlerts | disaster-alert-system/src/components/alerts/AlertList.tsx:19-31 | a good response replaces the list; any failure sets "Failed to load alerts" and keeps the list; loading ends |
| AlertList.AlertListState.OnChange | disaster-alert-system/src/components/alerts/AlertList.tsx:45-63 | the list becomes `ApplyEvent` of the old list; the toast shows exactly for an accepted INSERT |
| AuthStore.Store.constructor | disaster-alert-system/src/store/authStore.ts:21-22 | no user, loading |
| AuthStore.Store.IsAuthenticated | disaster-alert-system/src/store/authStore.ts:33-36 | `isAuthenticated`: a user is present (definition) |
| AuthStore.Store.HasRole | disaster-alert-system/src/store/authStore.ts:37-40 | true exactly when a user is present with that role, hence only when authenticated |
| AuthStore.Store.SetUser | disaster-alert-system/src/store/authStore.ts:23 | replaces the user only; authenticated exactly when the new user is present |
| AuthStore.Store.SetLoading | disaster-alert-system/src/store/authStore.ts:24 | replaces the loading flag only |
| AuthStore.Store.SignOut | disaster-alert-system/src/store/authStore.ts:25-32 | a provider sign-out that does not throw clears the user and every role, even when it reports an error; a thrown one leaves the state unchanged |
| AuthStore.RolesAreExclusive | disaster-alert-system/src/store/authStore.ts:33-40 | two roles held at once are the same role, and holding one means being authenticated |
| SignupRoute.AuthErrorResponse | disaster-alert-system/src/app/api/auth/signup/route.ts:55-110 | the provider's truthy status is used as is when the JSON response can carry it; a missing or zero status gives 500 with the message; a status outside 200 to 599 or a null body status (204, 205, 304) makes the response throw and the catch answers 500 |
| SignupRoute.NullBodyStatusFallsToCatch | disaster-alert-system/src/app/api/auth/signup/route.ts:55-110 | a provider error with status 204, 205 or 304 ends in the catch's 500 |
| SignupRoute.SignupStatuses | disaster-alert-system/src/app/api/auth/signup/route.ts:5-110 | every answer is 201, 400, 500 or the status the provider reported with its error |
| SignupRoute.Signup | disaster-alert-system/src/app/api/auth/signup/route.ts:5-110 | non-JSON and `null` bodies answer 500; a missing or falsy email or password answers 400 "Email and password are required"; a short password answers 400 with the length message; otherwise the provider is called with role `viewer`, its error answers as AuthErrorResponse, no user answers 500 "No user returned from signup", a throw answers 500 with the error's message or the fallback, and a user answers 201 with the profile insert |
| SignupRoute.NewAccountsAreViewers | disaster-alert-system/src/app/api/auth/signup/route.ts:49-83 | metadata and profile row both carry `viewer` |
| SignupRoute.StringCredentialsChecked | disaster-alert-system/src/app/api/auth/signup/route.ts:23-36 | for string credentials the provider is called iff the email is non-empty and the password has at least 6 characters; otherwise 400 |
| SignupRoute.NumericPasswordSkipsLengthCheck | disaster-alert-system/src/app/api/auth/signup/route.ts:31 | a numeric password reaches the provider |
| SignupRoute.UserCreatedMeansCreated | disaster-alert-system/src/app/api/auth/signup/route.ts:77-103 | once a user is returned the answer is 201, whatever the profile insert does |
| RegisterForm.IsValidEmailMatchesPattern | disaster-alert-system/src/components/auth/RegisterForm.tsx:31 | the direct email test accepts exactly the strings the pattern matches |
| RegisterForm.ValidEmailIsNotBlank | disaster-alert-system/src/components/auth/RegisterForm.tsx:31 | a matching email is never blank |
| RegisterForm.Register | disaster-alert-system/src/components/auth/RegisterForm.tsx:14-76 | a mismatch is reported first; signup is called iff the passwords match, the email matches and the password is non-blank with at least 6 characters; `/login` is opened iff signup succeeds |
| RegisterForm.RegisterFormState.constructor | disaster-alert-system/src/components/auth/RegisterForm.tsx:9-11 | all three fields start empty |
| RegisterForm.RegisterFormState.SetEmail | disaster-alert-system/src/components/auth/RegisterForm.tsx:83 | the stored email is the trimmed input; other fields unchanged |
| RegisterForm.RegisterFormState.SetPassword | disaster-alert-system/src/components/auth/RegisterForm.tsx:91 | stores the password as typed; other fields unchanged |
| RegisterForm.RegisterFormState.SetConfirmPassword | disaster-alert-system/src/components/auth/RegisterForm.tsx:100 | stores the confirmation as typed; other fields unchanged |
| RegisterForm.RegisterFormState.HandleRegister | disaster-alert-system/src/components/auth/RegisterForm.tsx:14-76 | the submit's outcome on the current fields: signup iff all checks pass, `/login` iff signup succeeds |
| AlertsRoute.ParseAlertBody | disaster-alert-system/src/app/api/alerts/route.ts:6-18 | a body is accepted iff title and content are non-empty strings, priority is in the enum and zone_id is absent or a UUID, and the result carries those values |
| AlertsRoute.AlertFieldsRoundTrip | disaster-alert-system/src/app/api/alerts/route.ts:6-11 | encoded fields pass the schema iff their texts are non-empty and the zone is a UUID, and then parse back unchanged |
| AlertsRoute.ParseStripsUnknownMembers | disaster-alert-system/src/app/api/alerts/route.ts:18-22 | the inserted data has only schema members and passes the schema again unchanged |
| AlertsRoute.PostAlert | disaster-alert-system/src/app/api/alerts/route.ts:13-34 | an insert is attempted iff the body is valid; success answers 200 with the first row; every failure answers 400 with the error's message or the fallback |
| AlertsRoute.InZone | disaster-alert-system/src/app/api/alerts/route.ts:47-49 | keeps exactly the rows of that zone |
| AlertsRoute.GetAlerts | disaster-alert-system/src/app/api/alerts/route.ts:36-62 | a store error answers 500 "Failed to fetch alerts"; otherwise 200 with all rows, or only the zone's rows when `zone_id` is non-empty |
| AlertsRoute.InZoneConcat | disaster-alert-system/src/app/api/alerts/route.ts:45-49 | the zone filter keeps the store's order |
| ZonesRoute.ParseCoordinates | disaster-alert-system/src/app/api/zones/route.ts:9 | accepted iff every element is a pair of numbers, any count, and the result lists them in order |
| ZonesRoute.ParseZoneBody | disaster-alert-system/src/app/api/zones/route.ts:6-17 | a body is accepted iff the name is a non-empty string, the description is absent or a string, and the coordinates are pairs; the result carries the name, the description and the parsed coordinates |
| ZonesRoute.CoordinatesRoundTrip | disaster-alert-system/src/app/api/zones/route.ts:9 | encoded outlines parse back unchanged |
| ZonesRoute.ZoneFieldsRoundTrip | disaster-alert-system/src/app/api/zones/route.ts:6-10 | encoded zones pass the schema iff the name is non-empty, and then parse back unchanged |
| ZonesRoute.EmptyOutlineAccepted | disaster-alert-system/src/app/api/zones/route.ts:9 | a zone with no vertices passes |
| ZonesRoute.PostZone | disaster-alert-system/src/app/api/zones/route.ts:12-33 | an insert is attempted iff the body is valid; success answers 200 with the first row; every failure answers 400 |
| ZonesRoute.GetZones | disaster-alert-system/src/app/api/zones/route.ts:35-53 | a store error answers 500 "Failed to fetch zones"; otherwise 200 with the rows |
| ScheduleForm.Validate | disaster-alert-system/src/components/alerts/ScheduleAlertForm.tsx:8-39 | the form is accepted iff title, content and date are non-empty and priority and frequency are in their enums; the row carries the form's values, the frequency even when not recurring, and status `pending` |
| ScheduleForm.ValidateFormOf | disaster-alert-system/src/components/alerts/ScheduleAlertForm.tsx:32-39 | a pending row with non-empty texts is exactly what the form showing it sends |
| ScheduleForm.InitialFormNeedsTexts | disaster-alert-system/src/components/alerts/ScheduleAlertForm.tsx:19-26 | the initial form is not valid, and filling in the three texts is enough |
| ScheduleForm.EncodeInsert | disaster-alert-system/src/components/alerts/ScheduleAlertForm.tsx:36-39 | the object `{ ...validatedData, status }` handed to the store (definition; its keys and values are stated by the two rows below) |
| ScheduleForm.InsertCarriesForm | disaster-alert-system/src/components/alerts/ScheduleAlertForm.tsx:32-39 | the object a valid form inserts has exactly the schema's keys plus `status`, each carrying the form's value, and status `pending` |
| ScheduleForm.InsertUsesCamelCaseDate | disaster-alert-system/src/components/alerts/ScheduleAlertForm.tsx:12-39 | the object a valid form inserts names the date `scheduleDate`, not `schedule_date` |
| ScheduleForm.ScheduleFormState.constructor | disaster-alert-system/src/components/alerts/ScheduleAlertForm.tsx:19-26 | the form starts at the defaults |
| ScheduleForm.ScheduleFormState.SetForm | disaster-alert-system/src/components/alerts/ScheduleAlertForm.tsx:19 | an input change replaces the form state |
| ScheduleForm.ScheduleFormState.HandleSubmit | disaster-alert-system/src/components/alerts/ScheduleAlertForm.tsx:28-56 | the row sent is the validated form; after a successful insert the form is exactly the defaults; after a failure it is unchanged |
| Analytics.UnknownSet | disaster-alert-system/src/components/analytics/DashboardAnalytics.tsx:46 | the extra keys are exactly the unknown priorities that occur |
| Analytics.PriorityTallyAccountsForAll | disaster-alert-system/src/components/analytics/DashboardAnalytics.tsx:45-46 | the three counters and the unknown entries add up to the row count; there are no extra keys iff every priority is known |
| Analytics.TallyPriorities | disaster-alert-system/src/components/analytics/DashboardAnalytics.tsx:45-46 | no data gives zeros; otherwise each counter is the number of rows with that priority |
| Analytics.FirstOccurrencesFacts | disaster-alert-system/src/components/analytics/DashboardAnalytics.tsx:66-72 | the key order holds every occurring month, each once |
| Analytics.CountsFor | disaster-alert-system/src/components/analytics/DashboardAnalytics.tsx:72-75 | each listed month is paired with its count |
| Analytics.MonthTallyTotal | disaster-alert-system/src/components/analytics/DashboardAnalytics.tsx:66-76 | the month counts add up to the number of rows |
| Analytics.MonthTallyEntriesOccur | disaster-alert-system/src/components/analytics/DashboardAnalytics.tsx:66-76 | every listed month occurs in the data with a positive count |
| Analytics.MonthsOf | disaster-alert-system/src/components/analytics/DashboardAnalytics.tsx:68 | one month key per row, in row order |
| Analytics.CountByMonth | disaster-alert-system/src/components/analytics/DashboardAnalytics.tsx:66-70 | the map holds exactly the occurring months, each with its count, keyed in first-seen order |
| Analytics.CountOne | disaster-alert-system/src/components/analytics/DashboardAnalytics.tsx:69 | one `set` keeps the map and its key order in step with one more row |
| Analytics.EntriesInOrder | disaster-alert-system/src/components/analytics/DashboardAnalytics.tsx:72-75 | the entries list follows the key order with the map's counts |
| Analytics.TallyMonths | disaster-alert-system/src/components/analytics/DashboardAnalytics.tsx:62-77 | no data gives an empty list; otherwise the month tally in first-seen order |
| Analytics.AnalyticsState.constructor | disaster-alert-system/src/components/analytics/DashboardAnalytics.tsx:25-30 | the metrics start at zero and empty |
| Analytics.AnalyticsState.FetchMetrics | disaster-alert-system/src/components/analytics/DashboardAnalytics.tsx:33-88 | a throw leaves the metrics unchanged; otherwise a null total becomes 0 and the two tallies are stored |

## Left out

- The `setInterval` loop of `startAlertScheduler` (alertScheduler.ts:70-79) is timer plumbing. One pass is modelled.
- The hosted store is not modelled: queries, inserts, auth, sessions and realtime channels. Their answers are parameters.
- Filtering and ordering done by the store are not modelled. The due-rows query is the precondition `DueSelection`. The newest-first order of the GET handlers is taken as the order of the rows given.
- AlertScheduler.Store.ProcessScheduledAlerts: the mark-failed write can only fail by returning an error. A mark-failed write that throws, and would end the whole pass, is not modelled.
- Permissions.PermissionState.FetchUserRole: uses the corrected role resolution of the finding below. The as-written resolution is `StoredRoleAsWritten`.
- UUID syntax is the schema library's rule and is a parameter `isUuid`.
- The schema library's error messages are not modelled. A schema rejection is `SchemaRejected`, and a body that is not JSON is `MalformedJson`.
- The text of runtime errors is not modelled; they are `RuntimeError`.
- A successful insert that returns no rows (`data[0]` undefined) is not modelled. The store answers with at least one row.
- Property reads of inherited members such as `constructor` on a JSON body are not modelled.
- A non-numeric `length` member of an object password is not modelled. It is treated as absent.
- String lengths count characters, not UTF-16 code units.
- Query strings are not percent- or plus-decoded. The fetch-URL lemmas require zone ids without `&`, `#`, `%` or `+`.
- The per-zone breakdown of the analytics (`byZone`) is not modelled. Only whether that step throws is kept.
- Month names come from `toLocaleString` and are a parameter `monthName`.
- Priority keys that collide with members of `Object.prototype` are not modelled.
- Toasts, console logging and the realtime subscribe and unsubscribe lifecycle are not modelled. The outcome records the toast and navigation where a property needs them.
- Presentation files, the login form, the auth provider and the map components are not part of this model.
- The guard's effect runs only when `loading` or the router changes. `Guard` models one evaluation.

## Findings

| source | as written | input that shows it | evidently intended | confidence | as-written member | corrected member |
|---|---|---|---|---|---|---|
| disaster-alert-system/src/lib/auth/usePermissions.ts:27-28 | any truthy `role` string from the profile row is stored with an unchecked cast to `UserRole`; `hasPermission` then reads `DEFAULT_ROLE_PERMISSIONS[userRole]`, which is undefined for an unknown name, and `.some` on it throws | profile role `"superuser"` | store the fetched role only when it names a role, so that every permission check has a table row | medium, not executed; depends on whether the database restricts the role column | Permissions.UnknownRoleBreaksLookup | Permissions.ResolvedRoleAlwaysHasTable |
