# CFP operations dashboard: a Dafny model of its rules

The dashboard serves seeded JSON through small API routes and pages. This project models the
deterministic rules inside it and proves what they promise:

- the role/permission matrix and the `RoleGuard` access decision with its render choice;
- the alert store, whose GET filter chain and PATCH ack/close transition update one alert in place;
- the shipment, lot and KPI query routes (filters, the first-match quality join, the period
  selection of the KPI history);
- the user administration list operations and statistics;
- the KPI card's target badge and trend;
- the time-series stepping loop and the empty-input guard of the KPI calculation;
- the shipments page's query string and CSV export rows;
- the data-intake page's CSV acceptance, progress counter and upload log;
- the plant dashboard's delta, chart points, top-five alerts and tank colours;
- the customer portal's CSV report and its latest-month pie data.

There is one module per source file (`Types`, `RoleGuard`, `AlertsRoute`, `ShipmentsRoute`,
`LotsRoute`, `KpiRoute`, `UsersPage`, `KpiCard`, `ServerUtils`, `ShipmentsPage`,
`DataIntakePage`, `DashboardPage`, `PortalDashboard`). Three helper modules sit beside them:

- `Wrappers`: `Option`;
- `Seqs`: `filter`/`map`/`findIndex` with their filter, subsequence and count lemmas;
- `Strings`: query-parameter truthiness, `endsWith`, `join`, `split`, and the split-after-join
  round trip.

A few modelling conventions apply throughout:

- **Times.** Timestamps are integer milliseconds.
- **Numbers.** Measured figures are reals, compared only against thresholds.
- **JavaScript truthiness.** A query parameter or optional prop is an `Option`. An absent value
  and the empty string are both falsy.
- **Outside world.** Anything that comes from outside becomes a parameter: "now", `Math.random()`
  outcomes, `toISOString`, `new Date(string)`, number-to-text and locale formatting, and the
  loaded seed files.

State the source updates in place is a class with `modifies` methods:

- `AlertsRoute.AlertStore` is the module-level alert list.
- `UsersPage.UsersPageState` holds the user administration page's React state.
- `DataIntakePage.DataIntakeState` holds the data-intake page's React state. It also holds the
  pending completion timer and the running progress intervals.

Notes on the code:

- `RoleGuard` imports a `ROLE_PERMISSIONS` table keyed by sixteen names (`ackAlerts`,
  `viewShipments`, …). types/index.ts does not export it, and the build is set to ignore type
  errors. The only matrix the repository has is `PERMISSIONS`, keyed by eleven `canX`
  capabilities. As written, `ROLE_PERMISSIONS` is therefore `undefined` at run time. The
  lookups at RoleGuard.tsx:29, :71 and :77-78 read a property of `undefined` and throw a
  `TypeError`. `useRole` builds `permissions` eagerly, so it throws before `isRole` or
  `isAnyRole` can be called. The model gives the evaluator the matrix lookup it was evidently
  meant to perform: it takes an arbitrary total matrix, and `PERMISSIONS` is proved about as
  one instance of it.
- The role type is a closed enumeration, so there is no role outside the seven values.
- The denial alert lists the required permission and also the allowed roles when both props
  are given.

## Model

| member | source | states |
|---|---|---|
| Types.RolesAreSeven | types/index.ts:119-126 | `UserRole` has exactly seven distinct values and the enumeration lists all of them |
| Types.WireNamesAreDistinct | types/index.ts:75-90 | the wire strings of alert status, severity and oil type identify their values |
| Types.AdminHoldsEverything | types/index.ts:305-317 | admin holds every capability, so any capability of any role is one admin holds |
| Types.ExternalViewerHoldsOnlyExternal | types/index.ts:292-304 | external_viewer holds exactly `canViewExternal` |
| Types.OnlyAdminAccessesAdmin | types/index.ts:214-318 | `canAccessAdmin` holds for admin and for no other role |
| Types.QualityEditors | types/index.ts:214-318 | `canEditQuality` holds exactly for quality and admin |
| Types.AlertAcknowledgers | types/index.ts:227-256 | exactly operator, plant_manager and admin can ack alerts; hq_exec cannot |
| RoleGuard.HasAccess | components/RoleGuard.tsx:25-36 | a required permission decides by the matrix and ignores the role list; otherwise the role list decides by membership (an empty list denies); with neither, access is granted |
| RoleGuard.Guard | components/RoleGuard.tsx:17-68 | children iff access; denied with a fallback gives the fallback whatever `showAlert` is; denied without one gives the alert when `showAlert` (default true), else nothing |
| RoleGuard.UsePermission | components/RoleGuard.tsx:70-72 | `usePermission` agrees with the guard's permission branch, whatever role list is passed |
| RoleGuard.IsAnyRole | components/RoleGuard.tsx:79-80 | `isAnyRole(S)` is membership of the role in S, the guard's role-list decision |
| RoleGuard.IsRole | components/RoleGuard.tsx:79 | `isRole(r)` holds exactly when `isAnyRole([r])` does, so it agrees with the guard for a one-role list |
| RoleGuard.RoleNamesAreDistinct | components/RoleGuard.tsx:119-129 | every role has a non-empty display name and no two roles share one |
| RoleGuard.PermissionNamesAreDistinct | components/RoleGuard.tsx:97-117 | every one of the sixteen permission keys has a non-empty display name and no two share one |
| RoleGuard.DenialLines | components/RoleGuard.tsx:46-58 | the alert shows the refusal line, then the permission line iff a permission was required, then the role line iff a role list (even an empty one) was given |
| RoleGuard.AllowedRolesReadBack | components/RoleGuard.tsx:56 | split on its commas, the role line gives back one piece per allowed role, in order: its display name, behind one space after the first |
| RoleGuard.AllowedRolesTextIdentifies | components/RoleGuard.tsx:56 | two non-empty role lists with the same role line are the same list |
| RoleGuard.AdminPassesEveryPermissionGuard | components/RoleGuard.tsx:27-29 | over `PERMISSIONS`, admin passes every permission requirement |
| RoleGuard.SampleDecisions | components/RoleGuard.tsx:27-36 | operator acks alerts; quality is kept out of admin; external_viewer is not in [hq_exec, admin]; hq_exec views shipments and cannot ack |
| RoleGuard.AllowedRolesMonotone | components/RoleGuard.tsx:30-32 | widening the allowed-role list never revokes access; the empty list admits nobody |
| AlertsRoute.GetSelects | app/api/alerts/route.ts:13-25 | the GET filter chain is one order-preserving filter by "at the plant (default okayama), and matching each given status and severity" |
| AlertsRoute.Get | app/api/alerts/route.ts:13-25 | every returned alert is a stored one at the requested plant (default okayama) with each given status and severity; never more alerts than stored |
| AlertsRoute.GetIsExact | app/api/alerts/route.ts:17-25 | every returned alert is stored and matches; every stored alert that matches is returned; the result is a subsequence of the store |
| AlertsRoute.GetByPlantOnly | app/api/alerts/route.ts:13-17 | without status and severity, GET is exactly the plant filter |
| AlertsRoute.ApplyAction | app/api/alerts/route.ts:54-65 | ack sets status, ackBy and ackTs; close sets status and keeps ackBy/ackTs; the comment changes only when one is given; any other action changes nothing; no prior-status guard |
| AlertsRoute.AlertStore.constructor | app/api/alerts/route.ts:5-8 | the store starts as the loaded alerts |
| AlertsRoute.AlertStore.Patch | app/api/alerts/route.ts:40-69 | an unknown id gives not-found and leaves the store; otherwise only the first alert with that id is rewritten by the action, and it is returned |
| AlertsRoute.PatchTouchesOneIndex | app/api/alerts/route.ts:54-67 | the rewrite keeps the store's length and every other alert |
| ShipmentsRoute.GetAdmits | app/api/shipments/route.ts:18-34 | GET is one order-preserving filter: a shipment is returned iff it passes every given filter (oil type, start, end) |
| ShipmentsRoute.Get | app/api/shipments/route.ts:18-34 | every returned shipment is a stored one that passes each given filter; never more than stored; the summary is the loaded one |
| ShipmentsRoute.NoFiltersReturnsAll | app/api/shipments/route.ts:18 | with no filter parameters the full loaded list and summary come back |
| ShipmentsRoute.SummaryPassesThrough | app/api/shipments/route.ts:36-39 | the summary is returned unchanged whatever the filters |
| ShipmentsRoute.WindowIsInclusive | app/api/shipments/route.ts:20-34 | returned shipments have the given oil type and lie within both inclusive bounds; a start after the end or an invalid date empties the result |
| LotsRoute.FirstQuality | app/api/lots/route.ts:21-24 | no record for the lot gives null; otherwise it is the first record with that lot id |
| LotsRoute.Get | app/api/lots/route.ts:9-38 | the join happens iff `includeQuality` is exactly "true"; `totalCount` is the number of lots returned in both branches |
| LotsRoute.GetContents | app/api/lots/route.ts:16-37 | joined: the plant's lots in order, each with its first quality record; separate: the plant's lots and the plant's quality records |
| LotsRoute.GetKeepsPlantLots | app/api/lots/route.ts:8-16 | without the join, the returned lots are exactly the filter of the stored lots by the plant (default okayama): a subsequence of the store, every one at the plant, every plant lot among them |
| KpiRoute.SevenDayHistory | app/api/kpi/route.ts:32-44 | the loop appends exactly 167 entries to a copy of the history; entry i is generated for i hours before now |
| KpiRoute.Get | app/api/kpi/route.ts:8-51 | defaults okayama and 24h; `current.ts` and `lastUpdate` are the same delayed time; targets pass through; the history is the period's selection |
| KpiRoute.OneHourIsPrefix | app/api/kpi/route.ts:26-27 | `1h` gives the first min(4, n) history entries |
| KpiRoute.OtherPeriodsKeepHistory | app/api/kpi/route.ts:23-29 | `24h` and any unknown period return the history unchanged |
| KpiRoute.SevenDayShape | app/api/kpi/route.ts:30-45 | `7d` is the history followed by 167 entries, the i-th at now − i hours, for the requested plant |
| UsersPage.NewUser | app/admin/users/page.tsx:136-144 | the created user carries the entered name, email, role and plants (default none) and is always active, because the flag is or-ed with true |
| UsersPage.ReplaceById | app/admin/users/page.tsx:155-157 | every user with the edited id is replaced, all others kept; length unchanged |
| UsersPage.RemoveById | app/admin/users/page.tsx:166 | the result is an order-preserving subsequence holding only users with another id, every such user is kept, and its length is the list length less the users with the id, so each kept user stays as often as it was there |
| UsersPage.ToggleById | app/admin/users/page.tsx:172-174 | `isActive` flips on the users with the id and nothing else changes |
| UsersPage.RemoveAbsentIsNoOp | app/admin/users/page.tsx:163-169 | deleting an absent id leaves the list unchanged |
| UsersPage.ToggleTwiceRestores | app/admin/users/page.tsx:171-175 | toggling the same id twice restores the list |
| UsersPage.CountsByRole | app/admin/users/page.tsx:180-184 | one count per role, in role order, each the number of users with that role |
| UsersPage.CountsAddUp | app/admin/users/page.tsx:180-184 | for distinct roles the per-role counts sum to the number of users holding any of them |
| UsersPage.StatsAreConsistent | app/admin/users/page.tsx:177-185 | total is the list length, active ≤ total, seven role counts in role order summing to total |
| UsersPage.Stats | app/admin/users/page.tsx:177-185 | total is the user count, active is the number of active users (at most total), and one count per role in `roleLabels` order, none above total |
| UsersPage.UsersPageState.constructor | app/admin/users/page.tsx:40-41 | the page starts with the seed users, the default form and no dialog |
| UsersPage.UsersPageState.CreateUser | app/admin/users/page.tsx:130-150 | an incomplete form changes nothing; otherwise exactly one user is appended, the form is reset and the dialog closed |
| UsersPage.UsersPageState.UpdateUser | app/admin/users/page.tsx:152-161 | no editing user is a no-op; otherwise the list is replaced by id and editing ends |
| UsersPage.UsersPageState.DeleteUser | app/admin/users/page.tsx:163-169 | the users with the id are removed; an absent id is a no-op |
| UsersPage.UsersPageState.ToggleUserStatus | app/admin/users/page.tsx:171-175 | the list is toggled by id, nothing else changes |
| KpiCard.GetTargetStatus | components/ui/kpi-card.tsx:36-42 | no badge iff the target is absent or 0 or the value is text; success from 95 % of target, warning from 80 %, danger below |
| KpiCard.StatusMonotoneInValue | components/ui/kpi-card.tsx:38-41 | for a positive target the badge never gets worse as the value grows |
| KpiCard.AchievementMonotone | components/ui/kpi-card.tsx:38 | the achievement percentage grows with the value for a positive target |
| KpiCard.TrendOf | components/ui/kpi-card.tsx:24-28 | neutral iff delta is undefined or 0; up iff positive; down iff negative |
| KpiCard.TrendColor | components/ui/kpi-card.tsx:30-34 | the colour always matches the trend icon |
| KpiCard.DeltaSign | components/ui/kpi-card.tsx:79 | a "+" is shown exactly for a positive delta, otherwise nothing |
| ServerUtils.GenerateTimeSeries | lib/server-utils.ts:73-88 | empty when start > end; for a whole-minute interval k > 0, floor((end − start)/k) + 1 points, the i-th generated at start + i·k, all ≤ end and the next one past it; k > 0 is needed for the loop to end |
| ServerUtils.SeriesLengthIsCount | lib/server-utils.ts:82-85 | the point count is the one whose last point is in the window and whose next is past it |
| ServerUtils.TimesIncrease | lib/server-utils.ts:82-85 | for k > 0 the generated times strictly increase |
| ServerUtils.NonPositiveIntervalNeverEnds | lib/server-utils.ts:82-85 | with an interval ≤ 0 and start ≤ end, every time the loop reaches is still ≤ end, so the loop never ends |
| ServerUtils.GenerateTimeSeriesGuarded | lib/server-utils.ts:73-88 | no points for an interval ≤ 0; otherwise the points of the loop, each generated at its step inside the window |
| ServerUtils.CalculateKpiFromReadings | lib/server-utils.ts:43-44 | the result is the empty object exactly when there are no readings |
| ShipmentsPage.BuildParams | app/shipments/page.tsx:30-33 | the successive appends build exactly the page's query |
| ShipmentsPage.Lookup | app/shipments/page.tsx:30-33 | `get` finds a value iff some pair has the key, and then the value of such a pair |
| ShipmentsPage.QueryOrder | app/shipments/page.tsx:30-33 | the query starts with plantId; keys come in the order plantId, oilType, startDate, endDate, once each, one per set filter |
| ShipmentsPage.QueryLookups | app/shipments/page.tsx:30-33 | oilType is sent iff the filter is not 'all'; each date iff it is set, as its ISO text |
| ShipmentsPage.QueryRoundTrip | app/shipments/page.tsx:28-38 | the shipments route, reading the page's query, returns exactly the loaded shipments the page's filter selects, in order |
| ShipmentsPage.OilLabelAgreesWithBadge | app/shipments/page.tsx:51-71 | the export's oil label equals the table badge's and tells the three oil types apart |
| ShipmentsPage.RowOf | app/shipments/page.tsx:47-56 | a row carries the shipment's id, customer, plant label (岡山ケミカル for okayama, the raw id otherwise), oil label, a mass ending in "t", and "" for a missing code or invoice number |
| ShipmentsPage.ExportShipments | app/shipments/page.tsx:47-56 | exactly one row per shipment, in the same order |
| ShipmentsPage.ExportFileNameIsDate | app/shipments/page.tsx:58 | the export file is named after the date part of the ISO timestamp |
| DataIntakePage.CsvAcceptance | app/admin/data-intake/page.tsx:89 | a `.csv` name is accepted whatever its type, the CSV type whatever the name; neither is refused |
| DataIntakePage.NextProgress | app/admin/data-intake/page.tsx:106-112 | a step is `prev >= 100 ? 100 : prev + 10` |
| DataIntakePage.NextProgressKeepsShape | app/admin/data-intake/page.tsx:106-112 | from a multiple of 10 within 0..100 a step stays so and never goes back |
| DataIntakePage.ProgressIsCapped | app/admin/data-intake/page.tsx:105-113 | after n steps from 0 the progress is min(10·n, 100) |
| DataIntakePage.DataIntakeState.constructor | app/admin/data-intake/page.tsx:37-60 | no selection, not uploading, progress 0, the two seed logs |
| DataIntakePage.DataIntakeState.HandleFileSelect | app/admin/data-intake/page.tsx:86-96 | a CSV file becomes the selection; a refused or missing file leaves it |
| DataIntakePage.DataIntakeState.HandleUpload | app/admin/data-intake/page.tsx:98-113 | without a selection nothing happens; otherwise uploading at 0 %, one more interval, and a completion that captures the current file and logs |
| DataIntakePage.DataIntakeState.Tick | app/admin/data-intake/page.tsx:105-113 | one interval step, which stops its interval at 100 |
| DataIntakePage.DataIntakeState.CompleteUpload | app/admin/data-intake/page.tsx:115-141 | exactly one log is put in front of the logs seen at upload start; uploading stops, progress is 0 and the selection is cleared |
| DataIntakePage.UploadOnce | app/admin/data-intake/page.tsx:86-141 | a selected CSV upload adds one log for that file in front, keeping the older logs in order after it |
| DataIntakePage.StatusDisplayIsInjective | app/admin/data-intake/page.tsx:169-189 | icon and badge are defined for success, partial and failed and tell them apart |
| DashboardPage.CalculateDelta | app/dashboard/page.tsx:76-80 | undefined on an empty history; otherwise the change relative to the first entry's availability |
| DashboardPage.MetricDelta | app/dashboard/page.tsx:76-80 | the corrected delta: the change relative to the same metric of the first entry |
| DashboardPage.MetricDeltaFollowsMetric | app/dashboard/page.tsx:107-140 | the corrected delta is 0 iff the metric did not move, and the trend is up iff it rose |
| DashboardPage.DeltaAgreesForAvailability | app/dashboard/page.tsx:111 | for the availability card the written delta is the intended one |
| DashboardPage.DeltaMixesMetrics | app/dashboard/page.tsx:120 | an unchanged conversion efficiency is shown as a drop by the written delta |
| DashboardPage.AsWrittenCardHasNoBadge | app/dashboard/page.tsx:107-140 | with the value passed as `toFixed` text, no card ever shows a target badge |
| DashboardPage.CardShowsBadge | components/ui/kpi-card.tsx:37-41 | with the number passed, a nonzero target always gives a badge, success from 95 % |
| DashboardPage.FormatChartData | app/dashboard/page.tsx:63-74 | one chart point per history entry, in order, carrying that entry's figures |
| DashboardPage.LatestAlerts | app/dashboard/page.tsx:54 | the first min(5, n) alerts |
| DashboardPage.ShownAlertsAreFirstOpen | app/dashboard/page.tsx:45-54 | the dashboard shows the first (at most five) stored alerts that are open at okayama, in stored order |
| DashboardPage.TankBand | app/dashboard/page.tsx:260-264 | red above 80, yellow above 60, green above 20, blue otherwise, boundaries exclusive |
| DashboardPage.TankBandMonotone | app/dashboard/page.tsx:260-264 | a fuller tank never gets a calmer colour; 80, 60 and 20 fall in the lower band |
| PortalDashboard.ReportRow | app/portal/dashboard/page.tsx:133-141 | seven cells: the month, five figures and the recycle rate to one decimal |
| PortalDashboard.ReportTable | app/portal/dashboard/page.tsx:131-142 | the header then one row per month in month order, every row of seven cells |
| PortalDashboard.CsvRoundTrip | app/portal/dashboard/page.tsx:144 | with plain cells the text has one line per row and splits back into the table: no trailing newline |
| PortalDashboard.HeaderIsPlain | app/portal/dashboard/page.tsx:132 | no header cell contains a comma or newline |
| PortalDashboard.ReportTableRoundTrips | app/portal/dashboard/page.tsx:131-144 | the report has 1 + months lines and reads back as its table when months and number texts are plain |
| PortalDashboard.DownloadReport | app/portal/dashboard/page.tsx:128-149 | nothing without customer data; otherwise the report text under `cfp_report_<id>_<year>.csv` |
| PortalDashboard.PieShowsLastReportRow | app/portal/dashboard/page.tsx:131-176 | the three pie slices (light oil, heavy oil, residue of the latest month) carry the texts of cells 2 to 4 of the report's last line |
| PortalDashboard.LatestIsAppended | app/portal/dashboard/page.tsx:171 | a month appended to the data becomes the one the chart shows |

## Left out

- Rendering: JSX, charts, badges, toasts and page shells are left out. Only the values they
  are built from are modelled.
- RoleGuard lookup: the `ROLE_PERMISSIONS` table RoleGuard reads is not part of this model, since
  the repository does not define it. The evaluator takes its matrix as a parameter.
- Permission names: `getPermissionName` is modelled over its sixteen keys. No lemma relates those
  keys to the eleven `canX` capabilities, because the source never connects them.
- Error answers: every route's catch-all reply `{error}` with status 500 is left out. Among
  the lost paths: a PATCH body that is not JSON or parses to `null`
  (app/api/alerts/route.ts:42-43, answered at :70-76), and a `plantId` with no seed file, for
  which `loadJsonData` throws (app/api/shipments/route.ts:13-16 answered at :40-46, and the
  same path in the KPI route, app/api/kpi/route.ts:12-16). The model takes a typed body and loaded data, so
  these failures cannot occur in it.
- I/O: `loadJsonData`/`loadCsvData` (fs, papaparse), `fetch`, `Promise.all`, the Blob/anchor
  downloads and `exportToCsv` are left out. Loaded data and fetched responses are parameters.
  The per-plant file choice (`shipments/<plant>.json`, `kpi/<plant>.json`) is not modelled beyond
  the data passed in.
- Randomness and clock: `Math.random()`, `Date.now()`, `getDelayedTimestamp` and `addVariation`
  are parameters.
- Alert statistics: the ack/close time is the given `now`, and the route's `statistics` object
  is not modelled.
- Floating point: the mock KPI formulas of `calculateKpiFromReadings`, `toFixed` and the
  month-over-month percentage text are left out. Number-to-text conversion is a parameter, and
  reals are used without rounding.
- Locale and dates: `toLocaleString`, `toLocaleTimeString`, `toISOString`, `new Date(string)` and
  the URL encoding of `URLSearchParams` are parameters or left out. The shipments round trip
  assumes that the ISO text of a time parses back to it.
- Local time: `setHours`/`setMinutes` are treated as exact hour and minute steps. Daylight-saving
  shifts are not modelled.
- ServerUtils.GenerateTimeSeries: it does not model the aliasing of the one mutable `Date`
  object that the source hands to `generator` and then advances. The model passes the time value
  at the moment of the call. The interval is a whole number of minutes. Fractional intervals
  are not modelled: `setMinutes` truncates its argument, so an interval of 1.5 steps by one
  minute, and one strictly between 0 and 1 never moves the time.
- ServerUtils.CalculateKpiFromReadings: only the empty-input guard is modelled. The figures for
  non-empty input come from a parameter.
- DataIntakePage.DataIntakeState.HandleUpload: it requires that no upload is running, because
  the page disables the button while uploading. Timer interleavings are reduced to calls of
  `Tick` and `CompleteUpload` in any order. The model keeps the interval running after
  completion, as the source does. It does not model wall-clock timing.
- Data intake: template downloads (`downloadTemplate`) and the hidden input reset are left out,
  as DOM I/O.
- DashboardPage.CalculateDelta: it requires a nonzero availability base. JavaScript would yield
  a non-finite number there instead.
- DashboardPage.MetricDelta: it requires a nonzero base for its own metric. JavaScript would
  yield a non-finite number there instead.
- PortalDashboard.LatestMonth: it requires at least one month. The page reads fields of
  `undefined` for empty monthly data, which throws.
- Customer data: it is the page's own mock constant, passed in as a parameter. The loading
  delay (`setTimeout` of 800 ms) is left out.
- Users page: user creation takes the id and time as parameters, in place of `user-${Date.now()}`
  and `toISOString()`.

## Findings

| source | as written | input that shows it | evidently intended | confidence | as-written member | corrected member |
|---|---|---|---|---|---|---|
| app/dashboard/page.tsx:76-80 | every card's delta is computed against `history[0].availability`, whatever metric the card shows | first entry availability 90, conversion efficiency 80; current conversion efficiency 80: delta ≈ −11.1 % and a down arrow | each card compares its metric with the same metric of the first entry | high; not executed | DashboardPage.DeltaMixesMetrics | DashboardPage.MetricDeltaFollowsMetric |
| app/dashboard/page.tsx:107-140 | the card value is passed as `toFixed(...)` text, and `getTargetStatus` returns null for any non-number value | any KPI with a target, e.g. availability 96 against target 95: no badge | the number is passed so that the target badge shows | medium; not executed | DashboardPage.AsWrittenCardHasNoBadge | DashboardPage.CardShowsBadge |
| lib/server-utils.ts:82-85 | the loop steps by the interval with no guard, and `setMinutes` truncates the step to whole minutes, so an interval below one minute with start ≤ end never ends | interval 0 (or 0.5), start = end: the time stays at start forever | an interval below one minute is refused or yields no points | low; not executed | ServerUtils.NonPositiveIntervalNeverEnds | ServerUtils.GenerateTimeSeriesGuarded |
