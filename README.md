# inporsev2 business rules in Dafny

This project is a Dafny model of the business rules of the inporsev2
freight management application. The model covers:

- trip dispatch: the save handler's completion gate, demurrage and unhook
  totals, cargo cleanup and default invoice status; the event log of an
  assignment; the trip search; the demurrage alerts; choosing a driver
  and the truck that comes with it;
- trailer occupancy, derived once and shown by both the trip screen and
  the resource screen;
- the driver payment report and its drill-down;
- the profitability report and the work-order list (grouping by client,
  invoice counts, order totals, the expand toggles, marking an order as
  invoiced);
- the in-memory store `ApiService`: create, update, soft and hard
  delete, recover, users and login, the service-order counter and the DMTI
  correlative;
- permission flags, the password policy, the permission-toggle rules and
  the user forms;
- the DMTI search, the client spreadsheet import after parsing, the
  client form, resource lists, monthly fuel and the resource form.

Money is `real` (exact, no rounding) and timestamps are `int`
milliseconds. A date chosen in a date picker is the millisecond of its
UTC midnight; an empty picker is `None`. The wall clock, the current
month, uuid, `window.confirm` and the number formatting of spreadsheet
cells are parameters.

The store is the class `Store.ApiService`. Its lists are `seq` fields of
untyped records (`map<string, Value>`), as in the JavaScript. Whether a
record carries an `isDeleted` field decides between a soft and a hard
delete. The screens work on the typed datatypes of `types.ts` (module
`Domain`).

Screens that change state step by step (the report loops, the
occupancy loops, the import loop, the save handler's totals) are methods
with loops. Each is proved equal to a specification function, and the
properties are proved about that function as lemmas. Pure screens
(searches, filters, sorts) are functions with lemmas.

Modules: `Base` (sums, filters, stable insertion sort), `Text` (trim,
case, digits, string order), `Domain` (types), `Store`, `Access`,
`Users`, `TripEvents`, `TripSave`, `TripViews`, `Occupancy`,
`Resources`, `DriverPayments`, `Profitability`, `WorkOrders`,
`DmtiSearch`, `ClientImport`.

## Model

| member | source | states |
|---|---|---|
| Access.UsePermissionsSpec | hooks/useAuth.tsx:70-89 | With no user every flag is off; an Admin has every flag on; anyone else has a flag on exactly when its action is listed for the path, a missing entry listing nothing |
| Access.FlagsArePerPath | hooks/useAuth.tsx:81 | Changing another path's entry leaves a path's flags unchanged |
| Access.ActionsFor | hooks/useAuth.tsx:81 | The actions of a path are its entry, or none when the user has no map or the path no entry |
| Users.ValidatePassword | components/UserManager.tsx:27-44 | Valid exactly when the policy holds (10 UTF-16 code units, upper, lower, digit, symbol); otherwise the message of the first failed check, in the source's order |
| Text.Utf16Length | components/UserManager.tsx:28 | `.length` counts UTF-16 code units: at least one and at most two per character |
| Text.Utf16LengthBmp | components/UserManager.tsx:28 | On Basic Multilingual Plane text `.length` is the number of characters |
| Users.RejectionMessages | components/UserManager.tsx:27-44 | A rejection always carries one of the five policy messages, never the success message |
| Users.Without | components/UserManager.tsx:81 | Removing an action keeps exactly the other actions and introduces no duplicate |
| Users.ToggleSpec | components/UserManager.tsx:74-99 | Toggling a granted action revokes it, and toggling VIEW off drops the path; toggling on grants it together with VIEW; an emptied path is removed; revoking any action but VIEW keeps every other action of the path, VIEW included; every other path is unchanged |
| Users.TogglePreservesWellFormed | components/UserManager.tsx:76-97 | Toggles keep every path's list non-empty, duplicate-free and containing VIEW whenever it lists anything |
| Users.GrantImpliesView | components/UserManager.tsx:80-89 | Under a map built by toggles, any granted flag implies the view flag |
| Users.ActionValues | components/UserManager.tsx:74-99 | The stored permission list names each action in order |
| Users.CreateFormError | components/UserManager.tsx:103-117 | Creating checks a blank username first, then a mismatch, then the policy, whose first failure is reported |
| Users.ResetFormError | components/UserManager.tsx:201-211 | Reset checks the policy first and the mismatch second |
| Users.CheckOrdersDiffer | components/UserManager.tsx:103-117 | The same mismatched weak password is reported as a mismatch when creating but as the policy failure when resetting |
| Users.SubmitUserForm | components/UserManager.tsx:101-130 | A rejected form changes nothing; a taken username is the store's error; otherwise exactly the new user is appended. An edit updates the permissions of that user only |
| Users.SubmitPasswordReset | components/UserManager.tsx:201-220 | A rejected form changes nothing; otherwise only the user's stored hash is replaced, or the store's error is shown |
| Users.HandleDelete | components/UserManager.tsx:252-261 | Deleting oneself shows the alert and changes nothing; otherwise a confirmed delete removes the user and nothing else changes |
| Store.FindIndex | services/api.ts:121 | The index of the first record with the id, or none when no record has it |
| Store.CreatedIsFound | services/api.ts:106-115 | A created record is the one found under its fresh id, and the earlier records are untouched |
| Store.UpdatedSpec | services/api.ts:117-131 | An update is rejected exactly when no record has the id; otherwise only that index changes, to the old fields overridden by the given ones |
| Store.SoftDeletedSpec | services/api.ts:133-156 | An unknown id is a no-op; a flagged record gets the flag true and the length is unchanged |
| Store.HardDeletedSpec | services/api.ts:133-156 | A record without the flag is spliced out; the others keep their order |
| Store.RecoverAfterDelete | services/api.ts:133-169 | Soft-deleting and then recovering a flagged record leaves the list as it was, with that record's flag set to false |
| Store.FakeHashInjective | services/api.ts:13-17 | Different passwords never share a hash |
| Store.LoginAfterCreate | services/api.ts:81-95 | After a user is created under a new username, login with that name succeeds exactly with the created password (none meaning the empty one), and hands back that user without its password |
| Store.ServiceOrderSpec | services/api.ts:290-298 | "IPS", then four digits that read back as the counter, then "TT" and the year |
| Store.ServiceOrderParts | services/api.ts:295 | The service order's parts: "IPS", the counter padded to four digits, "TT" and the year |
| Store.ServiceOrderInjective | services/api.ts:290-298 | Distinct counters below 10000 give distinct service orders |
| Store.MaxSpec | services/api.ts:258 | The maximum is an element of the list and bounds every element |
| Store.SequencesSound | services/api.ts:247-256 | Every used sequence comes from a DMTI of the same year |
| Store.SequencesComplete | services/api.ts:247-256 | Every DMTI of the year with a numeric suffix and a short id contributes its sequence |
| Store.NextSequenceSpec | services/api.ts:247-269 | The next sequence exceeds every sequence used in the year and is one more than one of them; with none used it is 428 for 2025 and 1 for other years |
| Store.NextDmtiFollows | services/api.ts:241-287 | When a new DMTI's correlative stays under 36 characters and its sequence fits five digits, the following DMTI of the same year gets the next sequence |
| Store.CorrelativeReadsBack | services/api.ts:271-275 | The last five characters of a correlative read back as its sequence |
| Store.ApiService.constructor | services/api.ts:31-65 | The store starts with the one admin account ("administrador", the hash of "InporseAdmin2024!", ADMIN, no permission entries), the seed clients and drivers flagged not deleted, the seed trucks and trailers typed and flagged not deleted, each under its fresh id, the seed trips, no DMTIs and the counter at the number of seed trips |
| Store.Seeded | services/api.ts:50-57 | Every seed record carries its fresh id and the fields seeding fixes, and keeps the constant's other fields |
| Store.SeededSoftDelete | services/api.ts:50-57 | Deleting a seeded record only sets its flag: the list keeps its length and the found record reads as deleted |
| Store.AdminLogsIn | services/api.ts:39-47 | The seeded admin logs in with exactly the seeded username and password and comes back as an ADMIN with no permission entries |
| Store.ApiService.SetList | services/api.ts:67-78 | Replaces exactly the named list |
| Store.ApiService.Create | services/api.ts:106-115 | Appends exactly one record, the data under the fresh id, and returns it; every other list is unchanged |
| Store.ApiService.Update | services/api.ts:117-131 | An unknown id is rejected with "Item not found" and nothing changes; otherwise the list becomes the updated list and the new record is returned |
| Store.ApiService.Delete | services/api.ts:133-156 | The list becomes its delete (soft, hard or no-op); every other list is unchanged |
| Store.ApiService.Recover | services/api.ts:158-169 | The list becomes its recovery; every other list is unchanged |
| Store.ApiService.Login | services/api.ts:81-95 | Nothing when no user matches both username and hash; otherwise the first match without its password |
| Store.ApiService.CreateUser | services/api.ts:181-202 | A taken username is rejected and nothing changes; otherwise a USER with the hashed password is appended and returned without its password |
| Store.ApiService.UpdateUser | services/api.ts:204-220 | An unknown id is rejected unchanged; otherwise only that user's permissions are replaced |
| Store.ApiService.UpdateUserPassword | services/api.ts:226-238 | An unknown id is rejected unchanged; otherwise only that user's hash is replaced |
| Store.ApiService.CreateDmti | services/api.ts:241-287 | Appends the new DMTI under the next correlative of its year |
| Store.ApiService.NextServiceOrder | services/api.ts:290-298 | The counter goes up by exactly one and the order is formatted from the new value |
| TripEvents.AddEvent | components/TripManager.tsx:19-76 | A form without a type is refused; a typed form is refused exactly when its event cannot be built; an accepted event yields the old log plus the new event, stably sorted by time |
| TripEvents.NewEventRejects | components/TripManager.tsx:20-71 | Refused exactly when a Movement lacks a numeric amount, a Refuel lacks numeric gallons or price or a document, an Unhook lacks a numeric cost, or a StayStart lacks a numeric rate |
| TripEvents.NewEventPayload | components/TripManager.tsx:24-71 | The new event has the form's type, "now" and the notes, and carries exactly the fields its type uses: parsed numbers, and the trimmed document |
| TripEvents.AddEventAppendsLatest | components/TripManager.tsx:73 | A log in time order with no later entries simply gets the new event at its end |
| Domain.FirstOfTypeSpec | components/TripManager.tsx:363-364 | `find` gives nothing exactly when no event has the type, and otherwise an event of that type with none of that type before it |
| TripSave.CeilDaysBounds | components/TripManager.tsx:374 | The started days are the least whole number of days covering a positive stay |
| TripSave.AssignmentDemurrageCases | components/TripManager.tsx:363-378 | An assignment contributes rate times started days between its first StayStart and first StayEnd; it contributes 0 without either event, without a positive rate or without a positive stay |
| TripSave.TripDemurrageNonNegative | components/TripManager.tsx:360-379 | The demurrage total is never negative |
| TripSave.ComputeDemurrage | components/TripManager.tsx:360-379 | The loop computes the sum of the assignments' demurrage |
| TripSave.UnhookIsSumOfCostedUnhooks | components/TripManager.tsx:381-391 | The unhook total is the sum of unhookCost over every Unhook event with a non-zero cost, across all assignments |
| TripSave.ComputeUnhook | components/TripManager.tsx:381-391 | The nested loop computes that total |
| TripSave.CleanAssignment | components/TripManager.tsx:402-404 | Container trips blank the merchandise, other cargo the container number, and nothing else changes |
| TripSave.CleanAssignments | components/TripManager.tsx:438-442 | Every assignment cleaned, in order |
| TripSave.CleanupIdempotent | components/TripManager.tsx:402-404 | Cleaning twice is cleaning once |
| TripSave.CleanupKeepsTotals | components/TripManager.tsx:393-404 | Cleanup does not change the demurrage or unhook totals |
| TripSave.WithDefaultInvoice | components/TripManager.tsx:405-407 | A Completed trip without an invoice status gets Active; any other trip is unchanged |
| TripSave.ClearDrafts | components/TripManager.tsx:439 | A new trip's assignments keep no DMTI form data and are otherwise unchanged |
| TripSave.SubmitTrip | components/TripManager.tsx:348-456 | Completion without an ended empty return is refused before anything else; an edit becomes an update stamped "now"; a new DMTI trip without a client or assignment is refused with the client message, one with an assignment lacking its container or starting customs with the container message, and otherwise it is created |
| TripSave.SubmitTripStores | components/TripManager.tsx:393-453 | A saved trip stores the recomputed demurrage and unhook totals, cleaned assignments and an invoice status when Completed; the invoice status is the form's own, or Active when a completed trip has none; a new trip stores the store's service order and asks for the DMTI declarations of its assignments; every other field of the form is stored unchanged |
| TripViews.SomeAssignmentMatchesSpec | components/TripManager.tsx:734-735 | The search hits an assignment exactly when some assignment's container number or merchandise matches |
| TripViews.FilteredTripsSpec | components/TripManager.tsx:723-744 | The list holds exactly the visible trips that match the search (all visible ones for an empty term), each exactly as often as in the input, newest first |
| TripViews.AllTripsSpec | components/TripManager.tsx:723-732 | With an empty term, exactly the visible trips, newest first |
| TripViews.SearchedTripsSpec | components/TripManager.tsx:733-744 | With a term, exactly the visible trips that match, newest first |
| TripViews.AlertIdsSpec | components/TripManager.tsx:673-694 | A trip id is flagged exactly when some trip with that id is In Progress, not deleted, and has an assignment that arrived over a day ago with no StayStart |
| TripViews.DemurrageAlerts | components/TripManager.tsx:673-694 | The loop builds exactly that set |
| TripViews.RecommendedTruckSpec | components/TripManager.tsx:290-304 | The truck chosen is the first non-deleted Active truck with the driver's plate; it is '' with no such driver, no plate or no such truck |
| TripViews.ChangeAssignment | components/TripManager.tsx:286-311 | Choosing a driver also sets the recommended truck; cost is parsed with 0 as the fallback; the truck, trailer or container field takes the text as given, and the merchandise field takes it as the set value, with nothing else changed; the events, id and DMTI data are kept |
| TripViews.ChangeAssignmentAt | components/TripManager.tsx:286-288 | Only the assignment at the index changes |
| Occupancy.LastEventSpec | components/TripManager.tsx:655-656 | The latest event is none exactly for an empty log; otherwise it is an event of the log with the greatest timestamp |
| Occupancy.TripSteps | components/TripManager.tsx:646-648 | One step per assignment of the trip, in order |
| Occupancy.LastMark | components/TripManager.tsx:646-668 | The last step that marks the trailer, or none when no step marks it |
| Occupancy.FoldStepsSpec | components/TripManager.tsx:646-668 | Last writer wins: a marked trailer carries the entry of its last marking step; an unmarked one keeps its starting entry |
| Occupancy.InitialTableSpec | components/TripManager.tsx:642-644 | Every trailer starts with the starting entry ('Disponible') |
| Occupancy.TripTableSpec | components/TripManager.tsx:639-671 | A trailer is in use exactly when an assignment of an active trip holds it (no events, or a latest event other than EmptyReturnEnd); its entry names the last holder's driver (or 'N/A') and service order |
| Occupancy.TripTrailerInfo | components/TripManager.tsx:639-671 | The trip screen's loops build exactly that table |
| Occupancy.DisplayStatusInline | components/ResourceManager.tsx:152-157 | The label is the cargo identifier (or 'Carga no especificada'), " / " and the latest event's type, or 'Sin Eventos' |
| Occupancy.MarkInUse | components/ResourceManager.tsx:145-165 | A holding assignment overwrites its trailer's entry; any other leaves the table unchanged |
| Occupancy.ResourceTrailerInfo | components/ResourceManager.tsx:130-171 | The resource screen's loops build exactly the resource table |
| Occupancy.CopiesAgree | components/ResourceManager.tsx:130-171 | The resource screen's table has the same trailers as the trip screen's and, for each, the same status, driver and service order |
| Occupancy.ResourceTableLabels | components/ResourceManager.tsx:133-164 | An available trailer reads 'Disponible'; one in use shows the cargo and latest event of its last holder |
| Occupancy.EligibilitySpec | components/TripManager.tsx:545-546 | A trailer is refused exactly when an active trip holds it and its last holder is a trip with a different service order from the edited trip (any holder while creating): no holder, or a last holder with the edited trip's service order, allows it |
| Resources.TruckIds | components/ResourceManager.tsx:184-197 | The trucks named by some refill |
| Resources.AddRefillsAppend | components/ResourceManager.tsx:188-196 | Adding refills in two batches is adding them in one |
| Resources.AddRefillsKeys | components/ResourceManager.tsx:188-196 | A truck has an entry exactly when it had one or some refill names it |
| Resources.AddRefillsValue | components/ResourceManager.tsx:188-196 | A truck's entry grows by the sum of that truck's gallons |
| Resources.FuelTableSpec | components/ResourceManager.tsx:173-201 | In the truck view, a truck has an entry exactly when some refill of the month names it, and the entry is the sum of those gallons; other views get an empty table |
| Resources.EventRefillsSpec | components/ResourceManager.tsx:188-196 | A refill comes from a Refuel of the log with non-zero gallons inside the month |
| Resources.TripsRefillsSpec | components/ResourceManager.tsx:184-197 | A credited refill comes from such a Refuel of an assignment with a truck, on any trip whatever its status or deleted flag |
| Resources.AssignmentsRefillsSpec | components/ResourceManager.tsx:184-197 | The same over one trip's assignments, skipping those without a truck |
| Resources.AddEventRefuels | components/ResourceManager.tsx:188-196 | The innermost loop adds exactly the log's refills |
| Resources.AddTripRefuels | components/ResourceManager.tsx:184-197 | The middle loop adds exactly the trip's refills |
| Resources.MonthlyFuelConsumption | components/ResourceManager.tsx:173-201 | The loops build exactly the fuel table |
| Resources.Sizes | components/ResourceManager.tsx:203-207 | The non-empty trailer sizes |
| Resources.UniqueTrailerSizes | components/ResourceManager.tsx:203-207 | In the trailer view, each non-empty trailer size exactly once, in the order the trailers first show it; nothing in other views |
| Resources.BySizeSpec | components/ResourceManager.tsx:244-246 | The size filter applies only in the trailer view and only when set |
| Resources.ByStatusSpec | components/ResourceManager.tsx:247-249 | The status filter applies only in the trailer view and only when set, on the occupancy status |
| Resources.FilteredVehiclesSpec | components/ResourceManager.tsx:236-252 | The chain of filters is one filter by all the conditions together, in the input order |
| Resources.FilteredVehiclesMembers | components/ResourceManager.tsx:236-252 | A vehicle is listed exactly when it is visible (an admin asking for deleted items sees only those, everyone else only live ones) and passes every filter that is set |
| Resources.InitialForm | components/ResourceManager.tsx:14 | The form starts from the edited record; a new truck starts Active; anything else starts empty |
| Resources.SaveData | components/ResourceManager.tsx:23-27 | Saving forces isDeleted to false and gives a truck without a status the Active status; every other field is kept |
| Resources.CreateData | components/ResourceManager.tsx:38-39 | A created truck or trailer also gets its type |
| Resources.SaveResource | components/ResourceManager.tsx:21-50 | An edit updates the record with the saved data; a new record is created with the created data; only that list changes |
| DriverPayments.SeedSpec | components/ReportManager.tsx:28-38 | Exactly the non-deleted drivers get a tally, at zero with no trips and the driver's name |
| DriverPayments.SeedReport | components/ReportManager.tsx:28-38 | The loop builds the seed and the order of its keys |
| DriverPayments.MovementTargetSpec | components/ReportManager.tsx:70-85 | A movement goes to a driver with a tally: the assigned driver first, then the driver the notes name, then the assignment's driver (and no other); it goes unpaid exactly when no tier names a tallied driver and the assignment's driver has no tally |
| DriverPayments.ChooseTarget | components/ReportManager.tsx:71-78 | The first two tiers, as the code chooses them |
| DriverPayments.CreditAssignments | components/ReportManager.tsx:57-63 | Each cost goes to its driver's tally, if any, which also records the trip |
| DriverPayments.CreditMovement | components/ReportManager.tsx:70-85 | A paid movement's amount goes to the tally the tiers choose; other events change nothing |
| DriverPayments.CreditMovements | components/ReportManager.tsx:69-86 | One assignment's log, event by event |
| DriverPayments.CreditTripMovements | components/ReportManager.tsx:68-87 | One trip's assignments, each crediting its movements |
| DriverPayments.CreditTrip | components/ReportManager.tsx:40-88 | A deleted trip is skipped; otherwise its assignments are credited when it is Completed and in the window, then its movements whatever its status and date |
| DriverPayments.BuildReport | components/ReportManager.tsx:24-88 | The loops build exactly the seeded tallies with every trip's credits applied |
| DriverPayments.ApplyAllSpec | components/ReportManager.tsx:40-88 | Each tally ends as its seed plus its share of the credits; no tally is added or removed |
| DriverPayments.ReportSpec | components/ReportManager.tsx:24-90 | A driver has a tally exactly when a non-deleted driver has that id; its amount is its paid assignment costs plus the movements the summary gives it; its trips are those assignments' trips |
| DriverPayments.RowsOfSpec | components/ReportManager.tsx:90-96 | The rows are exactly the rows of the tallies |
| DriverPayments.ChosenSpec | components/ReportManager.tsx:96 | The driver filter keeps exactly the chosen driver's row when one is chosen |
| DriverPayments.RowsSorted | components/ReportManager.tsx:98 | The rows are sorted by amount, largest first |
| DriverPayments.RowsSound | components/ReportManager.tsx:90-98 | Every shown row is a tally's row, passes the driver filter and has trips or pay |
| DriverPayments.RowsComplete | components/ReportManager.tsx:90-98 | Every tally that passes the driver filter and has trips or pay is shown |
| DriverPayments.DriverById | components/ReportManager.tsx:103-104 | The first driver with the id, or none when no driver has it |
| DriverPayments.ViewDetails | components/ReportManager.tsx:102-157 | The drill-down is nothing for an unknown driver; otherwise the paid assignments and the movements under the rule, newest first |
| DriverPayments.CollectAssignments | components/ReportManager.tsx:108-129 | The driver's assignments on Completed, non-deleted trips inside the window |
| DriverPayments.CollectMovements | components/ReportManager.tsx:131-153 | The movements the rule gives the driver, on non-deleted trips |
| DriverPayments.CollectTripMovements | components/ReportManager.tsx:132-152 | One trip's movements for the driver |
| DriverPayments.CollectEventMovements | components/ReportManager.tsx:133-151 | One assignment's movements for the driver |
| DriverPayments.SummaryRuleDetailsMatchReport | components/ReportManager.tsx:24-157 | Under the summary's attribution rule, the drill-down adds up to the driver's summary amount and lists the same trips |
| DriverPayments.AsWrittenWithinSummary | components/ReportManager.tsx:136-145 | Each movement the drill-down lists for a driver with a tally is one the summary pays that driver |
| DriverPayments.AsWrittenMissesUnmatchedNotes | components/ReportManager.tsx:136-145 | A movement with no assigned driver and notes matching nobody is paid to the assignment's driver, but is missing from that driver's drill-down |
| DriverPayments.AsWrittenMissesUntalliedDriver | components/ReportManager.tsx:136-145 | The same for a movement that names a driver without a tally |
| DriverPayments.FallbackCaseSummary | components/ReportManager.tsx:70-85 | In the counterexample family, the summary owes the driver the movement's amount |
| DriverPayments.FallbackCaseDrillDown | components/ReportManager.tsx:136-145 | In the same family, the drill-down lists nothing and totals 0 |
| DriverPayments.DrillDownOmitsFallbackMovement | components/ReportManager.tsx:136-145 | So the drill-down's grand total differs from the summary amount for the same driver |
| DriverPayments.FallbackCaseExample | components/ReportManager.tsx:136-145 | One concrete input of that family |
| Profitability.TripRevenue | components/ProfitabilityReport.tsx:39-57 | The revenue lines are the specified ones, and the total is their sum |
| Profitability.PushAssignmentRevenue | components/ProfitabilityReport.tsx:41-49 | One assignment's freight line and its DMTI line if the DMTI cost is non-zero, with the running total |
| Profitability.PushTripCharges | components/ProfitabilityReport.tsx:50-57 | The unhook and demurrage lines when non-zero, with the running total |
| Profitability.TripCost | components/ProfitabilityReport.tsx:60-79 | The cost lines are the specified ones, and the total is their sum |
| Profitability.PushEventCost | components/ProfitabilityReport.tsx:68-77 | A paid Movement gives its amount; a Refuel with non-zero gallons and price gives gallons times price; any other event gives nothing |
| Profitability.PushEventCosts | components/ProfitabilityReport.tsx:68-78 | One assignment's events in order |
| Profitability.PushAssignmentCost | components/ProfitabilityReport.tsx:62-79 | The driver's payment line, then the event lines |
| Profitability.TripProfitability | components/ProfitabilityReport.tsx:37-92 | One trip's row is the specified entry |
| Profitability.RevenueTotal | components/ProfitabilityReport.tsx:39-57 | Total revenue is every assignment's cost plus DMTI cost, plus the stored unhook cost and demurrage |
| Profitability.AssignmentsRevenueTotal | components/ProfitabilityReport.tsx:41-49 | The assignment revenue lines add up to cost plus DMTI cost |
| Profitability.EventCostTotal | components/ProfitabilityReport.tsx:68-77 | An event's cost lines add up to its expense |
| Profitability.EventsCostTotal | components/ProfitabilityReport.tsx:68-78 | A log's cost lines add up to the sum of its events' expenses |
| Profitability.AssignmentsCostTotal | components/ProfitabilityReport.tsx:62-79 | The cost lines add up to each assignment's cost plus its events' expenses |
| Profitability.CostTotal | components/ProfitabilityReport.tsx:60-79 | Total cost is the sum over assignments of cost plus movements and fuel |
| Profitability.ProfitIdentity | components/ProfitabilityReport.tsx:41-81 | Profit is DMTI plus stored unhook plus stored demurrage, less movements and fuel: the freight cancels out |
| Profitability.RevenueLineCount | components/ProfitabilityReport.tsx:39-57 | One revenue line per assignment, per non-zero DMTI cost, and one each for a non-zero unhook cost and demurrage |
| Profitability.MarginSpec | components/ProfitabilityReport.tsx:82 | The margin is profit over revenue in percent when there is revenue, exactly 0 otherwise, and at most 100 when costs are not negative |
| Profitability.EntryMargin | components/ProfitabilityReport.tsx:82 | A row's margin obeys the same rule |
| Profitability.SelectedSpec | components/ProfitabilityReport.tsx:25-35 | The chain of filters keeps exactly the Completed, non-deleted trips updated from the first chosen day to the end of the last, in order |
| Profitability.TripEntries | components/ProfitabilityReport.tsx:37-92 | The map over the selected trips |
| Profitability.ProfitabilityData | components/ProfitabilityReport.tsx:24-95 | The report is the selection mapped to rows and sorted |
| Profitability.ReportSorted | components/ProfitabilityReport.tsx:93 | Rows are newest update first |
| Profitability.ReportCount | components/ProfitabilityReport.tsx:25-37 | One row per selected trip |
| Profitability.ReportSound | components/ProfitabilityReport.tsx:24-95 | Every row is the row of a Completed, non-deleted input trip updated in the range |
| Profitability.ReportRows | components/ProfitabilityReport.tsx:24-95 | Up to order, the rows are the included trips' rows, each as often as the trip occurs in the input |
| Profitability.ReportComplete | components/ProfitabilityReport.tsx:24-95 | Every such trip has its row |
| WorkOrders.ClientKey | components/WorkOrderManager.tsx:13 | The client name, or 'Cliente no especificado' when it is empty; never empty |
| WorkOrders.ClientKeys | components/WorkOrderManager.tsx:12-19 | The key of each trip, in order |
| WorkOrders.BucketsSpec | components/WorkOrderManager.tsx:12-19 | The accumulator has a key per client that occurs, and each key's list is that client's trips in order |
| WorkOrders.InBucket | components/WorkOrderManager.tsx:12-19 | A trip is in the bucket of its own client and in no other |
| WorkOrders.SortedGroups | components/WorkOrderManager.tsx:22-24 | Sorting groups keeps the keys |
| WorkOrders.GroupMembership | components/WorkOrderManager.tsx:9-27 | A trip is in some group exactly when it is Completed and not deleted, and then only in its client's group |
| WorkOrders.GroupsSorted | components/WorkOrderManager.tsx:22-24 | Each group is newest first and is a permutation of that client's work orders |
| WorkOrders.SortedClientsSpec | components/WorkOrderManager.tsx:37 | The listed clients are exactly the keys of the grouping, each once, in strictly ascending string order |
| WorkOrders.BucketTrips | components/WorkOrderManager.tsx:12-19 | The reduce fails when a trip's client key is a name inherited from `Object.prototype`, and otherwise builds exactly the buckets |
| WorkOrders.SortEachGroup | components/WorkOrderManager.tsx:22-24 | The loop sorts each group |
| WorkOrders.GroupWorkOrdersByClient | components/WorkOrderManager.tsx:9-27 | The grouping as the screen computes it: none when a work order's client key is inherited, otherwise the sorted buckets of the work orders |
| WorkOrders.GroupedAsWrittenSpec | components/WorkOrderManager.tsx:9-27 | The grouping fails exactly when some work order's client key is an inherited name; otherwise it is the groups |
| WorkOrders.ConstructorClientFails | components/WorkOrderManager.tsx:12-19 | A completed order of a client named "constructor" makes the grouping fail, while the intended grouping lists it under that client |
| WorkOrders.StatusOf | components/WorkOrderManager.tsx:115 | A missing invoice status counts as Active |
| WorkOrders.InvoicedOrdersSpec | components/WorkOrderManager.tsx:115-116 | Group size less the active count is the number of invoiced orders, between 0 and the group size |
| WorkOrders.OrderTotalIsRevenue | components/WorkOrderManager.tsx:139 | An order's total is the profitability report's total revenue for that trip |
| WorkOrders.Toggle | components/WorkOrderManager.tsx:39-57 | The key is added when absent and removed when present; other members are unchanged |
| WorkOrders.ToggleTwice | components/WorkOrderManager.tsx:39-57 | Toggling twice restores the set |
| WorkOrders.Expansion.constructor | components/WorkOrderManager.tsx:33-34 | Both sets start empty |
| WorkOrders.Expansion.ToggleClient | components/WorkOrderManager.tsx:39-47 | Toggles the client in its set, leaving the other set |
| WorkOrders.Expansion.ToggleOrder | components/WorkOrderManager.tsx:49-57 | Toggles the order in its set, leaving the other set |
| WorkOrders.Expansion.ExpandForPrint | components/WorkOrderManager.tsx:77-79 | Printing leaves the order expanded |
| WorkOrders.InvoicedPatch | components/WorkOrderManager.tsx:66 | The update sends only the invoice status, as Invoiced |
| WorkOrders.MarkAsInvoiced | components/WorkOrderManager.tsx:59-73 | Without edit permission an alert and no change; unconfirmed, no change; otherwise the trip is updated, an unknown id giving the error alert; no other list changes |
| WorkOrders.InvoicedPatchOnlyStatus | components/WorkOrderManager.tsx:66 | The update keeps every field of the order except the invoice status |
| WorkOrders.MarkedInvoiced | components/WorkOrderManager.tsx:66 | A marked order reads as billed and not active |
| WorkOrders.MarkedInvoicedStays | components/WorkOrderManager.tsx:173 | A marked order stays a work order in the same group with the same total, and its button is disabled |
| DmtiSearch.EmptySearchKeepsAll | components/DMTIManager.tsx:26 | An empty search keeps every DMTI, reordered newest first |
| DmtiSearch.FilteredDmtisSpec | components/DMTIManager.tsx:23-35 | The result is newest first, holds every matching DMTI exactly as often as the input, and holds a DMTI exactly when it matches client, container or id ignoring case |
| DmtiSearch.FilteredDmtisNewestFirst | components/DMTIManager.tsx:34 | Creation times do not increase along the result |
| DmtiSearch.HandleDelete | components/DMTIManager.tsx:15-21 | Without delete permission or confirmation nothing changes; otherwise the store deletes the record; no other list changes |
| ClientImport.RowErrorMessage | components/ClientManager.tsx:143 | A row's message starts "Fila " |
| ClientImport.MissingIsFilter | components/ClientManager.tsx:112 | The check is the filter of the required headers |
| ClientImport.MissingMembers | components/ClientManager.tsx:112 | A header is missing exactly when the first row lacks it |
| ClientImport.MissingHeadersSpec | components/ClientManager.tsx:110-116 | A header is reported missing exactly when it is required and absent; nothing is missing exactly when every required header is present |
| ClientImport.CellTextSpec | components/ClientManager.tsx:125-131 | A missing cell is blank, a text cell is trimmed |
| ClientImport.CompanySizeOf | components/ClientManager.tsx:128 | A size label is kept; anything else becomes Pequeña |
| ClientImport.NumberOrZero | components/ClientManager.tsx:132-133 | A cell that is not a number gives 0; a number is kept |
| ClientImport.NormalizedTextTrimmed | components/ClientManager.tsx:125-131 | Set text fields have no surrounding blanks |
| ClientImport.NormalizedTextCells | components/ClientManager.tsx:125-126 | The business name and tax id are blank when their column is missing, and trimmed text when it is text |
| ClientImport.NormalizedSize | components/ClientManager.tsx:128 | A size outside the labels becomes the small size |
| ClientImport.FeeOf | components/ClientManager.tsx:132-133 | A cell that is not a number is 0; a numeric cell is its value |
| ClientImport.NormalizedFees | components/ClientManager.tsx:132-133 | The row's fees obey that rule |
| ClientImport.ToRecKeys | components/ClientManager.tsx:124-134 | The record holds exactly the nine columns, with no id and no deleted flag |
| ClientImport.ToRecSpec | components/ClientManager.tsx:124-134 | Each column of the record is the normalised field |
| ClientImport.AcceptedPlusErrors | components/ClientManager.tsx:118-147 | Created count plus error count is the number of rows |
| ClientImport.ImportOutcomeSpec | components/ClientManager.tsx:106-147 | An empty sheet or a missing column gives one error and no client; otherwise successes and errors add up to the rows; the success count is the number of clients created |
| ClientImport.RowErrorsSpec | components/ClientManager.tsx:136-143 | The error list names exactly the rejected rows, each by its sheet row number |
| ClientImport.AcceptedIdsAmong | components/ClientManager.tsx:140 | Every created record carries one of the given ids |
| ClientImport.AcceptedOnce | components/ClientManager.tsx:118-147 | With distinct ids, an accepted row is created exactly once |
| ClientImport.ImportedAreHardDeleted | services/api.ts:133-156 | Imported clients have no deleted flag, so a delete removes them |
| ClientImport.AcceptedHaveNoFlag | components/ClientManager.tsx:124 | No imported record has a deleted flag |
| ClientImport.NextIdFresh | components/ClientManager.tsx:140 | The id the next row gets is not yet on the client list |
| ClientImport.ImportClients | components/ClientManager.tsx:106-147 | The import reports the specified outcome and appends exactly the created records |
| ClientImport.ImportRows | components/ClientManager.tsx:118-145 | The row loop counts the accepted rows, collects the errors in order and appends the accepted records |
| ClientImport.ImportRow | components/ClientManager.tsx:122-144 | A row without business name or tax id adds its error; otherwise it is created |
| ClientImport.InitialClientForm | components/ClientManager.tsx:16-30 | Editing starts from a copy of the client; a new client starts from the blank form |
| ClientImport.InitialClientFormBlank | components/ClientManager.tsx:18-29 | A new client starts Pequeña, not deleted, with zero fees and blank text |
| ClientImport.FormChange | components/ClientManager.tsx:34-41 | The fee fields keep the parsed number or 0; other fields keep the text; nothing else changes |
| ClientImport.FormChangeLastWins | components/ClientManager.tsx:34-41 | Only the last input to a field counts |
| ClientImport.SubmitClientForm | components/ClientManager.tsx:43-55 | An edit updates the client, and an unknown id leaves the list unchanged; a new client is appended under the fresh id |

## Left out

- React rendering, modals, routing, print handling and `components/ui`:
  these are pure UI.
- Latency (`setTimeout`), Promise wrapping and `reloadData`: store
  operations are synchronous methods.
- `window.confirm` and `alert`: the confirmation is a boolean parameter;
  an alert is a returned message.
- The wall clock and local time: "now", the current month and the DMTI
  year are parameters. The local-time year of a UTC midnight
  (services/api.ts:244) is taken from the date's four-digit prefix; its
  time-zone shift is not modelled.
- uuid: a fresh id is a parameter, required not to be on the list yet.
- Floating point: money is exact `real`. `parseFloat` and `Number` are
  modelled as partial parses (`ParseFloat`, `NumericInput`), `None`
  standing for NaN. `toFixed` is not modelled.
- XLSX and `FileReader`: the import starts from the parsed rows. How
  numbers turn into text (`String(number)`) is a parameter `numberText`.
  An object cell reads as "[object Object]", as `String` gives. A list
  cell reads as "", where `String` would join its elements with commas,
  and `NumberOf` reads a list cell as NaN, where `Number([5])` is 5 and
  `Number([])` is 0. `sheet_to_json` yields neither kind of cell.
- ClientImport.ImportRows: the 'Error desconocido' branch is not modelled,
  because every error thrown in the row loop has a message.
- Store.ApiService.SetList: the unknown-resource error is not modelled,
  because `Resource` names only the seven lists.
- TripViews.ChangeAssignment: the in-place change of the assignment object
  is modelled as a new value, so aliasing with the form state is not
  captured. The same holds for the edit branch of TripSave.SubmitTrip,
  which blanks the cargo fields of the form's own assignment objects.
- TripEvents.AddEvent: the event form's reset after adding is not
  modelled.
- TripSave.SubmitTrip: returns what to ask of the store instead of calling
  it. The service order is passed in, the defaults of
  `getInitialFormData` are not merged into a new trip, and a throwing
  store call is not modelled.
- TripSave.DmtiRequests: states only a bound on the number of
  declarations. Its content is fixed by its definition, and
  TripSave.SubmitTripStores states where it is used.
- Store.NextDmtiFollows: holds only when the correlative is shorter than 36
  characters and the sequence fits five digits. Otherwise the store's own
  filter ignores the new id.
- Store.ServiceOrderSpec: holds only for counters below 10000. Past that
  the padding no longer fixes the width.
- The delete and recover handlers of the trip, resource and client screens:
  they are the store's Delete and Recover behind a permission and a
  confirmation, in the same way as DmtiSearch.HandleDelete.
- The trip form's other handlers (process type, general fields, DMTI
  fields, adding or removing assignments): these are form plumbing.
- Profitability: the margin is a derived member of the row, not a stored
  field.
- JavaScript string order compares UTF-16 code units; the model uses
  code points, which agree on the Basic Multilingual Plane.
- Store.FakeHash: `split('').reverse()` reverses UTF-16 code units, so a
  character above U+FFFF is stored with its surrogate pair swapped, while
  the model reverses whole characters. Login and FakeHashInjective put
  both sides through the same function, so they hold either way.
- Text.LowerChar: lowers only ASCII and Latin-1 capitals. JavaScript's
  `toLowerCase` also lowers the other Unicode capitals (Latin Extended,
  Greek, Cyrillic and more), so searches and name keys over such text can
  differ; the full Unicode case table is out of scope.
- Store.RegistrationYear: reads the year of any `YYYY-MM-DD`-shaped date,
  so "2024-13-45" gives 2024 where the source's `Date` gives NaN. The
  date picker only produces real dates, so this case does not arise on
  the screen.
- The dashboard (`components/Dashboard.tsx`): chart bucketing by local
  date.
- Seed data generation (`constants.ts`): the seed constants and the
  randomly generated trips are parameters of the store's constructor; the
  admin account's username and password are fixed as in the source.
- The six-character password check in `components/Layout.tsx`, the login
  screen and `sessionStorage`: these are session plumbing.

## Findings

| source | as written | input that shows it | evidently intended | confidence | as-written member | corrected member |
|---|---|---|---|---|---|---|
| components/ReportManager.tsx:136-145 | The drill-down lists a movement for a driver only when the movement names that driver, or names no driver and its notes map to them, or has neither and the assignment is theirs. The summary (components/ReportManager.tsx:70-85) falls back to the assignment's driver whenever the earlier tiers find no driver with a tally. | One non-deleted driver d1 and one trip under way. The trip has a single assignment of d1, with one 20.0 Movement that names driver d0 (who has no tally) and has no notes. The summary pays d1 20.0; the drill-down for d1 lists nothing and totals 0. | The drill-down lists exactly the movements the summary pays the driver, so its grand total equals the summary amount | not executed | DriverPayments.DrillDownOmitsFallbackMovement | DriverPayments.SummaryRuleDetailsMatchReport |
| components/WorkOrderManager.tsx:12-19 | The groups are built on a plain `{}` object, so for a client name inherited from `Object.prototype` the test `!acc[clientName]` sees the inherited value, starts no list, and the `push` onto it throws a TypeError. | One completed, non-deleted trip for the client "constructor": `acc.constructor` is the `Object` function, which has no `push`, so the work-order screen fails. | Every work order is listed under its own client, whatever the client is called | not executed | WorkOrders.ConstructorClientFails | WorkOrders.GroupMembership |
