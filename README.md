# Freelancer time tracking: billing rules, entry form and CSV import

This project models, in Dafny, the computed rules of a small time-tracking
web application for a freelancer. The application keeps clients, projects
and time entries in a hosted relational store and computes everything else
in the browser. Three parts of it are modelled and proved.

- **The dashboard (`app/page.tsx`).**
  - The hourly rate of an entry: the project's rate, else its client's rate, else 0. JavaScript truthiness applies, so a rate of 0 counts as missing.
  - The client and month filter.
  - The month totals and gross = net × 1.19.
  - The per-client breakdown, built in an insertion-ordered dictionary and sorted by revenue.
  - The "this week" card.
  - The tab-separated clipboard export.
  - The month-name lookup.
- **The time-entry page (`app/time/page.tsx`).**
  - The client-only rate and the month filter, where an empty month means no filter.
  - The row amount.
  - The entry form as a state machine over `formData`, `editingEntry` and `showForm`: new entry, edit, typing, submit and cancel.
- **The two CSV import scripts (`scripts/import-2025.ts`, `scripts/import-csv.ts`).**
  - A collection loop keeps the highest rate per client and the first-seen rate per `client::project` key.
  - A client loop and a project loop look each row up before inserting it.
  - A time-entry loop inserts one entry per usable line.

## How it is organised

- **Modules.**
  - `Collections` holds a filter and an insertion-ordered map. The map is the order a JavaScript `Map` or object iterates in.
  - `Text` holds the string operations used: `split`, `join`, `startsWith`, `padStart`, `trim` and `parseInt`.
  - `Records` holds the row shapes.
  - `Dashboard`, `TimePage`, `ImportStore` and `CsvImport` model the source.
  - `ImportFacts`, `ImportRerun` and `ImportRows` hold the properties of the import. `ImportRows` states which rows a run inserts and at which rates.
- **Pure code and loops.** Pure source expressions are functions. Each loop of the source that updates variables is a `method` with that loop, proved equal to a specification function.
  - `Dashboard.GroupByClient` and `Dashboard.ClientStats` model the `forEach` over `stats`.
  - `CsvImport.CollectPass`, `CreateClients`, `CreateProjects`, `CreateTimeEntries` and `ImportData` model the four loops of the scripts.
- **The page's state.** The time-entry page's state is the class `TimePage.TimePageState`. Its methods are the handlers, and each states the whole new state.
- **The import store.** It is a value `ImportStore.Db` holding the three tables and an id counter. Whether an insert succeeds is a `Policy` parameter, so the scripts' error branches are modelled.
  - A `.single()` lookup finds a row only when exactly one row matches.
- **Parameters.** Numbers are exact reals. `parseFloat`, `toString`, `toFixed(2)`, the `de-DE` date rendering and the current time are parameters.
- **Dates.** A date is its `YYYY-MM-DD` string plus a day number counted from 1970-01-01.

The "this week" card follows the code, not its comment.

- The comment at app/page.tsx:90 says the window starts on Monday (`Montag`).
- The filter at app/page.tsx:93 has no upper bound, so entries dated later in the future count too. `Dashboard.ThisWeekHoursSplit` states this for any start day.
- On a Sunday the code's window starts at the following Monday. This case is listed under "## Findings".

## Model

| member | source | states |
|---|---|---|
| Dashboard.HourlyRate | app/page.tsx:41-43 | a non-zero project rate is billed; a project rate of 0 or null falls through to the client's rate (0 without a client); non-negative rates give a non-negative result |
| Dashboard.ZeroProjectRateFallsThrough | app/page.tsx:42 | a project rate of 0 bills exactly like a null one |
| Dashboard.MonthEntries | app/page.tsx:57 | an entry is kept iff its date starts with the month string |
| Dashboard.FilteredEntries | app/page.tsx:46-52 | an entry is kept iff the client matches (`all`, or the project's client id) and its date starts with the month |
| Dashboard.FilteredEntriesAppend | app/page.tsx:47-51 | the filter distributes over concatenation, so relative order is kept |
| Dashboard.FilteredEntriesWithinMonth | app/page.tsx:46-52 | the filter is the client test applied to the month's entries |
| Dashboard.AllClientsIsMonthFilter | app/page.tsx:48 | with `all` the filter is exactly the month filter |
| Dashboard.TotalsAppend | app/page.tsx:59-60 | hours and revenue sums add over concatenation; `TotalHours` and `TotalRevenue` are the two `reduce` folds it is stated about |
| Dashboard.TotalsNonNegative | app/page.tsx:59-60 | non-negative hours and rates give non-negative totals |
| Dashboard.CurrentMonthStats | app/page.tsx:55-63 | the totals are the hours and the hours × rate summed over the month's entries |
| Dashboard.FilteredStats | app/page.tsx:114-118 | the same sums over the filtered entries |
| Dashboard.FilteredStatsOfAllClients | app/page.tsx:114-118 | with `all` clients the filtered totals equal the month totals |
| Dashboard.Gross | app/page.tsx:148 | gross exceeds net by 19 % of net and is at least net for a non-negative net |
| Dashboard.GroupName | app/page.tsx:73 | the client's name when the entry has a client with a non-empty name, otherwise `Unbekannt`, so a group's name is never empty |
| Dashboard.OpenGroup | app/page.tsx:75-77 | an existing group is reused; a new one starts at zero hours and revenue with the entry's name |
| Dashboard.Accumulate | app/page.tsx:79-80 | the group gains the entry's hours and hours × rate and keeps its name |
| Dashboard.AddEntry | app/page.tsx:71-81 | the entry's group becomes its opened-or-found group plus the entry; every other key keeps its presence and its group; at most one key is added |
| Dashboard.Groups | app/page.tsx:69-81 | the dictionary stays well-formed and has at most one key per entry (its contents are stated by `GroupsContents`) |
| Dashboard.InsertByRevenue | app/page.tsx:83 | inserting into a sorted list gives a sorted permutation with the sums increased by the new group |
| Dashboard.SortByRevenue | app/page.tsx:83 | the result is sorted by revenue, largest first, a permutation of the input with the same sums |
| Dashboard.InsertByRevenueStable | app/page.tsx:83 | inserting keeps the order among groups of equal revenue |
| Dashboard.SortByRevenueStable | app/page.tsx:83 | the sort is stable: groups of equal revenue stay in opening order |
| Dashboard.GroupByClient | app/page.tsx:69-81 | the `forEach` loop builds exactly the dictionary the left fold `Groups` describes |
| Dashboard.GroupsContents | app/page.tsx:71-81 | a key has a group iff some entry has that key; its group is named after the first such entry and holds the hours and revenue of exactly those entries |
| Dashboard.GroupKeys | app/page.tsx:72-77 | the dictionary's keys are exactly the client ids of the entries, with all client-less entries under one key |
| Dashboard.GroupsTotals | app/page.tsx:79-80 | the groups' hours and revenue sum to the totals of all the entries |
| Dashboard.ClientStatsOf | app/page.tsx:66-84 | the breakdown is sorted by revenue, a permutation of the month's groups, and its sums equal the month totals |
| Dashboard.ClientStatsOnePerClient | app/page.tsx:66-84 | there is exactly one group per distinct client id among the month's entries |
| Dashboard.ClientStats | app/page.tsx:66-84 | the method computes the breakdown function |
| Dashboard.Weekday | app/page.tsx:90 | `getDay()` of a day number: below 7, and the day minus it is a Sunday |
| Dashboard.WeekStartAsWritten | app/page.tsx:88-91 | `today - getDay() + 1` is a Monday; the one on or before today from Monday to Saturday, the next day on a Sunday |
| Dashboard.WeekStart | app/page.tsx:90 | the Monday on or before today, equal to the written value except on Sundays |
| Dashboard.EntriesSince | app/page.tsx:93 | an entry counts iff it is dated on or after the start |
| Dashboard.SundayWeekStartsTomorrow | app/page.tsx:87-97 | on Sunday 2026-01-11 the written start is the next day and Saturday's 8 h are not counted; the corrected start counts them |
| Dashboard.ThisWeekHoursSplit | app/page.tsx:93-94 | for any start day, so for the written and the corrected start alike, an entry adds its hours iff it is dated on or after the start, with no upper bound |
| Dashboard.ThisWeekHoursAsWritten | app/page.tsx:87-97 | the card as written equals the corrected total from Monday to Saturday; on a Sunday it is 0 when no entry is dated after today |
| Dashboard.ThisWeekHours | app/page.tsx:87-97 | the total from the Monday on or before today; 0 when every entry is dated before that Monday |
| Dashboard.ExportText | app/page.tsx:100-107 | the text starts with the header, and is the header alone when no entry is filtered in |
| Dashboard.ExportLines | app/page.tsx:101-104 | one line per filtered entry, in filter order |
| Dashboard.ExportLineRoundTrip | app/page.tsx:103 | a line without tabs or line breaks in its cells splits at tabs into its six cells |
| Dashboard.ExportHeaderRoundTrip | app/page.tsx:106 | the header splits at tabs into the six column titles |
| Dashboard.ExportRoundTrip | app/page.tsx:100-107 | the text splits at line breaks into the header and one row per filtered entry, each row splitting back into its cells |
| Dashboard.MonthName | app/page.tsx:126 | the twelve-name list's entry for an index from 0 to 11, and `''` for every other index |
| Dashboard.MonthNamesNonEmpty | app/page.tsx:122-123 | twelve non-empty names, each returned by its index |
| Dashboard.SelectedMonthIndex | app/page.tsx:125 | a parsed index is at least -1 (a month part of `00`); no index when the value has no `-` |
| Dashboard.SelectedMonthName | app/page.tsx:125-126 | a month name or `''`; `''` when the value has no `-` |
| Dashboard.SelectedMonthNameOfMonth | app/page.tsx:125-126 | `YYYY-MM` from the month picker shows the name of month MM |
| TimePage.HourlyRate | app/time/page.tsx:102-104 | the entry's client's rate, 0 without a client; a project rate is never read |
| TimePage.RowAmount | app/time/page.tsx:250-251 | non-negative for non-negative hours and rate |
| TimePage.PagesAgreeOnInheritedRate | app/time/page.tsx:102-104 | the table and the dashboard bill alike when the project has no rate of its own |
| TimePage.PagesDisagreeOnProjectRate | app/time/page.tsx:102-104 | a project rate of its own is billed by the dashboard and not by the table |
| TimePage.FilteredEntries | app/time/page.tsx:106-109 | an empty month returns the entries unchanged; otherwise exactly the entries whose date starts with the month |
| TimePage.FilteredEntriesIsMonthFilter | app/time/page.tsx:106-109 | the empty-month shortcut agrees with the month filter, so order is kept in both cases |
| TimePage.EntryDataOf | app/time/page.tsx:53-58 | client and date copied, hours parsed, an empty description sent as null |
| TimePage.WriteOf | app/time/page.tsx:60-71 | an update of the edited entry's id iff an entry is being edited, else an insert, both carrying the payload |
| TimePage.AfterSubmit | app/time/page.tsx:73-78 | client and date kept, hours and description cleared |
| TimePage.EditForm | app/time/page.tsx:86-91 | the form is filled from the entry, with hours rendered and a null description as `''` |
| TimePage.DefaultMonth | app/time/page.tsx:16-18 | the first seven characters of the timestamp (all of it when shorter) |
| TimePage.DefaultDate | app/time/page.tsx:21 | a prefix of the timestamp without a `T`, the whole timestamp when it has none |
| TimePage.DefaultDateInDefaultMonth | app/time/page.tsx:16-24 | the initial form date is the date part of the timestamp and lies in the initial month |
| TimePage.NewEntryForm | app/time/page.tsx:121-126 | the first client's id, or `''` without clients, today's date, empty hours and description |
| TimePage.EditThenSubmit | app/time/page.tsx:84-93 | editing then saving unchanged writes the same entry back (as long as parsing reads back the rendering) |
| TimePage.WithField | app/time/page.tsx:168 | one field replaced, the others kept |
| TimePage.TimePageState.constructor | app/time/page.tsx:11-24 | the initial state: no data, loading, form closed, current month and date |
| TimePage.TimePageState.Refresh | app/time/page.tsx:30-48 | both lists replaced (empty on error), loading cleared, form untouched |
| TimePage.TimePageState.Submit | app/time/page.tsx:50-82 | the write sent, then the form reset and closed and editing ended whatever the outcome |
| TimePage.TimePageState.Edit | app/time/page.tsx:84-93 | editing the entry, the form filled from it and open |
| TimePage.TimePageState.NewEntry | app/time/page.tsx:118-127 | editing ended, a fresh form open |
| TimePage.TimePageState.Cancel | app/time/page.tsx:221 | the form closed and editing ended, typed values kept |
| TimePage.TimePageState.ChangeField | app/time/page.tsx:168 | one field of the form set, nothing else changed |
| TimePage.TimePageState.SelectMonth | app/time/page.tsx:148 | the month set, nothing else changed |
| TimePage.TimePageState.Rows | app/time/page.tsx:249 | the rows are exactly the entries of the selected month |
| Collections.FilterMembership | app/page.tsx:47-51 | an element is kept iff it is in the input and passes the test |
| Collections.OrderedMap.Set | scripts/import-2025.ts:152-160 | a new key goes to the end, an existing key keeps its place, the value is replaced |
| Collections.OrderedMap.Values | app/page.tsx:83 | `Object.values` lists the values in key order |
| Text.SplitPieces | scripts/import-2025.ts:145 | the first piece is a prefix of the string, there is one piece iff the separator does not occur, and no piece contains the separator |
| Text.SplitJoin | scripts/import-2025.ts:145 | splitting a join of separator-free parts gives the parts back |
| Text.PadStart2 | scripts/import-2025.ts:261 | strings of two or more characters unchanged, shorter ones left-padded with `0` to two |
| Text.Trim | scripts/import-2025.ts:138 | the result is the string with only whitespace cut from each end, and no whitespace is left at either end |
| Text.TrimUnchanged | scripts/import-2025.ts:138 | a string without whitespace at its ends is its own trim |
| Text.ParseInt | app/page.tsx:125 | NaN iff the string does not start with a digit |
| ImportStore.FindClient | scripts/import-2025.ts:169-173 | an id iff exactly one client has the name, and it is that row's id |
| ImportStore.FindProject | scripts/import-2025.ts:208-213 | an id iff exactly one project has the name and client id, and it is that row's id |
| ImportStore.AddClient | scripts/import-2025.ts:179-183 | one client row appended with the next id, other tables unchanged |
| ImportStore.AddProject | scripts/import-2025.ts:223-231 | one project row appended with the next id, other tables unchanged |
| ImportStore.AddEntry | scripts/import-2025.ts:266-273 | one entry row appended with the next id, other tables unchanged |
| ImportStore.AddClientUnique | scripts/import-2025.ts:175-191 | inserting a name that has no row keeps names unique |
| ImportStore.AddProjectUnique | scripts/import-2025.ts:215-239 | inserting a project its client does not have keeps projects unique |
| CsvImport.DataLines | scripts/import-2025.ts:138 | the lines hold no line break (their contents are stated by `ImportFacts.DataLinesDropHeader`) |
| CsvImport.ParseRowShape | scripts/import-2025.ts:145 | the date column is always there and starts the line; the client column is missing iff the line has no comma; each column is present only when the one before it is; no column holds a comma |
| CsvImport.NumberOr | scripts/import-2025.ts:148 | the parsed number unless NaN or 0, else the fallback |
| CsvImport.Rate | scripts/import-2025.ts:148 | the rate is never 0 (100 by default) |
| CsvImport.ClientName | scripts/import-2025.ts:149 | `JOAN` becomes `Joan` in the 2025 script; every other name, and every name in the January 2026 script, is unchanged |
| CsvImport.ProjectNameOfKey | scripts/import-2025.ts:199 | the name read from a key never holds `::` (the round trip is `ImportFacts.ProjectKeyRoundTrip`) |
| CsvImport.Collect | scripts/import-2025.ts:144-161 | the collected maps stay well-formed; their contents are stated by ImportFacts.CollectClients and ImportFacts.CollectProjects |
| CsvImport.CollectPass | scripts/import-2025.ts:144-161 | the collection loop computes the fold `Collect` (the January 2026 script repeats it at scripts/import-csv.ts:42-58) |
| CsvImport.ClientStep | scripts/import-2025.ts:168-191 | one client step leaves projects and entries alone and either leaves the store unchanged or, when no row has the name, appends a row with the name and its collected rate |
| CsvImport.ClientStepIds | scripts/import-2025.ts:175-190 | the step records no new id, or records for the name the id of a client row of that name |
| CsvImport.ClientPass | scripts/import-2025.ts:167-192 | the client loop only appends clients, leaves projects and entries alone, and records ids only for its names |
| CsvImport.CreateClients | scripts/import-2025.ts:167-192 | the loop computes `ClientPass` (the January 2026 script repeats it at scripts/import-csv.ts:64-89) |
| CsvImport.NewProjectRate | scripts/import-2025.ts:219-221 | null iff the first-seen rate equals the client's recorded rate, else that rate (the January 2026 script repeats it at scripts/import-csv.ts:116-118) |
| CsvImport.ProjectStep | scripts/import-2025.ts:199-239 | one project step leaves clients and entries alone and either leaves the store unchanged or, when the client has an id and no project of the key's name, appends one with that name, client id and `NewProjectRate` |
| CsvImport.ProjectStepIds | scripts/import-2025.ts:215-238 | the step records no new id, or records for the key the id of a project row of its name and client |
| CsvImport.ProjectPass | scripts/import-2025.ts:198-240 | the project loop only appends projects, leaves clients and entries alone, and records ids only for its keys |
| CsvImport.CreateProjects | scripts/import-2025.ts:198-240 | the loop computes `ProjectPass` (the January 2026 script repeats it at scripts/import-csv.ts:95-137) |
| CsvImport.Year | scripts/import-2025.ts:261 | `2026` in the January 2026 script; in the 2025 script the `jahr` column, or `undefined` without one |
| CsvImport.EntryDateShape | scripts/import-2025.ts:259-261 | no date iff the date column has no dot; a date starts with the year and `-` |
| CsvImport.Hours | scripts/import-2025.ts:264 | the parsed hours when they parse, else 0 |
| CsvImport.EntryLineCases | scripts/import-2025.ts:247-279 | one line ends the loop iff it throws; otherwise it changes nothing or, on an inserting line, appends exactly that line's row with the next id and counts it, as it does whenever the store accepts it |
| CsvImport.EntryPass | scripts/import-2025.ts:246-280 | the entry loop only appends entries, and `entriesCreated` is the number appended |
| CsvImport.CreateTimeEntries | scripts/import-2025.ts:246-280 | the loop, stopping at a date without a dot, computes `EntryPass` (the January 2026 script repeats it at scripts/import-csv.ts:143-176) |
| CsvImport.EntryPassAborted | scripts/import-2025.ts:260-261 | once a date without a dot has thrown, later lines change nothing |
| CsvImport.Import | scripts/import-2025.ts:134-283 | a run only appends rows to each table, and the entries appended number `entriesCreated` |
| CsvImport.ImportData | scripts/import-2025.ts:134-283 | the four loops in order compute `Import` (the January 2026 script repeats it at scripts/import-csv.ts:32-179) |
| ImportFacts.CollectClients | scripts/import-2025.ts:151-154 | a client is collected iff some usable line names it, and its rate is the maximum over those lines (the January 2026 script repeats it at scripts/import-csv.ts:48-51) |
| ImportFacts.CollectProjects | scripts/import-2025.ts:156-160 | a key is collected iff some usable line carries it, with the client and rate of the first such line (the January 2026 script repeats it at scripts/import-csv.ts:53-57) |
| ImportFacts.DataLinesDropHeader | scripts/import-2025.ts:138 | a file of lines without blanks at its ends yields its lines after the header |
| ImportFacts.ParseRowColumns | scripts/import-csv.ts:43 | the first five comma-separated fields are read as date, client, project, rate and hours; later columns are ignored |
| ImportFacts.ProjectKeyRoundTrip | scripts/import-2025.ts:199 | the project name is read back from `client::project` when neither name holds a colon |
| ImportFacts.ProjectKeyTruncates | scripts/import-2025.ts:199 | a project named `Q1::Q2` is stored as `Q1` |
| ImportFacts.ProjectRateBelowClientMax | scripts/import-2025.ts:219-221 | a project's client is collected, its first-seen rate is at most the client's maximum, and it is stored as null iff the two are equal |
| ImportFacts.BilledAtFirstSeenRate | scripts/import-2025.ts:219-221 | an entry whose project and client carry the rates the import writes is billed by the dashboard at the project's first-seen rate, whether the project rate is stored as null or not |
| ImportFacts.EntryKeysCollected | scripts/import-2025.ts:250-252 | the key the entry loop looks up was collected by the first loop, with the same normalisation |
| ImportFacts.EntryDateFormat | scripts/import-2025.ts:259-261 | `D.M.` becomes year-`MM`-`DD`, month and day padded to two digits |
| ImportFacts.EntryDateSplits | scripts/import-2025.ts:261 | the written date splits at `-` into year, month and day |
| ImportFacts.January2026Dates | scripts/import-csv.ts:155-157 | every date is in 2026, in the month of the row |
| ImportFacts.EntryDateWithoutDot | scripts/import-2025.ts:260-261 | a date without a dot has no month, and the loop stops there |
| ImportRerun.ClientPassUnique | scripts/import-2025.ts:167-192 | the client loop never creates a second client of one name |
| ImportRerun.ProjectPassUnique | scripts/import-2025.ts:198-240 | the project loop never creates a second project of one name for one client |
| ImportRerun.ImportKeepsUnique | scripts/import-2025.ts:134-283 | a run keeps clients and projects unique |
| ImportRerun.ClientPassRecords | scripts/import-2025.ts:167-192 | with every insert accepted, each collected client ends with one row whose id is recorded |
| ImportRerun.ClientPassFound | scripts/import-2025.ts:169-177 | when every client already has its row, the loop inserts nothing and records the same ids |
| ImportRerun.ProjectPassRecords | scripts/import-2025.ts:198-240 | with every insert accepted, each project whose client has an id ends with one row whose id is recorded |
| ImportRerun.ProjectPassFound | scripts/import-2025.ts:207-217 | when every project already has its row, the loop inserts nothing and records the same ids |
| ImportRerun.EntryPassIndependent | scripts/import-2025.ts:246-280 | the entry loop inserts the same rows, apart from ids, whatever the store held |
| ImportRerun.ImportTwice | scripts/import-csv.ts:143-176 | on a store with unique names, a second run of the same file adds no client and no project, and inserts as many entries as the first run, with the same payloads in the same order, so each entry ends up stored twice |

| ImportRows.EntryPayloads | scripts/import-2025.ts:246-280 | the reference list of rows the entry loop asks for, with ids left at 0, at most one per line (which lines give a row is stated by `EntryPassContents` and `EntryPassStopsAtThrow`) |
| ImportRows.EntryPassContents | scripts/import-2025.ts:246-280 | with every insert accepted, the loop throws iff some line throws, and otherwise appends exactly `EntryPayloads`, apart from ids |
| ImportRows.EntryPassStopsAtThrow | scripts/import-2025.ts:260-261 | at the first throwing line the loop stops, having appended exactly the rows of the lines before it |
| ImportRows.ClientPassRates | scripts/import-2025.ts:179-183 | names outside the loop keep their rows; a name without a row ends with exactly one, at its collected rate |
| ImportRows.ProjectPassRates | scripts/import-2025.ts:219-231 | a project name and client id that no key targets keeps its rows; a key that is the only one of its name and client and has no row ends with exactly one, at `NewProjectRate` |
| ImportRows.ClientPassFresh | scripts/import-2025.ts:179-183 | whichever inserts the store accepts, client ids stay below the counter and name one row each |
| ImportRows.ImportStoresRates | scripts/import-2025.ts:134-283 | a run on a store without the key's client and project name leaves exactly one client row at the highest collected rate and one project row at `NewProjectRate` |
| ImportRows.ImportedRateIsFirstSeen | scripts/import-2025.ts:219-221 | after such a run, the rows the lookups find bill every entry of the project at the project's first-seen rate |

## Left out

- Store I/O, `Promise.all` and the order of asynchronous calls are not modelled. Query results are parameters of `TimePageState.Refresh`, and `Submit` returns the write it would send.
- Clipboard, alerts, confirmation dialogs and JSX rendering are not modelled.
- `handleDelete` (app/time/page.tsx:95-100) is not modelled. It only deletes a row and refreshes.
- The client and project CRUD pages and the layout are not modelled. They hold no computation beyond the rate fallback already modelled here.
- `parseFloat`, `toString`, `toFixed(2)` and `toLocaleDateString('de-DE')` are parameters. Their JavaScript edge cases and IEEE floating point are not modelled: numbers are exact reals.
- `new Date()` is a parameter, either an ISO timestamp string or a day number and its weekday.
- The UTC parsing of `new Date(e.date)` against the local-time week start (app/page.tsx:93) is not modelled. Entries are compared by day number.
- Dashboard.GroupKeys treats a missing client id as one key. In the source, `stats[undefined]` is the string key `"undefined"`, which a client whose id is literally `undefined` would share.
- Collections.OrderedMap.Values uses insertion order. JavaScript lists integer-like object keys first; client ids are UUID strings, so this does not arise.
- Text.Trim removes ASCII whitespace only, not the other Unicode spaces `trim` removes.
- Text.ParseInt reads digits only. Leading blanks and signs, which `parseInt` accepts, are not modelled; a month-picker value has neither.
- Dashboard.ExportRoundTrip requires cells without tab or newline. A description holding either breaks the export's rows in the source too.
- Row ids are numbers drawn from a counter. In the store they are UUID strings, never empty, so the scripts' `!clientId` and `!projectId` tests are modelled as "no id recorded".
- A failed `.single()` lookup of an existing row because of a store error, as opposed to no row or several rows, is not modelled: a lookup reads the tables.
- ImportRerun.ImportTwice assumes a store that accepts every insert and starts with unique client names and unique project names per client. With refused inserts, the second run may insert what the first could not.
- ImportRows.ImportStoresRates and ImportRows.ImportedRateIsFirstSeen require a store without the key's client and project name, and no other key of the same client whose name cuts to the same project name at `::`. Two such keys share one project row, created with the first key's rate.

## Findings

| source | as written | input that shows it | evidently intended | confidence | as-written member | corrected member |
|---|---|---|---|---|---|---|
| app/page.tsx:90 | the week starts at `today - getDay() + 1`, and `getDay()` is 0 on a Sunday | Sunday 2026-01-11: the start is Monday 2026-01-12, so the 8 h booked on Saturday 2026-01-10 are not counted in "Diese Woche" | the Monday on or before today (the comment says `Montag`), so Sunday ends the week | not executed | Dashboard.WeekStartAsWritten | Dashboard.WeekStart |
