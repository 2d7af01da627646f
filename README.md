# Quarto Gestão Fácil — a verified model of its core

Quarto Gestão Fácil manages rented rooms. Its records are properties (`imoveis`), rooms
(`quartos`), tenants (`inquilinos`), monthly charges (`cobrancas`) and expenses
(`despesas`). This project models the logic that does not depend on the hosted backend:

- The in-memory rental store (`RentalContext.tsx`). It holds five record lists and offers
  add, update and delete operations. Deleting a property also deletes its rooms, in
  cascade. Adding or removing a tenant also updates its room. `loadDashboardData`
  computes the month's figures and a six-month series.
- The dashboard page (`Dashboard.tsx`): charges due today, occupancy, margin, the two
  charts and the next three pending charges.
- The report page (`Relatorios.tsx`): grouping by month, by expense type and by room
  status; sorting by month; the statistics cards; the date range of the cards; the
  chart merges; the labels.
- The charge form (`Cobrancas.tsx`): the value less the discount, and how empty fields
  become `null`. Also the form filled from a charge being edited, the empty form, the
  value preview and the status label.

Files and modules:

- `common.dfy`
  - `Wrappers`: `Option`.
  - `Strings`: code-unit order and `substring(0, n)`.
  - `Numerals`: `toString` and `parseFloat` on integers, and `padStart`.
  - `Calendar`: dates, year-months, month arithmetic with rollover, and `YYYY-MM` labels.
- `tables.dfy` (`Tables`): the array idioms the store uses (`filter`, `find`,
  `map`-by-id and `reduce`), with their lemmas.
- `rental_types.dfy` (`RentalTypes`):
  - the records of `src/types/rental.ts`;
  - the inputs of the add operations;
  - the `Partial<T>` patches and the `{ ...record, ...patch, updatedAt }` merges.
- `rental_store.dfy` (`RentalStore`):
  - the class `Store`, one `seq` field per list, one method per store operation;
  - the `loadDashboardData` loop as the method `BuildDashboard`, proved against the
    function `DashboardOf`.
- `dashboard.dfy` (`DashboardPage`), `reports.dfy` (`Reports`) and `charges.dfy`
  (`ChargeForm`): the three pages, as functions and lemmas.

Modelling choices:

- Money is an integer number of cents.
- A date is a (year, month, day) triple.
- The instant `new Date()` reads is a parameter: `now` for timestamps, `hoje` for today.
- The ids that `generateId` draws at random are parameters too.
- `localeCompare` on the report keys is code-unit order.
- `parseFloat` is modelled on integer numerals: an optional `-`, then the longest run of
  digits. `None` stands for `NaN`.

Three behaviours that the names of the figures might suggest otherwise; the model keeps
them as the code has them:

- `inquilinosInadimplentes` counts overdue *charges*, not tenants. A tenant with two
  overdue charges counts twice (`src/contexts/RentalContext.tsx:318`).
- The dashboard's occupancy divides `quartosAlugados`, counted when the dashboard was
  last loaded, by the current number of rooms (`src/pages/Dashboard.tsx:53-54`).
  `OccupancyInRange` proves the bound for freshly loaded data only.
- The dashboard's revenue series sums paid charges by reference month. Its expense
  series sums expenses by date. The month's revenue total sums paid charges by due date
  (`src/contexts/RentalContext.tsx:296-338`).

## Model

| member | source | states |
|---|---|---|
| RentalStore.Store.constructor | src/contexts/RentalContext.tsx:165-172 | the store starts with the given five lists, no dashboard data and not loading |
| RentalStore.Store.AddImovel | src/contexts/RentalContext.tsx:176-185 | the property list becomes the old list plus one new property at the end, with the fresh id, no rooms and both timestamps `now`; no other list changes |
| RentalStore.Store.UpdateImovel | src/contexts/RentalContext.tsx:187-191 | only properties with the given id get the patch merged and `updatedAt = now`; length and order are kept; no other list changes |
| RentalStore.Store.DeleteImovel | src/contexts/RentalContext.tsx:193-196 | the property is removed, and in cascade exactly the rooms whose `imovelId` is the id; tenants, charges and expenses are untouched |
| RentalStore.Store.AddQuarto | src/contexts/RentalContext.tsx:198-206 | one new room is appended with the fresh id; the existing rooms are unchanged and in order |
| RentalStore.Store.UpdateQuarto | src/contexts/RentalContext.tsx:208-212 | only rooms with the given id are merged with the patch; every other room is unchanged |
| RentalStore.Store.DeleteQuarto | src/contexts/RentalContext.tsx:214-216 | exactly the rooms with the id are removed; the rest keep their order |
| RentalStore.Store.AddInquilino | src/contexts/RentalContext.tsx:218-232 | the tenant is appended; the room with the tenant's `quartoId` becomes `ocupado` with `inquilinoAtual` = the new id and `updatedAt = now`; every other room is unchanged |
| RentalStore.Store.UpdateInquilino | src/contexts/RentalContext.tsx:234-238 | only tenants with the given id are merged with the patch |
| RentalStore.Store.DeleteInquilino | src/contexts/RentalContext.tsx:240-249 | the tenant is removed; if it existed, the room it occupied becomes `disponivel` with `inquilinoAtual` cleared; if not, the rooms are unchanged |
| RentalStore.Store.AddCobranca | src/contexts/RentalContext.tsx:251-259 | one new charge is appended; the existing charges are unchanged |
| RentalStore.Store.UpdateCobranca | src/contexts/RentalContext.tsx:261-265 | only charges with the given id are merged with the patch |
| RentalStore.Store.AddDespesa | src/contexts/RentalContext.tsx:267-275 | one new expense is appended; the existing expenses are unchanged |
| RentalStore.Store.UpdateDespesa | src/contexts/RentalContext.tsx:277-281 | only expenses with the given id are merged with the patch |
| RentalStore.Store.DeleteDespesa | src/contexts/RentalContext.tsx:283-285 | exactly the expenses with the id are removed |
| RentalStore.Store.LoadDashboardData | src/contexts/RentalContext.tsx:287-357 | afterwards the dashboard data are those of the current lists and today's date, and loading is off |
| RentalStore.BuildDashboard | src/contexts/RentalContext.tsx:294-350 | the month's totals and counts followed by the six-month series are exactly the figures of `DashboardOf` for the current lists and today's date |
| RentalStore.MonthlySeries | src/contexts/RentalContext.tsx:320-342 | the loop from 5 months back down to the current month yields exactly the six-point revenue series and the six-point expense series, oldest first |
| RentalStore.SeriesPoint | src/contexts/RentalContext.tsx:325-341 | the point pushed for `i` months back is point `5 − i` of each series, labelled with that month |
| RentalStore.DashboardTotals | src/contexts/RentalContext.tsx:306-318 | profit = received − spent; rented + available rooms ≤ all rooms; the delinquency figure is the number of overdue charges |
| RentalStore.SeriesMonths | src/contexts/RentalContext.tsx:320-342 | both series have 6 points with the same labels; point `k` is `5 − k` months back, rolling into the previous year; the last is the current month |
| RentalStore.SeriesChronological | src/contexts/RentalContext.tsx:324-326 | with four-digit years the six labels increase strictly as text |
| RentalStore.UnpaidChargeIgnored | src/contexts/RentalContext.tsx:306-330 | a charge that is not paid changes neither the month's revenue nor any point of the revenue series |
| RentalTypes.Override | src/contexts/RentalContext.tsx:189 | a key present in the patch wins; an absent key keeps the record's value |
| RentalTypes.NewImovel | src/contexts/RentalContext.tsx:177-183 | the new property carries the input's fields, the fresh id, no rooms and `now` as both timestamps |
| RentalTypes.NewQuarto | src/contexts/RentalContext.tsx:199-204 | the new room carries the input's fields, the fresh id and `now` as both timestamps |
| RentalTypes.NewInquilino | src/contexts/RentalContext.tsx:219-224 | the new tenant carries the input's fields, the fresh id and `now` as both timestamps |
| RentalTypes.NewCobranca | src/contexts/RentalContext.tsx:252-257 | the new charge carries the input's fields, the fresh id and `now` as both timestamps |
| RentalTypes.NewDespesa | src/contexts/RentalContext.tsx:268-273 | the new expense carries the input's fields, the fresh id and `now` as both timestamps |
| RentalTypes.OccupyRoom | src/contexts/RentalContext.tsx:228-231 | merging `{ status: 'ocupado', inquilinoAtual }` changes only status, tenant and update time |
| RentalTypes.VacateRoom | src/contexts/RentalContext.tsx:243-246 | merging `{ status: 'disponivel', inquilinoAtual: undefined }` changes only status, tenant and update time |
| Tables.Filter | src/contexts/RentalContext.tsx:194-195 | the result holds exactly the rows that pass the test and is no longer than the input |
| Tables.FilterIsSubsequence | src/contexts/RentalContext.tsx:214-216 | filtering keeps the surviving rows in their original relative order |
| Tables.FilterMultiset | src/contexts/RentalContext.tsx:214-216 | a row that passes occurs as often as before, one that fails not at all |
| Tables.FilterIdempotent | src/contexts/RentalContext.tsx:283-285 | filtering twice with the same test is filtering once |
| Tables.RemoveKey | src/contexts/RentalContext.tsx:214-216 | a row survives removal exactly when its key differs from the id |
| Tables.RemoveAbsentKey | src/contexts/RentalContext.tsx:283-285 | deleting an id no row carries leaves the list unchanged |
| Tables.RemoveKeyLength | src/contexts/RentalContext.tsx:214-216 | removal takes away exactly as many rows as carry the id |
| Tables.UpdateKey | src/contexts/RentalContext.tsx:208-212 | same length; row `i` is merged when its key is the id and is otherwise the old row `i` |
| Tables.UpdateAbsentKey | src/contexts/RentalContext.tsx:261-265 | updating an id no row carries changes nothing |
| Tables.FindKey | src/contexts/RentalContext.tsx:241 | the result is the first row with the id, and none exactly when no row has it |
| Tables.Count | src/contexts/RentalContext.tsx:315 | a count never exceeds the number of rows |
| Tables.CountIsFilterLength | src/contexts/RentalContext.tsx:318 | `filter(p).length` is the number of rows that pass `p` |
| Tables.CountDisjoint | src/contexts/RentalContext.tsx:315-316 | rows passing two exclusive tests are together at most all rows |
| Tables.CountSplit | src/contexts/RentalContext.tsx:315-316 | rows passing a test and rows failing it are together all rows |
| Tables.SumWhereAppend | src/contexts/RentalContext.tsx:306-308 | a filtered sum over a concatenation is the sum of the parts' sums |
| Tables.SumWhereIgnores | src/contexts/RentalContext.tsx:306-308 | a row that fails the test, put anywhere, does not change the sum |
| Calendar.MonthsBefore | src/contexts/RentalContext.tsx:325 | `new Date(year, month − i, 1)` is a valid month exactly `i` months earlier |
| Calendar.MonthsBeforeRollover | src/contexts/RentalContext.tsx:325 | going back past January lands in the previous year at month + 12 − i |
| Calendar.LabelShape | src/contexts/RentalContext.tsx:326 | with a four-digit year the label is the seven characters `YYYY-MM` |
| Calendar.LabelLength | src/contexts/RentalContext.tsx:326 | with a four-digit year the label is seven characters long, so `substring(0, 7)` of a date keeps exactly its month |
| Calendar.LabelTextOrder | src/contexts/RentalContext.tsx:326 | `year-month` text with equal-width years sorts by year, then by month |
| Calendar.MonthIndexOrder | src/contexts/RentalContext.tsx:325 | months are ordered in time by year, then by month |
| Strings.PrefixOfConcat | src/pages/Relatorios.tsx:32 | `substring(0, n)` of a text that starts with `n` given characters is those characters |
| Calendar.LabelOrder | src/contexts/RentalContext.tsx:326 | with four-digit years, labels sort as text exactly as the months sort in time |
| Calendar.LabelInjective | src/contexts/RentalContext.tsx:326 | two valid months with four-digit years that have the same label are the same month |
| Calendar.DateLeqTransitive | src/pages/Dashboard.tsx:291 | the due-date order used by the sort is transitive |
| Numerals.NatToString | src/pages/Cobrancas.tsx:225 | `toString` of a natural number writes only digits, at least one, and starts with a non-zero digit followed by more digits exactly when the number is 10 or more |
| Numerals.IntToString | src/pages/Cobrancas.tsx:225 | `toString` writes a minus sign exactly for negative numbers |
| Numerals.ParseIntToString | src/pages/Cobrancas.tsx:225 | `parseFloat` reads back exactly the number `toString` wrote |
| Numerals.PadStart2 | src/contexts/RentalContext.tsx:326 | `padStart(2, '0')` ends in the text and puts only zeros before it |
| Numerals.FixedDigitsOrder | src/contexts/RentalContext.tsx:326 | fixed-width digit strings sort as the numbers they denote |
| Strings.Prefix | src/pages/Relatorios.tsx:32 | `substring(0, n)` is a prefix of at most `n` characters, all of the text when shorter |
| Strings.LessTransitive | src/pages/Relatorios.tsx:40 | the order used to sort the report keys is transitive |
| Strings.LessTotal | src/pages/Relatorios.tsx:40 | any two different keys are ordered one way or the other |
| DashboardPage.DueToday | src/pages/Dashboard.tsx:47-51 | exactly the pending charges due today, in their original order |
| DashboardPage.Occupancy | src/pages/Dashboard.tsx:53-54 | 0 with no rooms; otherwise the percentage times the number of rooms is the number of rented rooms times 100; in [0, 100] when rented ≤ rooms |
| DashboardPage.OccupancyInRange | src/pages/Dashboard.tsx:53-54 | on freshly loaded data the occupancy lies in [0, 100] |
| DashboardPage.Margin | src/pages/Dashboard.tsx:142-143 | 0 unless revenue is positive; otherwise the margin times revenue is the profit times 100 |
| DashboardPage.MarginBounds | src/pages/Dashboard.tsx:142-143 | with profit = revenue − expenses the margin is at most 100%, and negative exactly when expenses exceed a positive revenue |
| DashboardPage.TrendPoints | src/pages/Dashboard.tsx:178-182 | one chart point per revenue month |
| DashboardPage.ProfitPoints | src/pages/Dashboard.tsx:206-209 | one profit point per revenue month |
| DashboardPage.ChartsAgree | src/pages/Dashboard.tsx:178-209 | each profit point is its trend point's revenue minus its expense, and a missing expense counts as 0 |
| DashboardPage.ChartsPairMonths | src/pages/Dashboard.tsx:178-182 | on freshly loaded data, point `k` pairs the revenue and the expenses of the same calendar month |
| DashboardPage.InsertByDue | src/pages/Dashboard.tsx:291 | inserting adds the charge and keeps every other one (as multisets) |
| DashboardPage.InsertByDueSorted | src/pages/Dashboard.tsx:291 | inserting into a list sorted by due date keeps it sorted |
| DashboardPage.InsertByDueFrom | src/pages/Dashboard.tsx:291 | inserting a charge due no earlier than `d` keeps every charge due no earlier than `d` |
| DashboardPage.SortByDue | src/pages/Dashboard.tsx:291 | the sort is a permutation of its input |
| DashboardPage.SortByDueSorted | src/pages/Dashboard.tsx:291 | the sort orders the charges by due date |
| DashboardPage.TakeEarliest | src/pages/Dashboard.tsx:292 | the first `n` of a sorted list are due no later than any charge left out |
| DashboardPage.FirstOfSorted | src/pages/Dashboard.tsx:289-292 | the first `n` of the sorted pending charges are sorted, come from the input, and are the earliest |
| DashboardPage.NextDue | src/pages/Dashboard.tsx:289-292 | at most 3 charges, all pending and from the input, sorted by due date, min(3, pending) of them, due no later than any pending charge left out |
| Reports.BumpKeys | src/pages/Relatorios.tsx:33 | `acc[key] = ...` adds the key at the end exactly when it is new |
| Reports.BumpLookup | src/pages/Relatorios.tsx:33 | a step adds the amount under its key and nothing under any other |
| Reports.BumpTotal | src/pages/Relatorios.tsx:33 | a step adds the amount to the grand total |
| Reports.BumpPositive | src/pages/Relatorios.tsx:105 | with positive amounts every total stays positive |
| Reports.BumpUnique | src/pages/Relatorios.tsx:33 | a step never duplicates a key |
| Reports.GroupSumUnique | src/pages/Relatorios.tsx:31-35 | the grouping has no repeated key |
| Reports.GroupSumKeys | src/pages/Relatorios.tsx:31-35 | the grouping's keys are exactly the keys of the rows |
| Reports.GroupSumLookup | src/pages/Relatorios.tsx:31-35 | each key's total is the sum of its rows' amounts |
| Reports.GroupSumTotal | src/pages/Relatorios.tsx:31-35 | the totals add up to the sum of all amounts |
| Reports.GroupSumPositive | src/pages/Relatorios.tsx:104-107 | with positive amounts all totals are positive |
| Reports.GroupSumSpec | src/pages/Relatorios.tsx:31-35 | the five facts above together |
| Reports.InsertByKey | src/pages/Relatorios.tsx:40 | inserting is adding one entry (as multisets) |
| Reports.InsertByKeyAbove | src/pages/Relatorios.tsx:40 | inserting a key above `k` keeps every key above `k` |
| Reports.InsertByKeyKeys | src/pages/Relatorios.tsx:40 | inserting adds exactly the entry's key |
| Reports.InsertByKeyLookup | src/pages/Relatorios.tsx:40 | inserting a new key adds its total and leaves the other totals |
| Reports.InsertByKeyTotal | src/pages/Relatorios.tsx:40 | inserting adds the entry's total to the grand total |
| Reports.InsertByKeySorted | src/pages/Relatorios.tsx:40 | inserting a new key keeps the list strictly sorted |
| Reports.SortByKey | src/pages/Relatorios.tsx:40 | the sort is a permutation of its input |
| Reports.SortByKeySpec | src/pages/Relatorios.tsx:40 | with distinct keys the sort orders strictly by key and keeps every key with its total |
| Reports.SortedGroupSumSpec | src/pages/Relatorios.tsx:31-40 | grouping then sorting: strictly sorted, keys are the rows' keys, totals are the rows' sums, nothing lost |
| Reports.StrictlySortedUnique | src/pages/Relatorios.tsx:40 | strictly sorted keys are distinct |
| Reports.MonthlyRevenueSpec | src/pages/Relatorios.tsx:31-40 | one entry per month some paid charge falls in, strictly ascending, each with that month's sum; together they hold all the revenue |
| Reports.MonthlyExpensesSpec | src/pages/Relatorios.tsx:57-66 | the same for expenses keyed by `data.substring(0, 7)` |
| Reports.ExpensesByTypeSpec | src/pages/Relatorios.tsx:82-90 | one entry per distinct type with that type's sum; the entries add up to all expenses |
| Reports.SumAllOnes | src/pages/Relatorios.tsx:105 | counting by ones adds up to the number of rooms |
| Reports.RoomStatusCountsSpec | src/pages/Relatorios.tsx:104-112 | one entry per status present, every count positive, counts add up to the number of rooms |
| Reports.RevenueMonthOfDate | src/pages/Relatorios.tsx:32 | a payment date `YYYY-MM-DD` groups under the same `YYYY-MM` label the dashboard uses |
| Reports.RevenueMonthOfPrefix | src/pages/Relatorios.tsx:32 | a payment date that starts with seven given characters groups under exactly those characters |
| Reports.DateRangeOrdered | src/pages/Relatorios.tsx:120-123 | the start of the range sorts strictly before its end |
| Reports.DaysInMonth | src/pages/Relatorios.tsx:121-123 | a month has 28 to 31 days |
| Reports.DateRangeEndNotADate | src/pages/Relatorios.tsx:121-123 | for February 2024 the range ends on `2024-02-31`, a day February does not have |
| Numerals.PadStart2Fixed | src/pages/Relatorios.tsx:121-123 | a number from 1 to 99 padded to two characters is its two-digit form |
| Numerals.FourDigits | src/contexts/RentalContext.tsx:326 | a year from 1000 to 9999 prints as exactly its four digits |
| Reports.DayOrder | src/pages/Relatorios.tsx:121-123 | dates of the same month sort as text as their days do |
| Reports.MonthRangeCoversMonth | src/pages/Relatorios.tsx:121-123 | every day of the month lies in the corrected range, which ends on the month's last day |
| Reports.Stats | src/pages/Relatorios.tsx:152-162 | each present list's card is the sum of its amounts, a missing or empty list gives 0; profit = revenue − expenses; active tenants is the list's length, or 0 when missing |
| Reports.StatsSplit | src/pages/Relatorios.tsx:152-159 | over rows split in two, revenue, expenses, pending total and profit are the sums of the two parts' cards |
| Reports.SumOfNonNegative | src/pages/Relatorios.tsx:152-154 | with no negative amounts a card total is at least 0 |
| Reports.SumOfAppend | src/pages/Relatorios.tsx:152-154 | the cards' sums over split lists add up |
| Reports.RevenueVsExpense | src/pages/Relatorios.tsx:308-312 | no bars without revenue data; otherwise one bar per revenue month |
| Reports.ProfitLine | src/pages/Relatorios.tsx:387-390 | no points without revenue data; otherwise one point per revenue month |
| Reports.LookupUnique | src/pages/Relatorios.tsx:311 | with distinct keys, the entry found for a key is that key's entry |
| Reports.LookupAbsent | src/pages/Relatorios.tsx:311 | a month the expense report lacks counts as 0 |
| Reports.ExpenseForLookup | src/pages/Relatorios.tsx:311 | `find(...)?.valor \|\| 0` on the expense report is that month's total, and 0 for a missing month |
| Reports.ChartsPair | src/pages/Relatorios.tsx:308-312 | bar `i` is revenue month `i` with its revenue and its month's expense; point `i` is the same month with revenue − expense |
| Reports.ChartsAgree | src/pages/Relatorios.tsx:308-312 | the charts show exactly the revenue months, each with the sum of its paid charges and the sum of its expenses; expense-only months are left out |
| Reports.TipoLabelSpec | src/pages/Relatorios.tsx:168-179 | the seven known types get seven different labels; any other key shows as itself |
| Reports.RoomStatusLabelSpec | src/pages/Relatorios.tsx:181-188 | the three known statuses get three different labels; any other key shows as itself |
| ChargeForm.NullIfEmpty | src/pages/Cobrancas.tsx:122-125 | `null` exactly for the empty string, the text itself otherwise |
| ChargeForm.ValueIsOriginalLessDiscount | src/pages/Cobrancas.tsx:108-119 | the stored value is the parsed original less the parsed discount (an empty discount is 0); value + stored discount (`null` as 0) = original; a non-zero parsed discount is stored as parsed, a zero one as `null`; the value is `null` exactly when the original or a non-empty discount is not a number |
| ChargeForm.OptionalFieldsNullIffEmpty | src/pages/Cobrancas.tsx:122-125 | each optional text field is `null` exactly when empty, and the text otherwise |
| ChargeForm.Submit | src/pages/Cobrancas.tsx:211-218 | an update with the edited charge's id when editing, an insert otherwise, both with the same payload |
| ChargeForm.TextOrEmpty | src/pages/Cobrancas.tsx:229-232 | `x \|\| ''` is empty exactly for an absent or empty field |
| ChargeForm.ThroughForm | src/pages/Cobrancas.tsx:229-232 | after a trip through the form, absent and empty text come back `null`, other text as itself |
| ChargeForm.EditRoundTrip | src/pages/Cobrancas.tsx:220-233 | editing and saving without changes sends back the same ids, text, status and original value, the discount (zero as `null`), original − discount as value, optional fields with absent as `null` |
| ChargeForm.EditKeepsValue | src/pages/Cobrancas.tsx:220-233 | a charge whose value is original − discount keeps its value |
| ChargeForm.ResetFormSpec | src/pages/Cobrancas.tsx:196-209 | the empty form is `pendente` with every other field empty, and its payload has no amounts and `null` optional fields |
| ChargeForm.PreviewMatchesStored | src/pages/Cobrancas.tsx:343 | whenever the form yields a stored value, the preview shows that value |
| ChargeForm.StatusLabelSpec | src/pages/Cobrancas.tsx:253-261 | the four statuses get four different labels; any other text shows as itself |

## Left out

- The backend: the `supabase` queries and mutations, their filters (`eq`, `gte`, `lte`, `order`) and their errors. The report functions take the rows a query returns. The charge form stops at the request it would send.
- The mock data the store starts with: the store's constructor takes the initial lists as parameters.
- React: state hooks, `useEffect` reloading, react-query caching and invalidation, toasts, dialogs, `confirm`, rendering.
- Timing: the one-second `setTimeout` in `loadDashboardData` is not modelled, and the dashboard is computed at once. Closures that read a state older than the latest update are not modelled either.
- Dates: JavaScript `Date`, time zones and `toDateString` are not modelled. Dates are (year, month, day) triples. The `Date` constructor's mapping of years 0 to 99 onto 1900 to 1999 is not modelled.
- Numbers: floating point, `toFixed` and `toLocaleString` are not modelled. `parseFloat` is modelled on integers only: decimals, exponents, leading blanks and `Infinity` are not.
- Keys: `Object.entries` lists integer-like keys first, in numeric order. The grouping model lists every key in insertion order, so it matches only for keys that are not array indices, as month, type and status keys are not.
- Keys and labels that match a property of `Object.prototype` (such as `constructor`) are not modelled; the label lookups of `Relatorios.tsx` would return a function for them.
- Reports.ExpensesByTypeSpec and Reports.RoomStatusCountsSpec: they do not state the order of the entries, which is the order of first appearance.
- RentalStore.SeriesChronological: it assumes four-digit years for the six months; shorter years print fewer digits and do not sort as text.
- DashboardPage.NextDue: ties between charges due on the same day are kept in input order, as a stable sort does. The contract does not state which of the tied charges are kept.
- `pix_id` and `comprovante_pagamento` of the charge record: the form never sets them.
- The other pages, the payment service, authentication and settings are not part of this model.

## Findings

| source | as written | input that shows it | evidently intended | confidence | as-written member | corrected member |
|---|---|---|---|---|---|---|
| src/pages/Relatorios.tsx:121-123 | with a month selected, the range always ends on day 31 | year `2024`, month `02`: the range ends on `2024-02-31`, which is not a date; the same holds for April, June, September and November | the range ends on the month's last day, e.g. `2024-02-29` | not executed; medium (how the backend treats a bound that is not a date is not part of this model) | Reports.DateRangeEndNotADate | Reports.MonthRangeCoversMonth |
