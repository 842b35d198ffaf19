# gravifest dashboard aggregation, modelled in Dafny

gravifest is an event-management service with a React dashboard. This project
models its aggregation pipeline in two halves.

**The server side.**

`getDashboardMetrics` returns:
- the ten events with the highest `buzzMeter`;
- a day-by-day histogram of paid registrations, keyed by the UTC
  `YYYY-MM-DD` day and sorted by date;
- the seven nullable finance column sums, laid out as a five-entry expense
  list and a two-entry revenue list, with `0` for a missing sum;
- the per-user-type counts.

`getAggregateFinancialBreakdown` builds the same two lists under a
different policy. It keeps only the categories whose sum is positive, and it
lists Guest Cost before Hall Rental Cost.

**The client side.**
- The registration-summary card re-buckets the daily histogram into weeks
  (Sunday to Saturday) or calendar months. It also computes each bar's
  change against the previous bar, the first-versus-last trend, the total
  and the peak period.
- The participants card regroups the user-type counts into Internal and
  External. It breaks External down by School, Individual and Professional,
  and shows each group's percentage.
- The finance page does three things:
  - It tags and colours the expense and revenue lists for a pie chart,
    cycling through seven colours by position.
  - It filters the slices by positivity and by the selected category.
  - It sums the totals and the profit or loss.

**How the code becomes Dafny.**
- Database results become input sequences. A query that throws is a
  `QueryResult.Threw`, which yields the handler's 500 response.
- Dates are `(year, month, day)` triples. For four-digit years, their
  lexicographic order is the order of `YYYY-MM-DD` strings. A day number (days since 1970-01-01) gives
  the weekday and the day arithmetic.
- Money amounts and percentages are exact `real` numbers.
- Loops that fill a JavaScript object become methods. Each object is a
  `map` plus the insertion order of its keys. Each method is proved equal to
  a reference function:
  - `CountByDate` and `BuildRegistrationSummary` (the server histogram);
  - `Aggregate` and `ProcessedData` (the card's re-bucketing);
  - `ParticipantsSummary` (the participants card).
- The server histogram and the card's re-bucketing share the bucketing of
  `Tally`: one entry per distinct key, whose count is the sum of the counts
  under that key. The card's reference, `Tally.Grouped`, lists the keys in
  the order they are first met; the server's `RegistrationSummary` lists the
  same distinct keys sorted.
- A timestamp is stored as its UTC day and its time of day, so
  `toISOString().split('T')[0]` is the projection `IsoDay` onto the day.

Modules, one per file: `Wrappers`, `Seqs`, `Dates`, `Tally`, `Records`,
`DashboardController`, `FinanceController`, `RegistrationSummaryCard`,
`ParticipantsCard` and `FinancePage`.

## Model

| member | source | states |
|---|---|---|
| DashboardController.PopularEvents | server/source/controllers/dashboardController.ts:11-16 | at most ten events, `min(10, n)` of them, ordered by non-increasing `buzzMeter`, all drawn from the input; every event left out scores no higher than every event chosen |
| DashboardController.SortByBuzz | server/source/controllers/dashboardController.ts:13-15 | the `orderBy: buzzMeter desc` reference: a non-increasing permutation of the events |
| DashboardController.PaidOnly | server/source/controllers/dashboardController.ts:18-25 | the `where: { paymentStatus: true }` rows: exactly the registrations that are paid, no more rows than there are registrations |
| DashboardController.SameIsoDay | server/source/controllers/dashboardController.ts:31 | two timestamps get the same histogram key iff they fall on the same UTC day, whatever their time of day |
| DashboardController.CountByDate | server/source/controllers/dashboardController.ts:28-33 | the `countsByDate` loop: the dictionary's keys, in insertion order, are the distinct days of the paid registrations in order of first appearance; each day's count is the number of paid registrations on it |
| DashboardController.SortDates | server/source/controllers/dashboardController.ts:36-37 | `Object.keys(...).sort()` on distinct days: a strictly ascending permutation |
| DashboardController.RegistrationSummary | server/source/controllers/dashboardController.ts:18-41 | the reference histogram: its days are strictly ascending and it has no more points than there are paid registrations |
| DashboardController.BuildRegistrationSummary | server/source/controllers/dashboardController.ts:18-41 | the imperative histogram equals the reference `RegistrationSummary` |
| DashboardController.RegistrationSummarySpec | server/source/controllers/dashboardController.ts:18-41 | summary days are strictly ascending; a day is listed iff some paid registration falls on it; each count is the number of paid registrations that day and is at least 1; the counts add up to the number of paid registrations |
| DashboardController.PaidDayHasRegistration | server/source/controllers/dashboardController.ts:28-32 | every day among the counted entries is the UTC day of some paid registration |
| DashboardController.PaidRegistrationHasDay | server/source/controllers/dashboardController.ts:28-32 | the UTC day of every paid registration is among the counted entries |
| DashboardController.SummaryHasPaidDays | server/source/controllers/dashboardController.ts:28-32 | a day is listed iff some registration with `paymentStatus` true has that UTC day |
| DashboardController.SummaryCounts | server/source/controllers/dashboardController.ts:28-32 | each listed count equals the number of paid registrations on that day, and is at least 1 |
| DashboardController.SummaryTotal | server/source/controllers/dashboardController.ts:29-32 | the counts add up to the number of paid registrations |
| DashboardController.UnpaidRegistrationIgnored | server/source/controllers/dashboardController.ts:18-25 | inserting an unpaid registration anywhere leaves the summary unchanged |
| DashboardController.DayEntriesTotal | server/source/controllers/dashboardController.ts:29-32 | one unit per registration: the per-registration entries add up to the number of registrations |
| DashboardController.CountOnIsPaidOn | server/source/controllers/dashboardController.ts:29-32 | counting the paid entries on a day is counting the paid registrations on that day |
| DashboardController.ExpenseBreakdown | server/source/controllers/dashboardController.ts:68-74 | exactly five entries: Purchase Cost, Hall Rental Cost, Guest Cost, Transport Cost, Prize Pool, each the column sum or 0 when it is null |
| DashboardController.RevenueBreakdown | server/source/controllers/dashboardController.ts:75-78 | exactly two entries, Sponsorship then Ticket Profit, null read as 0 |
| DashboardController.BreakdownsKeepColumnTotal | server/source/controllers/dashboardController.ts:67-79 | the two lists together add up to the seven column sums (nulls as 0) |
| DashboardController.FormattedCounts | server/source/controllers/dashboardController.ts:92-95 | one entry per group, `userType` and count copied unchanged, in order |
| DashboardController.FormattedCountsTotal | server/source/controllers/dashboardController.ts:84-95 | for a `groupBy` of the users by type (distinct types, each count the number of users of that type, every user's type listed), the counts add up to the number of users |
| DashboardController.UsersOfTypesCovering | server/source/controllers/dashboardController.ts:84-89 | counting the users type by type over distinct types that cover every user counts every user once |
| DashboardController.GetDashboardMetrics | server/source/controllers/dashboardController.ts:6-108 | the handler answers 500 "Error retrieving dashboard metrics" iff one of the four queries throws; otherwise every field of the body is its reference function, and both breakdowns are `null` when the aggregate has no `_sum` |
| FinanceController.TransformData | server/source/controllers/financeController.ts:40-43 | an entry iff the sum, with null read as 0, is positive, carrying the name and that value unscaled |
| FinanceController.Candidates | server/source/controllers/financeController.ts:48-60 | `transformData` applied to each category in order |
| FinanceController.CandidatesAreFilteredCategories | server/source/controllers/financeController.ts:48-60 | dropping the nulls of the transformed list is filtering the categories for a positive value |
| FinanceController.Expenditure | server/source/controllers/financeController.ts:48-54 | the non-null transformed expense categories are the categories with a positive sum, in this handler's order |
| FinanceController.Revenue | server/source/controllers/financeController.ts:57-60 | the non-null transformed revenue categories are the dashboard's revenue breakdown with the non-positive entries dropped |
| FinanceController.AggregateBreakdown | server/source/controllers/financeController.ts:36-67 | both lists empty without `_sum`; otherwise the positive expense and revenue categories; every value sent is positive |
| FinanceController.GetAggregateFinancialBreakdown | server/source/controllers/financeController.ts:17-73 | 500 "Error retrieving aggregate financial breakdown." iff the query throws; otherwise the positive expense categories in this handler's order and the positive revenue categories; both lists empty without `_sum` |
| FinanceController.ExpenditureSpec | server/source/controllers/financeController.ts:46-54 | the expenditure list is the positive categories in the order Purchase, Guest, Hall Rental, Transport, Prize Pool; at most five; all positive; as a set, the dashboard's expense breakdown restricted to positive values |
| FinanceController.ExpenditureMember | server/source/controllers/financeController.ts:46-54 | an entry is among the positive categories of this handler iff it is in the dashboard's expense breakdown with a positive value |
| FinanceController.RevenueSpec | server/source/controllers/financeController.ts:56-60 | the revenue list is the dashboard's revenue breakdown with the non-positive entries dropped, in order; at most two; all positive |
| FinanceController.NonPositiveCategoryDropped | server/source/controllers/financeController.ts:40-54 | a category whose sum is null or not positive does not appear under its name |
| Dates.Weekday | client/src/app/dashboard/CardRegistrationSummary.tsx:79 | `getDay` in UTC: between 0 (Sunday) and 6; `EpochThursday` and `KnownSunday` fix which day is 0 |
| Dates.EpochThursday | client/src/app/dashboard/CardRegistrationSummary.tsx:79 | day 0 is 1970-01-01 and its weekday is 4, Thursday in `getDay`'s numbering |
| Dates.KnownSunday | client/src/app/dashboard/CardRegistrationSummary.tsx:79 | 2024-01-07 has weekday 0 (Sunday) and 2024-01-06 weekday 6 (Saturday) |
| Dates.MinusDaysIsKDaysEarlier | client/src/app/dashboard/CardRegistrationSummary.tsx:78-79 | `setDate(getDate() - k)`: a real calendar day exactly k days earlier |
| Dates.WeekStart | client/src/app/dashboard/CardRegistrationSummary.tsx:76-81 | the weekly key of a real day is a Sunday, 0 to 6 days before it |
| Dates.WeekStartGroupsByWeek | client/src/app/dashboard/CardRegistrationSummary.tsx:76-81 | two days share a weekly key iff they lie in the same Sunday-to-Saturday week |
| Dates.WeekStartMonotone | client/src/app/dashboard/CardRegistrationSummary.tsx:76-81 | a later day never has an earlier weekly key |
| Dates.MonthStart | client/src/app/dashboard/CardRegistrationSummary.tsx:82-87 | the monthly key is the first day of the date's month, not after the date |
| Dates.MonthStartGroupsByMonth | client/src/app/dashboard/CardRegistrationSummary.tsx:82-87 | two days share a monthly key iff they are in the same calendar month |
| Dates.MonthStartMonotone | client/src/app/dashboard/CardRegistrationSummary.tsx:82-87 | a later day never has an earlier monthly key |
| Dates.BeforeIsStrictTotalOrder | server/source/controllers/dashboardController.ts:36-37 | string order on `YYYY-MM-DD` keys is a strict total order |
| Dates.BeforeIsChronological | server/source/controllers/dashboardController.ts:36-37 | on real days, sorting the keys as strings sorts the days in time |
| Tally.Dedup | client/src/app/dashboard/CardRegistrationSummary.tsx:63-72 | the keys of a JavaScript object filled in order: the same members as the input, no duplicates |
| Tally.GroupedSpec | client/src/app/dashboard/CardRegistrationSummary.tsx:63-72 | the reference grouping: distinct keys, exactly the keys met, each count the sum under its key, in the order keys are first met, total kept |
| Tally.GroupedTotal | client/src/app/dashboard/CardRegistrationSummary.tsx:63-72 | grouping keeps the total count |
| Tally.TallyStep | client/src/app/dashboard/CardRegistrationSummary.tsx:63-69 | one step of filling an object, adding a count under its key and listing a new key at the end, keeps the object equal to the tally of the points seen so far |
| Tally.TallyIsGrouped | client/src/app/dashboard/CardRegistrationSummary.tsx:72 | listing a tallied object's values in key order gives the reference grouping |
| Tally.DedupKeepsFirstOccurrenceOrder | client/src/app/dashboard/CardRegistrationSummary.tsx:72 | `Object.values` lists the buckets in the order their keys were first inserted |
| RegistrationSummaryCard.Keyed | client/src/app/dashboard/CardRegistrationSummary.tsx:64-66 | each point re-dated with its bucket key, count unchanged, same length and order |
| RegistrationSummaryCard.Aggregate | client/src/app/dashboard/CardRegistrationSummary.tsx:59-73 | the `summedData` loop yields exactly the reference grouping of the re-keyed points |
| RegistrationSummaryCard.Processed | client/src/app/dashboard/CardRegistrationSummary.tsx:55-92 | the reference `processedData`: never more bars than daily points, and the same total count |
| RegistrationSummaryCard.ProcessedData | client/src/app/dashboard/CardRegistrationSummary.tsx:55-92 | the `processedData` computation equals the reference `Processed` |
| RegistrationSummaryCard.ProcessedIsGrouped | client/src/app/dashboard/CardRegistrationSummary.tsx:75-91 | `weekly` and `monthly` are the groupings by week and by month; `daily` and any other timeframe return the points unchanged |
| RegistrationSummaryCard.AggregatedSpec | client/src/app/dashboard/CardRegistrationSummary.tsx:59-73 | for any key function: distinct bucket keys, exactly the keys of some point, each bucket's count the sum of the counts of the points with that key, total kept |
| RegistrationSummaryCard.BucketKeyOfSomePoint | client/src/app/dashboard/CardRegistrationSummary.tsx:63-69 | every bucket comes from at least one point |
| RegistrationSummaryCard.ProcessedKeepsTotal | client/src/app/dashboard/CardRegistrationSummary.tsx:127-128 | `totalRegistrations` is the same on every timeframe, and 0 without data |
| RegistrationSummaryCard.WeeklyBucket | client/src/app/dashboard/CardRegistrationSummary.tsx:76-81 | each weekly bucket is a Sunday and sums exactly the points of its week |
| RegistrationSummaryCard.MonthlyBucket | client/src/app/dashboard/CardRegistrationSummary.tsx:82-87 | each monthly bucket is the first of a month and sums exactly the points of its month |
| RegistrationSummaryCard.BucketsAscending | client/src/app/dashboard/CardRegistrationSummary.tsx:63-72 | a key that never goes back in time over ascending points yields strictly ascending buckets |
| RegistrationSummaryCard.WeeklyBucketsAscending | client/src/app/dashboard/CardRegistrationSummary.tsx:76-81 | over strictly ascending real days, the weekly bars are in chronological order |
| RegistrationSummaryCard.MonthlyBucketsAscending | client/src/app/dashboard/CardRegistrationSummary.tsx:82-87 | over strictly ascending days, the monthly bars are in chronological order |
| RegistrationSummaryCard.PercentChange | client/src/app/dashboard/CardRegistrationSummary.tsx:101-103 | for a positive previous count, applying the change to it gives the current count; from 0 it is 100 for a rise and 0 otherwise; never below -100; non-negative iff the count did not fall |
| RegistrationSummaryCard.ChartDataWithTrend | client/src/app/dashboard/CardRegistrationSummary.tsx:95-106 | same length, dates and counts; the first change is null; each later one is the change from the previous bar |
| RegistrationSummaryCard.TrendArrowRisesWithCount | client/src/app/dashboard/CardRegistrationSummary.tsx:20-38 | the tooltip's rising arrow shows iff the bar is at least as high as the one before |
| RegistrationSummaryCard.TrendStats | client/src/app/dashboard/CardRegistrationSummary.tsx:110-125 | null iff fewer than two periods; otherwise the change from the first period to the last |
| RegistrationSummaryCard.TotalRegistrations | client/src/app/dashboard/CardRegistrationSummary.tsx:127-128 | no bar exceeds the total, and the total is 0 iff every bar is 0 |
| RegistrationSummaryCard.PeakIndex | client/src/app/dashboard/CardRegistrationSummary.tsx:130-133 | the reducer's result is a period whose count is at least every count, and every later period is strictly lower |
| RegistrationSummaryCard.HighestPeriod | client/src/app/dashboard/CardRegistrationSummary.tsx:130-133 | there is a peak exactly when there is a period |
| RegistrationSummaryCard.HighestPeriodIsLastMaximum | client/src/app/dashboard/CardRegistrationSummary.tsx:130-133 | the peak has the highest count, and ties go to the last such period |
| RegistrationSummaryCard.PeakPeriodLabel | client/src/app/dashboard/CardRegistrationSummary.tsx:135-148 | "N/A" iff there is no peak; month and year for `monthly`, "Week of" for `weekly`, month and day otherwise, always of the peak's date |
| ParticipantsCard.ToUpper | client/src/app/dashboard/CardParticipantsType.tsx:32 | lower-case ASCII letters map to upper case; every other character is kept |
| ParticipantsCard.Capitalize | client/src/app/dashboard/CardParticipantsType.tsx:32 | same length; first character upper-cased, rest unchanged |
| ParticipantsCard.ParticipantsSummary | client/src/app/dashboard/CardParticipantsType.tsx:17-44 | `groupedData` is exactly [External, Internal] with the non-internal and the `internal` sums; `totalCount` is the sum of all counts; `externalBreakdown` has exactly the keys School, Individual, Professional, each summing the non-internal counts whose capitalised type is that key |
| ParticipantsCard.PartitionTotal | client/src/app/dashboard/CardParticipantsType.tsx:26-39 | Internal plus External is the total of all counts |
| ParticipantsCard.ExternalSplits | client/src/app/dashboard/CardParticipantsType.tsx:29-35 | External is the three breakdown values plus the counts of other external types |
| ParticipantsCard.UncoveredIsZero | client/src/app/dashboard/CardParticipantsType.tsx:33-35 | nothing is left uncounted iff every external type with users capitalises into one of the three keys |
| ParticipantsCard.BreakdownWithinExternal | client/src/app/dashboard/CardParticipantsType.tsx:29-35 | the breakdown never exceeds External, and equals it iff every external type with users is school, individual or professional |
| ParticipantsCard.TotalIsNumberOfUsers | client/src/app/dashboard/CardParticipantsType.tsx:39 | fed with the dashboard's grouping of the users, the card's total is the number of users |
| ParticipantsCard.Percentage | client/src/app/dashboard/CardParticipantsType.tsx:71 | 0 without participants; within [0, 100] for a part of the total; otherwise count/total times 100 |
| ParticipantsCard.PercentagesAddUp | client/src/app/dashboard/CardParticipantsType.tsx:70-71 | with anyone counted, the two rows' percentages add up to 100 |
| ParticipantsCard.ExampleRegrouping | client/src/app/dashboard/CardParticipantsType.tsx:26-37 | individual 3, internal 7, school 2 give External 5, Internal 7, School 2, Individual 3, Professional 0 |
| FinancePage.Tag | client/src/app/finance/page.tsx:74-83 | each item keeps its name and value, gains its type, and takes the colour at its position plus the offset, modulo 7 |
| FinancePage.Combined | client/src/app/finance/page.tsx:73-84 | one slice per expense and per revenue; the order, types and colours are stated by `CombinedLayout` |
| FinancePage.CombinedLayout | client/src/app/finance/page.tsx:73-84 | the combined list is the expenses (tagged Expense) then the revenues (tagged Revenue), values and names unchanged, each in order; item i has colour `i mod 7` |
| FinancePage.InCategory | client/src/app/finance/page.tsx:88 | an item passes iff the category is All or the item has that type |
| FinancePage.ChartData | client/src/app/finance/page.tsx:70-92 | no slices before the data arrives; never more slices than the combined list; every slice positive and of the active category |
| FinancePage.ChartDataMembers | client/src/app/finance/page.tsx:70-92 | a slice is shown iff data is present and the slice is combined, positive and of the active category; no data gives no slices |
| FinancePage.ViewSplits | client/src/app/finance/page.tsx:86-88 | filtering the combined list is filtering the expenses and then the revenues |
| FinancePage.TaggedView | client/src/app/finance/page.tsx:87-88 | the category filter keeps all positive slices of a list of its type and none of another type |
| FinancePage.ViewIs | client/src/app/finance/page.tsx:86-88 | each view is the positive expense slices when the category admits expenses, then the positive revenue slices when it admits revenues |
| FinancePage.AllIsExpenseThenRevenue | client/src/app/finance/page.tsx:86-88 | the All view is the Expense view followed by the Revenue view |
| FinancePage.PositiveSlicesKeepType | client/src/app/finance/page.tsx:73-87 | filtering one tagged list keeps its type on every slice |
| FinancePage.TagTotal | client/src/app/finance/page.tsx:94-100 | tagging does not change the sum of the values |
| FinancePage.FullPieIsBothTotals | client/src/app/finance/page.tsx:86-100 | when every value is positive, the positivity filter drops nothing and the All pie adds up to total expenditure plus total revenue |
| FinancePage.ServerBodyPie | client/src/app/finance/page.tsx:70-100 | on the body `GET /finance` sends, the All pie is the whole combined list and adds up to the two totals |
| FinancePage.TotalExpenditure | client/src/app/finance/page.tsx:93-95 | 0 before the data arrives; not negative when no expense is; positive when there is an expense and all are positive |
| FinancePage.TotalRevenue | client/src/app/finance/page.tsx:97-99 | 0 before the data arrives; not negative when no revenue is; positive when there is a revenue and all are positive |
| FinancePage.TotalProfitLoss | client/src/app/finance/page.tsx:102-126 | revenue minus expenditure, which takes the profit colour iff revenue is at least expenditure |
| FinancePage.DetailTable | client/src/app/finance/page.tsx:237-257 | "No data recorded." iff the list is empty; otherwise exactly its positive rows, in their original order and with repeats kept, which may be none |

The reducer keeps `curr` unless `acc` is strictly higher, so a tie for the
peak goes to the last such period (`HighestPeriodIsLastMaximum`).

## Left out

- Database queries are inputs: Prisma's internals, the `select` projection and the fields the pipeline only passes through are not modelled.
- DashboardController.PopularEvents: the order among events with the same `buzzMeter` is the store's and is not constrained; `SortByBuzz` is one valid order.
- DashboardController.GetDashboardMetrics: the four queries run one after another and the first to throw ends the handler. The model reports only whether some query threw, because an answer of 500 does not depend on which one.
- Time zones: every key function is read in UTC. In the code, `getDay`, `setDate` and `new Date(y, m, 1)` use local time, and east of UTC a monthly key can fall on the previous day.
- Locale and number formatting (`toLocaleString`, `Intl.NumberFormat`, `toFixed`, `renderPieLabel`) are not modelled. The peak label keeps its date unformatted.
- Floating point: amounts and percentages are exact reals. NaN and the `Number(...)` coercion of Decimal values are not modelled; a missing sum reads as 0.
- ParticipantsCard.ToUpper: upper-cases ASCII letters only, not the full Unicode case mapping of `toUpperCase`.
- ParticipantsCard.ParticipantsSummary: `key in externalBreakdown` is read as membership among the object's own three keys. An inherited key of `Object.prototype`, such as `"__proto__"`, which capitalising a type that starts with `_` can produce, is not modelled.
- React state, memoisation, loading and error cards, tooltip visibility, the chart markup and stroke colours are UI, not computation.
- Other controllers, routes, the remaining cards and the API wiring are not modelled.
- The `console.error` logging in the `catch` blocks of both handlers (server/source/controllers/dashboardController.ts:104-107, server/source/controllers/financeController.ts:69-72) is dropped; only the 500 response is modelled.
- Dates.Before, DashboardController.SortDates, Dates.MonthStart: years are unbounded integers, but the source's strings and `Date` constructor only match the model for four-digit years. `toISOString` writes years above 9999 as `+YYYYYY` and years below 0 as `-YYYYYY`, so the string sort puts `+010000-01-01` before `9999-12-31` and year -1 before year -2, while `Before` orders them by value. `new Date(y, m, 1)` maps years 0 to 99 to 1900 to 1999, so the monthly key of 0050-03-09 is 1950-03-01 in the source and 0050-03-01 in the model.
