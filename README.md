# SpendWise core in Dafny

SpendWise is a personal-finance tracker. Work income is logged weekly or monthly. Recurring
subscriptions are the expenses, and they can be organised into groups. A savings setting is
either a percentage of income or a fixed amount. From this stored state a **monthly rollup**
computes:

- the month's work income;
- the subscription total;
- the savings target and a fixed 12% suggestion;
- the two net figures;
- the safe-spend guidance.

The pages compute a few small figures of their own around the rollup.

This project models that core and proves properties of the model:

- **Types** — the entities (work logs, subscriptions, groups, settings, report entries, the
  state, the rollup). JavaScript numbers are `Num`: a finite real, NaN, or an infinity.
- **Finance** — `monthKeyFromISO`, `normalizeWorkDateISO`, `n`, the 12% suggestion and
  `computeMonthRollup`. The rollup's work-income fold is proved equal to the sum over exactly the
  logs bucketed into the month. A straddling week counts in both of its months.
- **Store** — each update operation of the store is a pure transition function with its own
  contract. The class `StateStore` holds the state in one field, with one method per operation.
  The defensive loader `sanitizeLoaded` is modelled as well. Properties proved:
  - adding then deleting an entry is the identity;
  - toggling twice is the identity;
  - applying a group is idempotent;
  - loading what was saved gives the state back.
- **Dates** and **Weeks** — the calendar helpers, on an explicit (year, month, day) calendar
  with a day number counted from 1970-01-01 and a weekday. `new Date(y, m, d)` is modelled with
  its month and day overflow and its mapping of years 0–99 to 1900–1999. `weeksInMonth` keeps its
  loop, which advances a date one day at a time and fills a set.
- **Dashboard** — the dashboard's figures:
  - the group-filtered selection and its count;
  - the top-6 ranking, sorted by amount;
  - the six-month trend (a loop that counts back);
  - the donut segments;
  - the stacked-bar widths;
  - the display clamps.
- **SubscriptionsPage**, **WorkPage**, **BudgetsPage**, **SettingsPage** — each page's form
  validation, rounding and totals. The pages that write to the store have a form class whose
  `Submit`, `CreateGroup` or `Save` method calls the store.
- **Nav** — `isActivePath` and the six-entry link table.
- **Strings**, **Seqs**, **Cents**, **Wrappers** — the JavaScript built-ins the core relies on:
  - `trim`, `split`, `parseInt`, `String(n)` and `padStart`;
  - `filter`;
  - `Math.round(x * 100) / 100`.

### Behaviour worth knowing

- `computeMonthRollup` sums every subscription whose `active` flag is set, and ignores
  `activeSubGroupId` (`Finance.MoneyIgnoresActiveGroup`). Only the dashboard filters by group.
  `applySubGroup` makes the two agree by rewriting the flags
  (`Dashboard.AppliedGroupAgreesWithRollup`).
- An active group id that names no group gives the dashboard an empty selection and a count of 0,
  not every subscription (`Dashboard.Selected`, `Dashboard.ActiveSubsCount`).
- `monthKeyFromISO` returns `""` for input shorter than 7 characters. Only the budgets page falls
  back to the current month (`BudgetsPage.SameMonthAsRollup`).
- `parseMonthKey` followed by `monthKey` gives the key back only when the year has no leading
  zero. A year from 0000 to 0999 never round-trips (`Dates.LeadingZeroYearBreaksRoundTrip`):
  - "0999-05" is read as year 999 and printed as "999-05";
  - "0050-05" is read as 1950, because `new Date` maps years 0–99 to 1900–1999.
- `startOfWeekMonday` copies its date through `new Date`, so a date in years 0–99 gets the
  Monday of the same day in 1900–1999 (`Dates.StartOfWeekMonday`).

### Inputs passed in as parameters

- `uid()` and `Date.now()` are passed in as parameters. The methods that create a record require
  the new id to be fresh, which is what `uid()` guarantees in practice.
- The loader takes its fresh ids as a function of the record's position.
- `Number(text)` is the caller's `Num` argument.
- `new Date()` becomes the current month or today's date, given as text.

## Model

| member | source | states |
|---|---|---|
| Types.OrZero | lib/store.ts:154 | `x \|\| 0`: a truthy number is kept (infinities included), 0 and NaN become 0; the result is never NaN |
| Types.FindGroup | lib/store.ts:226 | `find` by id: None exactly when no group has the id, otherwise the first group with it |
| Types.FindGroupPrefix | lib/store.ts:226 | groups listed after the first match do not change what `find` returns |
| Strings.Trim | lib/store.ts:170 | `trim()` drops the whitespace at both ends; the result is empty exactly when the text is all whitespace |
| Strings.TrimIdempotent | lib/store.ts:156 | trimming a trimmed text changes nothing |
| Strings.Split | lib/dates.ts:36 | `split('-')` gives at least one piece and no piece contains the separator |
| Strings.SplitAt | lib/dates.ts:36 | a text with one separator splits into the part before it and the split of the rest |
| Strings.ParseInt | lib/dates.ts:36 | `parseInt(x, 10)` is NaN exactly when no digit follows the leading whitespace and sign |
| Strings.ParseIntOfDigits | lib/dates.ts:36 | `parseInt` of a digit string is its decimal value |
| Strings.ParseIntOfNegative | lib/dates.ts:36 | `parseInt` of a minus sign followed by digits is the negated value |
| Strings.NatToString | lib/dates.ts:2 | `String(n)` is n's decimal digits, without leading zeros, and reads back as n |
| Strings.NatToStringOfDigits | lib/dates.ts:2 | printing the value of a digit string without leading zeros gives that string back |
| Strings.Pad2 | lib/dates.ts:1-3 | `pad2(n)` is n's digits left-padded with '0' to at least two characters and reads back as n |
| Strings.Pad2OfDigits | lib/dates.ts:1-3 | `pad2` of a two-digit text's value is that text |
| Seqs.Filter | lib/store.ts:163 | `filter` keeps exactly the elements satisfying the predicate |
| Seqs.FilterConcat | lib/store.ts:163 | filtering distributes over concatenation |
| Seqs.PresentAllSome | lib/store.ts:51 | `filter(Boolean)` over a list of present entries keeps the list |
| Seqs.PresentIsFilter | lib/store.ts:51 | `filter(Boolean)` keeps the present entries unwrapped, each as often as it occurs and in list order |
| Cents.Round | app/subscriptions/page.tsx:51 | `Math.round(x)` is the integer within half of x, halves rounding up |
| Cents.ToCents | app/subscriptions/page.tsx:51 | `Math.round(x*100)/100` is a whole number of cents within half a cent of x |
| Cents.ToCentsKeepsCents | app/work/page.tsx:63 | an amount already in cents is kept |
| Cents.ToCentsIdempotent | app/work/page.tsx:63 | rounding to cents twice is rounding once |
| Cents.ToCentsOfPositive | app/work/page.tsx:63 | a positive amount rounds to a non-negative one, and to a positive one from half a cent up |
| Dates.DaysInMonth | lib/dates.ts:13-15 | the length of each month (day 0 of the next month), 28 to 31 days |
| Dates.Weekday | lib/dates.ts:20 | `getDay()` is 0 (Sunday) to 6 (Saturday) |
| Dates.DateLeIsTimeOrder | lib/dates.ts:47 | the loop's `cur <= e` comparison is the order of day numbers |
| Dates.NextDay | lib/dates.ts:50 | the next calendar day is one day number later |
| Dates.AddDays | lib/dates.ts:22 | moving k days changes the day number by exactly k |
| Dates.FullYear | lib/dates.ts:10 | `new Date`'s year: a year y from 0 to 99 becomes 1900 + y, every other year is kept |
| Dates.MonthStart | lib/dates.ts:37 | day 1 of the month m0 months after January of the year, its month index (year·12 + month − 1) being year·12 + m0 |
| Dates.JsNewDate | lib/dates.ts:37 | `new Date(y, m, d)` is that date when it exists; for d = 1 it is day 1 of the month m months after January of the full year |
| Dates.SetDate | lib/dates.ts:50 | `setDate(n)` moves to day n of the month, overflowing into the neighbouring months |
| Dates.JsNewDateOfDate | lib/dates.ts:19 | copying a date through `new Date(y, m, d)` gives the same date, outside years 0–99 |
| Dates.StartOfMonth | lib/dates.ts:9-11 | day 1 of the same month |
| Dates.EndOfMonth | lib/dates.ts:13-15 | the last day of the same month |
| Dates.MondayOf | lib/dates.ts:18-24 | the computed `diff` lands on a Monday 0–6 days before the date |
| Dates.MondayOnOrBefore | lib/dates.ts:18-24 | a Monday at most 6 days on or before the date |
| Dates.StartOfWeekMonday | lib/dates.ts:18-24 | the result is a Monday 0–6 days on or before the copy `new Date(year, month, day)`, and that copy is the date itself outside years 0–99 |
| Dates.ClampNonNeg | lib/dates.ts:26-28 | at least 0; n itself for a finite n ≥ 0; 0 for a negative or non-finite n |
| Dates.MonthKey | lib/dates.ts:30-32 | the year's digits, a dash, and the two-digit month |
| Dates.ParseMonthKey | lib/dates.ts:34-38 | an invalid date exactly when the year piece does not parse; otherwise day 1 of the parsed month (carried by month index), January when the month piece is missing, unparseable or 0 |
| Dates.YearOnlyKey | lib/dates.ts:34-38 | a key without a '-' is January of its year |
| Dates.SplitYearMonth | lib/dates.ts:36 | a `YYYY-MM` text splits into its year and month digits |
| Dates.ParseWellFormedKey | lib/dates.ts:34-38 | a well-formed key parses to day 1 of its year and month |
| Dates.MonthKeyRoundTrip | lib/dates.ts:30-38 | `monthKey(parseMonthKey(k)) == k` for every `YYYY-MM` key with month 01–12 whose year does not start with 0 |
| Dates.LeadingZeroYearBreaksRoundTrip | lib/dates.ts:30-38 | for a `YYYY-MM` key with month 01–12 whose year starts with 0, `monthKey(parseMonthKey(k)) != k` |
| Dates.IntToStringReadsBack | lib/dates.ts:30-32 | the printed year (`Strings.IntToString`, a sign and the digits) reads back as the year |
| Dates.IntToStringInjective | lib/dates.ts:30-32 | different years print differently |
| Dates.SameMonthIffSameKey | lib/dates.ts:55-57 | `sameMonth(a, b)` holds exactly when the two month keys are equal |
| Weeks.WeekStartsAreMondays | lib/dates.ts:48-49 | every week start collected is a Monday |
| Weeks.WalkDay | lib/dates.ts:47-51 | one loop step adds the day's Monday to the set and advances to the next day |
| Weeks.WalkDone | lib/dates.ts:47 | when the loop stops, the set holds the Mondays of every day of the month |
| Weeks.CollectWeekStarts | lib/dates.ts:45-51 | the loop from day 1 to the month's last day collects exactly the Mondays of the month's days |
| Weeks.WeeksInMonth | lib/dates.ts:40-53 | the count is the number of distinct Monday-start weeks touched by the month, and at least 1 |
| Finance.MonthKeyFromISO | lib/finance.ts:9-12 | the first 7 characters when there are at least 7, otherwise `""` |
| Finance.MonthKeyOfExtension | lib/finance.ts:9-12 | a 7-character key followed by anything gives the key |
| Finance.MonthKeyIdempotent | lib/finance.ts:9-12 | applying it twice is applying it once |
| Finance.NormalizeWorkDateISO | lib/finance.ts:14-19 | weekly input is unchanged; monthly `YYYY-MM` gets `-01`; other monthly input is unchanged |
| Finance.NormalizeIdempotent | lib/finance.ts:14-19 | normalising twice is normalising once, in both modes |
| Finance.NormalizeMonthly | lib/finance.ts:14-19 | a normalised month is a full date on day 01 whose month key is the input |
| Finance.N | lib/finance.ts:21-24 | `n(v)` is v when finite, else 0 |
| Finance.SuggestedSavingsFromIncome | lib/finance.ts:27-30 | 12% of income, which lies between 0 and the income when the income is non-negative |
| Finance.LogMonths | lib/finance.ts:33-41 | a monthly log counts toward its start month; a weekly log toward its start month and its end month |
| Finance.WorkIncomeIsBucketSum | lib/finance.ts:33-41 | the income fold (`Finance.WorkIncome`) equals the sum of `n(amount)` over exactly the logs bucketed into the month |
| Finance.WorkIncomeConcat | lib/finance.ts:33-41 | the fold over two lists of logs is the sum of the two folds |
| Finance.MonthlyLogCountsOnce | lib/finance.ts:34 | a monthly log contributes its amount to its start month only |
| Finance.WeeklyLogCounts | lib/finance.ts:36-40 | a weekly log counts toward M exactly when its start or end month key is M, and then contributes once |
| Finance.StraddlingWeekInBothMonths | lib/finance.ts:36-40 | a week spanning two months adds its amount to both months' income |
| Finance.WorkIncomeNonNegative | lib/finance.ts:33-41 | with non-negative amounts the work income is non-negative |
| Finance.SumMonthlyConcat | lib/finance.ts:47 | the subscription sum over two lists is the sum of the two sums |
| Finance.SubsMonthlyIsShares | lib/finance.ts:47 | `Finance.SubsMonthly`, filtering the active subscriptions and summing, equals summing each one's share, 0 for inactive ones |
| Finance.ActiveSubGroupName | lib/finance.ts:68-101 | the matching group's name when the id is set, the group exists and its name is non-empty; 'All subscriptions' when the id is unset or empty, names no group, or names a group with an empty name; any other label is the found group's name |
| Finance.ComputeMonthRollup | lib/finance.ts:32-103 | every rollup field: bucketed income, active-subscription expenses, percent or fixed target, 12% suggestion, unclamped nets, clamped safe spend, aliases, group label |
| Finance.MoneyIgnoresActiveGroup | lib/finance.ts:47 | changing `activeSubGroupId` changes no money figure of the rollup |
| Store.TrimmedNote | lib/store.ts:156 | a blank note is dropped; otherwise the trimmed note is kept |
| Store.WorkAdded | lib/store.ts:141-160 | the new log (`Store.NewWorkLog`, the object literal at lines 149-158) goes first with its id, timestamp, the input's fields, amount `\|\| 0` and the trimmed note; nothing else changes |
| Store.WorkDeleted | lib/store.ts:162-164 | exactly the logs with that id go, the rest keep their order; nothing else changes |
| Store.DeleteWorkUndoesAddWork | lib/store.ts:141-164 | deleting a freshly added log restores the state |
| Store.DeleteAbsentWork | lib/store.ts:162-164 | deleting an id no log has changes nothing |
| Store.SubAdded | lib/store.ts:167-176 | one subscription (`Store.NewSub`, the literal at lines 168-174) is appended with trimmed name, amount `\|\| 0`, the input's flag, id and timestamp; nothing else changes |
| Store.GroupsPurged | lib/store.ts:179 | every group loses the id from its members and keeps everything else |
| Store.SubDeleted | lib/store.ts:178-181 | the subscription goes and its id leaves every group; group ids, names and other members stay |
| Store.DeleteSubUndoesAddSub | lib/store.ts:167-181 | deleting a freshly added subscription restores the state |
| Store.SubsToggled | lib/store.ts:186 | each subscription with the id has its flag flipped, every other one is kept, order and length kept |
| Store.SubToggled | lib/store.ts:183-188 | `toggleSub` flips only the matching subscription's flag; nothing else changes |
| Store.ToggleTwice | lib/store.ts:183-188 | toggling twice restores the state |
| Store.ToggleAbsent | lib/store.ts:183-188 | toggling an id no subscription has changes nothing |
| Store.ToggleMovesShares | lib/store.ts:183-188 | toggling one subscription moves the summed shares by exactly its amount |
| Store.ToggleMovesTotal | lib/store.ts:183-188 | toggling one subscription moves the monthly subscription total by exactly its amount, down if it was active |
| Store.SettingsUpdated | lib/store.ts:191-196 | each setting the patch gives is replaced, the others kept; nothing else changes |
| Store.EmptyPatch | lib/store.ts:191-196 | an empty patch changes nothing |
| Store.Dedupe | lib/store.ts:203 | `Array.from(new Set(ids))`: the same ids, each once |
| Store.DedupeDistinct | lib/store.ts:203 | a list without duplicates is kept as it is, order included |
| Store.GroupName | lib/store.ts:202 | the trimmed name, or 'My Group' when it is blank |
| Store.GroupAdded | lib/store.ts:199-208 | the new group (`Store.NewGroup`, the literal at lines 200-205) goes first with the given id, the name rule, the deduplicated members and the timestamp |
| Store.GroupDeleted | lib/store.ts:210-219 | the groups with the id go; the active group is cleared only if it was that one; nothing else changes |
| Store.FindSurvivesDelete | lib/store.ts:216 | removing one id keeps every other group findable |
| Store.DeleteGroupKeepsActiveValid | lib/store.ts:210-219 | if the active id named a group before, it names one (or is cleared) after |
| Store.DeleteGroupUndoesAddGroup | lib/store.ts:199-219 | deleting a freshly added group restores the state |
| Store.ActiveGroupSet | lib/store.ts:221-223 | only `activeSubGroupId` changes |
| Store.WithMembership | lib/store.ts:229-233 | each subscription's flag becomes membership of its id in the group; all else is kept |
| Store.GroupApplied | lib/store.ts:225-235 | an unknown id changes nothing; otherwise flags equal membership, the group becomes active, order, length and other fields are kept |
| Store.ApplyIdempotent | lib/store.ts:225-235 | applying a group twice is applying it once |
| Store.ApplyMakesActiveValid | lib/store.ts:225-235 | after applying a stored group the active id names a stored group |
| Store.ReportAdded | lib/store.ts:238-248 | the new entry goes first with its id, month, timestamp and snapshot; nothing else changes |
| Store.ReportsCleared | lib/store.ts:250-252 | only the history is emptied |
| Store.StringsOf | lib/store.ts:61 | the string entries of a loaded `subIds` list, and only those |
| Store.OrText | lib/store.ts:59-60 | `String(x \|\| fallback)`: a non-empty text is kept, a missing or empty one becomes the fallback |
| Store.OrNow | lib/store.ts:62 | `Number(x) \|\| Date.now()`: a truthy number is kept, otherwise the timestamp |
| Store.SanitizeGroup | lib/store.ts:58-63 | a loaded group keeps a non-empty id and name, else gets a fresh id and 'My Group'; its members are the string entries only |
| Store.ModeOf | lib/store.ts:80-83 | the mode is percent exactly when the stored text is 'percent', otherwise fixed |
| Store.SanitizedGroups | lib/store.ts:55-64 | each present group is sanitised in order; a missing list gives none |
| Store.SanitizedReports | lib/store.ts:66-75 | each present report is sanitised in order; a missing list gives none |
| Store.SanitizeLoaded | lib/store.ts:48-98 | version 2; the default state for nothing loaded; mode defaults to fixed; the value is never NaN and is 0 when missing or falsy; the active id is null when missing; logs and subscriptions are the present entries in order; groups and reports sanitised in order (`Store.SanitizeReport` per report), groups named; settings by `Store.SanitizeSettings` |
| Store.StringsOfStrings | lib/store.ts:61 | keeping the strings of a list of strings keeps the list |
| Store.GroupReload | lib/store.ts:58-63 | a group with non-empty id and name and a truthy timestamp loads back unchanged |
| Store.GroupsReload | lib/store.ts:55-64 | a saved list of such groups loads back unchanged |
| Store.ReportsReload | lib/store.ts:66-75 | a saved list of reports with ids and truthy timestamps loads back unchanged |
| Store.ListsReload | lib/store.ts:51-52 | saved logs and subscriptions load back unchanged |
| Store.SettingsReload | lib/store.ts:77-86 | saved settings without a NaN value load back unchanged |
| Store.LoadAfterSave | lib/store.ts:48-98 | loading what was saved gives back a state of version 2 whose settings value and group and report timestamps are finite, timestamps non-zero, ids and group names non-empty |
| Store.StateStore.constructor | lib/store.ts:35 | the store starts from the default state |
| Store.StateStore.SetState | lib/store.ts:134-138 | the state becomes the given one |
| Store.StateStore.Load | lib/store.ts:100-117 | the state becomes the sanitised load |
| Store.StateStore.AddWork | lib/store.ts:141-160 | the state becomes `WorkAdded` of the old state |
| Store.StateStore.DeleteWork | lib/store.ts:162-164 | the state becomes `WorkDeleted` of the old state |
| Store.StateStore.AddSub | lib/store.ts:167-176 | the state becomes `SubAdded` of the old state |
| Store.StateStore.DeleteSub | lib/store.ts:178-181 | the state becomes `SubDeleted` of the old state |
| Store.StateStore.ToggleSub | lib/store.ts:183-188 | the state becomes `SubToggled` of the old state |
| Store.StateStore.UpdateSettings | lib/store.ts:191-196 | the state becomes `SettingsUpdated` of the old state |
| Store.StateStore.AddSubGroup | lib/store.ts:199-208 | the state becomes `GroupAdded` of the old state and the new id is returned |
| Store.StateStore.DeleteSubGroup | lib/store.ts:210-219 | the state becomes `GroupDeleted` of the old state |
| Store.StateStore.SetActiveSubGroup | lib/store.ts:221-223 | the state becomes `ActiveGroupSet` of the old state |
| Store.StateStore.ApplySubGroup | lib/store.ts:225-235 | the state becomes `GroupApplied` of the old state |
| Store.StateStore.AddReportEntry | lib/store.ts:238-248 | the state becomes `ReportAdded` of the old state and the new id is returned |
| Store.StateStore.ClearReportHistory | lib/store.ts:250-252 | the state becomes `ReportsCleared` of the old state |
| Store.StateStore.ResetAll | lib/store.ts:255-257 | the state becomes the default state |
| Dashboard.Clamp | app/page.tsx:17-19 | within [a, b] when a ≤ b; n itself when already inside; the nearer bound otherwise |
| Dashboard.GroupFilter | app/page.tsx:492-502 | no filter without an active id; the group's ids when it exists; no ids when it does not |
| Dashboard.Selected | app/page.tsx:504-508 | only active subscriptions; all of them without a group; exactly the members with a group; none for an unknown group |
| Dashboard.ActiveSubsCount | app/page.tsx:453-471 | the number of active subscriptions, of active group members with a group, 0 for an unknown group |
| Dashboard.AppliedGroupAgreesWithRollup | lib/store.ts:233 | after applying a stored group the dashboard's selection is the rollup's active subscriptions |
| Dashboard.Insert | app/page.tsx:512 | inserting adds the one element to the multiset |
| Dashboard.InsertSorted | app/page.tsx:512 | inserting into a descending list keeps it descending |
| Dashboard.SortByAmount | app/page.tsx:510-512 | the sorted copy is a permutation of the selection, ordered by amount non-increasing |
| Dashboard.Rows | app/page.tsx:513-514 | the first n subscriptions as (name, amount) rows, the prefix of `Dashboard.RowsOf` |
| Dashboard.TopHoldsLargerRows | app/page.tsx:510-514 | cutting a sorted copy after n rows keeps every row larger than the last kept one as often as it occurs in the selection |
| Dashboard.RowsOfPermutation | app/page.tsx:510-514 | sorting a copy reorders its rows: each row occurs as often as in the selection |
| Dashboard.TopOfSorted | app/page.tsx:510-514 | the first six rows of the sorted copy are descending rows of the selection, hold all of it when it is small, and every row larger than the last one exactly as often as in the selection, and no row more often than there |
| Dashboard.SelectedSubs | app/page.tsx:492-508 | the loop-free filter with `let allowed` computes the selection |
| Dashboard.RankTop | app/page.tsx:510-514 | at most six rows, descending by amount, each a selected subscription, all of them when six or fewer, every row that beats the last row present exactly as often as in the selection, and no row more often than there |
| Dashboard.TopSubs | app/page.tsx:487-515 | `topSubs`: the ranking of the group-filtered selection, with no row more often than in the selection and every row beating the last one as often as there |
| Dashboard.TrendMonth | app/page.tsx:477 | month `back` before the base, day 1, with the year carried |
| Dashboard.PointFor | app/page.tsx:480-484 | the point for a key carries that key and `max(0, netAfterTarget)` ≥ 0 |
| Dashboard.CountBack | app/page.tsx:476-479 | the counting-down loop yields six values, the oldest first |
| Dashboard.TrendMonths | app/page.tsx:474-479 | the six month keys from five months back to the selected month |
| Dashboard.Series | app/page.tsx:473-485 | six points, the j-th for the month 5 − j months back |
| Dashboard.TrendIsConsecutive | app/page.tsx:476-479 | consecutive trend months are one month apart, ascending |
| Dashboard.TrendKeysDistinct | app/page.tsx:476-479 | the trend keys are pairwise distinct |
| Dashboard.TrendOfInvalidKey | app/page.tsx:474-478 | a month whose year does not parse gives 'NaN-NaN' keys |
| Dashboard.TrendEndsAtMonth | app/page.tsx:473-479 | for a well-formed key the last trend key is the selected month |
| Dashboard.DonutSegments | app/page.tsx:518-544 | three labelled segments, each ≥ 0: expenses, target, and `max(0, income − both)` |
| Dashboard.DonutCoversIncome | app/page.tsx:518-544 | when expenses and target fit in the income, the segments add up to the income |
| Dashboard.PlanBarWidths | app/page.tsx:272-275 | the three widths each lie in [0, 100] and sum to 100 |
| Dashboard.RatioWithin | app/page.tsx:273 | a part of the total is between 0% and 100% |
| Dashboard.RatioAdds | app/page.tsx:275 | percentages of the same total add |
| Dashboard.PlanBarProportional | app/page.tsx:272-275 | when expenses and savings fit in an income of at least 1, the widths are exactly their percentages |
| Dashboard.DisplayNets | app/page.tsx:443-444 | the displayed nets are `max(0, ·)` of the rollup nets |
| Dashboard.MaxForBars | app/page.tsx:446-451 | the largest of income, the two plan totals and 1 |
| Dashboard.BarPercent | app/page.tsx:240 | a bar's percentage lies in [0, 100] and is the plain ratio for a value within the maximum |
| SubscriptionsPage.AcceptedSub | app/subscriptions/page.tsx:44-53 | rejected exactly when the trimmed name is empty or the amount is not finite and > 0; otherwise trimmed name, amount rounded to cents, active |
| SubscriptionsPage.AcceptedSubStored | app/subscriptions/page.tsx:44-57 | the stored subscription has the trimmed non-empty name, the cents amount ≥ 0, the flag set and the id |
| SubscriptionsPage.NumAdd | app/subscriptions/page.tsx:40 | JavaScript addition: finite values add, NaN propagates |
| SubscriptionsPage.AmountSumIsSumMonthly | app/subscriptions/page.tsx:39-42 | without infinite amounts the page's reduce (`SubscriptionsPage.AmountSum`) equals the sum with non-numbers counting 0 |
| SubscriptionsPage.TotalIsSubsMonthly | app/subscriptions/page.tsx:39-42 | the shown total (`SubscriptionsPage.Total`) is the rollup's `subsMonthly`, whatever group is active |
| SubscriptionsPage.IndexOf | app/subscriptions/page.tsx:60 | the position of the id's entry in the record, if it has one |
| SubscriptionsPage.TogglePickFlipsOne | app/subscriptions/page.tsx:59-61 | `togglePick` (`SubscriptionsPage.PicksToggled`) flips only that id's flag and keeps the keys unique |
| SubscriptionsPage.TickedIds | app/subscriptions/page.tsx:64-66 | the ids whose flag is set, and only those |
| SubscriptionsPage.TickedIdsDistinct | app/subscriptions/page.tsx:64-66 | the ticked ids are distinct |
| SubscriptionsPage.GroupNameIdempotent | app/subscriptions/page.tsx:70 | the page's name rule followed by the store's is the store's rule |
| SubscriptionsPage.CreatedGroupActivatesTicked | app/subscriptions/page.tsx:63-78 | after `SubscriptionsPage.GroupCreated` (add, apply, activate) the new group holds exactly the ticked ids and is active, and afterwards a subscription is active exactly when ticked |
| SubscriptionsPage.GroupBuilder.constructor | app/subscriptions/page.tsx:33-34 | the builder starts with no name and no picks |
| SubscriptionsPage.GroupBuilder.TogglePick | app/subscriptions/page.tsx:59-61 | the picks are toggled at one id; every other id's flag is kept |
| SubscriptionsPage.GroupBuilder.CreateGroup | app/subscriptions/page.tsx:63-78 | nothing when nothing is ticked; otherwise the store gets the group, applied and active, and the form is cleared |
| SubscriptionsPage.AddForm.constructor | app/subscriptions/page.tsx:29-30 | the form starts empty |
| SubscriptionsPage.AddForm.Submit | app/subscriptions/page.tsx:44-57 | a rejected entry changes nothing; otherwise the subscription is added and both fields are cleared |
| WorkPage.NormalizedISO | app/work/page.tsx:45-48 | the week start when weekly, the normalised month when monthly |
| WorkPage.HoursValue | app/work/page.tsx:56-57 | hours are kept exactly when the field is non-blank and reads as a finite number ≥ 0 |
| WorkPage.NoteValue | app/work/page.tsx:65 | the trimmed note, dropped when blank |
| WorkPage.AcceptedWork | app/work/page.tsx:52-66 | rejected exactly when the amount is not finite and > 0; otherwise the normalised date, the end date only when weekly, the amount in cents, the hours and note rules |
| WorkPage.AcceptedWorkStored | app/work/page.tsx:52-66 | the stored log keeps what the page prepared, and well-formed date fields give the documented date shape |
| WorkPage.WorkForm.constructor | app/work/page.tsx:34-43 | the form opens weekly on today and this month with empty fields |
| WorkPage.WorkForm.Submit | app/work/page.tsx:52-71 | a rejected amount changes nothing; otherwise the log is added and amount, hours and note are cleared |
| BudgetsPage.MonthKeyFromISODate | app/budgets/page.tsx:15-19 | the first 7 characters, or the current month for a shorter date |
| BudgetsPage.SameMonthAsRollup | app/budgets/page.tsx:15-19 | it agrees with the rollup's month key except on short input, where only it falls back |
| BudgetsPage.DateGivesMonthKey | app/budgets/page.tsx:15-19 | a `YYYY-MM-DD` date gives a `YYYY-MM` key |
| BudgetsPage.BudgetFigures | app/budgets/page.tsx:42-43 | income is the two incomes' sum; available is `max(0, income − subscriptions − target)` |
| BudgetsPage.AvailableIsClampedNet | app/budgets/page.tsx:42-43 | the page's income is the rollup's, and available is the clamped target-based net |
| SettingsPage.Parsed | app/settings/page.tsx:26-29 | the number when finite, otherwise 0 |
| SettingsPage.ClampedSavings | app/settings/page.tsx:36 | ≥ 0; at most 100 in percent mode; unchanged when already in range |
| SettingsPage.SavePatch | app/settings/page.tsx:31-38 | the patch sets the chosen mode and the clamped value, not the active group |
| SettingsPage.SaveKeepsRest | app/settings/page.tsx:31-38 | saving sets the mode and an in-range value and changes nothing else |
| SettingsPage.SaveInRangeUnchanged | app/settings/page.tsx:36 | an in-range value is stored unchanged |
| SettingsPage.SettingsForm.constructor | app/settings/page.tsx:18-19 | the form starts from the stored mode and value text |
| SettingsPage.SettingsForm.Save | app/settings/page.tsx:31-38 | the store gets the settings patch built from the form |
| Nav.LinkTable | components/Nav.tsx:57-67 | `Nav.Links` holds six links with distinct paths, in the order Dashboard, Work, Budgets, Subscriptions, Reports, Settings |
| Nav.RootOnlyOnRoot | components/Nav.tsx:12 | the root link is active exactly on '/' |
| Nav.NestedPathActive | components/Nav.tsx:13 | a path below a link's path makes that link active |
| Nav.PrefixWithoutBoundaryInactive | components/Nav.tsx:13 | a longer name without a '/' boundary, such as /workx for /work, does not |
| Nav.ActiveIsPrefix | components/Nav.tsx:13 | an active non-root link's path is a prefix of the pathname |
| Nav.AtMostOneActive | components/Nav.tsx:11-14 | under `Nav.IsActivePath` (with `Strings.StartsWith` as `startsWith`) at most one entry of the link table is active for any pathname |

## Left out

- Strings: the model's `char` is a Unicode scalar value, while JavaScript's `length`, `slice`
  and `padStart` count UTF-16 code units. The two agree except on characters outside the Basic
  Multilingual Plane, which count once here and twice in the source.
- Dates: the JavaScript Date range of ±8.64e15 ms around 1970 is not modelled. Beyond it the
  source gets an Invalid Date (a key such as "300000-01" gives "NaN-NaN" trend keys), where the
  model gives an ordinary calendar date.
- Floating point: money is exact `real` arithmetic. IEEE rounding of sums and products, and
  overflow to infinity, are not modelled. NaN and the infinities are modelled where the code
  tests for them.
- `Number(text)` string parsing: each page's parsed number is a `Num` argument.
- `toLocaleString` month labels on the trend points, and all JSX/SVG rendering.
- `money()` / `toFixed` formatting, the reports page, the PDF route, the report builder and the
  service worker: they are presentation or I/O.
- `localStorage`, `JSON.stringify`/`JSON.parse`, the listener set and `emit`. `save` is modelled
  only as the object `load` reads back (`Store.Saved`).
- The fallback of migrating from the old storage key in `load` is not modelled. `Load` takes the
  parsed object.
- `uid()` and `Date.now()` become parameters: crypto randomness and the clock.
- `...parsed` in `sanitizeLoaded` copies extra keys of the loaded object. The state type has no
  extra keys, so this is not modelled, nor are the extra keys `...parsed.settings` could copy.
- Loaded logs, subscriptions and the active group id are taken to be well-typed. The source
  keeps any truthy value from `filter(Boolean)` unchecked (a number, a string, an object missing
  `amount` or `dateISO`). It also keeps any non-null `activeSubGroupId`, string or not. Such
  values cannot be written in the model's types.
- JSON's number encoding: `Store.Saved` keeps numbers as they are. `JSON.stringify` writes NaN
  and the infinities as null, so a log or subscription with such an amount does not load back
  as it was; `Store.Reloadable` asks for finite settings and timestamps for this reason.
- Loaded group ids and names that are not strings: `String(x)` conversion of non-string values
  is not modelled (a raw id or name is a string or missing).
- A loaded `roll` that is not an object is stored as None; the source's empty placeholder object
  has no fields to model.
- The legacy group fields `subscriptionIds` and `subs` read by the dashboard, and `String(id)`
  coercion of non-string ids: stored groups always carry `subIds`.
- `Partial<Settings>` keys explicitly set to `undefined` (which would overwrite a setting) are not
  modelled: a patch field is given or absent.
- `Object.entries` lists integer-like keys first; the model keeps insertion order for the ticked
  ids. The group's member set is the same either way.
- Dashboard.TopSubs: ranks every amount by `n(amount)` (a non-finite amount ranks as 0), and it
  does not state how ties are ordered. The source's comparator on NaN follows the engine's sort.
- Weeks.WeeksInMonth: the set holds Monday dates, not their `toISODate` strings. Printing dates
  as strings is one-to-one, but that is not proved. The `Math.max(1, …)` floor is proved
  redundant (the set is never empty).
- Store.SanitizeGroup: the timestamp is stated truthy only for a non-zero `now` (`Date.now()`
  is non-zero in practice).
- Amounts below half a cent are accepted by both forms and stored as 0 after rounding, as in the
  source.
- The source compares `Date` objects in the `weeksInMonth` loop. The model compares calendar
  dates with `DateLe`, proved to be the order of day numbers (`Dates.DateLeIsTimeOrder`).
