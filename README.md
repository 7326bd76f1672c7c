# Monthly telephony cost allocation — a verified model

This project models the allocation engine of a desktop tool. The tool splits
a PBX provider's monthly bill across the divisions of a company and
produces a per-division report. The bill has five parts:

- **Employees pool.** Split in proportion to each division's `employees`.
- **Departments pool.** Split in proportion to each division's `departments`.
- **Subscription fee.** Split equally over the divisions.
- **Call-time pool.** Split in proportion to the outgoing seconds each
  division's numbers made inside the chosen days.
- **Line charge.** A flat price per telephone number, charged to the
  division that owns the number.

The window's invoice reader sums the lines of the provider's invoice into the
four pools. `calculate` joins the division table with the per-number table
on the division id. It adds a `total` column and keeps seven renamed
columns.

Modules, in dependency order:

| module | file | what it holds |
|---|---|---|
| `Wrappers` | wrappers.dfy | `Option` and `Result` |
| `Money` | money.dfy | money as exact reals; `round(x, 2)` (half to even); cells that a division by a zero sum turns into inf/NaN; sums and proportional shares |
| `Text` | text.dfy | substring search; the invoice amount normalisation; the `float()` reading of a decimal string |
| `Tables` | tables.dfy | order-keeping row filters; group-by sums with keys in ascending order |
| `Ledger` | ledger.dfy | the call record; the date-window filter; the outgoing-traffic filter |
| `PoolSplit` | pool_split.dfy | `round(weights * (pool / sum(weights)), 2)` and its reconciliation |
| `Divisions` | divisions.dfy | the divisions table as an object whose three cost columns are written in place |
| `Numbers` | numbers.dfy | line charges per division; the call-time pipeline of `calculate_expenses_by_numbers` |
| `Invoice` | invoice.dfy | the invoice classifier of `from_invoice` |
| `Report` | report.dfy | the join, the `total` column, the shown table; the main window's `from_invoice` and `calculate` |

Conventions:

- **Timestamps** are whole seconds. A date picker's day is the second at
  midnight that starts it.
- **Numbers** are the strings the CSV loaders produce.
- **Divisions** are identified by an integer `id`.
- **Division by a zero sum.** Where the code divides a float by a zero
  integer sum, the result is the `NonFinite` cell. No error is raised.

## Model

| member | source | states |
|---|---|---|
| Money.Round2 | main.py:105 | `round(x, 2)` lands within half a hundredth of `x` |
| Money.Round2Exact | main.py:105 | rounding leaves a value with at most two decimals unchanged |
| Money.Round2Monotone | main.py:105 | rounding never reverses the order of two amounts |
| Money.RoundAmount | main.py:153 | rounding a column keeps inf/NaN cells as they are and moves finite ones by at most half a hundredth |
| Money.Quotient | main.py:100 | a float over an integer sum is finite exactly when the sum is non-zero, and then multiplies back to the numerator |
| Money.Times | main.py:153 | an integer column times a rate cell is finite exactly when the rate is, and is then the product |
| Money.Plus | gui.py:601-605 | adding two cells is finite exactly when both are, and is then their sum |
| Money.ScaleIsProduct | main.py:105 | the repeated-addition share `Scale(w, rate)` equals `w * rate` |
| Money.ScaleAdd | main.py:95 | shares of two weights add up to the share of their sum |
| Money.ScaleMonotone | main.py:105 | a larger weight never gets a smaller share of a non-negative rate |
| Money.SumAppend | gui.py:601-605 | the sum of a column over two blocks of rows is the sum of the two block sums |
| Money.SumNatAppend | main.py:149 | the same, for integer durations |
| Money.SumNatZero | main.py:100 | an integer column sums to zero exactly when every entry is zero |
| Money.Shares | main.py:105 | the exact shares `weights[i] * rate`, one per row |
| Money.SharesSum | main.py:105 | the exact shares add up to the rate times the total weight |
| Money.SharesReconcile | main.py:99-105 | exact proportional shares of a pool add back to the pool |
| Money.RoundingDrift | main.py:105 | rounding each of n terms moves their sum by at most n/200 |
| Money.SumColumns | gui.py:601-605 | the sum of a row-wise total column is the sum of the five column sums |
| Money.ValuesAppend | gui.py:601-605 | the values of a finite column over two blocks of rows are the two blocks' values |
| Text.ContainsAt | main.py:63 | substring containment holds exactly when the fragment occurs at some index |
| Text.Contains | main.py:63 | a contained fragment is never longer than the text |
| Text.MissingFirstChar | gui.py:486 | a fragment whose first character is absent from a text is not contained in it |
| Text.PrefixContained | gui.py:486 | a text contains each of its prefixes |
| Text.Replace | gui.py:484 | `replace(',', '.')` changes exactly the commas and keeps the length |
| Text.Delete | gui.py:484 | `replace(' ', '')` leaves no space and never lengthens the text |
| Text.DeleteCounts | gui.py:484 | removing spaces keeps every other character with its count |
| Text.DeleteAppend | gui.py:484 | removing spaces distributes over concatenation |
| Text.NormalizeValue | gui.py:484 | the normalised amount holds neither a comma nor a space |
| Text.NormalizedDigits | gui.py:484 | every digit of the normalised amount is a digit of the raw amount |
| Text.NormalizeIdempotent | gui.py:484 | normalising twice is normalising once |
| Text.NoChangeWithout | gui.py:484 | an amount already without commas and spaces is left as it is |
| Text.DigitChar | gui.py:484 | each digit value has a digit character that reads back as that value |
| Text.IndexOf | gui.py:484 | the decimal point search finds the first occurrence or the end |
| Text.IndexOfFirst | gui.py:484 | the search returns an index that holds the point with no point before it |
| Text.ParseUnsigned | gui.py:486 | `float()` reads an unsigned value only when it holds at least one digit |
| Text.ParseDecimal | gui.py:486 | `float()` reads a value only when it holds at least one digit |
| Text.NatDigitsValue | gui.py:484 | the decimal digits of a whole number read back as that number |
| Text.ParsePointed | gui.py:484 | `float()` of `digits.digits` is the value of the two digit runs |
| Text.TwoDigits | gui.py:484 | two digit characters read as a two-digit number |
| Text.HundredthsValue | gui.py:486 | a whole number followed by a point and two digits reads as the units plus the hundredths |
| Text.ParseShowAmount | gui.py:484 | `float()` reads a two-decimal amount back as its value (round trip) |
| Tables.Filter | main.py:54 | a row filter keeps exactly the rows that satisfy the condition |
| Tables.FilterIsSubsequence | main.py:54 | a row filter keeps the rows in their original order |
| Tables.FilterCounts | main.py:54 | a row filter keeps every kept row as many times as it occurs, and drops the rest |
| Tables.FilterAppend | main.py:54 | filtering two blocks of rows is filtering each block |
| Tables.FilterAll | main.py:54 | a condition every row satisfies keeps the whole table |
| Tables.Insert | main.py:149 | inserting a key into sorted keys keeps them sorted and adds exactly that key |
| Tables.SortedKeys | main.py:149 | `groupby` keys are strictly ascending, and exactly the keys that occur |
| Tables.GroupTotals | main.py:149 | each group's total is the sum of the weights of the rows with its key |
| Tables.GroupSum | main.py:149 | a group's total never exceeds the total of the whole column |
| Tables.WeightsInSplit | main.py:149 | weights over a key set split into one key's group plus the rest |
| Tables.WeightsInAll | main.py:149 | when every row's key is in a key set, the weights in the set are all the weights |
| Tables.WeightsInNone | main.py:149 | no keys select no weight |
| Tables.GroupTotalsIn | main.py:149 | the group totals over sorted keys add up to the weights of rows with those keys |
| Tables.GroupTotalsReconcile | main.py:149 | `groupby(...).sum()` over all keys preserves the grand total |
| Tables.GroupSumMissing | main.py:149 | a key without rows has an empty group |
| Tables.SortedUnique | main.py:149 | sorted unique keys are determined by the set of keys |
| Ledger.FilterByDate | main.py:46-54 | keeps exactly the calls from the first day's midnight up to 23:59:59 of the last day |
| Ledger.InPeriod | main.py:54 | a call is in the window exactly when it falls from the first day's midnight up to, but not including, the midnight after the last day |
| Ledger.FilterByDateExact | main.py:46-54 | the date filter keeps the calls in order, each as often as it occurs |
| Ledger.LastDayBoundary | main.py:53-54 | a call at 23:59:59 of the last day is kept; a call one second later is dropped |
| Ledger.FilterOutcomeCalls | main.py:57-63 | keeps exactly the calls whose traffic type contains «Исходящие» |
| Ledger.FilterOutcomeCallsExact | main.py:57-63 | the outgoing filter keeps the calls in order, each as often as it occurs |
| Ledger.TrafficTypes | main.py:12-15 | both outgoing traffic types pass the outgoing filter; the incoming type does not |
| Ledger.FiltersAppend | main.py:141-144 | the two filters applied to two blocks of history are applied to each block |
| PoolSplit.WeightedColumn | main.py:105 | one cell per row, finite exactly when the rate is |
| PoolSplit.PoolColumn | main.py:103-105 | one cell per division |
| PoolSplit.WeightedCell | main.py:105 | each cell is the rounded share of its weight |
| PoolSplit.PoolCell | main.py:103-105 | each cell is its weight's proportional share of the pool, rounded |
| PoolSplit.PoolColumnReconciles | main.py:99-105 | with a non-zero total weight every cell is finite and within half a hundredth of its exact share, and the column adds to the pool within n/200 |
| PoolSplit.PoolColumnDegenerate | main.py:99-105 | with a zero total weight every cell is inf/NaN |
| PoolSplit.PoolColumnMonotone | main.py:103-105 | a division with more weight never gets less of a non-negative pool |
| PoolSplit.WeightedMonotone | main.py:153 | the same, for a given non-negative rate |
| Divisions.EmployeeCost | main.py:99-100 | the per-employee price is finite exactly when there are employees, and then multiplies back to the pool |
| Divisions.DepartmentCost | main.py:108-109 | the per-department price, with the same two properties |
| Divisions.SubscriptionCost | main.py:117-118 | the per-division fee is finite exactly when the roster is non-empty, and then multiplies back to the fee |
| Divisions.BroadcastColumn | main.py:123 | one cell per division, each finite exactly when the fee is, and then within half a hundredth of it |
| Divisions.SubscriptionEqualSplit | main.py:117-123 | on a non-empty roster every division gets the same rounded fee, and the column adds to the fee within n/200 |
| Divisions.EvenShares | main.py:117-123 | the exact equal shares of a fee over n divisions are each fee/n and add back to the fee |
| Divisions.SumNatOnes | main.py:118 | counting the ids is adding one per row |
| Divisions.DivisionTable.constructor | main.py:37-43 | a loaded roster has no cost columns yet |
| Divisions.CalculateSumForEmployees | main.py:103-105 | writes the rounded employee shares into the table in place and changes no other column |
| Divisions.CalcSumForDepartments | main.py:112-114 | writes the rounded department shares in place and changes no other column |
| Divisions.CalcSubscriptionSumByDepartments | main.py:121-123 | writes the rounded equal fee into every row in place and changes no other column |
| Divisions.CalculateExpensesByDivisions | main.py:126-131 | writes all three columns into the very table it was given and returns that table |
| Numbers.Lines | main.py:93 | one unit-weight row per telephone number, keyed by its division |
| Numbers.LinesKeys | main.py:93 | a division has a line row exactly when it owns a number |
| Numbers.Charges | main.py:93-95 | the charge of each division is its line count times the price |
| Numbers.PhonesCostToDivision | main.py:86-96 | one row per division that owns a number, ids ascending, charge = number of lines × price |
| Numbers.PhonesCostTotal | main.py:86-96 | the line charges add up to the number of lines × price |
| Numbers.PhonesCostScaled | main.py:93-95 | the line charges add up to the price scaled by the number of lines |
| Numbers.ChargesTotal | main.py:95 | charges for line counts that add up to a total add up to the price scaled by that total |
| Numbers.ChargesAreShares | main.py:95 | the line charges are the price scaled by each division's line count |
| Numbers.LinesCounted | main.py:93 | the per-division line counts add up to the number of lines |
| Numbers.LinesWeigh | main.py:93 | the directory holds one line per number |
| Numbers.OutgoingInPeriod | main.py:141-144 | keeps exactly the outgoing calls inside the chosen days |
| Numbers.PhoneDivision | main.py:146-147 | the `phones.merge(number_seconds)` result has at most one row per directory entry |
| Numbers.NumberSeconds | main.py:146 | only a number that made a call has seconds |
| Numbers.PhoneDivisionWeighs | main.py:146-147 | the seconds after the merge add up to each directory row's seconds |
| Numbers.LineSecondsAppend | main.py:146-147 | the directory rows' seconds over two blocks of history add |
| Numbers.LineSecondsOne | main.py:146-147 | one call counts its duration once for each directory row that lists its number |
| Numbers.MatchedSeconds | main.py:146-147 | the seconds after the merge are the durations of the calls made from directory numbers, each counted once per directory row that lists its number |
| Numbers.ListingsDistinct | main.py:147 | in a directory without repeated numbers, a number is listed once or not at all |
| Numbers.PhoneDivisionKeys | main.py:146-147 | a division appears after the merge exactly when one of its numbers made a kept call |
| Numbers.HasKeyAppend | main.py:147 | a key occurs in two blocks of rows when it occurs in either |
| Numbers.PriceSec | main.py:66-73 | the price of a second is finite exactly when there were seconds, and then multiplies back to the pool |
| Numbers.DivisionDuration | main.py:149-153 | one row per matched division, ascending; duration = its seconds; cell = its rounded share of the pool |
| Numbers.Matches | main.py:155 | every row the merge makes for a division carries that division's id, duration and call cost |
| Numbers.MergeOnDivision | main.py:155 | every merged row carries the id, duration and call cost of some row of the per-division table |
| Numbers.MatchesOne | main.py:155 | a division with a charge row is matched to exactly that row |
| Numbers.MatchesNone | main.py:155 | a division without a charge row is dropped by the merge |
| Numbers.MergeKeepsLeft | main.py:155-156 | when every left division has a charge row, the merge keeps the left rows in order and adds each one's charge |
| Numbers.ChargeOfRow | main.py:155 | the charge looked up for a row's id is that row's charge |
| Numbers.ChargeOfPhones | main.py:86-96 | the charge looked up for a division is its line count × price |
| Numbers.ExpensesByNumbersShape | main.py:138-157 | ids are the sorted matched divisions; durations are their group sums; call costs are the pool split by duration; line charges are line count × price |
| Numbers.ExpensesByNumbers | main.py:138-157 | each row's duration is the grouped seconds of its division after the directory merge |
| Numbers.ExpensesByNumbersSeconds | main.py:146-149 | the durations add up to the kept seconds of the calls made from directory numbers, a number listed twice in the directory counting twice |
| Numbers.ExpensesByNumbersCalls | main.py:149-153 | with kept seconds, every call cost is finite and within half a hundredth of its exact share; the exact shares add to the pool; the column adds to it within n/200 |
| Numbers.ExpensesByNumbersNoSeconds | main.py:151-153 | with no kept seconds, every call cost is inf/NaN |
| Numbers.ExpensesByNumbersDivisions | main.py:147-157 | ids are ascending and are exactly the divisions with a matched call |
| Numbers.NumberSecondsAppend | main.py:146 | a number's seconds over two blocks of history add |
| Numbers.PhoneDivisionIgnores | main.py:147 | calls from numbers outside the directory do not change the merge |
| Numbers.UnknownNumbersIgnored | main.py:138-157 | appending calls from numbers outside the directory leaves the whole per-number table unchanged |
| Invoice.Classify | gui.py:483-497 | a line fails exactly when its service is billed and its amount is unreadable, and the error is the normalised amount; otherwise each pool whose labels the service contains grows by the amount |
| Invoice.Amount | gui.py:484-486 | an amount with no digit at all is unreadable |
| Invoice.ClassifyCredit | gui.py:483-497 | a line with a readable amount credits the amount to each pool it feeds |
| Invoice.ClassifyUnreadable | gui.py:483-497 | a billed line whose amount is unreadable raises with its normalised amount |
| Invoice.TotalsAsSums | gui.py:478-497 | the loop succeeds exactly when every billed line is readable, and each pool is then the sum of the amounts of the lines that feed it |
| Invoice.PoolSumAppend | gui.py:482-497 | pool sums over two blocks of lines add |
| Invoice.TotalsSwap | gui.py:482-497 | the verdict and the four pools do not depend on which of two blocks of lines comes first |
| Invoice.UnbilledLine | gui.py:485-497 | a line that feeds no pool changes nothing, even with an unreadable amount |
| Invoice.SubscriptionAddedOnce | gui.py:489-492 | a line matching several subscription labels is added to the subscription pool once |
| Invoice.IndependentGroups | gui.py:485-497 | a line matching labels of two pools is added to both |
| Invoice.NormalizeGrouped | gui.py:484 | a grouped amount `1 234,56` normalises to `1234.56` |
| Invoice.ReplaceGrouped | gui.py:484 | the comma of `1 234,56` becomes a point |
| Invoice.DeleteGrouped | gui.py:484 | the group space of `1 234.56` is removed |
| Invoice.DeleteHead | gui.py:484 | removing the space from `1 ` leaves `1` |
| Invoice.ParseGrouped | gui.py:484 | `float('1234.56')` is 1234.56 |
| Invoice.GroupedAmount | gui.py:484-497 | a line amount written `1 234,56` reads as 1234.56 |
| Invoice.SumInvoice | gui.py:478-497 | the loop over the invoice lines yields exactly the four pool totals, or the first unreadable billed amount |
| Invoice.Totals | gui.py:478-497 | a failure names the normalised amount of some billed line whose amount is unreadable |
| Invoice.ClassifyRow | gui.py:483-497 | one pass of the loop body is the classification of that line |
| Invoice.TotalsStop | gui.py:482-497 | once a line fails, the lines after it change nothing |
| Report.CostedRows | main.py:126-131 | the roster rows with the three cost cells the division engine wrote |
| Report.DivisionIds | gui.py:598 | the `id` column of the costed roster |
| Report.IdMatches | gui.py:598 | every pair the join makes for a division carries that division's id on both sides |
| Report.MergeOnId | gui.py:598 | every joined row pairs equal ids |
| Report.Lefts | gui.py:598 | the division side of each joined row |
| Report.IdMatchesOne | gui.py:598 | a division is joined once when the per-number table has its id, and otherwise not at all |
| Report.MergeOnIdKeeps | gui.py:598 | the join keeps exactly the divisions that have a per-number row, once each, in roster order |
| Report.IdMatchesNone | gui.py:598 | a division without a per-number row is dropped from the report |
| Report.MergeSkips | gui.py:598 | a per-number row whose id no division has takes no part |
| Report.Pairs | gui.py:598 | the row-by-row pairing of two equally long tables: one pair per row, in order |
| Report.MergeOnIdAppend | gui.py:598 | joining two blocks of divisions is joining each block |
| Report.MergeOnNothing | gui.py:598 | joining with an empty per-number table yields nothing |
| Report.JoinFirst | gui.py:598 | a division whose id heads the ascending per-number table joins that row and no later one |
| Report.MergeOnIdAround | gui.py:598 | the join of a roster splits around any one division |
| Report.MergeAroundOwner | gui.py:598 | when exactly one division owns the first per-number row, the join is the other divisions' join with the remaining rows, with that division's pair in its place |
| Report.MergeWithoutOwner | gui.py:598 | without the first per-number row, its owner joins nothing |
| Report.MergeSplitsAt | gui.py:598 | with distinct roster ids, the join splits at the owner of the first per-number row |
| Report.JoinedCallsAppend | gui.py:598 | the call and charge columns of the joined rows split over two blocks |
| Report.JoinedSumsInsert | gui.py:598 | inserting a joined row adds its call cost and line charge to the column sums |
| Report.ChargeSumsHead | main.py:156 | the call and charge sums of the per-number table split off its first row |
| Report.JoinedRowAdded | gui.py:598 | adding the first per-number row's pair to a join that uses the other rows gives a join that uses every row |
| Report.MergeUsesEachRow | gui.py:598 | with distinct roster ids that include every per-number id, the join uses each per-number row once: its call and charge sums are the per-number table's |
| Report.MergeCoversRoster | gui.py:598 | when in addition every division has a per-number row, the join keeps the roster whole and in order |
| Report.MergeAligned | gui.py:598 | when both tables list the same ascending ids, the join is the row-by-row pairing `Pairs` |
| Report.Total | gui.py:601-605 | the total is finite exactly when the four rounded costs are, and is the sum of all five |
| Report.ReportRows | gui.py:601-607 | one report row per joined row, with its name, five costs and total |
| Report.ColumnOf | gui.py:606-607 | a report row holds exactly the seven selected columns; any other name is a missing column |
| Report.Cells | gui.py:606-607 | seven cells per row, the k-th being the column named k-th in the selection: name, employees, departments, subscription, calls, numbers, total |
| Report.ShownTable | gui.py:606-608 | the seven Russian headings over one row of cells per report row |
| Report.ReportCallsReconcile | gui.py:598-608 | for a roster with distinct ids that include every matched division, in any order and with unmatched divisions besides, the report has one row per matched division, every call cell is finite, and the call column adds to the call-time pool within n/200 |
| Report.CostedRoster | main.py:126-131 | the costed roster keeps the roster's ids in order |
| Report.FullReport | gui.py:589-607 | every row's total is finite exactly when its four rounded costs are, and is then the sum of its five costs |
| Report.ReportOfRoster | gui.py:598-607 | when the joined divisions are the whole costed roster, each report column is its engine's column |
| Report.ReportTotalsAdd | gui.py:601-605 | the total column adds up to the sum of the five column sums |
| Report.FullReportAligned | gui.py:589-607 | with the roster equal to the sorted matched divisions, the report has one row per division, and each column is that engine's column |
| Report.NumbersAllCharged | main.py:86-96 | when every line's division made matched calls, the report's line charges add up to lines × price |
| Report.FullReportColumns | gui.py:589-607 | when the roster's ids are distinct and are exactly the matched divisions, in any order, the pool columns are the engines' columns, every call cell is finite, and the call and charge columns add up as the per-number table's do |
| Report.ReportColumnsBounded | main.py:99-123 | with employees and departments on the roster, the three division-engine columns are finite and each adds to its pool within n/200 |
| Report.FullReportPools | gui.py:589-607 | under the reconciliation conditions each of the four rounded columns adds to its pool within n/200 and the line charges add up to lines × price |
| Report.FullReportReconciles | gui.py:589-607 | when the roster's ids are distinct and are exactly the matched divisions, in any order, and every line belongs to such a division, every total is finite and the totals add up to the five pools within 4n/200 |
| Report.ReportTotalsWithin | gui.py:601-605 | when the four rounded columns are each within n/200 of their pools and the line charges add up exactly, the totals add up to the five pools within 4n/200 |
| Report.MainWindow.constructor | gui.py:429-433 | the line edits start at 4200, 10000, 900, 24000 and 160; no report yet |
| Report.MainWindow.FromInvoice | gui.py:469-499 | on a chosen invoice that reads, the four line edits receive the rounded pools; on a failure or a cancelled dialog, nothing changes |
| Report.MainWindow.Calculate | gui.py:582-609 | the shared divisions table receives its three columns from the current line edits, and `to_model` becomes the shown report of the whole engine for the chosen days |

## Left out

- **File and network I/O.** `read_tel_statistic`, `load_divisions` and
  `get_phones` read CSV files. Their results are parameters: the call
  history, the roster and the directory. The row deduplication and the column
  renaming they do are left out. The model relies on neither.
- **Import-time default arguments.** Every engine takes its tables as
  arguments. `calculate` (gui.py:589-597) passes no table, so the program uses
  the engines' import-time defaults: `divisions=load_divisions()` (main.py:127),
  the table that `calculate_expenses_by_divisions` mutates on every call, and
  `phones=get_phones()` (main.py:138). `MainWindow.divisions` and
  `MainWindow.phones` stand for these two defaults, not for the window's own
  `self.divisions` and `self.phones` (gui.py:436-437), which only the settings
  tab uses.
- **The PDF reader.** `parse_pdf` is not part of this model. `FromInvoice`
  takes its output, the invoice lines, with `None` for a cancelled file dialog.
- **The Qt user interface.** Widgets, layouts, the settings tab (`set_settings`,
  `get_info`, `load_settings`, `save_divisions`) and `PandasModel` are left
  out. So are `save_report` (an Excel export of `to_model`), `read` and
  `request_history`. The line edits are modelled as the numbers they hold.
  The `str(round(x, 2))` / `float(text)` trip through a line edit is taken as
  exact.
- **Dead code.** `calc_calls_duration` (main.py:134-135) is a stub that
  nothing calls. `calculate2` (gui.py:531-558) is a window method whose only
  caller is `request_history` (gui.py:560-579), and the button connection of
  `request_history` at gui.py:425 is commented out. `calculate2` also calls
  `calculate_expenses_by_numbers2`, which neither file defines. All three are
  left out, as is the commented-out code.
- **The script block of main.py.** The `__main__` block (main.py:161-206) loads
  the CSV files, runs the two engines with fixed dates and prices and prints
  column sums. It is I/O around the modelled engines and is left out.
- **Date parsing.** The pickers' `datetime(...)` construction and the CSV date
  parsing are left out. Dates are whole seconds.
- **IEEE 754 arithmetic.** Money is exact `real`. `round` is applied to the
  exact value, so binary representation error, overflow and the difference
  between `inf` and `NaN` are not modelled: both are `NonFinite`.
- **`float()` grammar.** Only `[sign] digits [. digits]` is read; exponents,
  `inf`/`nan` and underscores read as unreadable. Python's `float()` also
  strips surrounding whitespace, so an amount with a trailing newline or a
  no-break space (which `replace(' ', '')` leaves in place) parses in the
  program, while `Text.ParseDecimal` reads it as unreadable.
- **Row order of `value_counts()`.** The charge table is modelled in ascending
  id order, not by descending count. Its only consumer is an inner merge that
  keeps the left table's order, so the report does not depend on it.
- **`sort_values('date')`.** Left out: the per-number and per-division sums do
  not depend on row order.
- **pandas column bookkeeping.** Unused call columns (`caller`, `region`) are
  carried but never read. The internal column names of the merges are left out.
- Numbers.UnknownNumbersIgnored: states invariance for extra calls appended
  after the history, not inserted anywhere in it.
- Invoice.TotalsSwap: states order independence for exchanging two blocks of
  lines, not for every permutation. On a failure the error names the first
  unreadable line of each order, which may differ.
- Report.FullReportReconciles: holds only when the roster's ids are distinct
  and are exactly the divisions with matched calls, in any order, and every
  line belongs to such a division.
  Otherwise the inner join drops divisions and their pool shares (see
  `Report.MergeOnIdKeeps`). The bound is half a hundredth per division for
  each of the four rounded columns, not one hundredth per division overall.

## Behaviour of the code worth knowing

- `cost_for_numbers` is never rounded. main.py:95 multiplies the line count by
  the price, and neither engine nor `calculate` rounds that column, so it
  enters `total` (gui.py:601-605) exactly.
- A zero total gives inf/NaN cells, not an error. `calc_price_sec`
  (main.py:73), `calc_employee_cost` (main.py:100) and `calc_department_cost`
  (main.py:109) divide a float by an integer sum that may be zero, and so does
  `calc_subscription_cost` (main.py:118) on an empty roster.
- Divisions without matched calls vanish from the report. The merge at
  gui.py:598 is an inner join on `id`, so a division none of whose numbers
  made a kept outgoing call has no row, and its employee, department and
  subscription shares are not shown.
- The buttons are not wired to these methods. The connections of `read`,
  `calculate`, `request_history`, `from_invoice` and `save_report` at
  gui.py:423-427 are commented out, and `connectSlotsByName` (gui.py:377)
  finds no slot named after a widget. The model covers `calculate` and
  `from_invoice` as the operations they define.
- gui.py imports only `sys` and PySide6 (gui.py:1-17), yet uses `pd`,
  `parse_pdf`, `json`, `requests`, `datetime` and main.py's engines. The model
  takes those names to be the libraries they name and main.py's functions.
