# Busget core, modelled in Dafny

Busget ("Butterfly Budget") is a personal-finance tracker. It keeps an
in-memory list of transactions and a budget record. Around them sit a handful of
deterministic rules:

- a once-a-month budget rollover;
- a purchase-recurrence forecast and a year-over-year comparison;
- payment reminders;
- a 30-day ingredient inventory for the meal planner;
- report export as CSV or as a PDF summary;
- the dashboard totals, per-category chart, shopping list and widget order;
- the add-transaction form's category auto-suggest;
- the savings-goal progress;
- the application's state updaters.

This project states those rules in Dafny and proves what they promise.

Modelling choices:

- Amounts are whole cents (`int`).
- Percentages and averages are `real`.
- Dates are civil `Date(year, month, day)` values with a day number (`Dates.DayNumber`). Month keys `YYYY-MM` are `MonthKey(year, month)`.
- Today's date is a parameter wherever the source reads the clock. The shopping forecast and the inventory's 30-day window also take the time of day (`Dates.Instant`: a day and the fraction of it elapsed), because their cut-offs compare against the current moment.

Modules follow the source files:

- `Types` and `Constants` hold the records and tables.
- `BudgetService`, `AnalysisService` and `ReminderService` are the three services.
- `RecipePlanner`, `Settings`, `Dashboard`, `ExpenseForm` and `SavingsGoalCard` are the components' logic.
- `App` is the application shell.
- `Seqs`, `Strings`, `Dates` and `Csv` model the built-ins the core relies on:
  - `filter` and `reduce`;
  - `toLowerCase`, `trim`, `includes` and `join`;
  - calendar dates;
  - comma-separated text. Its reader is the partner that proves the export loses nothing.

How the source's code maps onto the model:

- Where the source changes variables step by step, the model is a method with a loop proved against a function stating the result:
  - the reminder pass;
  - the inventory count;
  - the PDF totals;
  - the dashboard totals;
  - the forecast's sort and gap average;
  - the keyword search.
- The form's state cells and the application's state cells are classes whose methods update their fields.
- Pure updaters (spread, `map`, `filter`) are functions.

The dashboard's spent/income totals and chart cover every transaction in the list, not only the current month's. The model keeps that as written.

## Model

| member | source | states |
|---|---|---|
| Types.TransactionTypeHasTwoValues | types.ts:2-5 | a transaction is an expense or an income, and these differ |
| Types.CategoryHasTenValues | types.ts:7-18 | the enum has ten distinct values, every category among them, Income included |
| Types.CategoryNamesDistinct | types.ts:7-18 | the categories' string values are distinct, so a category is known by its name |
| Constants.CategoryColor | constants.ts:4-15 | every category has a seven-character colour starting with `#` |
| Constants.CategoryColorsDistinct | constants.ts:4-15 | no two categories share a colour |
| Constants.InitialSavingsGoalUnderTarget | constants.ts:17-23 | the initial budget is 2000 dollars (200000 cents) and the initial goal's saved amount lies between 0 and its target |
| Constants.SampleDataShape | constants.ts:25-57 | the sample ids are distinct, incomes are filed under Income and expenses never are, and the bill is due two days from today |
| Constants.KeywordsLowerCase | constants.ts:59-101 | the keyword table has 42 entries, each keyword non-empty and lower-case |
| Constants.NoIncomeKeyword | constants.ts:59-101 | no keyword maps to Income |
| Dates.PrevMonth | services/budgetService.ts:23-24 | the month before a key differs from it, is the month whose successor is the key, and January's is December of the year before |
| Dates.NextDayCounts | constants.ts:38 | the next calendar day has the next day number |
| Dates.MonthOf | services/budgetService.ts:28 | a valid date's `YYYY-MM` prefix is a valid month key |
| Dates.IsoText | components/Settings.tsx:63 | the stored date text consists of digits and hyphens only |
| Dates.IsoRoundTrip | components/Settings.tsx:63 | a valid date of a four-digit year is written as ten characters, `YYYY-MM-DD`, that read back as the date |
| Dates.Timestamp | services/analysisService.ts:9-13 | the current moment lies within its calendar day: its whole part is the day number |
| Strings.NatTextWidth | components/Settings.tsx:63 | a number below 10^w has at most w digits |
| Strings.PadNatWidth | components/Settings.tsx:63 | zero-padding a number that fits gives exactly the requested width |
| Strings.ToLower | components/ExpenseForm.tsx:33 | lower-casing keeps the length and lower-cases each character on its own |
| Strings.Trim | components/RecipePlanner.tsx:36 | the trimmed text neither starts nor ends with white space |
| Strings.TrimStartDropsSpace | components/RecipePlanner.tsx:36 | what trimming drops in front is white space |
| Strings.TrimEndDropsSpace | components/RecipePlanner.tsx:36 | what trimming drops at the end is white space |
| Strings.TrimShape | components/RecipePlanner.tsx:36 | the trimmed text is a contiguous slice of the original with only white space before and after it, so the text inside is kept as it was |
| Strings.TrimUnspaced | services/analysisService.ts:26 | text without white space at either end is its own trimmed form |
| Strings.ConstructorLowered | services/analysisService.ts:26 | "constructor" normalises to itself |
| Strings.LowerTrimCommute | services/analysisService.ts:26 | trimming then lower-casing (the forecast's keys) equals lower-casing then trimming (the inventory's keys) |
| BudgetService.CheckAndProcessRollover | services/budgetService.ts:9-67 | nothing happens exactly when the record is already at today's month; otherwise the new rollover is the old limit minus the previous month's expenses, the limit is base plus rollover, the base is kept, and the month becomes today's; the notice is chosen by the sign of the rollover |
| BudgetService.RolloverIdempotent | services/budgetService.ts:16-19 | a second check in the same month on the returned record does nothing, whatever was added since |
| BudgetService.MonthExpensesAppend | services/budgetService.ts:27-33 | the month total of a concatenation is the sum of the month totals |
| BudgetService.MonthExpensesOfOne | services/budgetService.ts:27-33 | one more record changes the month total by its amount exactly when it is an expense dated in that month |
| BudgetService.MonthExpensesNonNegative | services/budgetService.ts:27-33 | with non-negative amounts a month total is non-negative |
| BudgetService.RolloverIgnoresOtherMonths | services/budgetService.ts:21-33 | an income, or an expense outside the previous month, does not change the rollover |
| BudgetService.RolloverExamples | services/budgetService.ts:42-66 | worked examples: a surplus of 200 carries over, an overspend of 200 is deducted, a salary is not counted |
| AnalysisService.FoodCandidateCutoff | services/analysisService.ts:12-19 | a candidate is a Food or Shopping expense dated after the day one year back, or on that day only when the clock reads exactly midnight |
| AnalysisService.InheritedKeyThrows | services/analysisService.ts:31-34 | as written, the grouping throws once any candidate normalises to "constructor" or "__proto__" |
| AnalysisService.GroupsAvoidInherited | services/analysisService.ts:31-34 | as written, no group is ever filed under an inherited name |
| AnalysisService.GroupsAsWrittenAgree | services/analysisService.ts:22-35 | without inherited names the loop as written builds the grouping the model uses |
| AnalysisService.InheritedCandidateThrows | services/analysisService.ts:15-34 | one candidate under an inherited name makes the grouping as written throw |
| AnalysisService.ConstructorPurchaseThrows | services/analysisService.ts:15-34 | one grocery expense of the last year described "constructor" makes the grouping as written throw |
| AnalysisService.ConstructorIsInherited | services/analysisService.ts:26-31 | "constructor" is an inherited name |
| AnalysisService.GroupPurchases | services/analysisService.ts:24-35 | the grouping loop files each candidate under its normalised description, skipping generic names, and equals the grouping function |
| AnalysisService.GroupsOfShape | services/analysisService.ts:21-35 | the groups' keys are exactly the non-generic keys that occur, each named after its first transaction and holding the dates of all its transactions in order |
| AnalysisService.GroupOfName | services/analysisService.ts:31-34 | the group of a non-generic key is named after its first transaction and holds the dates of every transaction with that key |
| AnalysisService.GroupNamesKeyed | services/analysisService.ts:26-32 | a group's name normalises back to its key |
| AnalysisService.SortAscending | services/analysisService.ts:40 | the in-place sort leaves the array ascending and a permutation of its old contents |
| AnalysisService.MeanGap | services/analysisService.ts:46-52 | the loop's result is the sum of consecutive gaps over the number of gaps |
| AnalysisService.GapSumOfSorted | services/analysisService.ts:46-51 | on sorted days the gaps add up to the span from first to last |
| AnalysisService.Cadence | services/analysisService.ts:52 | the average purchase interval is never negative |
| AnalysisService.CadenceIsMeanGap | services/analysisService.ts:40-52 | averaging the gaps of the sorted days gives the span over the gap count, and the last sorted day is the latest purchase |
| AnalysisService.Round | services/analysisService.ts:76 | `Math.round` lands within a half of its argument, halves rounding up |
| AnalysisService.WindowPrediction | services/analysisService.ts:54-78 | an item is predicted exactly when last purchase plus average interval lies within seven days either side of the current moment; it carries the name and last day, the whole days since the last purchase (floored), the day the next purchase falls on, and the interval rounded to within a half |
| AnalysisService.Prediction | services/analysisService.ts:37-78 | a group has a forecast exactly when it has at least three purchases and its latest purchase plus cadence lies within a week either side of now; the forecast names the group, its last date is the latest purchase, days ago counts whole days since it, the predicted date is the day latest plus cadence falls on, within a week of today, and the interval is the cadence rounded |
| AnalysisService.WeeklyCadence | services/analysisService.ts:46-52 | days a week apart have a cadence of seven |
| AnalysisService.ForecastGroup | services/analysisService.ts:38-78 | sorting, averaging and the window test on one group give that group's forecast |
| AnalysisService.WeeklyPurchaseExample | services/analysisService.ts:42-78 | three purchases a week apart, the last a week ago, predict today with a 7-day interval, at any time of day |
| AnalysisService.PredictShoppingItems | services/analysisService.ts:7-82 | the method's result equals the forecast function over the last year's food and shopping expenses |
| AnalysisService.ForecastItems | services/analysisService.ts:38-79 | the forecast holds at most one item per group, each the group's own forecast, and none is missing |
| AnalysisService.ForecastItemAt | services/analysisService.ts:38-79 | each forecast item comes from a non-generic group named after its first candidate and computed from all its dates |
| AnalysisService.ForecastCovers | services/analysisService.ts:38-79 | every group with a forecast contributes it |
| AnalysisService.ShoppingForecastShape | services/analysisService.ts:7-82 | the forecast, stated without loops: one item per normalised name at most, each from all candidates with that name, none missing |
| AnalysisService.ForecastIgnores | services/analysisService.ts:15-29 | a non-candidate or generic transaction changes no forecast |
| AnalysisService.YoYFromTotals | services/analysisService.ts:110-126 | the variance is the difference; history means last year's total is positive; with history the percentage is the variance as a percentage of last year's total; a zero last year gives 100% if spending rose and 0% otherwise; a negative last year gives 0% |
| AnalysisService.YoYRestoresCurrent | services/analysisService.ts:112-115 | with history, last year's total grown by the percentage is this month's total |
| AnalysisService.YoYPercentageSign | services/analysisService.ts:112-118 | with non-negative totals the percentage has the variance's sign and is at least -100% |
| AnalysisService.CalculateYoYComparison | services/analysisService.ts:87-127 | the two totals are this month's expenses and the same month's one year earlier, with their variance, history flag and percentage in each of its four cases |
| AnalysisService.YoYOfNonNegative | services/analysisService.ts:110-126 | with non-negative amounts every comparison obeys the sign rules |
| AnalysisService.YoYIgnoresOtherMonths | services/analysisService.ts:94-105 | incomes and expenses outside the two compared months change nothing |
| ReminderService.CheckReminders | services/reminderService.ts:8-51 | nothing without notification support or permission; otherwise the ids of the pending expenses due within 0-2 days, in list order |
| Types.IdsMembers | services/reminderService.ts:46 | an id is listed exactly when some transaction carries it |
| ReminderService.DueRemindersMembers | services/reminderService.ts:24-47 | an id is reminded of exactly when it belongs to an unpaid, unreminded expense due today, tomorrow or the day after |
| ReminderService.DueRemindersDistinct | services/reminderService.ts:24-47 | with distinct transaction ids no id is reminded of twice |
| RecipePlanner.CountItems | components/RecipePlanner.tsx:33-38 | the counting loop ends with the tally of all transactions: the keys in first-occurrence order and, for each key, the number of transactions with it |
| RecipePlanner.TallyOrder | components/RecipePlanner.tsx:33-40 | the tally map's key order is the order in which keys first occur |
| RecipePlanner.TallyCounted | components/RecipePlanner.tsx:33-38 | the tally map holds exactly the keys that occur, each with the number of transactions carrying it |
| RecipePlanner.FirstOccurrences | components/RecipePlanner.tsx:40 | the map's key order: distinct and holding exactly the keys seen |
| RecipePlanner.Entry | components/RecipePlanner.tsx:41 | an item bought once is its name; bought n > 1 times it is `name (n)` |
| RecipePlanner.RenderTally | components/RecipePlanner.tsx:40-42 | rendering the counted map gives the tally text |
| RecipePlanner.InventoryList | components/RecipePlanner.tsx:20-45 | the inventory text is the tally of the relevant transactions by lower-cased, trimmed description |
| RecipePlanner.TallyKeys | components/RecipePlanner.tsx:33-42 | each key is listed once, and exactly the keys of the counted transactions are listed |
| RecipePlanner.TallyEmpty | components/RecipePlanner.tsx:40-44 | no transactions give the empty text; any non-empty key gives a non-empty text |
| RecipePlanner.InventoryKeys | components/RecipePlanner.tsx:24-42 | the listed items are exactly the keys of food or shopping expenses from the last 30 days, once each |
| RecipePlanner.InventoryEmpty | components/RecipePlanner.tsx:40-44 | no relevant purchases give an empty inventory; a relevant purchase with a non-blank description gives a non-empty one |
| RecipePlanner.RelevantCutoff | components/RecipePlanner.tsx:21-30 | a relevant purchase is a Food or Shopping expense dated after the day 30 days back, or on that day only when the clock reads exactly midnight |
| RecipePlanner.InventoryIgnores | components/RecipePlanner.tsx:24-31 | an income, another category or an older purchase does not change the inventory |
| RecipePlanner.Generate | components/RecipePlanner.tsx:47-53 | generation is refused with the no-food message exactly when the inventory is empty; otherwise the inventory is sent |
| RecipePlanner.GenerateNeedsPurchases | components/RecipePlanner.tsx:20-53 | without relevant purchases generation is refused |
| Csv.Escape | components/Settings.tsx:65 | escaping never shortens the text |
| Csv.EscapeKeeps | components/Settings.tsx:65 | the escaped text holds exactly the same set of characters as the original |
| Csv.EscapeChar | components/Settings.tsx:65 | a double quote escapes to two double quotes; any other character stays as it is |
| Csv.EscapeAppend | components/Settings.tsx:65 | escaping works character by character: the escape of a concatenation is the concatenation of the escapes |
| Csv.Quote | components/Settings.tsx:65 | a quoted field starts and ends with a double quote |
| Csv.QuotedRoundTrip | components/Settings.tsx:65 | reading a quoted, escaped description gives back the description |
| Csv.BareRoundTrip | components/Settings.tsx:62-68 | reading a bare field without commas, quotes or line breaks gives it back |
| Csv.FieldRoundTrip | components/Settings.tsx:62-68 | every writable field reads back as its value, stopping at the separator |
| Csv.RecordRoundTrip | components/Settings.tsx:72 | a row joined with commas reads back as its values |
| Csv.DocumentRoundTrip | components/Settings.tsx:70-73 | lines joined with line breaks read back as every row's values in order, whatever line breaks quoted fields hold |
| Settings.Insert | components/Settings.tsx:57 | inserting into a newest-first list keeps it newest-first and adds exactly the element |
| Settings.SortNewestFirst | components/Settings.tsx:57 | the sort yields a newest-first permutation of its input |
| Settings.FilteredShape | components/Settings.tsx:46-58 | the export data is newest first and holds exactly the transactions in the chosen range, each as often as in the list |
| Settings.RangesNest | components/Settings.tsx:50-56 | this month lies within this year, and "all" keeps every transaction |
| Settings.AmountText | components/Settings.tsx:67 | the two-decimal amount text holds only digits, a minus sign and the point |
| Settings.AmountRoundTrip | components/Settings.tsx:67 | the amount text has exactly two decimals and reads back as the amount |
| Settings.Rows | components/Settings.tsx:62-68 | one row per transaction, in order |
| Settings.RowWellFormed | components/Settings.tsx:62-68 | every row has five writable fields |
| Settings.HeaderWellFormed | components/Settings.tsx:61 | the header is the five column names, all writable |
| Settings.CategoryNamePlain | components/Settings.tsx:64 | a category name needs no quoting |
| Settings.TypeNamePlain | components/Settings.tsx:66 | a type name needs no quoting |
| Settings.RowValuesRead | components/Settings.tsx:62-68 | a row's values are date, category, description, type and amount text |
| Settings.ExportValues | components/Settings.tsx:61-68 | what the export should read back as: the five column names first, then one record of values per transaction, in order |
| Settings.CsvRoundTrip | components/Settings.tsx:60-73 | reading the CSV text gives back exactly the export's values: the header, then every transaction's date, category, description, type and amount text, in order |
| Settings.SummaryTotals | components/Settings.tsx:101-106 | the loop's totals are the sum over incomes and the sum over everything else |
| Settings.TotalsCoverAll | components/Settings.tsx:101-106 | income and expense totals together are the sum of all amounts |
| Settings.PdfSummary | components/Settings.tsx:112-117 | the summary row has three cells |
| Settings.PdfSummaryTotals | components/Settings.tsx:101-117 | the three cells are a dollar sign and amounts that read back as the income total, the expense total and the net, income minus expenses |
| Settings.SummaryRowReads | components/Settings.tsx:112-117 | the summary row of any two totals reads back as income, expenses and their difference |
| Settings.MoneyReads | components/Settings.tsx:112-117 | money text is a dollar sign and an amount that reads back |
| Settings.PdfRows | components/Settings.tsx:129-136 | one detail row per transaction, in order |
| Settings.HandleExport | components/Settings.tsx:144-162 | the no-data error exactly when the range is empty; otherwise the CSV text or the PDF content of the filtered data, under the range's file name |
| Dashboard.Totals | components/Dashboard.tsx:108-124 | the loop's totals are the sums over expenses and over the rest, and its chart is one entry per spent-on category in first-expense order with that category's total |
| Dashboard.TotalsStep | components/Dashboard.tsx:113-120 | one transaction read keeps the totals, category order and category map in step with the transactions read |
| Dashboard.ExpenseCategories | components/Dashboard.tsx:111-122 | the chart's categories are distinct and exactly those with an expense |
| Dashboard.ChartOver | components/Dashboard.tsx:122 | each chart entry is a category's name with its total |
| Dashboard.ChartFromRecord | components/Dashboard.tsx:122 | the entries built from the category map are the chart |
| Dashboard.ChartSumsToExpenses | components/Dashboard.tsx:108-124 | the chart's values add up to the total spent |
| Dashboard.TotalsCoverAll | components/Dashboard.tsx:113-120 | spent plus income is the sum of all amounts |
| Dashboard.Status | components/Dashboard.tsx:129-130 | remaining plus spent is the limit, and over budget means spent exceeds the limit |
| Dashboard.AddToShoppingList | components/Dashboard.tsx:145-149 | the item is on the list afterwards, appended only if it was not there |
| Dashboard.AddKeepsDistinct | components/Dashboard.tsx:145-149 | adding keeps the list free of repeats, is idempotent and adds only the item |
| Dashboard.RemoveDropsOnlyItem | components/Dashboard.tsx:151-153 | removing drops every occurrence of the item and keeps every other entry as often as before; removing twice is removing once |
| Dashboard.RemoveUndoesAdd | components/Dashboard.tsx:145-153 | removing an item just added restores the list |
| Dashboard.DefaultOrderComplete | components/Dashboard.tsx:28-32 | the default order lists every widget once |
| Dashboard.IndexOf | components/Dashboard.tsx:138-139 | `indexOf` finds the first position of a present element |
| Dashboard.ArrayMove | components/Dashboard.tsx:140 | the moved element lands at the target index and the list is a permutation of the old one |
| Dashboard.ArrayMoveBack | components/Dashboard.tsx:140 | moving back undoes a move |
| Dashboard.DragEnd | components/Dashboard.tsx:133-143 | no drop target or a drop on itself leaves the order; otherwise the dragged widget takes the target's place in a permutation of the order |
| Dashboard.DragKeepsWidgets | components/Dashboard.tsx:133-143 | a drag keeps every widget exactly once |
| Dashboard.IsBetterIffNotMore | components/Dashboard.tsx:215 | the comparison shows as better exactly when this month's expenses do not exceed last year's |
| ExpenseForm.FirstMatch | components/ExpenseForm.tsx:35-40 | a suggestion is the category of a keyword the description contains; no suggestion means no keyword occurs |
| ExpenseForm.FirstMatchIsEarliest | components/ExpenseForm.tsx:35-40 | the first keyword in table order that occurs wins |
| ExpenseForm.SuggestNeverIncome | components/ExpenseForm.tsx:32-40 | a suggestion never turns an expense's category into Income |
| ExpenseForm.SuggestLowerIdempotent | components/ExpenseForm.tsx:33 | lower-casing the description again does not change the suggestion |
| ExpenseForm.FindByName | components/ExpenseForm.tsx:87 | the found category is a candidate with that lower-cased name; none found means none has it |
| ExpenseForm.LowerNamesDistinct | components/ExpenseForm.tsx:87 | no two categories have the same lower-cased name |
| ExpenseForm.MatchCategoryIff | components/ExpenseForm.tsx:85-89 | a scanned category is accepted exactly when it spells a category's name up to case, and then it is that category |
| ExpenseForm.ScanKeepsExpenseCategory | components/ExpenseForm.tsx:73-89 | unless the scan spells "income", a scan keeps an expense's category off Income |
| ExpenseForm.ScanCanNameIncome | components/ExpenseForm.tsx:85-90 | a scan reporting "income" files the expense under Income |
| ExpenseForm.Form.constructor | components/ExpenseForm.tsx:15-20 | the form opens empty, as an expense in Food dated today |
| ExpenseForm.Form.SelectType | components/ExpenseForm.tsx:154-161 | the type toggle sets only the type |
| ExpenseForm.Form.SelectCategory | components/ExpenseForm.tsx:208-215 | the select sets only the category, never to Income |
| ExpenseForm.Form.ApplyKeywords | components/ExpenseForm.tsx:35-40 | the search loop over the keyword table, with its early exit, sets the category to the first match, or leaves it; no other field changes |
| ExpenseForm.Form.HandleDescriptionChange | components/ExpenseForm.tsx:27-42 | the description is stored; for an expense the category follows the first keyword, otherwise it stays; an expense category stays off Income |
| ExpenseForm.Form.HandleSubmit | components/ExpenseForm.tsx:44-56 | nothing exactly when amount or description is empty; an income gets category Income and is not recurring; with the select's invariant, category Income exactly when the type is income |
| ExpenseForm.Form.ApplyScannedDescription | components/ExpenseForm.tsx:73-83 | a non-empty scanned description is stored and runs the keyword search whatever the type; an absent or empty one changes nothing |
| ExpenseForm.Form.ApplyScannedCategory | components/ExpenseForm.tsx:85-89 | a non-empty scanned category that spells a category up to case replaces the category; otherwise nothing changes |
| ExpenseForm.Form.ApplyOcrResult | components/ExpenseForm.tsx:72-90 | only fields the scan filled in are taken; a scanned description runs the keyword search; a matching scanned category wins; the type becomes expense |
| SavingsGoalCard.Clamp | components/SavingsGoalCard.tsx:16 | the clamp lies in [0, 100] and leaves values already there |
| SavingsGoalCard.PercentageAsWritten | components/SavingsGoalCard.tsx:16 | as written, the percentage is NaN exactly for a zero target with nothing saved, and in [0, 100] otherwise |
| SavingsGoalCard.EmptyGoalHasNoPercentage | components/SavingsGoalCard.tsx:16 | a goal of 0 with 0 saved has no percentage |
| SavingsGoalCard.Percentage | components/SavingsGoalCard.tsx:15-16 | the corrected percentage is always in [0, 100] and agrees with the written one wherever that is a number |
| SavingsGoalCard.PercentageEnds | components/SavingsGoalCard.tsx:16 | with a positive target, a goal reached shows 100 and nothing saved shows 0 |
| SavingsGoalCard.PercentageMonotone | components/SavingsGoalCard.tsx:16 | with a positive target, more saved never shows less |
| SavingsGoalCard.SaveGoal | components/SavingsGoalCard.tsx:18-25 | saving keeps the edited name and both edited amounts |
| SavingsGoalCard.SaveAfterEdits | components/SavingsGoalCard.tsx:34-56 | filling in the three inputs and saving gives exactly what was entered |
| SavingsGoalCard.AddFunds | components/SavingsGoalCard.tsx:137-143 | a valid amount adds to the saved amount and keeps name and target; no valid amount, no update |
| SavingsGoalCard.AddFundsTwice | components/SavingsGoalCard.tsx:141 | two deposits are one deposit of their sum |
| SavingsGoalCard.AddFundsUndo | components/SavingsGoalCard.tsx:141 | withdrawing a deposit restores the goal |
| SavingsGoalCard.AddFundsRaisesPercentage | components/SavingsGoalCard.tsx:141 | with a positive target a deposit never lowers the progress shown |
| SavingsGoalCard.Mount | components/SavingsGoalCard.tsx:11-13 | the card mounts not editing, with the edit form a copy of the goal |
| SavingsGoalCard.OpenEditor | components/SavingsGoalCard.tsx:79 | as written: opening the editor sets the flag only; goal and form are kept |
| SavingsGoalCard.OpenEditorReseeded | components/SavingsGoalCard.tsx:79 | corrected: the editor opens on the goal shown |
| SavingsGoalCard.Rename | components/SavingsGoalCard.tsx:37 | typing a name changes only the form's name |
| SavingsGoalCard.Save | components/SavingsGoalCard.tsx:18-25 | the goal becomes the saved form and the editor closes; the form is kept |
| SavingsGoalCard.Cancel | components/SavingsGoalCard.tsx:61 | the editor closes; goal and form, with its unsaved edits, are kept |
| SavingsGoalCard.Deposit | components/SavingsGoalCard.tsx:137-143 | a valid amount replaces the goal by the deposit's result; the flag and the form are kept |
| SavingsGoalCard.SaveUntouchedAsWritten | components/SavingsGoalCard.tsx:13-25 | as written: saving an untouched editor writes back the form, not the goal shown |
| SavingsGoalCard.DepositLostOnSave | components/SavingsGoalCard.tsx:141 | as written: after a deposit, a rename and a save, the amount is the one the card mounted with, so the deposit is lost |
| SavingsGoalCard.SaveUntouchedKeepsGoal | components/SavingsGoalCard.tsx:18-25 | corrected: saving an untouched editor keeps the goal shown |
| SavingsGoalCard.DepositKeptOnSave | components/SavingsGoalCard.tsx:141 | corrected: a deposit survives a rename and a save |
| App.InitialBudgetState | App.tsx:25-47 | nothing saved gives the initial budget; a legacy record becomes base = limit with zero rollover; both are consistent and dated this month; a current record is kept |
| App.NoRolloverOnFirstLoad | App.tsx:30-37 | a fresh or migrated record is not rolled over on the first load |
| App.Recorded | App.tsx:117-123 | the added record has the new id, the form's fields, and is unpaid and unreminded |
| App.Prepended | App.tsx:124 | adding puts exactly the new record first and keeps the rest |
| App.WithoutIdMembers | App.tsx:129-131 | deleting removes exactly the records with that id, and removes nothing when none has it |
| App.DeleteUndoesAdd | App.tsx:117-131 | deleting a record just added under a new id restores the list |
| App.IdsStayDistinct | App.tsx:117-131 | adding under a new id, and deleting, keep ids distinct |
| App.MarkedPaid | App.tsx:136-139 | ids and order are kept; a record is paid afterwards exactly when it was or has the id; no other field changes |
| App.MarkedPaidIdempotent | App.tsx:136-139 | marking twice is marking once |
| App.PaidNotReminded | App.tsx:136-139 | a record marked paid is never reminded of |
| App.MarkedReminded | App.tsx:92-94 | ids and order are kept; a record is flagged exactly when it was or its id was sent; no other field changes |
| App.RemindedOnce | App.tsx:88-97 | after flagging what was sent, a second pass the same day sends nothing |
| App.UpdatedBudget | App.tsx:143-148 | the base becomes the new amount, the limit is base plus rollover, rollover and month are kept |
| App.UpdatedBudgetLastWins | App.tsx:143-148 | only the last update counts, and restating the base of a consistent record changes nothing |
| App.App.constructor | App.tsx:19-52 | the saved list or the sample data, the migrated budget, notifications as saved or off |
| App.App.RolloverOnMount | App.tsx:100-110 | the budget becomes the rollover's record when there is one, with its notice; a consistent budget stays consistent |
| App.App.CheckRemindersEffect | App.tsx:88-97 | with notifications on, the due reminders are sent and their records flagged; otherwise nothing changes |
| App.App.AddTransaction | App.tsx:117-127 | the list becomes the prepended list; the budget is unchanged |
| App.App.DeleteTransaction | App.tsx:129-134 | when confirmed, the list loses the records with that id; otherwise nothing changes |
| App.App.MarkAsPaid | App.tsx:136-141 | the list becomes the marked list |
| App.App.UpdateBudget | App.tsx:143-150 | the budget becomes the updated record, which is consistent |

## Left out

- Time zones and daylight saving. Today is a `Date` parameter, and the clock of the forecast and the inventory an `Instant` read in UTC. The source mixes local time and UTC, so away from UTC it can disagree with the model at every hour of the day:
  - West of UTC, a date parsed from `YYYY-MM-DD` is UTC midnight, which is still the previous local day. Read with local getters or moved by `setHours`, it falls one day early at every hour:
    - the reminder's `diffDays` is one less than `ReminderService.DaysUntilDue` (services/reminderService.ts:33-34), so a bill due in three days is reminded and one due today is not;
    - an expense dated the 1st is counted under the previous month in the year-on-year totals (services/analysisService.ts:97-101) and in the export's month and year ranges (components/Settings.tsx:49-55).
  - East of UTC, the rollover's previous-month key is built from local midnight on the 1st, which `toISOString` turns into the last day of the month before; the key is then two months back at every hour (services/budgetService.ts:23-24).
  - Near midnight, the UTC month keys (services/budgetService.ts:14, App.tsx:31, 45) and the form's default date (components/ExpenseForm.tsx:18) differ from the local day and month.
- The clock is read once per operation. The forecast calls `new Date()` for each of its cut-offs (services/analysisService.ts:9, 12, 60, 66), microseconds apart; the model uses one reading for all of them.
- `toLowerCase` is modelled on ASCII letters only; other letters keep their case.
- IEEE floating point:
  - Amounts are exact cents, and `toFixed(2)` is exact.
  - `parseFloat` and `Number` on user text are not modelled. `ExpenseForm.Form.HandleSubmit` takes the conversion as a parameter, and so does the amount rendering in `ExpenseForm.Form.ApplyOcrResult`.
  - The savings goal's edit inputs and "Add Funds" prompt arrive already converted (`Option<int>`).
- The browser `Notification` API. Its presence and permission are parameters; the notification text is not modelled.
- `localStorage`. What was saved comes in as parameters of the `App.App` constructor; writing it back is left out.
- Blob downloads, jsPDF fonts and layout, toasts, and the `confirm`/`prompt` dialogs. A dialog's answer is a parameter.
- The AI calls (meal-plan generation and receipt scanning) and their error paths. services/geminiService.ts is not part of this model; only the scan result's use in the form is.
- Routing, menus, the group switcher and the settings page's notification toggle are presentation only. The savings goal's cell in the app (App.tsx:54-57) is modelled only as the card's `goal`, which `onUpdate` replaces; a remount of the card, which re-seeds its form, is `SavingsGoalCard.Mount` again.
- AnalysisService.GroupPurchases: models the corrected grouping, which accepts any name; the grouping as written throws on "constructor" and "__proto__" (see Findings). Groups are listed in first-occurrence order. A JavaScript object lists integer-like keys (a description such as "2") first, in numeric order, and the model does not reproduce that order.
- Settings.SortNewestFirst: states order and permutation only. It does not state that transactions with the same date keep their list order, although the source's sort is stable.
- Dashboard.DragEnd: requires both widget ids to be in the order. The drag library only reports ids of the sortable items, which are the order itself.
- BudgetService.CheckAndProcessRollover: reconciles only the month just before today's, however many months were skipped, as the source does. It uses the stored `monthlyLimit`, as the code does, although a comment there speaks of the base amount.
- App.InitialBudgetState: a saved record is either legacy (limit only) or complete. Other malformed storage content is not modelled.

## Findings

| source | as written | input that shows it | evidently intended | confidence | as-written member | corrected member |
|---|---|---|---|---|---|---|
| components/SavingsGoalCard.tsx:16 | `Math.min(100, Math.max(0, current / target * 100))` | a goal with target 0 and nothing saved (the edit form accepts 0 for both amounts): 0 / 0 is NaN, which passes through `max` and `min`, and the progress bar gets width "NaN%" | a percentage clamped to [0, 100], as the comment on line 15 says, reading 0 for an empty goal | not executed; high | SavingsGoalCard.PercentageAsWritten (with SavingsGoalCard.EmptyGoalHasNoPercentage) | SavingsGoalCard.Percentage |
| services/analysisService.ts:31-34 | `if (!itemDates[key]) { itemDates[key] = {...} }` then `itemDates[key].dates.push(...)` on a plain object | a Food or Shopping expense of the last year described "constructor" (or "__proto__", or any description normalising to one of them): `itemDates["constructor"]` is the inherited `Object` function, so no group is made, `.dates` is undefined and `push` throws a TypeError, so the whole forecast fails | every non-generic name gets its own group, as for any other description | not executed; high | AnalysisService.GroupsOfAsWritten (with AnalysisService.InheritedKeyThrows and AnalysisService.ConstructorPurchaseThrows) | AnalysisService.GroupsOf (with AnalysisService.GroupsOfShape and AnalysisService.GroupsAsWrittenAgree) |
| components/SavingsGoalCard.tsx:13 | `useState(goal)` seeds the edit form once, at mount; the settings button (line 79) only sets `isEditing`, while "Add Funds" (line 141) replaces `goal` through `onUpdate` | a goal with 100 saved: "Add Funds" 50 shows 150; opening the editor, changing only the name and saving writes back `currentAmount` 100, so the deposit is lost | the editor opens on the goal currently shown, so a save without touching the amounts keeps them | not executed; high | SavingsGoalCard.OpenEditor (with SavingsGoalCard.SaveUntouchedAsWritten and SavingsGoalCard.DepositLostOnSave) | SavingsGoalCard.OpenEditorReseeded (with SavingsGoalCard.SaveUntouchedKeepsGoal and SavingsGoalCard.DepositKeptOnSave) |
