# Expense tracker: fund ledger, monthly arithmetic and budget analysis in Dafny

This project models the bookkeeping core of a browser-based personal expense tracker.
The tracker is a React application that keeps everything in local storage, and its
identifiers are Spanish. The model is split into one Dafny module per source file,
plus a few helper modules.

- **Storage** (`src/utils/storage.js`) holds the three collections:
  - fixed expenses, `gastosFijos`;
  - variable expenses, `gastosVariables`;
  - extra incomes, `ingresos`.

  It also holds the `config` object, which carries the continuous fund
  `fondoDisponible`, and the user's keyword table. Each storage operation is a pure
  step function on a `Ledger` value. Class `Storage.Store` keeps the same data in
  fields, and each of its methods is proved to leave `State()` equal to that step
  applied to the old state.
  - A variable expense is flagged `deductedFromFund` and lowers the fund.
  - Editing a flagged expense moves the fund by the difference. Deleting one refunds it.
  - `registrarNomina` pays a paycheck into the fund and records it in `historialNominas`.
  - `getConfig` migrates a legacy config to the fund model, once.
  - Over any run of the ledger operations (`Op`: every call except `saveConfig`,
    `saveClasificacionCategorias` and `clear`), the fund equals its origin plus the recorded
    paychecks minus the stored deducted expenses.
- **Calculations** (`src/utils/calculations.js`) covers:
  - month-prefix filtering;
  - totals that count only active fixed expenses;
  - the month's remaining balance and summary;
  - clamping a charge day to the length of the month (Gregorian leap years).
- **FinancialAnalysis** (`src/utils/financialAnalysis.js`) is the pipeline that
  compares spending with a 50/30/20 model:
  - ordered, case-insensitive keyword classification into needs (`necesidades`),
    wants (`deseos`) and savings (`ahorro`);
  - bucket totals and percentages of income;
  - the comparison with the recommended or a custom model;
  - threshold suggestions, overspend detection and the end-of-month projection;
  - the combined `analizarDistribucionFinanciera` with its two error cases.

  **FinancialAnalysisExamples** restates three of the worked examples of
  `src/utils/financialAnalysis.example.js` on the model.
- **Timeline** (`Timeline.jsx`, `cargarEventos`) builds the month's events:
  - the base income, the extra incomes, the active fixed expenses on their charge day,
    and the month's variable expenses;
  - sorted by date, then grouped by day with each day's balance (`saldoDia`) and the
    running balance (`saldoAcumulado`);
  - the month's summary.
- **EnvelopeBudgeting** (`EnvelopeBudgeting.jsx`) covers:
  - the automatic split of the fund across the envelopes (`sobres`);
  - each envelope's status;
  - the assigned-percentage and unassigned-money banner;
  - the guards in front of transfer, create and delete.
- **SavingsGoals** (`SavingsGoals.jsx`) covers:
  - suggestions drawn from envelopes with money to spare;
  - the goal ordering;
  - the guards of the contribution and goal forms.
- **CalendarView** (`CalendarView.jsx`) covers:
  - the map from day to fixed charges, and the month total;
  - the day grid with its Monday-first blanks;
  - month navigation and day selection.
- **FinancialAnalysisView** (`FinancialAnalysis.jsx`, `cargarAnalisis`) prepares the
  analyser's input from storage, and guards against a zero income.
- **Backup** (`Backup.jsx`) covers:
  - the keyword editor and its normalisation;
  - reset to the built-in table;
  - export of a snapshot;
  - validated import and restore.
- Helper modules:
  - `Wrappers` holds `Option` and `Result`.
  - `Seqs` holds the sequence versions of JavaScript's `filter`, `map`, `reduce`,
    `find` and `findIndex`.
  - `Text` holds lower-casing, trimming, split and join, and string order.
  - `Sorting` stands for `Array.prototype.sort`.
  - `Records` holds the stored records.

Amounts are exact reals. `Math.round(x)` is `floor(x + 0.5)`. An absent optional field
is `None`, and an empty string counts as falsy, as in `x || fallback`. The clock, the
`Date.now()` identifiers and the user's answers to `window.confirm` are parameters.

## Model

| member | source | states |
|---|---|---|
| Storage.Store.constructor | src/utils/storage.js:12-15 | Empty storage: no config, no keyword table, and every collection reads as empty. |
| Storage.ReadConfig | src/utils/storage.js:136-189 | The config returned is always migrated. Absent storage yields the defaults and writes nothing. A migrated config is returned unchanged. A legacy config is migrated, and the migrated value is the one stored. Fund and history are the ones the stored config stands for. |
| Storage.ReadConfigAbsent | src/utils/storage.js:140-152 | A new user starts with fund 0, base income 0, no last paycheck, an empty history, and both months set to the clock's month. |
| Storage.MigrationValues | src/utils/storage.js:164-181 | Migration sets the fund to the old fund, else the base income, else 0. It keeps the current month, the base income and the history. The reference month falls back to the current month, then to the clock's month. The migration date is the current time. |
| Storage.ReadConfigIdempotent | src/utils/storage.js:157-159 | For a stored config, a second read at any time returns what the first returned and writes nothing new. With nothing stored, the defaults depend on the clock. |
| Storage.ReadConfigClockFree | src/utils/storage.js:136-189 | The fund and history that a read yields do not depend on the clock. |
| Storage.SaveFixed | src/utils/storage.js:27-31 | Appends exactly the record under the new id. The active-fixed total grows by its amount exactly when it is active. Nothing else changes. |
| Storage.UpdateFixed | src/utils/storage.js:33-40 | An unknown id changes nothing. Otherwise only the first record with the id is replaced, by the patch merged into it. The length and every other field of storage are unchanged. |
| Storage.DeleteFixed | src/utils/storage.js:42-45 | A delete touches the fixed-expense list and nothing else in storage. |
| Storage.DeleteFixedKeepsOthers | src/utils/storage.js:42-45 | After a delete no record has the id. Every other record stays. Deleting an id nobody has changes nothing. |
| Storage.DeleteFixedOrder | src/utils/storage.js:43 | Deleting keeps the survivors in their order: it distributes over concatenation. |
| Storage.SaveVariable | src/utils/storage.js:53-73 | Appends one record, flagged as deducted and under the new id. The fund drops by exactly its amount, with no floor. History and the other collections are unchanged. |
| Storage.SaveVariableOverdraws | src/utils/storage.js:69 | Spending 10 from an empty fund leaves it at -10. |
| Storage.UpdateVariable | src/utils/storage.js:75-97 | An unknown id changes nothing. Otherwise the first matching expense receives the merged patch, whose set fields (the id and the deducted flag included) overwrite the stored ones. If that expense was deducted, the fund moves by old minus new. If not, the config is untouched. |
| Storage.DeleteVariable | src/utils/storage.js:99-115 | An unknown id changes nothing. Otherwise every expense with the id is removed, and the first one's amount is refunded exactly when it was deducted. |
| Storage.SaveIncome | src/utils/storage.js:123-127 | Appends exactly the income under the new id. Nothing else changes. |
| Storage.SaveIncomeTotals | src/utils/storage.js:123-127 | A saved income raises only its own month's income total, and leaves the fund unchanged. |
| Storage.DeleteIncome | src/utils/storage.js:129-132 | A delete touches the income list and nothing else in storage. |
| Storage.DeleteIncomeKeepsOthers | src/utils/storage.js:129-132 | After a delete no income has the id. Every other income stays. An absent id changes nothing. |
| Storage.RegisterPaycheck | src/utils/storage.js:201-212 | The result is a migrated config. The fund grows by the amount, or by 0 when the amount is not a number. `ultimaNomina` becomes the date, or null. Exactly one history entry is appended. The collections are unchanged. |
| Storage.PaycheckUndated | src/utils/storage.js:208 | A paycheck without a date is dated with the clock's day. |
| Storage.GetClassification | src/utils/storage.js:215-218 | Returns the stored keyword table when one is stored, and null otherwise. |
| Storage.SaveVariableConserves | src/utils/storage.js:69 | Saving a variable expense keeps the fund's origin: fund + deducted expenses − paychecks. |
| Storage.UpdateVariableConserves | src/utils/storage.js:91-96 | Editing a variable expense with a patch that leaves the deducted flag unset keeps the fund's origin. |
| Storage.UpdateClearingFlagLosesFund | src/utils/storage.js:83-96 | A patch that clears the flag of a deducted expense lowers the fund's origin by the new amount: the fund moves only by the difference, while the expense stops counting as deducted. |
| Storage.DeleteVariableConserves | src/utils/storage.js:110-114 | When variable-expense ids are unique, deleting one keeps the fund's origin. |
| Storage.RegisterPaycheckConserves | src/utils/storage.js:205-208 | Registering a paycheck keeps the fund's origin. |
| Storage.ApplyConserves | src/utils/storage.js:27-212 | Each operation of `Op` keeps the fund's origin. It also keeps variable-expense ids unique. This holds provided a new id is fresh and an update patch is a `TrackingPatch`: the flag is left unset and the id stays or moves to a fresh one. |
| Storage.RunConserves | src/utils/storage.js:69-208 | Over any sequence of `Op` operations with fresh ids and tracking patches, the fund equals the initial origin plus the recorded paychecks minus the stored deducted expenses. This is the conservation law. |
| Storage.Store.GetConfig | src/utils/storage.js:136-189 | Returns what `ReadConfig` reads from the stored config. Storage then holds what `ReadConfig` leaves. |
| Storage.Store.SaveConfig | src/utils/storage.js:191-193 | Replaces the stored config. Nothing else changes. |
| Storage.Store.SaveGastoFijo | src/utils/storage.js:27-31 | The new state is `SaveFixed` of the old state. |
| Storage.Store.UpdateGastoFijo | src/utils/storage.js:33-40 | The new state is `UpdateFixed` of the old state. The record is located as `findIndex` does, by its first matching id (`FindFirst`). |
| Storage.Store.DeleteGastoFijo | src/utils/storage.js:42-45 | The new state is `DeleteFixed` of the old state. |
| Storage.Store.SaveGastoVariable | src/utils/storage.js:53-73 | The new state is `SaveVariable` of the old. It returns the stored record, which is in the list, and the remaining fund, which is the old fund minus the amount. The origin is kept, and unique ids stay unique. |
| Storage.Store.UpdateGastoVariable | src/utils/storage.js:75-97 | The new state is `UpdateVariable` of the old state. The fund's origin is kept when the patch leaves the deducted flag unset. Unique ids stay unique under a `TrackingPatch`. |
| Storage.Store.DeleteGastoVariable | src/utils/storage.js:99-115 | The new state is `DeleteVariable` of the old state. With unique ids, the origin is kept and ids stay unique. |
| Storage.Store.SaveIngreso | src/utils/storage.js:123-127 | The new state is `SaveIncome` of the old state. |
| Storage.Store.DeleteIngreso | src/utils/storage.js:129-132 | The new state is `DeleteIncome` of the old state. |
| Storage.Store.RegistrarNomina | src/utils/storage.js:201-212 | The new state is `RegisterPaycheck` of the old. It returns the config now stored, and the fund's origin is kept. |
| Storage.Store.GetClasificacionCategorias | src/utils/storage.js:215-218 | Returns the stored keyword table, or null, and changes nothing. |
| Storage.Store.SaveClasificacionCategorias | src/utils/storage.js:220-222 | Replaces the stored keyword table. Nothing else changes. |
| Storage.Store.Clear | src/components/Backup/Backup.jsx:88 | Clearing local storage leaves the empty ledger. |
| Calculations.FilterByMonth | src/utils/calculations.js:4-9 | Keeps exactly the items whose date starts with the month prefix. |
| Calculations.FilterByMonthAppend | src/utils/calculations.js:4-9 | The filter acts on each part of a list separately, so it preserves order. |
| Calculations.TotalFixedStep | src/utils/calculations.js:13-17 | An appended fixed expense counts towards the total exactly when it is active. |
| Calculations.TotalVariablesStep | src/utils/calculations.js:21-24 | An appended variable expense counts exactly when it is dated in the month. |
| Calculations.TotalIncomesStep | src/utils/calculations.js:28-31 | An appended income counts exactly when it is dated in the month. |
| Calculations.RemainingBalanceFixedAnyMonth | src/utils/calculations.js:35-43 | An active fixed expense lowers the balance by its amount whatever the month. Fixed expenses are not filtered by month. |
| Calculations.MonthSummaryOf | src/utils/calculations.js:47-62 | Income is base income plus the month's incomes. Total spending is fixed plus variable. The fixed total is `calcularTotalGastosFijos` and the variable total is the month's variable expenses. The remaining balance is income minus spending, and agrees with `calcularSaldoRestante`. |
| Calculations.LastDayOfMonth | src/utils/calculations.js:87 | The last day of any month is between 28 and 31. |
| Calculations.LastDayOfMonthValues | src/utils/calculations.js:87 | The last day is the Gregorian month length. February has 29 days exactly in leap years. Every other month has at least 30. |
| Calculations.RealChargeDay | src/utils/calculations.js:85-89 | The charge day is the configured day clamped to the month's last day: never later than either, equal to one of them, and the day itself when it fits. |
| Calculations.ChargeDayFebruary | src/utils/calculations.js:85-89 | A charge on day 31 falls on the 29th of February in leap years, and on the 28th otherwise. |
| FinancialAnalysis.Keywords | src/utils/financialAnalysis.js:17-69 | Each bucket's keyword list is the built-in table, in order. |
| FinancialAnalysis.MatchesFromIff | src/utils/financialAnalysis.js:109-127 | The keyword scan from position i succeeds exactly when some keyword at or after i is contained in the label. |
| FinancialAnalysis.Classify | src/utils/financialAnalysis.js:98-132 | The empty label is unclassified, and only the empty label is. A needs keyword wins. Savings applies only when no needs or wants keyword matches. Everything else is wants, including labels that match nothing. |
| FinancialAnalysis.NeedsKeywordWins | src/utils/financialAnalysis.js:109-113 | A label containing any needs keyword, ignoring case, is a need. |
| FinancialAnalysis.TotalsByClassification | src/utils/financialAnalysis.js:143-157 | The loop's totals are each bucket's sum of amounts, with a non-numeric amount counted as 0. |
| FinancialAnalysis.TotalsCover | src/utils/financialAnalysis.js:143-157 | The four bucket totals add up to the sum of all amounts. |
| FinancialAnalysis.TotalsLabelled | src/utils/financialAnalysis.js:143-157 | When every label is non-empty, nothing is unclassified, and the three buckets hold the whole sum. |
| FinancialAnalysis.PercentagesOf | src/utils/financialAnalysis.js:165-181 | All percentages are zero at zero income. Otherwise each is its total times 100 over income. |
| FinancialAnalysis.PercentagesOfFullSpend | src/utils/financialAnalysis.js:165-181 | When income is spent exactly and nothing is unclassified, the three percentages add to 100. |
| FinancialAnalysis.PercentagesScale | src/utils/financialAnalysis.js:165-181 | At non-zero income, each percentage times income is 100 times its total. |
| FinancialAnalysis.RecommendedIsWhole | src/utils/financialAnalysis.js:75-79 | The recommended 50/30/20 model adds up to 100. |
| FinancialAnalysis.Compare | src/utils/financialAnalysis.js:189-207 | Each line holds the actual percentage, the model's percentage, and their difference, actual minus recommended. The model is the custom one when given, and the recommended one otherwise. |
| FinancialAnalysis.CompareLines | src/utils/financialAnalysis.js:189-207 | When the income is spent in full on classified labels and the model's shares add up to 100, the three differences cancel out. Without a custom model, the references are 50, 30 and 20. |
| FinancialAnalysis.SuggestionsOf | src/utils/financialAnalysis.js:220-266 | There is one suggestion per threshold crossed, or the success message alone when none is. The needs (>10), wants (>10) and savings (<-5) suggestions each appear exactly when their threshold is crossed. They come in the order needs, wants, savings. |
| FinancialAnalysis.GenerateSuggestions | src/utils/financialAnalysis.js:220-266 | The imperative push sequence yields exactly the reference list `SuggestionsOf`. |
| FinancialAnalysis.DetectOverspend | src/utils/financialAnalysis.js:278-292 | Total spent is the three buckets, without the unclassified part. Overspend holds exactly when spending exceeds income. Remaining is income minus spent. The percentage is spent over income. The alert is critical above 95%, a warning above 85%, and normal otherwise. |
| FinancialAnalysis.OverspendIsCritical | src/utils/financialAnalysis.js:278-292 | With positive income, an overspend is always critical with a negative remainder. A normal alert means at most 85% was spent. |
| FinancialAnalysis.Predict | src/utils/financialAnalysis.js:305-321 | Returns nothing on day 0 or past the month's end. Otherwise the daily average times the day is the total so far. The projection is the average times the month's days, and the days remaining are non-negative. |
| FinancialAnalysis.PredictLastDay | src/utils/financialAnalysis.js:305-321 | On the last day the projection equals the total spent, and no days remain. |
| FinancialAnalysis.AnalysisOf | src/utils/financialAnalysis.js:362-427 | For a valid income: spent plus remaining is income. The shares are the bucket totals with their percentages of income. The model used is the custom one or 50/30/20, and the comparison lines are against it. The suggestions are the reference list. The overspend record is `detectarSobregasto` of the totals, and holds iff spent exceeds income. The prediction is `predecirGastoFinMes` of the totals. The prediction is absent exactly on day 0 or past the month's end, with the defaults taken from the clock. The count is the number of entries. |
| FinancialAnalysis.Analyze | src/utils/financialAnalysis.js:347-428 | Fails exactly when income is missing or not positive, or the entries are not a list, with the matching message. Otherwise it is the analysis of the entries' bucket totals. Spending plus the unclassified part is the sum of all amounts. |
| FinancialAnalysisExamples.Example1Totals | src/utils/financialAnalysis.example.js:16-25 | Example 1's entries are all labelled and sum to 1925. |
| FinancialAnalysisExamples.Example1Balanced | src/utils/financialAnalysis.example.js:29-58 | With 1000/525/400 out of 2000, the result is 1925 spent and 75 left, at 50/26.25/20 percent, with the success message alone. |
| FinancialAnalysisExamples.Example5Totals | src/utils/financialAnalysis.example.js:161-167 | Example 5's entries are all labelled and sum to 1800. |
| FinancialAnalysisExamples.Example5Overspend | src/utils/financialAnalysis.example.js:161-180 | 1800 spent on 1500 of income is a critical overspend: -300 remaining, 120% spent. |
| FinancialAnalysisExamples.Example4Totals | src/utils/financialAnalysis.example.js:128-135 | Example 4's entries are all labelled and sum to 1200. |
| FinancialAnalysisExamples.Example4Prediction | src/utils/financialAnalysis.example.js:128-153 | 1200 spent by day 15 of 30 projects to 2400, at 80 a day, with 15 days left. |
| Timeline.ReferenceMonth | src/components/Timeline/Timeline.jsx:24 | The month is `mesReferencia`, falling back to `mesActual` when it is empty. |
| Timeline.PushAll | src/components/Timeline/Timeline.jsx:48-84 | The `forEach` push loop appends exactly the mapped items, in order. |
| Timeline.BuildEvents | src/components/Timeline/Timeline.jsx:29-84 | The loop builds exactly the reference event list: base income, incomes, active fixed expenses, then variable expenses. |
| Timeline.EventsByKind | src/components/Timeline/Timeline.jsx:29-84 | The income events are the base income plus the month's incomes. The fixed events are one per active fixed expense. The variable events are one per variable expense dated in the month. |
| Timeline.BaseEventIff | src/components/Timeline/Timeline.jsx:37-45 | A base-income event exists iff the base income is positive. It comes first, dated day 01 of the month. The number of events is the sum of the four sources. |
| Timeline.FixedEventDates | src/components/Timeline/Timeline.jsx:59-73 | Every fixed-expense event is dated in the month, with a day of at least two digits. |
| Timeline.EventLeTotalPreorder | src/components/Timeline/Timeline.jsx:87 | The date comparator is total and transitive, so the sort is well defined. |
| Sorting.SortBySorted | src/components/Timeline/Timeline.jsx:87 | Sorting with a total preorder yields a sorted permutation of the events. |
| Sorting.SortByOfSorted | src/components/Timeline/Timeline.jsx:120-122 | Sorting an already sorted list returns it unchanged. |
| Timeline.GroupsDistinct | src/components/Timeline/Timeline.jsx:93-117 | The grouping creates one group per distinct day. |
| Timeline.GroupsPrefix | src/components/Timeline/Timeline.jsx:93-117 | Each `forEach` step adds the event to its day's group, and moves the running balance by its signed amount. |
| Timeline.GroupByDay | src/components/Timeline/Timeline.jsx:90-122 | The map-and-order loop, followed by the second sort, yields exactly the sorted reference grouping. |
| Timeline.SortedGroups | src/components/Timeline/Timeline.jsx:93-117 | For date-sorted events, concatenating the groups gives back the events. The days are strictly ascending. Each group holds only its own day's events. Its `saldoDia` is their balance, and its `saldoAcumulado` is the balance of everything up to it. |
| Timeline.RunningBalance | src/components/Timeline/Timeline.jsx:91-116 | The first group's running balance is its day balance. Each later one is the previous plus its own. The last one is the balance of all events. There are no groups iff there are no events. |
| Timeline.SecondSortIsIdentity | src/components/Timeline/Timeline.jsx:120-122 | Sorting the groups again changes nothing. |
| Timeline.SummaryBalance | src/components/Timeline/Timeline.jsx:127-144 | The summary balance (incomes − fixed − variable) is the signed balance of all events. |
| Timeline.KindTotalPermutation | src/components/Timeline/Timeline.jsx:127-137 | Per-kind totals do not depend on the order of the events. |
| Timeline.SummaryTotals | src/components/Timeline/Timeline.jsx:127-144 | Income total is the positive base income plus the month's incomes. The fixed total is `calcularTotalGastosFijos`. The variable total is the month's variable expenses. |
| Timeline.LoadEvents | src/components/Timeline/Timeline.jsx:21-145 | The events are a sorted permutation of the built events, and the groups split them into ascending days. The summary balance equals the last group's running balance. |
| EnvelopeBudgeting.Round | src/components/EnvelopeBudgeting/EnvelopeBudgeting.jsx:147 | `Math.round` is a whole number within half a unit of its argument, halves rounding up. |
| EnvelopeBudgeting.SharesSumToOne | src/components/EnvelopeBudgeting/EnvelopeBudgeting.jsx:133-141 | The six table shares add up to 1. `otros` and any other id get 0. |
| EnvelopeBudgeting.AllocationNearShare | src/components/EnvelopeBudgeting/EnvelopeBudgeting.jsx:146-147 | Each allocation is the envelope's share of the fund, to within half a cent. |
| EnvelopeBudgeting.AutoAssign | src/components/EnvelopeBudgeting/EnvelopeBudgeting.jsx:126-160 | The loop assigns each envelope its rounded share of the fund. The unassigned money is max(0, fund − total assigned). |
| EnvelopeBudgeting.AllocateChangesOnlyAssigned | src/components/EnvelopeBudgeting/EnvelopeBudgeting.jsx:145-153 | Auto-assignment keeps the envelopes, their order and all their fields except `asignado`. |
| EnvelopeBudgeting.TargetIsShareOfFund | src/components/EnvelopeBudgeting/EnvelopeBudgeting.jsx:133-149 | The sum of the unrounded targets is the fund times the sum of the shares present. |
| EnvelopeBudgeting.AllocateTotal | src/components/EnvelopeBudgeting/EnvelopeBudgeting.jsx:145-149 | The total assigned is within half a cent per envelope of the unrounded target. |
| EnvelopeBudgeting.AutoAssignTableEnvelopes | src/components/EnvelopeBudgeting/EnvelopeBudgeting.jsx:133-155 | With exactly the six table envelopes, the whole fund is assigned to within 3 cents, and at most 3 cents stay unassigned. |
| EnvelopeBudgeting.UnassignedNeverNegative | src/components/EnvelopeBudgeting/EnvelopeBudgeting.jsx:151-155 | The unassigned money is never negative. It is positive exactly when less than the fund was assigned. |
| EnvelopeBudgeting.StatusOf | src/components/EnvelopeBudgeting/EnvelopeBudgeting.jsx:407-409 | Available plus spent is assigned, and exceeded means available is negative. The percentage used is 0 without a positive assignment, and spent over assigned times 100 otherwise. |
| EnvelopeBudgeting.ExceededIffOverHundred | src/components/EnvelopeBudgeting/EnvelopeBudgeting.jsx:407-409 | With a positive assignment, an envelope is exceeded exactly when more than 100% is used. |
| EnvelopeBudgeting.PercentAssigned | src/components/EnvelopeBudgeting/EnvelopeBudgeting.jsx:172-173 | The assigned percentage is 0 for a fund of 0 or less, and total assigned over fund times 100 otherwise. |
| EnvelopeBudgeting.BannerAfterAutoAssign | src/components/EnvelopeBudgeting/EnvelopeBudgeting.jsx:151-174 | After auto-assignment, the unassigned banner shows exactly when more than a cent of the fund is left unassigned. |
| EnvelopeBudgeting.HandleTransfer | src/components/EnvelopeBudgeting/EnvelopeBudgeting.jsx:88-102 | A transfer goes ahead exactly when every field is filled and the two envelopes differ. It then passes the form on and clears it. Otherwise the form stays. |
| EnvelopeBudgeting.TransferOptions | src/components/EnvelopeBudgeting/EnvelopeBudgeting.jsx:302-317 | The source options are exactly the envelopes with money left. The destination options are exactly the envelopes other than the source. |
| EnvelopeBudgeting.HandleCreate | src/components/EnvelopeBudgeting/EnvelopeBudgeting.jsx:105-113 | An envelope is created exactly when its name has a character that `trim` keeps (all of ECMAScript's white space and line terminators count as blank). |
| EnvelopeBudgeting.DeleteButtonIffDeletable | src/components/EnvelopeBudgeting/EnvelopeBudgeting.jsx:431-433 | The delete button is shown exactly on the envelopes that a confirmed delete removes. Without the button, no answer deletes the envelope. |
| EnvelopeBudgeting.HandleDelete | src/components/EnvelopeBudgeting/EnvelopeBudgeting.jsx:116-123 | Only a custom envelope (its id starts with `custom_`) whose deletion the user confirms is deleted. |
| EnvelopeBudgeting.BuiltInEnvelopesStay | src/components/EnvelopeBudgeting/EnvelopeBudgeting.jsx:116-118 | No built-in envelope can be deleted, whatever the user answers. |
| EnvelopeBudgeting.FundOf | src/components/EnvelopeBudgeting/EnvelopeBudgeting.jsx:68 | The fund shown is the stored fund, or 0 when there is none. |
| SavingsGoals.ComputeSuggestions | src/components/SavingsGoals/SavingsGoals.jsx:127-143 | The push loop yields exactly the reference list of envelope suggestions. |
| SavingsGoals.SuggestionsAreSurpluses | src/components/SavingsGoals/SavingsGoals.jsx:127-143 | Without envelope data there are no suggestions. Otherwise the suggestions are exactly the non-savings envelopes with more than 10 to spare, each with its free money. |
| SavingsGoals.BannerShownIff | src/components/SavingsGoals/SavingsGoals.jsx:279 | The suggestion banner is shown exactly when there is a goal and some non-savings envelope has more than 10 free. |
| SavingsGoals.BannerContent | src/components/SavingsGoals/SavingsGoals.jsx:279-290 | The banner shows the first two suggestions at most. The count of the rest appears exactly when there are more than two. |
| SavingsGoals.GoalFirstIsPreorder | src/components/SavingsGoals/SavingsGoals.jsx:148-157 | The goal comparator is total and transitive. |
| SavingsGoals.OrderedGoalsProperties | src/components/SavingsGoals/SavingsGoals.jsx:148-157 | The ordered goals are a permutation of the goals. Incomplete goals come before completed ones. Within the same completion status, percentages do not increase. |
| SavingsGoals.HandleContribution | src/components/SavingsGoals/SavingsGoals.jsx:105-112 | A contribution is made exactly when the box is filled and the amount is positive. The box is then emptied and closed. Otherwise it stays as it is. |
| SavingsGoals.FieldsOf | src/components/SavingsGoals/SavingsGoals.jsx:74-90 | The saved fields are the form's, with the parsed target, and an empty deadline is null. |
| SavingsGoals.HandleSubmit | src/components/SavingsGoals/SavingsGoals.jsx:69-97 | Nothing happens without a name and a target. A new goal starts at progress 0. An edit updates the goal being edited with the form's fields and no progress. After either, the form resets. |
| SavingsGoals.HandleDeleteGoal | src/components/SavingsGoals/SavingsGoals.jsx:99-103 | A goal is deleted exactly when the user confirms. |
| CalendarView.ChargesByDay | src/components/Calendar/CalendarView.jsx:20-33 | The loop builds a map whose entry for each day is exactly the active fixed expenses charged on that day, in order. |
| CalendarView.ChargeMapPlacement | src/components/Calendar/CalendarView.jsx:20-33 | Every active fixed expense sits under its real charge day. Everything in the map is an active expense under its own charge day. |
| CalendarView.ValuesPartition | src/components/Calendar/CalendarView.jsx:61-63 | Reading the map under distinct keys gives each charge of those days exactly once. |
| CalendarView.MonthTotalIsActiveTotal | src/components/Calendar/CalendarView.jsx:61-63 | The values of the map hold each active fixed expense once, so the month's total is the active-fixed total. |
| CalendarView.DayCell | src/components/Calendar/CalendarView.jsx:135-137 | A day is marked as having a payment exactly when some active expense is charged on it. Its total is the sum of those charges. |
| CalendarView.SelectedCharges | src/components/Calendar/CalendarView.jsx:90 | The selected day's charges are its map entry, and empty when no day is selected or the day has none. |
| CalendarView.LeadingBlanksMondayFirst | src/components/Calendar/CalendarView.jsx:42-43 | The blanks before day 1 are the Monday-first weekday offset, in 0..6, with Sunday giving 6. |
| CalendarView.DaysGrid | src/components/Calendar/CalendarView.jsx:36-58 | The grid is the leading blanks followed by the days 1 to the month's length, in order. |
| CalendarView.GridCells | src/components/Calendar/CalendarView.jsx:36-58 | Each day of the month appears in exactly one cell, at its offset. The grid has between 28 and 37 cells. |
| CalendarView.ChangeMonth | src/components/Calendar/CalendarView.jsx:65-81 | Changing month clears the selection. Past December it wraps to January of the next year, and before January to December of the previous year, and in between it moves the month only. |
| CalendarView.ChangeMonthStep | src/components/Calendar/CalendarView.jsx:65-81 | One step forward or back keeps the month in 0..11, and moves the absolute month count by exactly one. |
| CalendarView.ChangeMonthInverse | src/components/Calendar/CalendarView.jsx:65-81 | Forward then back, or back then forward, returns to the same month and year. |
| CalendarView.ClickDay | src/components/Calendar/CalendarView.jsx:143 | Clicking the selected day deselects it. Clicking another day selects it. The month stays. |
| CalendarView.ClickTwice | src/components/Calendar/CalendarView.jsx:143 | Clicking a day twice restores a state with no selection. |
| FinancialAnalysisView.IncomeTotalIsMonthIncome | src/components/FinancialAnalysis/FinancialAnalysis.jsx:41-45 | The income total is the base income plus the current month's extra incomes. The double month filter loses nothing. |
| FinancialAnalysisView.EntriesOfExpenses | src/components/FinancialAnalysis/FinancialAnalysis.jsx:36-64 | The entries are the active fixed expenses, then the current month's variable expenses, one each and in order. The category falls back to the type and to "General", and the amount is the expense's own. |
| FinancialAnalysisView.LoadAnalysis | src/components/FinancialAnalysis/FinancialAnalysis.jsx:36-64 | With total income of 0 or less there is no analysis. Otherwise the result is the analyser's result for that income, the prepared entries and the default options. |
| FinancialAnalysisView.LoadedAnalysisCounts | src/components/FinancialAnalysis/FinancialAnalysis.jsx:45-64 | A shown analysis is of base income plus the month's incomes. It counts one entry per active fixed expense and per variable expense of the month. |
| Backup.InitialEditor | src/components/Backup/Backup.jsx:19-22 | The editor starts from the stored keyword table when there is one, and from the built-in table otherwise. |
| Backup.EditKeywords | src/components/Backup/Backup.jsx:24-26 | Editing a bucket replaces only that bucket's value, with the typed text. |
| Backup.Normalize | src/components/Backup/Backup.jsx:30 | A list is kept as it is. A text becomes its comma-separated pieces, trimmed of ECMAScript white space, with empty pieces dropped. |
| Backup.NormalizeTable | src/components/Backup/Backup.jsx:28-30 | Every bucket of the editor is normalised, and no bucket is added or lost. |
| Backup.WordsAreClean | src/components/Backup/Backup.jsx:30 | Every normalised keyword is non-empty, trimmed and free of commas. |
| Backup.CleanPieces | src/components/Backup/Backup.jsx:30 | Trimming comma-free pieces and dropping the empty ones leaves only clean keywords. |
| Backup.SaveShownList | src/components/Backup/Backup.jsx:30 | Normalising a clean keyword list shown joined with ", " gives the list back. |
| Backup.SaveKeywords | src/components/Backup/Backup.jsx:28-33 | Saving stores the normalised table. Nothing else changes. |
| Backup.ResetKeywords | src/components/Backup/Backup.jsx:35-38 | Reset shows and stores the built-in table. Nothing else changes. |
| Backup.ResetShowsBuiltIn | src/components/Backup/Backup.jsx:19-38 | After a reset the editor shows what a new user sees, as lists. |
| Backup.Export | src/components/Backup/Backup.jsx:41-49 | The snapshot holds the version, the time, the config as `getConfig` reads it, and the three collections. Storage changes only by that read. |
| Backup.Restored | src/components/Backup/Backup.jsx:88-106 | The restored storage holds the three collections verbatim. The config is the imported one with both months set to the detected month. There is no keyword table. |
| Backup.Import | src/components/Backup/Backup.jsx:64-122 | A file missing a part is rejected, and a restore the user does not confirm is cancelled. Neither touches storage. Otherwise storage becomes the restored ledger. |
| Backup.ExportImportRoundTrip | src/components/Backup/Backup.jsx:41-106 | Importing an exported snapshot restores the three collections exactly. The config is the one read at export, with both months set to the detected month. |

## Left out

- Browser I/O is not modelled: local storage access, JSON parsing and serialisation, the `Blob`/`FileReader` download and upload, `alert` and `location.reload`. The stores are fields of `Storage.Store`. The answer to `window.confirm` is a boolean parameter.
- Rendering is not modelled: JSX, CSS classes, icons, React state hooks, `toFixed` and `Intl` currency formatting, the message texts of the suggestions, `esHoy`, `editarMeta` and the motivational banners.
- Floating point is not modelled. Amounts are exact reals, so the binary rounding of JavaScript doubles is not captured.
- `parseFloat` and `NaN` are not modelled. A value that is absent or not a number is `None`, and only the `|| 0` fallback is kept.
- Lower-casing covers ASCII and the accented Spanish letters. Full Unicode case folding is not modelled. `trim` removes exactly ECMAScript's white space and line terminators.
- `Date.now()` identifiers, the ISO clock and today's date are parameters. The calendar's first weekday of the month is an input, because `new Date(...).getDay()` is not modelled.
- Some functions are imported from `src/utils/storage.js` and `src/utils/calculations.js` but are not defined in the versions of those files modelled here. They are left uninterpreted, without contracts:
  - `sincronizarSobresConFondo`, `establecerAsignacionSobre`, `transferirEntreSobres`, `crearSobre`, `eliminarSobre` and `saveSobres` of the envelope store;
  - `saveMetaAhorro`, `updateMetaAhorro`, `deleteMetaAhorro` and `aportarAMeta` of the goal store;
  - `calcularEstadisticasMeta`, which is a function parameter of the goal ordering;
  - `detectarMejorMes`, which is a function parameter of `Backup.Import`.

  The guards in front of these functions are modelled. Their effects are not.
- EnvelopeBudgeting.AutoAssign is modelled on values. `autoAsignar` copies the envelope list only shallowly, so the source also updates the shared envelope objects in place. The aliasing is not captured. The early return when no envelope data is loaded yet is also not modelled.
- `localStorage.clear()` also removes the envelope and goal keys that this model does not hold. `Storage.Store.Clear` empties only the ledger.
- `Object.values` order is not pinned down. `Timeline.GroupByDay` reads the day map in insertion order and then sorts, so the order of enumeration does not matter. `CalendarView.MonthTotalIsActiveTotal` holds for any list of the map's keys.
- FinancialAnalysis.DetectOverspend: at zero income the percentage spent is `None`, where JavaScript yields `NaN` or `Infinity`. The analysis never reaches that case, because income is positive there.
- Storage.DeleteVariableConserves and Storage.RunConserves assume unique variable-expense ids. `deleteGastoVariable` refunds the first expense found but removes every expense with the id. Two expenses saved in the same millisecond share a `Date.now()` id, and then the fund is not conserved.
- FinancialAnalysisExamples.Example1Balanced, Example4Prediction and Example5Overspend take the bucket totals as a hypothesis. Classifying the literal labels keyword by keyword is left out. Examples 2 and 3, a wants overspend and a custom model, are not restated. Their behaviour is covered by `SuggestionsOf` and `Compare`.
- SavingsGoals.GoalFirstIsPreorder reads the comparator as an order. The order is completion first, then by percentage, descending. The source's comparator returns the percentage difference, which the model reads as a total preorder.
- Timeline.EventLe compares dates as strings, where the source subtracts `new Date(...)` values. The two orders agree on well-formed `YYYY-MM-DD` dates, which is what the events carry. Dates in other formats are not modelled.
- Storage.UpdateVariable: the patch (`VariablePatch`) always carries an amount. In the source, a patch without `cantidad` on a deducted expense makes the fund `NaN`, because `parseFloat(undefined)` is `NaN`. The patch may overwrite `id` and `deductedFromFund`, as the spread merge does.
- Storage.ApplyConserves and Storage.RunConserves cover the operations of `Op` only. `saveConfig`, `saveClasificacionCategorias` and `clear` are outside the run. `saveConfig` replaces the config and so resets the fund: `saveConfig({ incomeBase, mesActual })` (`ConfigForm.jsx`, `BaseIncomeConfig.jsx`) drops `migratedToFundModel`, `fondoDisponible` and `historialNominas`, and the next `getConfig` migrates again, with the fund set to the base income and an empty history.
- Timeline.IncomeIn, Timeline.VariableIn and FinancialAnalysisView.DatedIn read a record without `fecha` as dated `""`, and so filter it out. In the source, `fecha.startsWith` on such a record throws a `TypeError`. The timeline then fails to load, and the analysis view's `catch` keeps the previous analysis.
- UpdateGastoVariable, Storage.UpdateVariableConserves, Storage.ApplyConserves and Storage.RunConserves keep the fund's origin only for patches that leave `deductedFromFund` unset (`TrackingPatch` adds that the id stays or moves to a fresh one). A patch that clears the flag loses money: with a fund of 90 and a deducted expense of 10 patched to `{cantidad: 10, deductedFromFund: false}`, the fund stays 90 and a later delete refunds nothing (`Storage.UpdateClearingFlagLosesFund`).
- Timeline.LoadEvents takes the year and month as parameters. The `parseInt` of the two parts of the reference month is not modelled, so the model does not tie them to the month string.
- Storage.Migrate treats a stored `null` fund as absent and starts the fund from the base income. It also turns a stored `null` base income into 0. The source keeps both `null`s, because `typeof null` is `'object'`. Absent and `null` are one `None` in the model. Every reader applies `|| 0`, so only the fund's starting value can differ.
- Sorting stands for `Array.prototype.sort` with a pure insertion sort. The contracts state sortedness and permutation, but not stability.
