# Where's Chau Money? — statistics and forecast engine in Dafny

This project models the computations of the browser wallet's `script.js` once
its page writes and storage calls are removed. Every figure is a function of the
transaction list and of "today":

- **Ledger** (`ledger.dfy`): the transaction record and the list primitives the page is
  written in: `filter`, the amount `reduce`, and the signed balance. A `type` of
  `'thu'` adds to the balance; every other type subtracts (`Thu`, `Chi`, `Other`).
- **Stats** (`stats.dfy`): `updateStats`. It gives the all-time balance, this
  (month, year)'s income and expense, and the budget bar. The bar's percentage is
  `min(round(expense / 10,000,000 * 100), 100)` and the bar turns rose above 90.
- **History** (`history.dfy`): the `monthlyData` loop of `renderAIInsights`. Past
  records are bucketed by (month, year), with per-bucket income and expense, and
  the mean bucket expense is taken.
- **Forecast** (`forecast.dfy`): the blended daily rate and the predicted
  end-of-month balance, in exact `real` arithmetic.
- **Tips** (`tips.dfy`): `catTotals`, the stable descending sort's first entry,
  and the 15 % saving tip.
- **Insights** (`insights.dfy`): `renderAIInsights` as one step that returns the
  two cards as values.
- **Charts** (`charts.dfy`): the 8-slice category series in palette order and
  the 7-bar daily series for today-6 … today.
- **Store** (`store.dfy`): the `transactions` array as a class. Submitting
  prepends a record, delete drops every record with the id, and reset empties
  the list. The recent panel shows the first five records.

The model follows the code as written in these places:

- The forecast's current-month expense (script.js:134-139) compares the month
  only, not the year. So a 'chi' record from the same month of any other year,
  earlier or later, counts as current spending, and it is also in the history
  buckets. `Forecast.ForecastMonthExpense`, `Forecast.OtherYearExpenseIsPast`
  and `Forecast.DoubleCountExample` show this.
- The history (script.js:114-117) keeps every record whose (month, year)
  differs from today's, so records dated in a future month count as history:
  they form buckets of their own and enter the historical average.
- Deleting by id removes every record carrying that id, not at most one.
- A `type` other than `'thu'`/`'chi'` is subtracted from the balance and counted
  as bucket expense, but it is in neither month figure nor any chart.
- Ties for the top category go to the category whose first 'chi' record comes
  earliest in list order. This is the first key in `catTotals` insertion order,
  which a stable sort keeps first.
- The budget limit is the constant 10,000,000, not a parameter.

Months are 1..12 here (JavaScript's `getMonth()` is 0..11); only equality of
months matters. `today` and the Gregorian `DaysInMonth` are inputs, not clock
reads.

## Model

| member | source | states |
|---|---|---|
| `Ledger.DaysInMonth` | script.js:109 | a month has 28 to 31 days, and 29 exactly for February of a Gregorian leap year |
| `Ledger.Balance` | script.js:53 | the left-fold balance lies between minus and plus the total of all amounts; `Ledger.BalanceIsIncomeMinusOutgo` gives its exact value |
| `Ledger.BalanceIsIncomeMinusOutgo` | script.js:53 | the balance, over all dates, is the 'thu' total minus the total of every other type; an empty list gives 0 |
| `Ledger.BalanceCons` | script.js:53 | prepending a record moves the balance by exactly its signed amount |
| `Ledger.BalanceRemoveAt` | script.js:53 | removing the record at any index moves the balance back by exactly its signed amount |
| `Stats.MonthIncome` | script.js:46-51 | the 'thu' total of today's month and year: never above the all-time 'thu' total, 0 when no record is of that month and year; `Stats.AddMoves` gives it record by record |
| `Stats.MonthExpense` | script.js:46-52 | the 'chi' total of today's month and year: never above the all-time 'chi' total, 0 when no record is of that month and year; `Stats.AddMoves` gives it record by record |
| `Stats.BudgetPercent` | script.js:60-61 | the percentage is in [0, 100]; below the cap it is expense*100/limit rounded half up; it is 100 exactly when expense >= 9,950,000 |
| `Stats.Tone` | script.js:66-67 | the bar class for a percentage; `Stats.RoseExactlyFrom` states that it is rose exactly from a month expense of 9,050,000 |
| `Stats.RoseExactlyFrom` | script.js:66-67 | the bar is rose (percent > 90) exactly when the month expense is at least 9,050,000 |
| `Stats.UpdateStats` | script.js:41-68 | the dashboard summary: income and expense are `MonthIncome`/`MonthExpense` of today's month and year, percent is `BudgetPercent` of that expense and the tone is `Tone` of that percent; percent <= 100, the rose tone exactly from 9,050,000, balance = income total minus everything else, all zero for an empty list |
| `Stats.AddMoves` | script.js:46-53 | a new record changes month income only when it is a 'thu' of today's month and year, month expense only when it is such a 'chi', and the balance by its signed amount |
| `Stats.FlipToIncome` | script.js:51-52 | turning an in-month 'chi' into a 'thu' raises income minus expense by twice its amount |
| `Stats.DashboardExample` | script.js:41-61 | 5,000,000 income and 1,000,000 expense in the month give balance 4,000,000 and 10 % in indigo |
| `History.Past` | script.js:114-117 | the history keeps exactly the records whose (month, year) differs from today's, earlier or later |
| `History.Accumulate` | script.js:123-125 | one record adds its whole amount to a bucket: to income for 'thu', to expense for any other type, leaving the other field as it was |
| `History.PastInOneBucket` | script.js:114-122 | a past record belongs to the bucket of its own (month, year), to no other, and that key is never today's |
| `History.TotalsSnoc` | script.js:123-125 | a record accumulates into its own bucket ('thu' to income, anything else to expense) and leaves the others alone |
| `History.MonthlyData` | script.js:119-126 | the loop's map holds one entry per (month, year) of the past records, each with exactly that bucket's totals, and none for today's month |
| `History.BucketsCoverPast` | script.js:119-130 | the bucket expenses add up to the non-'thu' total of the past records: nothing lost, nothing counted twice |
| `History.BucketsAverage` | script.js:128-130 | the number of keys is the number of other (month, year) pairs and the summed stored expenses equal the past non-'thu' total |
| `History.ExpenseTotal` | script.js:130 | the reduce over the stored values in key order gives their summed expense |
| `History.HistAvgExpense` | script.js:128-131 | the historical average is non-negative and 0 when no record has another (month, year) |
| `History.HistoricalAverage` | script.js:119-131 | the loop and the reduce compute the non-'thu' total outside today's (month, year) over the number of other (month, year) pairs |
| `Forecast.DaysLeft` | script.js:109-111 | days left is below the month's length and 0 exactly on its last day |
| `Forecast.ForecastMonthExpense` | script.js:134-139 | the forecast's month expense (month-only filter) is the dashboard's month expense plus the same month's 'chi' of every other year |
| `Forecast.OtherYearExpenseIsPast` | script.js:114-139 | a same-month 'chi' of another year is a history record, is not in today's (month, year), and is counted as current spending |
| `Forecast.DoubleCountExample` | script.js:134-139 | a 'chi' from the same month a year earlier is a past record with dashboard expense 0, yet the forecast counts it as 500,000 of current spending |
| `Forecast.DailyCurrent` | script.js:141 | the current rate is non-negative, and 0 exactly when the day is not positive or nothing was spent |
| `Forecast.DailyHist` | script.js:142 | the historical rate lies between 0 and the monthly average, and is 0 exactly when the average is |
| `Forecast.CurrentWeight` | script.js:145 | the weight is at most 0.9, at least 0.05 from day 1, and reaches 0.9 exactly from day 18 |
| `Forecast.PredictedDaily` | script.js:146 | for a weight in [0, 1] the blended rate lies between the two rates it blends |
| `Forecast.PredictedDailyOfBounds` | script.js:141-146 | the forecast's blended rate is non-negative and lies between the current and the historical rate |
| `Forecast.PredictedEndFrom` | script.js:147 | for a non-negative historical average the predicted end balance is at most the recomputed balance, and equal to it on the month's last day |
| `Forecast.PredictedEndBalance` | script.js:147 | the predicted end balance is at most the balance, equals it on the last day, and is 0 for an empty list |
| `Forecast.PredictedEndBetween` | script.js:141-147 | the prediction lies between the ones made from the current rate alone and from the historical rate alone |
| `Forecast.CurrentRecordKeepsHistory` | script.js:114-117 | a record of today's month and year is not past, so it leaves the historical average unchanged |
| `Forecast.ExpenseTodayLowersForecast` | script.js:134-147 | for a fixed historical average, a new 'chi' dated today lowers the prediction by its amount plus its weighted share over the days left |
| `Forecast.ExpenseTodayLowersPrediction` | script.js:109-147 | a new 'chi' dated today lowers the shown prediction by at least its amount, exactly its amount plus its weighted share |
| `Tips.Categories` | script.js:162 | the keys of `catTotals` in first-insertion order, never more than the records; `Tips.CategoriesCover`, `Tips.CategoriesDistinct` and `Tips.CategoriesFirstSeen` state which keys, that none repeats and their order |
| `Tips.CategoriesCover` | script.js:162 | a category is a key of `catTotals` exactly when some 'chi' record carries it |
| `Tips.CategoriesDistinct` | script.js:162 | no key appears twice |
| `Tips.CategoriesFirstSeen` | script.js:162 | the keys are in first-record order: every record carrying a later key comes after some record carrying each earlier key |
| `Tips.AccumulateTotals` | script.js:162 | the loop gives the keys in first-seen order, each with the total of its records |
| `Tips.CategoryTotals` | script.js:161-162 | `catTotals` holds each category's all-time 'chi' total |
| `Tips.FirstLargest` | script.js:163 | the chosen key has the largest total and every earlier key a strictly smaller one (the head of a stable descending sort) |
| `Tips.TopIsUnique` | script.js:163 | the tie rule picks at most one key |
| `Tips.NoCategoriesWithoutExpenses` | script.js:162-165 | there is nothing to rank exactly when there is no 'chi' record |
| `Tips.SavingTip` | script.js:161-171 | no tip exactly when there is no 'chi'; otherwise the tip names the top category by the tie rule, with its total and 15 % of it |
| `Tips.TipExample` | script.js:161-171 | two 'Di chuyển' expenses totalling 2,000,000 make it the top category with a saving of 300,000 |
| `Insights.RenderInsights` | script.js:107-179 | the two insight cards: the prediction (at most the balance) and the saving tip as above |
| `Charts.CategorySeries` | script.js:184-188 | the doughnut has exactly 8 slices |
| `Charts.CategorySeriesIsCategoryTotal` | script.js:184-188 | slice i is the 'chi' total of the i-th palette category |
| `Charts.CategorySeriesCons` | script.js:185-188 | a new record raises only its own category's slice, by its amount, and only if it is a 'chi' |
| `Charts.UnknownCategoryIgnored` | script.js:184-188 | a record whose category is not in the palette changes no slice |
| `Charts.PrevDay` | script.js:216 | the previous calendar day is a valid date strictly before |
| `Charts.NextOfPrev` | script.js:216 | going back one day and then forward one day returns the same date |
| `Charts.Last7Days` | script.js:214-218 | exactly 7 valid dates ending with today |
| `Charts.Last7DaysConsecutive` | script.js:214-218 | each label is the day after the one before it |
| `Charts.Last7DaysAscending` | script.js:214-218 | the labels are strictly ascending, so all distinct |
| `Charts.DailySeries` | script.js:227-230 | the bar chart has exactly 7 bars |
| `Charts.NoExpenseZeroBar` | script.js:227-230 | a day without a 'chi' record gets 0 |
| `Charts.DailySeriesCons` | script.js:227-230 | a new record adds its amount to the bar of its own date, only if it is a 'chi' |
| `Charts.ExpenseRaisesOneBar` | script.js:227-230 | a new 'chi' dated inside the window raises exactly one bar, by its amount |
| `Store.WithoutId` | script.js:306 | the kept records are exactly those whose id differs |
| `Store.Recent` | script.js:71 | the recent panel is the prefix of length min(5, list length) |
| `Store.TransactionStore.constructor` | script.js:7 | the list starts as the loaded records |
| `Store.TransactionStore.Add` | script.js:297 | the new record is at index 0 and the rest is the old list, unchanged and in order |
| `Store.TransactionStore.Delete` | script.js:304-310 | the list becomes the old one without any record of that id, order kept |
| `Store.TransactionStore.Reset` | script.js:312-318 | the list becomes empty and the balance 0 |
| `Store.DeleteAbsentId` | script.js:306 | deleting an id no record carries changes nothing |
| `Store.DeleteKeepsOrder` | script.js:306 | deleting distributes over concatenation, so relative order is kept |
| `Store.DeleteIdempotent` | script.js:306 | deleting an id twice equals deleting it once |
| `Store.DeleteUnique` | script.js:306 | with unique ids, deleting a record's id removes exactly that record |
| `Store.DeleteUniqueBalance` | script.js:306 | with unique ids, deleting a record moves the balance back by its signed amount |
| `Store.AddThenDelete` | script.js:297 | adding a record with a fresh id and deleting that id restores the list |
| `Store.AddKeepsUniqueIds` | script.js:297 | adding a record with a fresh id keeps ids unique |
| `Store.DeleteKeepsUniqueIds` | script.js:306 | deleting keeps ids unique |
| `Store.RecentAfterAdd` | script.js:71 | after an add the recent panel is the new record followed by the old panel, cut to five |

## Left out

- Page rendering: `createTransactionHtml`, the `innerHTML`/`innerText` writes, `switchTab`, `updateTheme`, `toggleDarkMode`, `openModal`/`closeModal` and the insight card HTML. They make no decisions beyond the values modelled.
- Browser storage reads and writes, JSON (de)serialisation and the `confirm` dialogs. Delete and reset are modelled as confirmed, and the initial list is the constructor's argument.
- Chart.js widget construction and destruction, `lucide.createIcons`, and the `dd/mm` label formatting of the bar chart. These are foreign library calls.
- `formatCurrency`: locale number formatting, a foreign call.
- JavaScript `Date` parsing and time zones. Dates are (year, month, day) triples. `new Date('YYYY-MM-DD')` is midnight UTC, and the month and year filters read it with local getters. West of UTC, every record therefore falls on the previous day, and a record dated the 1st counts in the previous month, whatever the hour. The bar labels come from `toISOString`, which is UTC, so they can differ from the local day depending on the hour. The model does not capture either shift.
- Charts.DailySeries: the source compares the stored date string with the label string. The model compares date triples, which agrees only while records are stored zero-padded as `YYYY-MM-DD`.
- IEEE floating-point rounding in the forecast, the budget percentage and the 15 % tip. The model uses exact rational arithmetic.
- Form input conversion: `Number(fd.get('amount'))` may give `NaN`, a negative or a fractional value. Amounts here are whole non-negative dong (`nat`).
- `Date.now()` id generation and the `setTimeout` in `switchTab`. Ids are given inputs.
- Tips.SavingTip: JavaScript puts integer-like object keys (a category named "12") before other keys whatever their insertion order. The model keeps pure insertion order, and it assumes the stable `sort` of ES2019. It also treats the names of `Object.prototype` members as ordinary categories. In the source, for "constructor", "toString" or "valueOf", `(catTotals[c] || 0) + amount` starts from the inherited function and builds a string, so the sort comparator yields NaN. For "__proto__" the assignment is ignored and no key is made, so the source gives no tip when that is the only 'chi' category while the model names it.
- The theme flag and its storage: UI state with no computation.
