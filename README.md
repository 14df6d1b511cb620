# Expense Tracker — verified model of the in-memory logic

This project models the in-memory logic of the Expense Tracker Android app and proves
properties of it in Dafny. The app records expenses in rupees, each with a category,
a date, a description and an amount.

The model covers five parts of the app:

- **Statistics engine.** The date range of each statistics period (this week, this month, this year, the last 30 days) and of the period before it. The average per day and its divisor. The daily trend keyed by `yyyy-MM-dd` dates. The top categories. The period-over-period comparison. The grouping of expenses by category. The dashboard's month range.
- **Expense list.** The filter record and its setters. The four-stage `applyFilter` chain: text search, category, a day-aligned date range, then a stable sort. The sort-chip toggles. The "All"/category chip selection.
- **Forms.** The add/edit expense and add/edit category view models. Each validates its input in a fixed order, enters edit mode only after a successful load, and then updates or inserts.
- **Formatters.** The `₹` amount format and the strip-and-parse inverse that the list uses to sort and delete. The CSV document. PDF pagination and description truncation.
- **Screen rules.** The statistics tabs, comparison line, trend text and no-data message. The dashboard greeting and its top-4 panel. The pie chart's slices and measuring. The percentages in the category statistics list.

How the model represents the app:

- **State.** View models and adapters are classes whose fields stand for their LiveData values and private state. Each coroutine body becomes one method call.
- **Outside inputs.** Repository answers are parameters of type `Fetch<T>`: either a value or an exception with an optional message. The clock is an `int` parameter `now`, in milliseconds.
- **Time.** A day is exactly 86,400,000 ms. The calendar is proleptic Gregorian in one fixed zone (`civil_time.dfy`, `calendar.dfy`).
- **Money.** Amounts are `real`. Formatting with `"%.2f"` is HALF_UP rounding to hundredths (`numerals.dfy`).
- **Daily-trend keys.** The `yyyy-MM-dd` keys are ISO 8601 calendar dates in complete extended format (section 4.1.2.2 of ISO 8601:2004). `DayKeys.DayKeyOrder` proves that their string order is chronological order for years 1 to 9999.

Module layout:

| file | app source |
|---|---|
| `statistics.dfy`, `period_ranges.dfy` | the statistics view model |
| `spending_statistics.dfy`, `grouping.dfy` | the spending-statistics use case |
| `expense_list.dfy`, `expense_list_screen.dfy`, `category_filter_adapter.dfy` | the expense list |
| `dashboard.dfy`, `dashboard_screen.dfy` | the dashboard |
| `export.dfy` | CSV and PDF export |
| `add_edit_expense.dfy`, `add_edit_category.dfy` | the two forms |
| `statistics_screen.dfy`, `pie_chart.dfy`, `category_stats_adapter.dfy`, `shares.dfy` | the statistics screen; `shares.dfy` holds the percentage shares the pie chart and the category list both compute |
| `extensions.dfy` | the display extensions |
| `civil_time.dfy`, `calendar.dfy`, `day_key.dfy`, `date_formats.dfy` | the parts of `java.util.Calendar` and `SimpleDateFormat` the app relies on |
| `numerals.dfy`, `text.dfy`, `stable_sort.dfy`, `entities.dfy`, `wrappers.dfy` | Kotlin number, string and collection functions, and the data classes |

## Model

| member | source | states |
|---|---|---|
| Statistics.IsLeapYearNow | app/src/main/java/com/nikhil/expensetracker/presentation/ui/statistics/StatisticsViewModel.kt:178-181 | The Gregorian leap-year test on the current year holds exactly when that year has 366 days. |
| Statistics.AverageDivisor | app/src/main/java/com/nikhil/expensetracker/presentation/ui/statistics/StatisticsViewModel.kt:169-174 | The divisor is at least 7, so it is never zero. It equals the number of days in the period's queried range. |
| Statistics.CalculateAveragePerDay | app/src/main/java/com/nikhil/expensetracker/presentation/ui/statistics/StatisticsViewModel.kt:168-176 | The average times the period's day count gives back the total spent. |
| Statistics.AverageOverRange | app/src/main/java/com/nikhil/expensetracker/presentation/ui/statistics/StatisticsViewModel.kt:168-176 | The average is taken over exactly the days of the range `getDateRangeForPeriod` returns. |
| Statistics.ExpensesInRange | app/src/main/java/com/nikhil/expensetracker/presentation/ui/statistics/StatisticsViewModel.kt:49-51 | Keeps exactly the expenses with start ≤ date ≤ end, with none added or duplicated. |
| Statistics.CalculateDailyTrend | app/src/main/java/com/nikhil/expensetracker/presentation/ui/statistics/StatisticsViewModel.kt:183-198 | The accumulation loop's result is a daily trend of the expenses. It has one entry per distinct day key, with no zero-filled days. Keys strictly ascend. Each amount is the sum for its day. The amounts add up to the total of the inputs. The range argument plays no part. |
| Statistics.TrendOfGroups | app/src/main/java/com/nikhil/expensetracker/presentation/ui/statistics/StatisticsViewModel.kt:195-197 | Sorting the grouped days by date key gives a daily trend of the expenses. |
| Statistics.DistinctDates | app/src/main/java/com/nikhil/expensetracker/presentation/ui/statistics/StatisticsViewModel.kt:195-197 | Two positions of the sorted trend never share a date, so "sorted" means strictly ascending. |
| Statistics.TrendTotalPermutation | app/src/main/java/com/nikhil/expensetracker/presentation/ui/statistics/StatisticsViewModel.kt:195-197 | Reordering the days does not change the sum of their amounts. |
| Statistics.TrendTotalRemove | app/src/main/java/com/nikhil/expensetracker/presentation/ui/statistics/StatisticsViewModel.kt:195-197 | Taking one day out of the trend takes its amount out of the sum. |
| Statistics.SortedByAmount | app/src/main/java/com/nikhil/expensetracker/presentation/ui/statistics/StatisticsViewModel.kt:204-205 | The result is a permutation of the breakdown in non-increasing amount order. It is stable: entries with equal amounts keep their map order. |
| Statistics.GetTopCategories | app/src/main/java/com/nikhil/expensetracker/presentation/ui/statistics/StatisticsViewModel.kt:200-210 | Returns min(limit, n) categories. Each is an entry of the breakdown. Amounts do not increase down the list. The list is the head of the stable sort. |
| Statistics.TopEntries | app/src/main/java/com/nikhil/expensetracker/presentation/ui/statistics/StatisticsViewModel.kt:204-206 | The first `limit` sorted entries come from the breakdown and are in non-increasing amount order. |
| Statistics.TopCategoriesDominate | app/src/main/java/com/nikhil/expensetracker/presentation/ui/statistics/StatisticsViewModel.kt:200-210 | No category left out of the top list spent more than any category in it. |
| Statistics.CalculatePeriodComparison | app/src/main/java/com/nikhil/expensetracker/presentation/ui/statistics/StatisticsViewModel.kt:212-233 | The difference is current − previous. With a positive previous total, the percentage has the sign of the change and is 0 exactly when the totals are equal. Otherwise the percentage is exactly 0. |
| Statistics.PercentageScalesPrevious | app/src/main/java/com/nikhil/expensetracker/presentation/ui/statistics/StatisticsViewModel.kt:220-224 | With a positive previous total, the percentage change scales the previous total to the current one. |
| Statistics.StatisticsViewModel.LoadStatistics | app/src/main/java/com/nikhil/expensetracker/presentation/ui/statistics/StatisticsViewModel.kt:38-70 | The outcome is LoadOutcome: the first failing repository call decides the error message, with "Unknown error" as fallback, and the old data is kept. Otherwise the data is built from the use case's statistics: the average, the daily trend of the in-range expenses, the top 5, and the comparison with the previous period's total. |
| Statistics.StatisticsViewModel.constructor | app/src/main/java/com/nikhil/expensetracker/presentation/ui/statistics/StatisticsViewModel.kt:33-73 | Selects THIS_MONTH and loads it, leaving LoadOutcome for THIS_MONTH with no earlier data. On an error there is no data; on Success the data is the month's statistics. |
| PeriodRanges.DaysFromMonday | app/src/main/java/com/nikhil/expensetracker/presentation/ui/statistics/StatisticsViewModel.kt:82-91 | Every weekday maps to a number in 0..6. |
| PeriodRanges.MondayOfWeek | app/src/main/java/com/nikhil/expensetracker/presentation/ui/statistics/StatisticsViewModel.kt:81-94 | Going back `daysFromMonday` days from any day lands on a Monday. |
| PeriodRanges.DaySpanMembers | app/src/main/java/com/nikhil/expensetracker/presentation/ui/statistics/StatisticsViewModel.kt:93-107 | A span from midnight of one day to 23:59:59.999 of another holds exactly the instants on those days. |
| PeriodRanges.ThisWeekSpec | app/src/main/java/com/nikhil/expensetracker/presentation/ui/statistics/StatisticsViewModel.kt:76-110 | The week range contains now. It starts on a Monday at 00:00:00.000 and ends at 23:59:59.999. It is exactly 7 days long. |
| PeriodRanges.ThisMonthSpec | app/src/main/java/com/nikhil/expensetracker/presentation/ui/statistics/StatisticsViewModel.kt:111-128 | The month range contains now. It starts on the 1st at midnight, ends at 23:59:59.999, and is as long as the month. |
| PeriodRanges.ThisYearSpec | app/src/main/java/com/nikhil/expensetracker/presentation/ui/statistics/StatisticsViewModel.kt:129-145 | The year range contains now. It starts on 1 January at midnight, ends at 23:59:59.999, and is 365 or 366 days long by the leap rule. |
| PeriodRanges.Last30DaysSpec | app/src/main/java/com/nikhil/expensetracker/presentation/ui/statistics/StatisticsViewModel.kt:146-164 | The range contains now. It runs from midnight 29 days ago to 23:59:59.999 today, which is 30 whole days. |
| PeriodRanges.PeriodRangeSpec | app/src/main/java/com/nikhil/expensetracker/presentation/ui/statistics/StatisticsViewModel.kt:72-166 | Every current range contains now, is day-aligned at both ends, and spans exactly the period's day count. |
| PeriodRanges.PreviousMonthAdjacent | app/src/main/java/com/nikhil/expensetracker/presentation/ui/statistics/StatisticsViewModel.kt:274-291 | The month before a date's month ends the day before that month starts. Across January it is December of the previous year. |
| PeriodRanges.PreviousPeriodSpec | app/src/main/java/com/nikhil/expensetracker/presentation/ui/statistics/StatisticsViewModel.kt:235-316 | The previous week, month or year ends 1 ms before the current one starts, and is a whole week, calendar month or year. The previous 30-day window is 30 × 24 h long and ends before the current window starts, at most a day earlier. |
| PeriodRanges.WeekRange | app/src/main/java/com/nikhil/expensetracker/presentation/ui/statistics/StatisticsViewModel.kt:76-110 | The calendar steps compute the THIS_WEEK range. |
| PeriodRanges.MonthRange | app/src/main/java/com/nikhil/expensetracker/presentation/ui/statistics/StatisticsViewModel.kt:111-128 | The calendar steps compute the THIS_MONTH range. |
| PeriodRanges.YearRange | app/src/main/java/com/nikhil/expensetracker/presentation/ui/statistics/StatisticsViewModel.kt:129-145 | The calendar steps compute the THIS_YEAR range. |
| PeriodRanges.Last30DaysRange | app/src/main/java/com/nikhil/expensetracker/presentation/ui/statistics/StatisticsViewModel.kt:146-164 | The steps on the two calendars compute the LAST_30_DAYS range. |
| PeriodRanges.GetDateRangeForPeriod | app/src/main/java/com/nikhil/expensetracker/presentation/ui/statistics/StatisticsViewModel.kt:72-166 | Returns the current range of the period, whose properties PeriodRangeSpec proves. |
| PeriodRanges.PreviousWeekRange | app/src/main/java/com/nikhil/expensetracker/presentation/ui/statistics/StatisticsViewModel.kt:239-273 | The calendar steps compute the previous week. |
| PeriodRanges.PreviousMonthRange | app/src/main/java/com/nikhil/expensetracker/presentation/ui/statistics/StatisticsViewModel.kt:274-291 | The calendar steps compute the previous month. |
| PeriodRanges.PreviousYearRange | app/src/main/java/com/nikhil/expensetracker/presentation/ui/statistics/StatisticsViewModel.kt:292-309 | The calendar steps compute the previous year. |
| PeriodRanges.GetPreviousPeriodRange | app/src/main/java/com/nikhil/expensetracker/presentation/ui/statistics/StatisticsViewModel.kt:235-316 | Returns the previous range of the period, whose properties PreviousPeriodSpec proves. |
| CivilTime.DaysInYear | app/src/main/java/com/nikhil/expensetracker/presentation/ui/statistics/StatisticsViewModel.kt:172 | A year has 365 or 366 days. |
| CivilTime.DaysInMonth | app/src/main/java/com/nikhil/expensetracker/presentation/ui/statistics/StatisticsViewModel.kt:171 | A month has 28 to 31 days. It has 29 exactly for February of a leap year. |
| CivilTime.DayNumberOrder | app/src/main/java/com/nikhil/expensetracker/presentation/ui/statistics/StatisticsViewModel.kt:190-191 | Numbering the days since 1970-01-01 is injective and follows calendar order. |
| CivilTime.CivilFromDays | app/src/main/java/com/nikhil/expensetracker/presentation/ui/statistics/StatisticsViewModel.kt:190-191 | Every day number has a valid calendar date with that number. |
| CivilTime.CivilOfDayNumber | app/src/main/java/com/nikhil/expensetracker/presentation/ui/statistics/StatisticsViewModel.kt:190-191 | Round trip: the date of a date's day number is that date. |
| CivilTime.DayOfWeek | app/src/main/java/com/nikhil/expensetracker/presentation/ui/statistics/StatisticsViewModel.kt:81 | `DAY_OF_WEEK` is in SUNDAY..SATURDAY. |
| CivilTime.TimeOfDay | app/src/main/java/com/nikhil/expensetracker/presentation/ui/expense/ExpenseListViewModel.kt:150-158 | The time of day is in [0, 86,400,000). Day and time of day recompose the instant. |
| Calendars.AddMonthsToDate | app/src/main/java/com/nikhil/expensetracker/presentation/ui/statistics/StatisticsViewModel.kt:119 | `add(MONTH, k)` moves the year and month by k months. The day is clamped to the new month's length. |
| Calendars.AddYearsToDate | app/src/main/java/com/nikhil/expensetracker/presentation/ui/statistics/StatisticsViewModel.kt:293 | `add(YEAR, k)` moves the year by k. 29 February is clamped to the 28th in a common year. |
| Calendars.Calendar.ActualMaximumDayOfMonth | app/src/main/java/com/nikhil/expensetracker/presentation/ui/statistics/StatisticsViewModel.kt:171 | Is the length of the calendar's month, 28 to 31. |
| Calendars.Calendar.ActualMaximumDayOfYear | app/src/main/java/com/nikhil/expensetracker/presentation/ui/statistics/StatisticsViewModel.kt:137 | Is the length of the calendar's year, 365 or 366. |
| Calendars.Calendar.SetHourOfDay | app/src/main/java/com/nikhil/expensetracker/presentation/ui/statistics/StatisticsViewModel.kt:95 | Replaces the hour and keeps the day and the other clock fields (leniently). |
| Calendars.Calendar.SetMinute | app/src/main/java/com/nikhil/expensetracker/presentation/ui/statistics/StatisticsViewModel.kt:96 | Replaces the minute and keeps the rest. |
| Calendars.Calendar.SetSecond | app/src/main/java/com/nikhil/expensetracker/presentation/ui/statistics/StatisticsViewModel.kt:97 | Replaces the second and keeps the rest. |
| Calendars.Calendar.SetMillisecond | app/src/main/java/com/nikhil/expensetracker/presentation/ui/statistics/StatisticsViewModel.kt:98 | Replaces the millisecond and keeps the rest. |
| Calendars.Calendar.AddDays | app/src/main/java/com/nikhil/expensetracker/presentation/ui/statistics/StatisticsViewModel.kt:94 | `add(DAY_OF_MONTH, k)` moves by exactly k days and keeps the time of day. |
| Calendars.Calendar.AddMonths | app/src/main/java/com/nikhil/expensetracker/presentation/ui/statistics/StatisticsViewModel.kt:119 | Moves the date as AddMonthsToDate does and keeps the time of day. |
| Calendars.Calendar.AddYears | app/src/main/java/com/nikhil/expensetracker/presentation/ui/statistics/StatisticsViewModel.kt:293 | Moves the date as AddYearsToDate does and keeps the time of day. |
| Calendars.Calendar.SetDayOfMonth | app/src/main/java/com/nikhil/expensetracker/presentation/ui/statistics/StatisticsViewModel.kt:112 | Sets day k of the current month, with day 0 as the previous month's last day. An in-range k gives that date. |
| Calendars.Calendar.SetDayOfYear | app/src/main/java/com/nikhil/expensetracker/presentation/ui/statistics/StatisticsViewModel.kt:130 | Sets day k of the current year. k = 1 gives 1 January. |
| Calendars.Calendar.SetStartOfDay | app/src/main/java/com/nikhil/expensetracker/presentation/ui/statistics/StatisticsViewModel.kt:95-98 | Setting the four clock fields to 0 gives midnight of the same day. |
| Calendars.Calendar.SetEndOfDay | app/src/main/java/com/nikhil/expensetracker/presentation/ui/statistics/StatisticsViewModel.kt:103-106 | Setting 23:59:59.999 gives the last millisecond of the same day. |
| Calendars.At | app/src/main/java/com/nikhil/expensetracker/presentation/ui/statistics/StatisticsViewModel.kt:73 | `Calendar.getInstance()` read at an instant denotes that instant. |
| DayKeys.YearText | app/src/main/java/com/nikhil/expensetracker/presentation/ui/statistics/StatisticsViewModel.kt:190 | The `yyyy` field of a year from 1 to 9999 is its 4-digit zero-padded numeral. |
| DayKeys.DayKey | app/src/main/java/com/nikhil/expensetracker/presentation/ui/statistics/StatisticsViewModel.kt:190-191 | A key of a date within years 1 to 9999 has 10 characters, with dashes at positions 4 and 7. |
| DayKeys.DayKeyOrder | app/src/main/java/com/nikhil/expensetracker/presentation/ui/statistics/StatisticsViewModel.kt:190-197 | Keys compare as strings exactly as the dates compare, and equal keys mean equal dates. So `sortedBy { it.date }` is chronological. |
| DayKeys.KeyParts | app/src/main/java/com/nikhil/expensetracker/presentation/ui/statistics/StatisticsViewModel.kt:190 | A key is the 4-digit year, the 2-digit month and the 2-digit day, joined by dashes. |
| DayKeys.DayKeyOfOrder | app/src/main/java/com/nikhil/expensetracker/presentation/ui/statistics/StatisticsViewModel.kt:189-197 | Two instants' keys are ordered and equal exactly as their days are. |
| DayKeys.DayKeyOfFields | app/src/main/java/com/nikhil/expensetracker/presentation/ui/statistics/StatisticsViewModel.kt:190 | Within years 1 to 9999, an instant's key is 10 characters with dashes at 4 and 7, and its fields read back as the year, month and day of its date. |
| Grouping.Accumulate | app/src/main/java/com/nikhil/expensetracker/presentation/ui/statistics/StatisticsViewModel.kt:192 | `map[k] = (map[k] ?: 0.0) + v` updates an existing key in place, or appends a new key at the end. |
| Grouping.AccumulateSpec | app/src/main/java/com/nikhil/expensetracker/presentation/ui/statistics/StatisticsViewModel.kt:189-193 | One accumulation step keeps the grouping invariant of the items seen so far: distinct keys, the same key set, per-key sums, first-appearance order and the total. |
| Grouping.GroupSum | app/src/main/java/com/nikhil/expensetracker/domain/repository/usecase/GetSpendingStatisticsUseCase.kt:13-16 | The grouping of the items: distinct keys, exactly the keys present, each value the sum of its items, keys in first-appearance order, and values adding up to the total. |
| Grouping.SumForNonNegative | app/src/main/java/com/nikhil/expensetracker/domain/repository/usecase/GetSpendingStatisticsUseCase.kt:13-16 | With non-negative amounts, each key's sum lies between 0 and the total. |
| SpendingStatistics.CategoryKey | app/src/main/java/com/nikhil/expensetracker/domain/repository/usecase/GetSpendingStatisticsUseCase.kt:13 | The key is the category's name, or "Unknown" when there is no category. |
| SpendingStatistics.CategoryItems | app/src/main/java/com/nikhil/expensetracker/domain/repository/usecase/GetSpendingStatisticsUseCase.kt:13-15 | Each expense becomes its (key, amount) item, in order. |
| SpendingStatistics.GetSpendingStatistics | app/src/main/java/com/nikhil/expensetracker/domain/repository/usecase/GetSpendingStatisticsUseCase.kt:9-23 | The total is passed through from the total query. The count is the number of fetched expenses. The breakdown groups the fetched expenses by key. An empty fetch gives an empty breakdown and a count of 0. |
| SpendingStatistics.BreakdownEntries | app/src/main/java/com/nikhil/expensetracker/domain/repository/usecase/GetSpendingStatisticsUseCase.kt:13-16 | A name is in the breakdown exactly when some expense has that key. Its value is the sum of those expenses' amounts. |
| Extensions.ToCurrency | app/src/main/java/com/nikhil/expensetracker/presentation/utils/Extensions.kt:20-22 | The text is "₹" followed by the `%.2f` numeral. It holds no ',' and no second '₹'. |
| Extensions.ToUIModel | app/src/main/java/com/nikhil/expensetracker/presentation/utils/Extensions.kt:9-18 | Copies the id and description. The category name falls back to "Unknown" and the colour to "#757575". The amount is ToCurrency of the amount. The date is the `dd MMM yyyy` text. |
| Extensions.StripCurrency | app/src/main/java/com/nikhil/expensetracker/presentation/ui/expense/ExpenseListViewModel.kt:74 | Removing "₹" and then "," leaves no ','. |
| Extensions.ParseCurrency | app/src/main/java/com/nikhil/expensetracker/presentation/utils/Extensions.kt:12 | Round trip: stripping and parsing a formatted amount gives the amount rounded HALF_UP to paise. A whole number of paise comes back exactly. |
| Numerals.ParseFormatFixed2 | app/src/main/java/com/nikhil/expensetracker/presentation/utils/Extensions.kt:21 | Round trip: parsing `"%.2f"` output gives the displayed, rounded value. |
| Numerals.ParseFormatFixed1 | app/src/main/java/com/nikhil/expensetracker/presentation/adapters/CategoryStatsAdapter.kt:52 | Round trip: parsing `"%.1f"` output gives the displayed, rounded value. |
| Numerals.RoundHalfUp2 | app/src/main/java/com/nikhil/expensetracker/presentation/utils/Extensions.kt:21 | The displayed value lies within 0.005 of the amount. |
| Numerals.RoundHalfUp2Exact | app/src/main/java/com/nikhil/expensetracker/presentation/utils/Extensions.kt:21 | Amounts with whole hundredths display exactly. |
| Numerals.ValueOfNatToString | app/src/main/java/com/nikhil/expensetracker/presentation/ui/expense/ExpenseListFragment.kt:225 | Reading back `n.toString()` gives n. |
| Numerals.DigitsOrder | app/src/main/java/com/nikhil/expensetracker/presentation/ui/statistics/StatisticsViewModel.kt:190 | Fixed-width numerals compare as strings exactly as their values compare. |
| Text.Trim | app/src/main/java/com/nikhil/expensetracker/presentation/ui/categories/AddEditCategoryViewModel.kt:74 | The trimmed text has no whitespace at either end. It is empty exactly when the input is blank. |
| Text.TrimIdempotent | app/src/main/java/com/nikhil/expensetracker/presentation/ui/categories/AddEditCategoryViewModel.kt:84 | Trimming twice is trimming once, so a saved name is already trimmed. |
| Text.StrLessTotal | app/src/main/java/com/nikhil/expensetracker/presentation/ui/expense/ExpenseListViewModel.kt:143 | Kotlin string order is a strict total order. |
| Text.StrLessTransitive | app/src/main/java/com/nikhil/expensetracker/presentation/ui/expense/ExpenseListViewModel.kt:143 | String order is transitive. |
| Text.ReplaceChar | app/src/main/java/com/nikhil/expensetracker/presentation/ui/export/ExportViewModel.kt:60 | Replaces exactly the occurrences of one character and nothing else. |
| Text.ContainsIgnoreCaseBounds | app/src/main/java/com/nikhil/expensetracker/presentation/ui/expense/ExpenseListViewModel.kt:113-114 | The empty query is contained in every text; a query longer than the text never is. |
| Text.ContainsIgnoreCaseOccurrence | app/src/main/java/com/nikhil/expensetracker/presentation/ui/expense/ExpenseListViewModel.kt:113-114 | A query that occurs in the text up to the case of ASCII letters is contained. |
| Text.JoinStartsWithFirst | app/src/main/java/com/nikhil/expensetracker/presentation/ui/dashboard/DashboardFragment.kt:311 | A joined text opens with its first part. |
| Text.RemoveChar | app/src/main/java/com/nikhil/expensetracker/presentation/ui/expense/ExpenseListViewModel.kt:74 | Removes every occurrence of a character and leaves other text as it was. |
| StableSort.SortSpec | app/src/main/java/com/nikhil/expensetracker/presentation/ui/expense/ExpenseListViewModel.kt:134-144 | The library sort's result is ordered, is a permutation of the input, and is stable: equivalent elements keep their relative order. |
| StableSort.FilterSubMultiset | app/src/main/java/com/nikhil/expensetracker/presentation/ui/expense/ExpenseListViewModel.kt:112-130 | `filter` neither adds nor duplicates elements. |
| StableSort.FilterMembers | app/src/main/java/com/nikhil/expensetracker/presentation/ui/expense/ExpenseListViewModel.kt:112-130 | `filter` keeps exactly the elements satisfying the predicate. |
| StableSort.Take | app/src/main/java/com/nikhil/expensetracker/presentation/ui/dashboard/DashboardViewModel.kt:83 | `take(n)` is the prefix of length min(n, size), or empty for n ≤ 0. |
| StableSort.TakeLast | app/src/main/java/com/nikhil/expensetracker/presentation/ui/statistics/StatisticsFragment.kt:172 | `takeLast(n)` is the suffix of length min(n, size). |
| StableSort.StringOrderIsPreorder | app/src/main/java/com/nikhil/expensetracker/presentation/ui/expense/ExpenseListViewModel.kt:143 | Ordering by a string key is a total preorder, so the category sort is well defined. |
| ExpenseList.GetStartOfDay | app/src/main/java/com/nikhil/expensetracker/presentation/ui/expense/ExpenseListViewModel.kt:150-158 | Midnight of the timestamp's day: at or before the timestamp and less than a day earlier. |
| ExpenseList.GetEndOfDay | app/src/main/java/com/nikhil/expensetracker/presentation/ui/expense/ExpenseListViewModel.kt:160-168 | The day's last millisecond: at or after the timestamp, and 86,399,999 ms after the day's start. |
| ExpenseList.DayWindow | app/src/main/java/com/nikhil/expensetracker/presentation/ui/expense/ExpenseListViewModel.kt:124-131 | start-of-day(first) ≤ t ≤ end-of-day(last) exactly when t's day lies between the two days, inclusive. |
| ExpenseList.SortOrderIsPreorder | app/src/main/java/com/nikhil/expensetracker/presentation/ui/expense/ExpenseListViewModel.kt:134-144 | Each of the five sort choices is a total preorder. |
| ExpenseList.FilteredViewSubMultiset | app/src/main/java/com/nikhil/expensetracker/presentation/ui/expense/ExpenseListViewModel.kt:107-148 | The shown list is a reordering of a subset of the items: nothing is added or duplicated. |
| ExpenseList.FilteredViewMembers | app/src/main/java/com/nikhil/expensetracker/presentation/ui/expense/ExpenseListViewModel.kt:107-148 | An item is shown exactly when it is loaded and passes every stage. A blank query skips the search. Otherwise the description or category name must contain the query, ignoring the case of ASCII letters. A set category must match exactly. A date range applies only when both bounds are set, by whole days. |
| ExpenseList.FilteredViewOrdered | app/src/main/java/com/nikhil/expensetracker/presentation/ui/expense/ExpenseListViewModel.kt:134-144 | The shown list is ordered by the chosen sort and is stable with respect to the filtered order. |
| ExpenseList.ClearedViewShowsAll | app/src/main/java/com/nikhil/expensetracker/presentation/ui/expense/ExpenseListViewModel.kt:170-173 | Under the default filter every loaded item is shown, newest first. |
| ExpenseList.AmountKeyOfExpense | app/src/main/java/com/nikhil/expensetracker/presentation/ui/expense/ExpenseListViewModel.kt:137-142 | The amount sort key of a loaded expense is its amount rounded to paise, so an unparseable string never occurs. |
| ExpenseList.WithTimestamp | app/src/main/java/com/nikhil/expensetracker/presentation/ui/expense/ExpenseListViewModel.kt:49-55 | The item carries the expense's display model, date and category id. |
| ExpenseList.FindById | app/src/main/java/com/nikhil/expensetracker/presentation/ui/expense/ExpenseListViewModel.kt:70 | Returns the first item with that id, or nothing when no item has it. |
| ExpenseList.DeletionEntity | app/src/main/java/com/nikhil/expensetracker/presentation/ui/expense/ExpenseListViewModel.kt:72-78 | Rebuilds the entity from the item. The amount is the stripped and parsed text. There is no entity when the text does not parse, the case where `toDouble()` throws. |
| ExpenseList.DeletionEntityOfLoaded | app/src/main/java/com/nikhil/expensetracker/presentation/ui/expense/ExpenseListViewModel.kt:72-78 | For a loaded expense, the rebuilt entity is the original with its amount rounded to paise. |
| ExpenseList.RunStages | app/src/main/java/com/nikhil/expensetracker/presentation/ui/expense/ExpenseListViewModel.kt:108-131 | The three filter stages, each run only when its part of the filter is set, select exactly the items that pass all three, in their original order. |
| ExpenseList.ExpenseListViewModel.LoadExpenses | app/src/main/java/com/nikhil/expensetracker/presentation/ui/expense/ExpenseListViewModel.kt:40-65 | An emission stores the display models and timestamped items, sets Success, and re-runs the filter. An exception sets Error(message or "Unknown error") and keeps the lists. |
| ExpenseList.ExpenseListViewModel.Collect | app/src/main/java/com/nikhil/expensetracker/presentation/ui/expense/ExpenseListViewModel.kt:45-60 | One emission replaces all lists and re-applies the current filter. |
| ExpenseList.ExpenseListViewModel.DeleteExpense | app/src/main/java/com/nikhil/expensetracker/presentation/ui/expense/ExpenseListViewModel.kt:67-85 | Looks up the first item with the id. It deletes the rebuilt entity. Only an amount that fails to parse sets Error("Failed to delete expense"). All four lists and the filter are unchanged. |
| ExpenseList.ExpenseListViewModel.SearchExpenses | app/src/main/java/com/nikhil/expensetracker/presentation/ui/expense/ExpenseListViewModel.kt:87-90 | Replaces only the query in the filter. The shown list reflects the new filter. The loaded lists and the UI state are unchanged. |
| ExpenseList.ExpenseListViewModel.FilterByCategory | app/src/main/java/com/nikhil/expensetracker/presentation/ui/expense/ExpenseListViewModel.kt:92-95 | Replaces only the category in the filter. The shown list reflects the new filter. The loaded lists and the UI state are unchanged. |
| ExpenseList.ExpenseListViewModel.FilterByDateRange | app/src/main/java/com/nikhil/expensetracker/presentation/ui/expense/ExpenseListViewModel.kt:97-100 | Replaces only the two bounds in the filter. The shown list reflects the new filter. The loaded lists and the UI state are unchanged. |
| ExpenseList.ExpenseListViewModel.SortExpenses | app/src/main/java/com/nikhil/expensetracker/presentation/ui/expense/ExpenseListViewModel.kt:102-105 | Replaces only the sort in the filter. The shown list reflects the new filter. The loaded lists and the UI state are unchanged. |
| ExpenseList.ExpenseListViewModel.ClearFilters | app/src/main/java/com/nikhil/expensetracker/presentation/ui/expense/ExpenseListViewModel.kt:170-173 | Restores the defaults ("", none, none, none, DATE_DESC). The shown list reflects them. The loaded lists and the UI state are unchanged. |
| ExpenseList.ExpenseListViewModel.ApplyFilter | app/src/main/java/com/nikhil/expensetracker/presentation/ui/expense/ExpenseListViewModel.kt:107-148 | Sets the shown list to the filtered, sorted view of the items and changes nothing else. |
| ExpenseList.ExpenseListViewModel.HasDateRangeFilter | app/src/main/java/com/nikhil/expensetracker/presentation/ui/expense/ExpenseListViewModel.kt:178-180 | True exactly when both bounds are set. |
| ExpenseList.ExpenseListViewModel.GetDateRangeText | app/src/main/java/com/nikhil/expensetracker/presentation/ui/expense/ExpenseListViewModel.kt:178-192 | There is a text exactly when both bounds are set. It is "start - end" in the `MMM dd, yyyy` pattern. |
| ExpenseList.ExpenseListViewModel.constructor | app/src/main/java/com/nikhil/expensetracker/presentation/ui/expense/ExpenseListViewModel.kt:36-38 | Starts with the default filter and one load. An emission gives Success with every list built from it and the unfiltered view shown. An exception gives Error(message or "Unknown error"), and every list is empty, standing for a LiveData that has no value yet. |
| ExpenseListScreen.DateChipSort | app/src/main/java/com/nikhil/expensetracker/presentation/ui/expense/ExpenseListFragment.kt:158-163 | DATE_DESC becomes DATE_ASC. Every other sort becomes DATE_DESC. |
| ExpenseListScreen.AmountChipSort | app/src/main/java/com/nikhil/expensetracker/presentation/ui/expense/ExpenseListFragment.kt:165-170 | AMOUNT_DESC becomes AMOUNT_ASC. Every other sort becomes AMOUNT_DESC. |
| ExpenseListScreen.CategoryChipSort | app/src/main/java/com/nikhil/expensetracker/presentation/ui/expense/ExpenseListFragment.kt:172-175 | Always gives CATEGORY. |
| ExpenseListScreen.ChipTogglesRoundTrip | app/src/main/java/com/nikhil/expensetracker/presentation/ui/expense/ExpenseListFragment.kt:158-175 | Two date (or amount) presses from DESC return to DESC. Pressing the category chip again changes nothing. |
| ExpenseListScreen.SortChips.constructor | app/src/main/java/com/nikhil/expensetracker/presentation/ui/expense/ExpenseListFragment.kt:252-256 | Starts with no chip checked and the given labels. |
| ExpenseListScreen.SortChips.UpdateSortChips | app/src/main/java/com/nikhil/expensetracker/presentation/ui/expense/ExpenseListFragment.kt:252-272 | Exactly one chip is checked for every sort. The date label reads "Date ↓" exactly for DATE_DESC, and the amount label "Amount ↓" exactly for AMOUNT_DESC. Unchecked labels keep their text. |
| ExpenseListScreen.ExpenseCountText | app/src/main/java/com/nikhil/expensetracker/presentation/ui/expense/ExpenseListFragment.kt:224-233 | The text starts "<n> expenses". " (<range>)" is appended exactly when a range text exists. |
| ExpenseListScreen.ExpenseCountTextReadsBack | app/src/main/java/com/nikhil/expensetracker/presentation/ui/expense/ExpenseListFragment.kt:225 | The leading number reads back as the count. |
| CategoryFilter.ClickSelection | app/src/main/java/com/nikhil/expensetracker/presentation/adapters/CategoryFilterAdapter.kt:96 | A click on "All" selects nothing. Any other chip selects its own name. |
| CategoryFilter.CategoryFilterAdapter.constructor | app/src/main/java/com/nikhil/expensetracker/presentation/adapters/CategoryFilterAdapter.kt:19-20 | Starts with no chips and nothing selected. |
| CategoryFilter.CategoryFilterAdapter.SubmitList | app/src/main/java/com/nikhil/expensetracker/presentation/adapters/CategoryFilterAdapter.kt:22-28 | Stores the "All" chip (id −1, "#757575") followed by the new list in order: n + 1 chips. The selection is kept. |
| CategoryFilter.CategoryFilterAdapter.SetSelectedCategory | app/src/main/java/com/nikhil/expensetracker/presentation/adapters/CategoryFilterAdapter.kt:30-33 | Replaces only the selection. |
| CategoryFilter.CategoryFilterAdapter.Bind | app/src/main/java/com/nikhil/expensetracker/presentation/adapters/CategoryFilterAdapter.kt:54-92 | The chip shows its name. "All" is selected exactly when nothing is selected. Other chips are selected exactly when their name is the selection. The colour dot is hidden only for "All". |
| CategoryFilter.CategoryFilterAdapter.OnChipClick | app/src/main/java/com/nikhil/expensetracker/presentation/adapters/CategoryFilterAdapter.kt:95-101 | The value passed to the callback is the stored selection. The clicked chip is then drawn selected. A second click on it stores the same value. |
| CategoryFilter.ClickedChipSelected | app/src/main/java/com/nikhil/expensetracker/presentation/adapters/CategoryFilterAdapter.kt:95-100 | The selection a click makes always shows the clicked chip as selected. |
| CategoryFilter.SelectedChips | app/src/main/java/com/nikhil/expensetracker/presentation/adapters/CategoryFilterAdapter.kt:56-60 | At most one name is drawn selected. "All" is selected exactly when the selection is empty. |
| CategoryFilter.FreshListSelectsAll | app/src/main/java/com/nikhil/expensetracker/presentation/adapters/CategoryFilterAdapter.kt:22-60 | With nothing selected and no category named "All", only the first chip is drawn selected. |
| CategoryFilter.CategoryNamedAllClearsFilter | app/src/main/java/com/nikhil/expensetracker/presentation/adapters/CategoryFilterAdapter.kt:96 | Clicking a category literally named "All" clears the filter, like the "All" chip. |
| Dashboard.ClearClockKeepsMillis | app/src/main/java/com/nikhil/expensetracker/presentation/ui/dashboard/DashboardViewModel.kt:116-118 | Clearing hour, minute and second keeps the millisecond field. |
| Dashboard.GetCurrentMonthRange | app/src/main/java/com/nikhil/expensetracker/presentation/ui/dashboard/DashboardViewModel.kt:113-127 | Start is the 1st at 00:00:00 plus now's millisecond field. End is the month's last day at the same time of day. So end − start = (days in month − 1) days. |
| Dashboard.MillisOfDayStart | app/src/main/java/com/nikhil/expensetracker/presentation/ui/dashboard/DashboardViewModel.kt:114-119 | The start keeps now's millisecond (0..999). |
| Dashboard.MonthRangeMissesLastDayEvening | app/src/main/java/com/nikhil/expensetracker/presentation/ui/dashboard/DashboardViewModel.kt:121-123 | An instant later on the month's last day than the range end falls outside the range. |
| Dashboard.RecentExpenses | app/src/main/java/com/nikhil/expensetracker/presentation/ui/dashboard/DashboardViewModel.kt:83 | The display models of the first min(3, n) expenses, in order. |
| Dashboard.DashboardViewModel.LoadDashboardData | app/src/main/java/com/nikhil/expensetracker/presentation/ui/dashboard/DashboardViewModel.kt:68-106 | The recent list is the first three expenses; a failed collection keeps the old list. Success copies the total, breakdown and count from the statistics for the month range (LoadedState). Exceptions give Error(message or "Unknown error"). |
| Dashboard.DashboardViewModel.RefreshData | app/src/main/java/com/nikhil/expensetracker/presentation/ui/dashboard/DashboardViewModel.kt:108-111 | Reloads: the same state (LoadedState) and recent list as LoadDashboardData. |
| Dashboard.DashboardViewModel.DeleteExpense | app/src/main/java/com/nikhil/expensetracker/presentation/ui/dashboard/DashboardViewModel.kt:38-66 | Sends an Expense with the id, amount 0, category 0, date 0 and an empty description. A failed result sets Error("Failed to delete expense"). Success leaves the state. |
| Dashboard.DashboardViewModel.constructor | app/src/main/java/com/nikhil/expensetracker/presentation/ui/dashboard/DashboardViewModel.kt:33-36 | One load: the state is LoadedState's outcome, so Success or Error. The recent list is the first three expenses, or empty when the collection threw. |
| DashboardScreen.Greeting | app/src/main/java/com/nikhil/expensetracker/presentation/ui/dashboard/DashboardFragment.kt:81-85 | "Good Morning!" for hours 0..11, "Good Afternoon!" for 12..16, "Good Evening!" otherwise. |
| DashboardScreen.GreetingByTimeOfDay | app/src/main/java/com/nikhil/expensetracker/presentation/ui/dashboard/DashboardFragment.kt:76-85 | Morning runs until noon, afternoon until 17:00, evening until midnight. |
| DashboardScreen.ShownCategories | app/src/main/java/com/nikhil/expensetracker/presentation/ui/dashboard/DashboardFragment.kt:258-260 | The first min(4, n) entries of the stable descending sort. They come from the breakdown, with non-increasing amounts. |
| DashboardScreen.ShownCategoriesDominate | app/src/main/java/com/nikhil/expensetracker/presentation/ui/dashboard/DashboardFragment.kt:258-260 | No category left off the panel spent more than any shown one. |
| DashboardScreen.SlotTextAsWrittenLacksRupee | app/src/main/java/com/nikhil/expensetracker/presentation/ui/dashboard/DashboardFragment.kt:368 | As written, the slot's amount is prefixed by three garbled characters instead of "₹". |
| DashboardScreen.SlotText | app/src/main/java/com/nikhil/expensetracker/presentation/ui/dashboard/DashboardFragment.kt:327-376 | The corrected slot: the name, a line break, then "₹" and the amount. Line 368 as written puts a garbled prefix there instead (see Findings). |
| DashboardScreen.SlotAmountStrips | app/src/main/java/com/nikhil/expensetracker/presentation/ui/dashboard/DashboardFragment.kt:368 | With the intended prefix, the amount part strips back to the amount text, as every other currency string in the app does. |
| DashboardScreen.Slots | app/src/main/java/com/nikhil/expensetracker/presentation/ui/dashboard/DashboardFragment.kt:276-305 | One corrected slot text (with "₹", see Findings) per shown category, in rank order. |
| DashboardScreen.TopCategoriesText | app/src/main/java/com/nikhil/expensetracker/presentation/ui/dashboard/DashboardFragment.kt:310-319 | "No expenses yet" exactly when no category is shown. Otherwise "Top Categories:\n" followed by the category lines joined by line feeds. |
| DashboardScreen.TopLines | app/src/main/java/com/nikhil/expensetracker/presentation/ui/dashboard/DashboardFragment.kt:311-313 | One line per shown category, in rank order: the name, ": " and the `₹` amount. |
| DashboardScreen.TopTextStartsWithFirst | app/src/main/java/com/nikhil/expensetracker/presentation/ui/dashboard/DashboardFragment.kt:310-319 | The text opens with the header and the first-ranked category's line. |
| DashboardScreen.CategoryPanel.constructor | app/src/main/java/com/nikhil/expensetracker/presentation/ui/dashboard/DashboardFragment.kt:266-270 | Starts as the `0 ->` branch leaves the panel: every group hidden, so no name is visible. |
| DashboardScreen.CategoryPanel.UpdateCategoryBreakdown | app/src/main/java/com/nikhil/expensetracker/presentation/ui/dashboard/DashboardFragment.kt:253-325 | Visibility by count: 0 shows no group; 1 only llForOne; 2 only llForTwo; 3 llForOne and llForTwo; 4 or more only llForAllFour. The visible slots hold the corrected slot texts (with "₹", see Findings) of the shown categories in rank order. Hidden slots keep their text. |
| DashboardScreen.CategoryPanel.ShowSlots | app/src/main/java/com/nikhil/expensetracker/presentation/ui/dashboard/DashboardFragment.kt:265-308 | The `when (catCount)` table: which rows show, and which slots take the texts, in rank order. |
| Export.ExportedExpenses | app/src/main/java/com/nikhil/expensetracker/presentation/ui/export/ExportViewModel.kt:43-49 | No range exports every expense in order. A range exports the filtered list. |
| Export.ExportedMembers | app/src/main/java/com/nikhil/expensetracker/presentation/ui/export/ExportViewModel.kt:43-49 | With a range, exactly the expenses with start ≤ date ≤ end are exported, none duplicated. |
| Export.CsvDescription | app/src/main/java/com/nikhil/expensetracker/presentation/ui/export/ExportViewModel.kt:60 | Same length. Every ',' becomes ';' and nothing else changes, so the field has no comma. Quotes are not doubled. |
| Export.CsvCategory | app/src/main/java/com/nikhil/expensetracker/presentation/ui/export/ExportViewModel.kt:58 | The category name, or "Unknown". |
| Export.BuildCsv | app/src/main/java/com/nikhil/expensetracker/presentation/ui/export/ExportViewModel.kt:53-64 | `buildString` yields the header line followed by one line per exported expense, in order. There are at least n + 1 line feeds. |
| Export.CsvLineBreaks | app/src/main/java/com/nikhil/expensetracker/presentation/ui/export/ExportViewModel.kt:62 | Each line ends in a line feed. Without line feeds inside its fields it has exactly one. |
| Export.CsvLineCount | app/src/main/java/com/nikhil/expensetracker/presentation/ui/export/ExportViewModel.kt:53-64 | The document has at least n + 1 line feeds, and exactly n + 1 when no field holds one. |
| Export.CsvDocumentShape | app/src/main/java/com/nikhil/expensetracker/presentation/ui/export/ExportViewModel.kt:53-64 | The document starts with "Date,Category,Amount,Description\n" and ends with the last expense's line. |
| Export.TruncateDescription | app/src/main/java/com/nikhil/expensetracker/presentation/ui/export/ExportViewModel.kt:157 | A description over 30 characters (Unicode scalar values, see "## Left out") becomes its first 30 plus "...". Otherwise it is unchanged. The result never exceeds 33 characters. |
| Export.PdfRowOf | app/src/main/java/com/nikhil/expensetracker/presentation/ui/export/ExportViewModel.kt:147-157 | The category falls back to "Uncategorized". The description is truncated by TruncateDescription. |
| Export.PageCount | app/src/main/java/com/nikhil/expensetracker/presentation/ui/export/ExportViewModel.kt:101-145 | At least one page. For n > 0 it is the page of the last row: 1 for n ≤ 34, otherwise 1 + ⌈(n − 34)/35⌉. |
| Export.PlacementBounds | app/src/main/java/com/nikhil/expensetracker/presentation/ui/export/ExportViewModel.kt:127-160 | Every row is drawn at a y from 90 to 780, on page 1 or later. |
| Export.PlacementStep | app/src/main/java/com/nikhil/expensetracker/presentation/ui/export/ExportViewModel.kt:135-160 | The next row is 20 points lower on the same page, unless that would pass 780. In that case it goes at y = 90 on the next page. |
| Export.RowsPerPage | app/src/main/java/com/nikhil/expensetracker/presentation/ui/export/ExportViewModel.kt:127-160 | Page 1 holds rows 0..33. Page p ≥ 2 holds the 35 rows from 34 + 35(p − 2). |
| Export.LayoutRows | app/src/main/java/com/nikhil/expensetracker/presentation/ui/export/ExportViewModel.kt:135-164 | The `forEachIndexed` loop places each row where Placement says, and finishes with pageNumber = PageCount(n). The last progress it reports is 60, or the 30 it started from when there are no rows. |
| Export.RowProgress | app/src/main/java/com/nikhil/expensetracker/presentation/ui/export/ExportViewModel.kt:163 | The progress after each row lies in 30..60, and is 60 exactly after the last row. |
| Export.RowProgressClimbs | app/src/main/java/com/nikhil/expensetracker/presentation/ui/export/ExportViewModel.kt:163 | The progress never goes back from one row to the next. |
| Export.ProgressQuotient | app/src/main/java/com/nikhil/expensetracker/presentation/ui/export/ExportViewModel.kt:163 | k of n rows done give between 0 and 30 points, and all 30 exactly when k = n. |
| Export.PdfRows | app/src/main/java/com/nikhil/expensetracker/presentation/ui/export/ExportViewModel.kt:147-158 | One row per exported expense, in order. |
| Export.DateTimeTextFields | app/src/main/java/com/nikhil/expensetracker/presentation/ui/export/ExportViewModel.kt:147 | Within years 1 to 9999, the `yyyy-MM-dd HH:mm:ss` text is 19 characters: the day key, a space, and hour, minute and second as two digits each that read back as the clock fields. |
| Export.CsvLineFields | app/src/main/java/com/nikhil/expensetracker/presentation/ui/export/ExportViewModel.kt:56-62 | A CSV line opens with the expense's day key and a comma, and closes with the quoted description and a line feed. |
| Export.ExportViewModel.ExportToCsv | app/src/main/java/com/nikhil/expensetracker/presentation/ui/export/ExportViewModel.kt:37-80 | A failed fetch gives Error(message or "Export failed") at progress 0. Otherwise the content is the CSV document of the exported expenses. A failed write gives Error at progress 60. Success carries the path and the exported count, at progress 100. Both LiveData values are set from the first call on. |
| Export.ExportViewModel.ExportToPdf | app/src/main/java/com/nikhil/expensetracker/presentation/ui/export/ExportViewModel.kt:82-177 | A failed fetch gives Error(message or "Export failed") at progress 0. Otherwise the report holds the rows, their placements and the page count. A failed write gives Error at the loop's last progress: 60, or 30 with no rows. Success carries the path and the exported count, at progress 100. |
| Export.ExportViewModel.constructor | app/src/main/java/com/nikhil/expensetracker/presentation/ui/export/ExportViewModel.kt:31-35 | Neither LiveData has a value before the first export. |
| AddEditExpense.ValidAmount | app/src/main/java/com/nikhil/expensetracker/presentation/ui/expense/AddEditExpenseViewModel.kt:76-80 | An amount is accepted exactly when it parses and is positive. |
| AddEditExpense.AddEditExpenseViewModel.constructor | app/src/main/java/com/nikhil/expensetracker/presentation/ui/expense/AddEditExpenseViewModel.kt:33-40 | No category, today's date, not editing, id −1. Holds the loaded categories. |
| AddEditExpense.AddEditExpenseViewModel.LoadExpense | app/src/main/java/com/nikhil/expensetracker/presentation/ui/expense/AddEditExpenseViewModel.kt:42-70 | Id −1 changes nothing. A found expense sets edit mode, the id, the display model, the date and the category, then LoadedForEdit. A miss sets Error("Expense not found") and leaves edit mode as it was. |
| AddEditExpense.AddEditExpenseViewModel.ShowForEdit | app/src/main/java/com/nikhil/expensetracker/presentation/ui/expense/AddEditExpenseViewModel.kt:51-62 | The form takes the expense's values and enters edit mode. |
| AddEditExpense.AddEditExpenseViewModel.SaveExpense | app/src/main/java/com/nikhil/expensetracker/presentation/ui/expense/AddEditExpenseViewModel.kt:72-126 | An invalid amount gives Error("Please enter a valid amount") before any category check. Then no category gives Error("Please select a category"). In both cases no write happens. Otherwise edit mode updates with the stored id and insert mode adds with id 0, both with the selected date and category. The outcome is Success or Error(message or the mode's fallback). |
| AddEditExpense.AddEditExpenseViewModel.IsEditMode | app/src/main/java/com/nikhil/expensetracker/presentation/ui/expense/AddEditExpenseViewModel.kt:35 | Reports the edit-mode flag. |
| AddEditCategory.ColorPaletteRepeats | app/src/main/java/com/nikhil/expensetracker/presentation/ui/categories/AddEditCategoryViewModel.kt:128-144 | The palette has 20 colours, with "#FF5722" at both 0 and 15. The icon list has 12 entries ending in "ic_other". |
| AddEditCategory.AddEditCategoryViewModel.constructor | app/src/main/java/com/nikhil/expensetracker/presentation/ui/categories/AddEditCategoryViewModel.kt:35-42 | Colour "#6200EE", icon "ic_category_placeholder", not editing. |
| AddEditCategory.AddEditCategoryViewModel.LoadCategory | app/src/main/java/com/nikhil/expensetracker/presentation/ui/categories/AddEditCategoryViewModel.kt:44-68 | Id −1 changes nothing. A found category enters edit mode and copies its colour and icon. A miss gives Error("Category not found"). |
| AddEditCategory.AddEditCategoryViewModel.SaveCategory | app/src/main/java/com/nikhil/expensetracker/presentation/ui/categories/AddEditCategoryViewModel.kt:70-116 | A blank name gives Error("Please enter a category name") and no write. Otherwise the name saved is the trimmed, non-empty name, with the current colour and icon. Edit mode updates with the stored id and insert mode adds. |
| AddEditCategory.AddEditCategoryViewModel.SetSelectedColor | app/src/main/java/com/nikhil/expensetracker/presentation/ui/categories/AddEditCategoryViewModel.kt:118-120 | Replaces only the colour; the icon, UI state, edit mode, id and loaded category are unchanged. |
| AddEditCategory.AddEditCategoryViewModel.SetSelectedIcon | app/src/main/java/com/nikhil/expensetracker/presentation/ui/categories/AddEditCategoryViewModel.kt:122-124 | Replaces only the icon; the colour, UI state, edit mode, id and loaded category are unchanged. |
| StatisticsScreen.PeriodForTab | app/src/main/java/com/nikhil/expensetracker/presentation/ui/statistics/StatisticsFragment.kt:79-85 | Tabs 0..3 map to THIS_WEEK, THIS_MONTH, THIS_YEAR, LAST_30_DAYS. Any other position maps to THIS_MONTH. |
| StatisticsScreen.TabForPeriod | app/src/main/java/com/nikhil/expensetracker/presentation/ui/statistics/StatisticsFragment.kt:182-187 | The tab chosen for a period loads that period back. |
| StatisticsScreen.TabRoundTrip | app/src/main/java/com/nikhil/expensetracker/presentation/ui/statistics/StatisticsFragment.kt:182-187 | Round trip: marking a selected tab's period selects the same tab. |
| StatisticsScreen.Arrow | app/src/main/java/com/nikhil/expensetracker/presentation/ui/statistics/StatisticsFragment.kt:142-150 | "↑" exactly when the difference is positive, otherwise "↓". |
| StatisticsScreen.ComparisonLine | app/src/main/java/com/nikhil/expensetracker/presentation/ui/statistics/StatisticsFragment.kt:147-149 | The arrow, a space, the amount text, and the percentage in parentheses, ending in "%)". |
| StatisticsScreen.ComparisonText | app/src/main/java/com/nikhil/expensetracker/presentation/ui/statistics/StatisticsFragment.kt:141-153 | Red exactly for an increase, and the arrow is up exactly then. Without an increase the amount and percentage are the negated Doubles, so a zero shows as "-0.00" and "-0.0". |
| StatisticsScreen.FallText | app/src/main/java/com/nikhil/expensetracker/presentation/ui/statistics/StatisticsFragment.kt:148-149 | A fall shows the size of the drop in currency, then the negated percentage. |
| StatisticsScreen.EqualTotalsShowNegativeZero | app/src/main/java/com/nikhil/expensetracker/presentation/ui/statistics/StatisticsFragment.kt:148-149 | Equal totals, for instance both 0, show exactly "↓ ₹-0.00 (-0.0%)". |
| StatisticsScreen.ComparisonShowsMagnitudes | app/src/main/java/com/nikhil/expensetracker/presentation/ui/statistics/StatisticsFragment.kt:141-153 | The arrow is up exactly when current > previous. When the totals differ, and the previous total is positive or the total rose, the line shows the magnitudes of the difference and the percentage. A fall from a previous total that is not positive shows the percentage as "-" before the zero. |
| StatisticsScreen.TrendLines | app/src/main/java/com/nikhil/expensetracker/presentation/ui/statistics/StatisticsFragment.kt:172-174 | The last min(7, n) days, in their order. |
| StatisticsScreen.TrendText | app/src/main/java/com/nikhil/expensetracker/presentation/ui/statistics/StatisticsFragment.kt:169-179 | "No data available" exactly when the trend is empty. Otherwise the header, then the lines. |
| StatisticsScreen.TrendEndsWithLatestDay | app/src/main/java/com/nikhil/expensetracker/presentation/ui/statistics/StatisticsFragment.kt:172-174 | The last line is the trend's latest day. |
| StatisticsScreen.NoDataMessageVisible | app/src/main/java/com/nikhil/expensetracker/presentation/ui/statistics/StatisticsFragment.kt:159-166 | Visible exactly when every breakdown value is ≤ 0, which includes an empty breakdown. |
| StatisticsScreen.NoDataMessageMatchesChart | app/src/main/java/com/nikhil/expensetracker/presentation/ui/statistics/StatisticsFragment.kt:155-167 | When the message shows, the chart is empty. With no negative amounts, the converse also holds. |
| StatisticsScreen.StatisticsPanel.UpdatePeriodSelection | app/src/main/java/com/nikhil/expensetracker/presentation/ui/statistics/StatisticsFragment.kt:181-190 | Selects the tab of the period, whose period is that period. Every other text, flag and list is unchanged. |
| StatisticsScreen.StatisticsPanel.UpdateStatisticsUI | app/src/main/java/com/nikhil/expensetracker/presentation/ui/statistics/StatisticsFragment.kt:122-139 | Every text, the chart and the list show the given statistics; the comparison line is ComparisonText, negated zeros included. |
| StatisticsScreen.StatisticsPanel.UpdateComparisonUI | app/src/main/java/com/nikhil/expensetracker/presentation/ui/statistics/StatisticsFragment.kt:141-153 | Sets only the comparison line, ComparisonText with its negated zeros, and its colour; red exactly for an increase. Every other field is unchanged. |
| StatisticsScreen.StatisticsPanel.UpdateCategoryChart | app/src/main/java/com/nikhil/expensetracker/presentation/ui/statistics/StatisticsFragment.kt:155-167 | Sets only the chart and the no-data flag. When the flag is set, the chart is empty. |
| StatisticsScreen.StatisticsPanel.UpdateTrendChart | app/src/main/java/com/nikhil/expensetracker/presentation/ui/statistics/StatisticsFragment.kt:169-179 | Sets only the trend text. |
| StatisticsScreen.StatisticsPanel.constructor | app/src/main/java/com/nikhil/expensetracker/presentation/ui/statistics/StatisticsFragment.kt:75-93 | The first tab is selected, and the chart and the category list start empty. |
| StatisticsScreen.TrendLineFields | app/src/main/java/com/nikhil/expensetracker/presentation/ui/statistics/StatisticsFragment.kt:172-174 | A trend line is the date, ": ", and an amount that strips and parses back to the day's total rounded to paise. |
| StatisticsScreen.CountTextReadsBack | app/src/main/java/com/nikhil/expensetracker/presentation/ui/statistics/StatisticsFragment.kt:125 | The expense-count text is the count's numeral and " expenses"; the numeral reads back as the count. |
| PieChart.SliceAt | app/src/main/java/com/nikhil/expensetracker/presentation/utils/CustomPieChart.kt:64-71 | A slice keeps its label and amount. Its colour is `colors[index mod 10]`, with the index taken before filtering. Its percentage is the amount's share of the total (Shares.Percentage), positive (non-negative) exactly when the amount is. |
| PieChart.AllSlices | app/src/main/java/com/nikhil/expensetracker/presentation/utils/CustomPieChart.kt:64-71 | One slice per entry, in map order. |
| PieChart.ChartData | app/src/main/java/com/nikhil/expensetracker/presentation/utils/CustomPieChart.kt:56-75 | A total ≤ 0 gives no slices. Otherwise the slices whose percentage is positive, in order. |
| PieChart.ChartDataSlices | app/src/main/java/com/nikhil/expensetracker/presentation/utils/CustomPieChart.kt:64-72 | Every kept slice has a positive share and comes from an entry. Every entry with a positive amount is kept. |
| PieChart.FilteredSlices | app/src/main/java/com/nikhil/expensetracker/presentation/utils/CustomPieChart.kt:72 | Filtering keeps exactly the slices of entries with positive amounts. |
| PieChart.PercentagesSumTo100 | app/src/main/java/com/nikhil/expensetracker/presentation/utils/CustomPieChart.kt:56-72 | With no negative amounts, the kept percentages add up to exactly 100. |
| PieChart.FilterKeepsPercentSum | app/src/main/java/com/nikhil/expensetracker/presentation/utils/CustomPieChart.kt:72 | Dropping zero slices leaves the sum of shares unchanged. |
| PieChart.EmptyChart | app/src/main/java/com/nikhil/expensetracker/presentation/utils/CustomPieChart.kt:57-72 | All amounts ≤ 0 give an empty chart. With no negative amounts, an empty chart means all amounts are 0. |
| PieChart.ResolveDimension | app/src/main/java/com/nikhil/expensetracker/presentation/utils/CustomPieChart.kt:251-261 | EXACTLY gives the offered size. AT_MOST gives min(desired, size), never more than the size. Otherwise it gives the desired size. |
| PieChart.CustomPieChart.constructor | app/src/main/java/com/nikhil/expensetracker/presentation/utils/CustomPieChart.kt:19 | Starts with no slices and nothing measured. |
| PieChart.CustomPieChart.SetData | app/src/main/java/com/nikhil/expensetracker/presentation/utils/CustomPieChart.kt:56-75 | Stores the chart data of the breakdown and keeps the measured size. |
| PieChart.CustomPieChart.OnMeasure | app/src/main/java/com/nikhil/expensetracker/presentation/utils/CustomPieChart.kt:243-264 | Measures 600 × 500 by the rule of ResolveDimension and keeps the data. |
| Shares.Percentage | app/src/main/java/com/nikhil/expensetracker/presentation/adapters/CategoryStatsAdapter.kt:47-51 | With a positive total, the percentage times the total is amount × 100. Otherwise it is 0. |
| CategoryStats.TruncateToInt | app/src/main/java/com/nikhil/expensetracker/presentation/adapters/CategoryStatsAdapter.kt:55 | `toInt()` truncates toward zero. |
| CategoryStats.CategoryStatsAdapter.constructor | app/src/main/java/com/nikhil/expensetracker/presentation/adapters/CategoryStatsAdapter.kt:13-14 | Starts with no rows and a total of 0. |
| CategoryStats.CategoryStatsAdapter.SubmitList | app/src/main/java/com/nikhil/expensetracker/presentation/adapters/CategoryStatsAdapter.kt:16-20 | Stores the list. The total is the sum of its amounts. |
| CategoryStats.CategoryStatsAdapter.ItemCount | app/src/main/java/com/nikhil/expensetracker/presentation/adapters/CategoryStatsAdapter.kt:35 | The number of rows is the list's size. |
| CategoryStats.CategoryStatsAdapter.Bind | app/src/main/java/com/nikhil/expensetracker/presentation/adapters/CategoryStatsAdapter.kt:41-57 | The row shows the name and amount. The percentage text reads back as the percentage rounded to one decimal, followed by '%'. The bar is the truncated percentage. |
| CategoryStats.Percentages | app/src/main/java/com/nikhil/expensetracker/presentation/adapters/CategoryStatsAdapter.kt:47-51 | Each row's percentage relative to the list's own total, under its name. |
| Shares.SharesOf | app/src/main/java/com/nikhil/expensetracker/presentation/utils/CustomPieChart.kt:63-64 | Each entry's share of the total, under its own key, in order. |
| Shares.SharesSumTo100 | app/src/main/java/com/nikhil/expensetracker/presentation/adapters/CategoryStatsAdapter.kt:47-51 | With a positive total, the shares of all entries add up to exactly 100. |
| Shares.SharesPrefix | app/src/main/java/com/nikhil/expensetracker/presentation/utils/CustomPieChart.kt:56-64 | The shares of the first k entries add up to those entries' part of the total, in percent. |
| CategoryStats.PercentagesSumTo100 | app/src/main/java/com/nikhil/expensetracker/presentation/adapters/CategoryStatsAdapter.kt:16-51 | With a positive total, the percentages of the listed rows add up to exactly 100. |
| CategoryStats.RowBounds | app/src/main/java/com/nikhil/expensetracker/presentation/adapters/CategoryStatsAdapter.kt:16-55 | With no negative amounts, each percentage and each bar lies in [0, 100]. |
| CategoryStats.ZeroTotalRows | app/src/main/java/com/nikhil/expensetracker/presentation/adapters/CategoryStatsAdapter.kt:47-55 | With no positive total, every row shows 0.0% and an empty bar. |
| Numerals.ParseDecimal | app/src/main/java/com/nikhil/expensetracker/presentation/ui/expense/AddEditExpenseViewModel.kt:76 | `toDoubleOrNull` of text that is empty or all padding (characters up to U+0020) is null. |
| Numerals.ParseDecimalSkipsPadding | app/src/main/java/com/nikhil/expensetracker/presentation/ui/expense/AddEditExpenseViewModel.kt:76 | A padding character before or after the text does not change what it parses to. |
| Numerals.ParseDecimalTypeSuffix | app/src/main/java/com/nikhil/expensetracker/presentation/ui/expense/AddEditExpenseViewModel.kt:76 | A numeral followed by one of f, F, d, D parses as the numeral does. |
| Numerals.ParseDecimalPlain | app/src/main/java/com/nikhil/expensetracker/presentation/ui/expense/AddEditExpenseViewModel.kt:76 | Text without padding or type suffix parses as an optionally signed ('+' or '-') decimal. |
| Numerals.TrimPaddingStartSpec | app/src/main/java/com/nikhil/expensetracker/presentation/ui/expense/AddEditExpenseViewModel.kt:76 | The leading padding is dropped and nothing else: the rest is a suffix that does not open with padding. |
| Numerals.TrimPaddingEndSpec | app/src/main/java/com/nikhil/expensetracker/presentation/ui/expense/AddEditExpenseViewModel.kt:76 | The trailing padding is dropped and nothing else: the rest is a prefix that does not close with padding. |
| Numerals.FormatFixed2 | app/src/main/java/com/nikhil/expensetracker/presentation/utils/Extensions.kt:21 | `"%.2f"` output holds only digits, '-' and one '.', and never a ','. |
| Numerals.FormatFixed1 | app/src/main/java/com/nikhil/expensetracker/presentation/adapters/CategoryStatsAdapter.kt:52 | `"%.1f"` output has exactly one digit after its '.'. It starts with '-' exactly when the value is negative. |
| Numerals.FormatFixed2Negated | app/src/main/java/com/nikhil/expensetracker/presentation/ui/statistics/StatisticsFragment.kt:149 | `"%.2f"` of the Double `-a` starts with '-' exactly when a ≥ 0, since negating 0.0 gives -0.0. For a ≠ 0 it is the numeral of -a. |
| Numerals.FormatFixed1Negated | app/src/main/java/com/nikhil/expensetracker/presentation/ui/statistics/StatisticsFragment.kt:149 | `"%.1f"` of the Double `-a` starts with '-' exactly when a ≥ 0. For a ≠ 0 it is the numeral of -a. |
| Numerals.MinusZero2 | app/src/main/java/com/nikhil/expensetracker/presentation/ui/statistics/StatisticsFragment.kt:149 | The printed negative zero "-0.00" reads back as 0. |
| Numerals.MinusZero1 | app/src/main/java/com/nikhil/expensetracker/presentation/ui/statistics/StatisticsFragment.kt:149 | The printed negative zero "-0.0" reads back as 0. |
| Numerals.RoundHalfUp1 | app/src/main/java/com/nikhil/expensetracker/presentation/adapters/CategoryStatsAdapter.kt:52 | The displayed value lies within 0.05 of the percentage. |
| Numerals.NatToString | app/src/main/java/com/nikhil/expensetracker/presentation/ui/expense/ExpenseListFragment.kt:225 | `toString()` of a count is a non-empty run of digits, with no leading zero except for 0 itself. |
| CivilTime.DateOf | app/src/main/java/com/nikhil/expensetracker/presentation/ui/statistics/StatisticsViewModel.kt:190-191 | Every instant falls on a valid calendar date. |
| CivilTime.CivilDateExists | app/src/main/java/com/nikhil/expensetracker/presentation/ui/statistics/StatisticsViewModel.kt:190-191 | Every day number is the number of some valid date. |
| CivilTime.DayNumberInjective | app/src/main/java/com/nikhil/expensetracker/presentation/ui/statistics/StatisticsViewModel.kt:190-191 | No two valid dates share a day number. |
| CivilTime.YearStartMonotone | app/src/main/java/com/nikhil/expensetracker/presentation/ui/statistics/StatisticsViewModel.kt:129-137 | Each year starts after the whole of every earlier year. |
| Calendars.Calendar.Date | app/src/main/java/com/nikhil/expensetracker/presentation/ui/statistics/StatisticsViewModel.kt:190 | The calendar's date fields form a valid date with the calendar's day number. |
| Calendars.Calendar.DayOfWeekField | app/src/main/java/com/nikhil/expensetracker/presentation/ui/statistics/StatisticsViewModel.kt:81 | `get(DAY_OF_WEEK)` is in SUNDAY..SATURDAY. |
| Entities.MessageOr | app/src/main/java/com/nikhil/expensetracker/presentation/ui/expense/AddEditExpenseViewModel.kt:101-103 | `exception.message ?: fallback`: the message when there is one, otherwise the fallback. |
| DateFormats.MonthAbbreviation | app/src/main/java/com/nikhil/expensetracker/presentation/ui/expense/ExpenseListViewModel.kt:185 | The `MMM` field has 3 letters. |
| DateFormats.DayMonthYearFields | app/src/main/java/com/nikhil/expensetracker/presentation/utils/Extensions.kt:25 | Within years 1 to 9999, `dd MMM yyyy` is 11 characters whose fields read back as the day, the month's abbreviation and the year. |
| DateFormats.MonthDayYearFields | app/src/main/java/com/nikhil/expensetracker/presentation/ui/expense/ExpenseListViewModel.kt:185-187 | Within years 1 to 9999, `MMM dd, yyyy` is 12 characters whose fields read back as the month's abbreviation, the day and the year. |
| Statistics.DayItems | app/src/main/java/com/nikhil/expensetracker/presentation/ui/statistics/StatisticsViewModel.kt:189-193 | Each expense contributes its day key and its amount, in order. |
| Statistics.AsDailyExpenses | app/src/main/java/com/nikhil/expensetracker/presentation/ui/statistics/StatisticsViewModel.kt:195-196 | Each map entry becomes a DailyExpense with the same date and amount, in map order. |
| ExpenseList.UiModels | app/src/main/java/com/nikhil/expensetracker/presentation/ui/expense/ExpenseListViewModel.kt:147 | The shown list holds each filtered item's display model, in order. |
| Text.TrimStart | app/src/main/java/com/nikhil/expensetracker/presentation/ui/categories/AddEditCategoryViewModel.kt:74 | Drops exactly the leading whitespace. A result that is not empty starts with a non-space. |
| Text.TrimEnd | app/src/main/java/com/nikhil/expensetracker/presentation/ui/categories/AddEditCategoryViewModel.kt:74 | Drops exactly the trailing whitespace. A result that is not empty ends with a non-space. |
| Text.StrLeTransitive | app/src/main/java/com/nikhil/expensetracker/presentation/ui/expense/ExpenseListViewModel.kt:143 | The non-strict string order is transitive. |
| StableSort.KeyOrdersArePreorders | app/src/main/java/com/nikhil/expensetracker/presentation/ui/expense/ExpenseListViewModel.kt:135-142 | Ascending and descending orders on number keys are total preorders, so the date and amount sorts are well defined. |
| PeriodRanges.NextMonthStart | app/src/main/java/com/nikhil/expensetracker/presentation/ui/statistics/StatisticsViewModel.kt:119-120 | Adding one month to the 1st gives the next month's 1st, exactly as many days later as the month is long. |
| Export.CsvDocumentStartsWithHeader | app/src/main/java/com/nikhil/expensetracker/presentation/ui/export/ExportViewModel.kt:54 | Every document starts with the header line. |
| PieChart.AllSlicesSum | app/src/main/java/com/nikhil/expensetracker/presentation/utils/CustomPieChart.kt:64-71 | Before filtering, the slices' percentages add up to exactly 100. |
| PieChart.ShownSlicesSum | app/src/main/java/com/nikhil/expensetracker/presentation/utils/CustomPieChart.kt:64-72 | With no negative amounts, the filtered slices' percentages still add up to exactly 100. |
| Grouping.TotalBoundsEntry | app/src/main/java/com/nikhil/expensetracker/presentation/adapters/CategoryStatsAdapter.kt:18 | With no negative amounts, every amount lies between 0 and the total. |
| Grouping.TotalNonNegative | app/src/main/java/com/nikhil/expensetracker/presentation/adapters/CategoryStatsAdapter.kt:18 | With no negative amounts, the total is not negative. |
| Grouping.TotalNonPositive | app/src/main/java/com/nikhil/expensetracker/presentation/utils/CustomPieChart.kt:56-58 | With no positive amount, the total is not positive. |
| Shares.ShareBounds | app/src/main/java/com/nikhil/expensetracker/presentation/adapters/CategoryStatsAdapter.kt:47-51 | A share of a total it does not exceed is a percentage from 0 to 100. |

## Left out

- Room, the DAOs and the repositories are not part of this model. Each repository answer is a parameter: a value or a thrown exception with an optional message.
- Coroutines, Flow and LiveData are not modelled. Each Flow emission is one method call, each LiveData is a plain field, and transient `Loading` states set in between are not observable.
- The clock is read once per operation as the parameter `now`. Where the source reads it twice (`Calendar.getInstance()` and `System.currentTimeMillis()` in one call), both reads are taken to give the same instant.
- Time zones and daylight saving are left out: one fixed zone with 24-hour days. The Julian calendar before 1582 is also left out; the calendar is proleptic Gregorian.
- `Locale` is left out: `"%.2f"` and `"%.1f"` always use '.' as the decimal separator, and month names are the English abbreviations.
- Double and Float arithmetic are modelled as exact `real`. This covers the `-0.0` display of tiny negative amounts and the pie chart's Float percentages and sweep angles. The one signed zero the model keeps is the negation of a zero on the statistics screen's comparison line (FormatFixed2Negated, FormatFixed1Negated). A total that is itself -0.0 is not modelled.
- Export.RowProgress: the per-row progress of the PDF loop (ExportViewModel.kt:163) is computed exactly, as 30 + ⌊30(k + 1)/n⌋. The source divides in Float, which can land one point lower on intermediate rows. The last row's 60 is exact in both.
- Long overflow is left out; instants and ids are unbounded integers.
- Numerals.ParseDecimal: `toDoubleOrNull`/`toDouble` are modelled on decimal numerals: padding (characters up to U+0020) at either end, an optional '+' or '-', digits with an optional point, and an optional f/F/d/D suffix. Exponents, "NaN", "Infinity" and hexadecimal forms are not modelled; the model answers None for them where Kotlin gives a number.
- Text.ContainsIgnoreCase: case folding covers the ASCII letters only. Kotlin's `contains(ignoreCase = true)` compares through `uppercaseChar()`/`lowercaseChar()` over all of Unicode, so a search for "café" finds "CAFÉ" in the app but not in the model.
- `Double.toString` (the CSV amount, the PDF amount and the dashboard slot amount) is a parameter `amountText`, because its shortest-representation algorithm is not modelled.
- File, PDF canvas and share I/O are left out: file names, paths, the PDF drawing calls and the page-finishing calls. The written file's path is the parameter `written`.
- CSV quoting follows the source: embedded double quotes are not doubled, and lines end in LF. This is not RFC 4180 section 2.
- String order is modelled on characters. Kotlin compares UTF-16 code units, which differs only for characters outside the Basic Multilingual Plane.
- Export.TruncateDescription: the 30-character limit and the cut count Unicode scalar values (Dafny `char`s), not the UTF-16 code units that Kotlin's `length` and `substring(0, 30)` count. A description with characters outside the Basic Multilingual Plane is therefore cut later than in the app, or not at all: 16 emoji are 32 code units, which the app cuts to 15 emoji plus "...", while the model keeps all 16. A cut through the middle of a surrogate pair, which the app can produce, cannot be represented. Export.PdfRowOf inherits this.
- Views are not modelled: drawing, text sizes and spans, `Color.parseColor`, the packing of `MeasureSpec` into one int, and toasts.
- Calling `loadStatistics` again when `updatePeriodSelection` selects a tab is not modelled: that is the tab listener's own callback.
- The catch branches of `loadExpense` (AddEditExpenseViewModel.kt:66-68) and `loadCategory` (AddEditCategoryViewModel.kt:64-66) are not modelled. The lookup use cases catch every exception and answer null, so a failed lookup reaches the "not found" branch, as the model has it.
- The outer catch branches of `saveExpense` (AddEditExpenseViewModel.kt:122-124) and `saveCategory` (AddEditCategoryViewModel.kt:112-114) are not modelled. The add and update use cases return a Result instead of throwing, and that Result's failure is modelled.
- The catch branch of the dashboard's `deleteExpense` (DashboardViewModel.kt:61-64) is not modelled, because the delete use case returns a Result. That Result is the parameter `deleted`.
- AddEditExpense.AddEditExpenseViewModel.SaveExpense: the `createdAt` field the entity's default argument fills from the clock is the parameter `now`.
- ExpenseList.ExpenseListViewModel.DeleteExpense: the `createdAt` field of the rebuilt entity is the parameter `createdAt`, since the source leaves it to the clock.
- Dashboard.DashboardViewModel.DeleteExpense: the `createdAt` field of the placeholder entity is the parameter `createdAt`, since the entity's default argument reads the clock (Expense.kt:14).
- The initial visibility of the dashboard panel's groups and the statistics tab comes from layout files, which are not part of this model. The constructors of `DashboardScreen.CategoryPanel` and `StatisticsScreen.StatisticsPanel` start from the state the code's own empty case produces.
- Dashboard.DashboardViewModel.LoadDashboardData: it states the range's start and length rather than naming GetCurrentMonthRange's result. The end is the start plus (days in month − 1) days, which is the same range.
- CategoryStats.CategoryStatsAdapter.Bind: it states the percentage text by reading it back (rounded to one decimal) rather than character by character.
- The category statistics percentages are relative to the submitted list, which is the top 5, not to all categories. This follows the source and is not a gap.
- A category literally named "All" is indistinguishable from the "All" chip in the filter adapter (`CategoryFilter.CategoryNamedAllClearsFilter`). This follows the source.

## Findings

| source | as written | input that shows it | evidently intended | confidence | as-written member | corrected member |
|---|---|---|---|---|---|---|
| app/src/main/java/com/nikhil/expensetracker/presentation/ui/dashboard/DashboardFragment.kt:368 | The dashboard slot appends the three characters U+00E2 U+201A U+00B9 (the UTF-8 bytes of '₹' read as Windows-1252) before the amount. | Any shown category, e.g. name "Food" with amount text "120.0": the slot reads "Food\nâ‚¹120.0". | "₹" followed by the amount, as `toCurrency` writes every other amount in the app. | not executed | DashboardScreen.SlotTextAsWrittenLacksRupee | DashboardScreen.SlotAmountStrips |
