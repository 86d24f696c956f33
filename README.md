# Expense dashboard pipeline — a Dafny model

`expense_app.py` is a Streamlit dashboard for monthly expenses. It works in these steps:

1. It reads the expense files of the current month and, optionally, of past months, and lower-cases their column names. It then concatenates the files of each uploader.
2. It rejects a current table that has nulls outside `description` and `satisfaction`.
3. It cleans both tables:
   - in both tables, amounts such as `10,000원` become integers, dates are parsed and categories are trimmed;
   - the past table is loose: an unparsed date becomes missing and an unconvertible amount becomes 0;
   - in the current table only, descriptions are trimmed and a missing one becomes `-`;
   - in the current table only, the text flags `True` and `False` in `essential` become booleans;
   - the current table is sorted by date.
4. It filters the current rows by the months and categories ticked in the sidebar.
5. From the filtered rows it computes:
   - the total, the budget gap and its label, the averages;
   - the essential/non-essential split and its rates, and the top category;
   - the satisfaction summary and the regret and value lists;
   - the category breakdown;
   - the month-by-month trend, which also includes the past rows.
6. `generate_monthly_report` gathers these values into the downloadable monthly report.

The model follows those stages module by module:

| module | file | stage |
|---|---|---|
| `Wrappers` | wrappers.dfy | `Option`, `Result` |
| `Strings` | strings.dfy | `lower`, `strip`, `replace`, integer conversion |
| `Sorting` | sorting.dfy | sort by key, first-k (`nlargest`) |
| `Grouping` | grouping.dfy | `groupby(key)['amount'].sum()` |
| `Frames` | frames.dfy | uploads, header lower-casing, concatenation |
| `Validation` | validation.dfy | the null check |
| `Normalize` | normalize.dfy | cleaning of the current and the past table |
| `Aggregate` | aggregate.dfy | filter and headline metrics |
| `Rankings` | rankings.dfy | satisfaction, regret/value lists, breakdown, trend |
| `Report` | report.dfy | `generate_monthly_report` |
| `Dashboard` | dashboard.dfy | the stages chained in script order |

Data layout in the model:
- A file that was read is a header plus rows of cells.
- A cell is null, an integer, a text, a boolean, or a date the parser recognised.
- The merged table maps column names to cells. A column missing from a row reads as null, which is what `pd.concat` does.
- The cleaned current table is a sequence of `Expense` records with optional description, essential flag and satisfaction, plus flags saying which optional columns exist.
- Amounts are unbounded integers. Rates and averages are exact reals.

Where the script stops (`st.stop()` or an exception), the model returns `Err` with a `Failure` naming the cause.

Loops in the script are methods with loop invariants. Each is proved equal to the function that specifies it:
- reading the upload lists;
- the category and top-5 loops of the report;
- the regret/value bullet loops;
- the category breakdown loop.

Whole-column pandas expressions are functions.

## Model

| member | source | states |
|---|---|---|
| Strings.Lower | expense_app.py:135 | A lower-cased column name has the same length and no upper-case ASCII letter; each character is kept or mapped to its lower-case letter |
| Strings.LowerIgnoresCase | expense_app.py:159 | Names that differ only in letter case (`Date`, `DATE`) become the same column name |
| Strings.Trim | expense_app.py:194 | The stripped text neither starts nor ends with a whitespace character, and the input is that text with all-whitespace padding before and after it |
| Strings.TrimIgnoresPadding | expense_app.py:148 | Whitespace added before and after a text does not change what `strip` returns |
| Strings.TrimIdempotent | expense_app.py:195 | Stripping twice is the same as stripping once |
| Strings.Remove | expense_app.py:146 | `replace(c, '')` leaves no `c` in the text and changes nothing when there is none |
| Strings.RemoveKeepsOthers | expense_app.py:191 | Removing one character keeps every other character as many times as it occurred |
| Strings.CleanAmountText | expense_app.py:190-191 | The cleaned amount text is the input with every `,` and then every `원` removed; it holds neither, and a text without them is unchanged |
| Strings.CleanAmountConcat | expense_app.py:190-191 | Cleaning a concatenation is cleaning each piece, keeping their order |
| Strings.CleanAmountChar | expense_app.py:190-191 | A single `,` or `원` cleans to nothing; any other character is kept |
| Strings.CleanWonAmount | expense_app.py:190-192 | `5000원`-style text cleans to its digits and converts to their value |
| Strings.CleanTwiceSeparatedAmount | expense_app.py:190-191 | `1,000,000원`-style text with two separators cleans to its bare digits |
| Strings.ParseInt | expense_app.py:192 | Conversion succeeds exactly for an optional sign followed by at least one digit |
| Strings.ParseShowInt | expense_app.py:192 | Converting the decimal text of any integer gives that integer back |
| Strings.CleanSeparatedAmount | expense_app.py:190-192 | `a,b원` with digit groups `a` and `b` cleans to `ab` and converts to the number `ab` |
| Sorting.SortBy | expense_app.py:188 | The result is a permutation of the input, ordered by the key |
| Sorting.FirstBy | expense_app.py:67 | The first `k` in key order: `min(k, n)` elements, key-ordered, taken from the input |
| Sorting.FirstByOmitted | expense_app.py:67 | No element left out of the first `k` has a smaller key than one kept |
| Grouping.Grouped | expense_app.py:52 | One entry per distinct key present; each carries its key's sum; every input key is covered; the sums add up to the grand total |
| Grouping.GroupedTotal | expense_app.py:53 | The per-key sums add up to the total of all entries |
| Grouping.GroupingPermutation | expense_app.py:336 | Reordering a grouping (`sort_values`) keeps it a grouping of the same rows |
| Grouping.MaxEntry | expense_app.py:270 | `idxmax`: the returned entry is in the grouping and no entry has a larger amount |
| Frames.LowerHeader | expense_app.py:135 | Every header name is lower-cased, position by position; the rows are unchanged |
| Frames.RowOf | expense_app.py:165 | A row maps only header names to cells; each name whose first occurrence has a cell maps to that cell |
| Frames.Concat | expense_app.py:165 | The merged columns are distinct and are exactly the union of the files' headers; the row count is the sum of the files' row counts; the rows are the files' rows in upload order |
| Frames.ConcatContainsRow | expense_app.py:165 | Row `j` of file `k` is row `RowCount(files before k) + j` of the merged table, keyed by its own file's header: files in upload order, each row exactly once |
| Frames.ReadUploads | expense_app.py:152-162 | The loop keeps the readable files in order with lower-case headers and reports the others by name; every file lands in exactly one of the two lists |
| Frames.LoadCurrent | expense_app.py:151-170 | No upload stops with the upload hint; uploads that cannot be read stop; otherwise the result is the concatenation of the readable files |
| Frames.LoadPast | expense_app.py:126-141 | There is a past table exactly when some past file could be read, and it is the concatenation of the readable past files |
| Frames.ReadableWhenSomeFileReads | expense_app.py:164-167 | One readable current file is enough for loading to succeed |
| Validation.InvalidAmong | expense_app.py:176-177 | A column is listed exactly when it holds a null and is neither `description` nor `satisfaction` |
| Validation.InvalidNullColumns | expense_app.py:176-177 | A column is listed exactly when the table has it, it holds a null, and it is neither `description` nor `satisfaction` |
| Validation.Validate | expense_app.py:179-181 | The table passes unchanged, or the script stops with a non-empty list of columns |
| Validation.ValidateExactly | expense_app.py:175-181 | Rejection happens exactly when some non-optional column holds a null, and the message lists exactly those columns |
| Validation.ValidatedHasValues | expense_app.py:175-181 | In a table that passes, every non-optional column has a value in every row |
| Validation.PartialColumnRejected | expense_app.py:175-181 | A non-optional column that one file has and another non-empty file lacks makes the merged table fail, naming that column |
| Normalize.DateKeyOrder | expense_app.py:188 | The date sort key orders dates chronologically, in both directions |
| Normalize.DateOf | expense_app.py:142 | A date is present exactly when the cell parsed, and it is the parsed date |
| Normalize.AmountOf | expense_app.py:145-147 | In a text column, an amount exists exactly for a text cell whose cleaned text is an integer; in a numeric column, exactly for a number, which is kept |
| Normalize.AmountOfShownInt | expense_app.py:190-192 | The decimal text of an integer, with or without the `원` sign, converts back to that integer |
| Normalize.CategoryOf | expense_app.py:194 | A category exists exactly for a text cell; it is that text without its whitespace padding |
| Normalize.DescriptionOf | expense_app.py:195 | A null becomes `-`, a text is stripped, and any other value becomes missing (NaN) |
| Normalize.EssentialOf | expense_app.py:197-198 | The flag is true exactly for `True`, `"True"` or 1, and false exactly for `False`, `"False"` or 0 |
| Normalize.ScoreOf | expense_app.py:305-309 | A score exists exactly for a numeric cell, and it is that number |
| Normalize.CleanRow | expense_app.py:186-198 | A row converts exactly when its date parsed, its category is text and its amount converts; the result is that row cleaned column by column |
| Normalize.Records | expense_app.py:186-198 | Cleaning succeeds exactly when every required column exists and every value converts; each record is its row cleaned; a missing column is reported by name |
| Normalize.NormalizeCurrent | expense_app.py:186-198 | On success: the rows are a permutation of the cleaned records, sorted by date, and the optional-column flags match the header; on failure, the first failing step's error |
| Normalize.SeparatedAmountCleaned | expense_app.py:190-192 | A cell `a,b원` in the current table becomes the integer `ab` |
| Normalize.UnparsedAmountRejected | expense_app.py:190-192 | A text amount that is not an integer after cleaning stops the current table with the amount error |
| Normalize.CategoryTrimmed | expense_app.py:194 | Each cleaned category is its cell stripped, with no whitespace at either end |
| Normalize.DescriptionFilled | expense_app.py:195 | A null description becomes `-` |
| Normalize.FlagConverted | expense_app.py:197-198 | `"True"`/`"False"` in `essential` become true/false; without the column there is no flag |
| Normalize.PastRow | expense_app.py:142-148 | A past row keeps its parsed date and has none when parsing failed; a convertible amount keeps its value and an unconvertible one becomes 0; a text category is stripped, and anything else is missing |
| Normalize.NormalizePast | expense_app.py:142-148 | The past table fails only on a missing column or a non-text category column; otherwise it cleans every row |
| Normalize.PastUnparsedAmountIsZero | expense_app.py:145-147 | An amount text that stops the current table becomes 0 in the past table |
| Normalize.PastSeparatedAmountCleaned | expense_app.py:145-147 | A past amount `a,b원` becomes the integer `ab`, as in the current table |
| Aggregate.Where | expense_app.py:260 | A boolean mask keeps only rows that satisfy it |
| Aggregate.WhereCounts | expense_app.py:260-261 | A boolean mask keeps every copy of each satisfying row and no other row |
| Aggregate.Filter | expense_app.py:239-243 | Every kept row has a selected month and a selected category; no row is added |
| Aggregate.FilterExactly | expense_app.py:239-243 | The filter keeps exactly the selected rows, each as often as it occurs |
| Aggregate.Select | expense_app.py:239-249 | With both selections non-empty the rows are filtered and the column flags kept; no month stops first, then no category |
| Aggregate.ObservedMonths | expense_app.py:217 | The month choices are exactly the months present, strictly increasing |
| Aggregate.ObservedCategories | expense_app.py:228 | The category choices are exactly the categories present, each once |
| Aggregate.DefaultSelection | expense_app.py:217-233 | With all months and all categories ticked every row is selected; both lists are non-empty exactly when there are rows |
| Aggregate.DefaultSelectionKeepsAll | expense_app.py:217-243 | With all months and all categories ticked, the filter keeps the whole table |
| Aggregate.EmptyTableStops | expense_app.py:244-246 | An empty table offers no month, so the script stops at the month warning |
| Aggregate.MonthlyAverage | expense_app.py:256 | The monthly average times the number of months is the total; it is 0 for no months |
| Aggregate.RowAverage | expense_app.py:257 | The row average is the mean truncated toward zero, and 0 for no rows |
| Aggregate.WasteRate | expense_app.py:262 | The waste rate times a positive total is the waste amount ×100; it is 0 for a non-positive total; for a waste between 0 and the total it lies between 0 and 100 |
| Aggregate.EssentialSplit | expense_app.py:259-268 | Without the column: the total, 0, 100 and 0. With it: the sums of the rows flagged true and false. The waste rate is the `WasteRate` of the waste and the total. The two rates add up to 100 |
| Aggregate.SplitCoversFlagged | expense_app.py:259-261 | Essential plus waste equals the sum over rows flagged either way, and is the whole total when every row is flagged |
| Aggregate.RatesArePercentages | expense_app.py:262-263 | With non-negative amounts both rates lie between 0 and 100 |
| Aggregate.TopCategory | expense_app.py:270 | For no rows it is `-`; otherwise it is a category present whose sum is at least every other category's sum |
| Aggregate.Status | expense_app.py:24 | The label is `여유` exactly when the budget difference is not negative |
| Aggregate.Summarize | expense_app.py:254-271 | The total is the sum of the filtered rows and the budget gap is budget minus that total. The averages, the essential split and the top category are those of the filtered rows and the ticked months. The label is `여유` exactly when the total is within budget |
| Aggregate.SummaryConsistent | expense_app.py:254-271 | With non-negative amounts both rates of the summary are percentages, and with every row flagged the essential and non-essential amounts make up the total |
| Rankings.Scored | expense_app.py:307 | Only rows with a score remain, and none when the column is absent |
| Rankings.ScoreCounts | expense_app.py:310 | One count per score present, in strictly ascending score order; the counts add up to the number of scored rows |
| Rankings.Mean | expense_app.py:309 | The mean times the row count is the sum of the scores |
| Rankings.MeanWithinScale | expense_app.py:309 | The mean lies between any lower and upper bound of the scores |
| Rankings.SatisfactionSummary | expense_app.py:305-312 | There is a summary exactly when some scored row remains; it holds the mean and the counts |
| Rankings.SummaryPresent | expense_app.py:305-308 | There is a summary exactly when the column exists and some filtered row has a score |
| Rankings.LargestThree | expense_app.py:320 | At most three qualifying rows, `min(3, qualifying)` of them when the column exists, largest amount first |
| Rankings.LargestThreeTop | expense_app.py:320-327 | The list is taken from the rows, and no qualifying row left off has a larger amount than a listed row |
| Rankings.Regrets | expense_app.py:320 | At most three rows, each scored at most 2, in non-increasing amount order |
| Rankings.Worthy | expense_app.py:327 | At most three rows, each scored at least 4, in non-increasing amount order |
| Rankings.RegretsAreLargest | expense_app.py:320-325 | Regret rows come from the table; no omitted regretted row is larger; the list is empty only when no row scored 1-2 |
| Rankings.WorthyAreLargest | expense_app.py:327-332 | The same for rows scored 4 or more |
| Rankings.DescribeItems | expense_app.py:321-332 | No rows leave the text at "없음"; otherwise there is one bullet per row, in order |
| Rankings.CategoryRanking | expense_app.py:336 | A grouping by category in non-increasing amount order, adding up to the filtered total |
| Rankings.RankingSums | expense_app.py:336 | Each entry is its category's sum, and the first entry's sum is the largest |
| Rankings.CategoryBreakdown | expense_app.py:334-338 | No rows give an empty text; otherwise the text is the breakdown lines of the category ranking, in ranking order, and is not empty |
| Rankings.WriteEntries | expense_app.py:337-338 | The loop appends one `- category: amount원` line per ranking entry, in order, and ends with the breakdown text of the whole ranking |
| Rankings.BreakdownText | expense_app.py:337-338 | The breakdown text is empty exactly when the ranking is |
| Rankings.PastEntries | expense_app.py:449-453 | One trend entry per selected past row, in order, holding that row's month and amount; each entry comes from a dated past row in a selected category |
| Rankings.PastEntriesInclude | expense_app.py:449-453 | Every dated past row in a selected category reaches the trend |
| Rankings.MonthlyTrend | expense_app.py:447-456 | Nothing for no filtered rows. Otherwise a grouping by month of the filtered rows plus the selected past rows, strictly in month order, adding up to the filtered total plus the past rows' total |
| Rankings.PastSelected | expense_app.py:449-452 | Only dated past rows in a selected category remain |
| Rankings.PastSelectedCounts | expense_app.py:449-452 | The past selection keeps every copy of each qualifying past row and no other row |
| Rankings.PastMonthShowsTrend | expense_app.py:456-458 | A dated past row in a selected category whose month differs from a filtered row's month gives at least two months, so the line chart is drawn |
| Report.Share | expense_app.py:55 | The percentage times the total is amount×100, and it is 0 when the total is not positive |
| Report.Shares | expense_app.py:51-56 | One line per ranked category, with its amount and its share of the sum of all entries |
| Report.PercentagesAddUp | expense_app.py:53-55 | With a positive total the percentages add up to 100 |
| Report.PercentagesBounded | expense_app.py:55 | Each percentage of an amount between 0 and the total lies between 0 and 100 |
| Report.CategoryTotalsBounded | expense_app.py:52-53 | With non-negative amounts the category total is the filtered total, and each category lies between 0 and that total |
| Report.TopFive | expense_app.py:67 | `min(5, n)` rows, in non-increasing amount order |
| Report.TopFiveLargest | expense_app.py:67 | The top five come from the rows, and no row left out has a larger amount |
| Report.TopLineOf | expense_app.py:69-72 | The line shows the row's date, category and amount. A present description is shown and a missing one prints as `-`. The score is shown exactly when the column and the value exist |
| Report.TopLinesOf | expense_app.py:68-72 | One table line per top row, in order |
| Report.TopLines | expense_app.py:67-72 | At most five lines, in non-increasing amount order |
| Report.Insights | expense_app.py:74-75 | The AI section appears exactly when the AI text is non-empty, and holds that text |
| Report.CategoryRows | expense_app.py:54-56 | The loop produces exactly the share lines of the ranking |
| Report.TopRows | expense_app.py:68-72 | The loop produces exactly the table lines of the top rows |
| Report.GenerateMonthlyReport | expense_app.py:20-77 | The label is `여유` exactly for a non-negative difference. The gap is the absolute difference. The metrics are echoed. The category table is the ranking's shares, the top table the top five, and the AI section is present only for non-empty text |
| Dashboard.Load | expense_app.py:126-198 | A past-table failure stops first, then a missing current upload. Loading succeeds exactly when the past table cleans, the current files load, pass the null check and convert. The result is the cleaned current table, sorted by date, and the cleaned past rows |
| Dashboard.Run | expense_app.py:239-456 | Success exactly when both selections are non-empty. The view is the filtered table with every row selected. Its metrics, satisfaction summary, regret and value lists, category breakdown and trend are those of the filtered rows |
| Dashboard.DefaultViewCoversAll | expense_app.py:217-255 | With the default sidebar state the dashboard succeeds and its figures cover the whole cleaned table |
| Dashboard.LoadKeepsEveryRow | expense_app.py:165-198 | The cleaned current table has exactly one record per data row of the readable current files |
| Dashboard.RunFiguresAgree | expense_app.py:447-456 | The category breakdown adds up to the total shown, and the trend to that total plus the selected past rows |

## Left out

- The Streamlit page is not modelled: page setup, styling, expanders, checkboxes, metrics widgets, tabs, messages and the download button. The sidebar state is a `Selection` (months, categories) and a budget passed in.
- File reading (`read_csv`, `read_excel`) is not modelled. A file arrives as already-read header and cells, or as unreadable.
- Date parsing with `format='mixed'` is not modelled. A cell either is a recognised date or is not. In the current table an unrecognised date stops the script; in the past table it becomes missing.
- The API-key check, the prompt text and the OpenAI call are not modelled. The AI answer enters the report as an opaque optional text.
- The plotly charts, the colour map and the essential/non-essential composition chart are not modelled. The trend chart is modelled only through its data and the two-month condition.
- Exact number and date formatting in the report and the bullets (`:,.0f`, `.1f`, `%m월 %d일`), the Markdown layout and the generation timestamp are not modelled. The model keeps the values, rows and order.
- The tie order of `sort_values`, `nlargest` and `idxmax` is left open. No contract fixes which of two equal elements comes first.
- Strings.Lower: maps only the ASCII letters; Python's `str.lower` also lowers other alphabets.
- Strings.ParseInt: accepts an optional sign and decimal digits only. Python's `int` and `to_numeric` also accept surrounding whitespace, `_` separators and (for `to_numeric`) decimals.
- Normalize.AmountOf: numeric cells are integers. A fractional amount, which `astype(int)` (lines 147, 192) truncates toward zero, is not represented. A boolean amount column, which `astype(int)` turns into 1/0, is rejected by the model in the current table and becomes 0 in the past table.
- Normalize.AmountOf: whether a column is text (pandas' `object` dtype) is approximated as "some cell is text". In such a column any non-text cell is NaN after `.str.replace`, so it stops the current table and becomes 0 in the past table.
- Normalize.ScoreOf: satisfaction scores are integers. A non-numeric score is treated as missing.
- Frames.RowOf: when a file's header repeats a name (for instance after lower-casing `Amount` and `amount`), the model uses the first cell under that name. The script instead raises at lines 186-198, because `df['amount']` and the other column accesses then return a DataFrame, on which `.dtype`, `.str` and `pd.to_datetime` fail.
- Aggregate.ObservedCategories: the categories are listed in first-seen order. The alphabetical order of the checkboxes affects display only.
- Aggregate.ObservedMonths: month order is by (year, month). This equals the order of `YYYY-MM` strings for four-digit years.
- Aggregate.MonthlyAverage: the count of months is the number of ticked months. The model, like the script, does not check that those months have rows.
- Rankings.MonthlyTrend: the chart itself is left out; `Rankings.PastMonthShowsTrend` states when it has two points.
- Report.GenerateMonthlyReport: receives the split and the summary as values; the report text itself is not built.
- Strings.ParseInt: amounts are unbounded integers. `astype(int)` in the script yields 64-bit integers, so an amount outside the 64-bit range raises or wraps there; the model neither stops nor wraps on such values.
- The `description` column is required by the model, because line 195 reads `df['description']` without checking that it exists; a current table without it stops with a missing-column failure.
- A text amount column with a non-text cell fails the current table, because `.str.replace` (line 191) turns that cell into NaN and `astype(int)` (line 192) then raises.
