# Personal-finance dashboard: the transaction pipeline

A Dafny model of the data pipeline in `main.py`, a Streamlit dashboard over a
spreadsheet of personal transactions. The model covers:

- **Loading** (`load_data`). Header labels are normalised (strip, lower-case,
  NFKD, keep ASCII). The date column is the one labelled `fecha`. The amount
  and movement-type columns are the first labels containing `importe` and
  `tipo`. Rows whose date does not parse are dropped. Each kept row gains
  `mes_nombre` (the month name), `monto` (the amount, or 0 when it is not a
  number) and `tipo` (the type cell upper-cased).
- **The dashboard**. It covers the sidebar's month filter, the income / expense
  / balance figures, the rows that feed the expense pie, the month-by-type sums
  of the bar chart, and which outcome the page reaches: figures and charts, or
  the error message of the catch-all handler.

Modules:

- `Wrappers` (`wrappers.dfy`): `Option` and `Result`.
- `Strings` (`strings.dfy`): Python's `in`, `str.strip()` and the
  `encode('ascii', 'ignore')` round trip.
- `Ingest` (`ingest.dfy`): `load_data`. `LoadData` is an imperative method built
  from three loop methods (`NormalizeHeader`, `DropUndated`, `AddColumns`) that
  resolve columns on the growing frame as the source does. It is proved equal
  to the functional specification `Load`, whose properties are lemmas.
- `Dashboard` (`dashboard.dfy`): the month filter, the totals, the pie's rows,
  the group-by and the page outcome, as functions with lemmas.

Library behaviour is a parameter, the `Library` record. It covers Unicode
`str.lower`/`str.upper`, NFKD, `pd.to_datetime(dayfirst=True)` and
`pd.to_numeric` on text, and `str()` of numbers and timestamps. Where pandas'
result is fixed, the model states it outright: a blank cell is NaN, so it has no
date, no number and prints as `nan`; a numeric cell is its own number; a date
cell is its own date; and a text cell prints as itself. Amounts are `real`.

The page model (`Dashboard.Page`, through `Dashboard.Render`) uses the
corrected income/expense classification, both for the figures and for the
pie's rows, and the corrected header clean-up.
`Dashboard.RenderAsWritten`, `Dashboard.TotalsAsWritten` and
`Ingest.HeaderCleanupAsWritten` keep the behaviour as written (see "Findings").

Three behaviours follow directly from the code:
- The month key is the month name alone, with no year (main.py:37, 58, 93).
- A missing column raises KeyError (main.py:33) or IndexError (main.py:41, 45, 84).
- A sheet without a category column fails only when the selected months have
  expense rows to draw (main.py:82-84).

## Model

| member | source | states |
|---|---|---|
| `Strings.Strip` | main.py:29 | `str.strip()`: the result is no longer than the label, occurs inside it, and neither starts nor ends with Python whitespace |
| `Strings.TrimmedAfterFirst` | main.py:29 | a trimmed slice of a string without its blank first character is a trimmed slice of the string |
| `Strings.TrimmedBeforeLast` | main.py:29 | a trimmed slice of a string without its blank last character is a trimmed slice of the string |
| `Strings.StripIsTrimmedSlice` | main.py:29 | `strip()` cuts whitespace only: its result is the slice of the label between a prefix and a suffix that are all whitespace |
| `Strings.Contains` | main.py:41 | Python's `key in s` for strings: in the empty string only the empty key occurs (the general meaning is `ContainsIsSubstring`) |
| `Strings.ContainsPosition` | main.py:41 | a contained key occurs as a slice at some position |
| `Strings.PositionContains` | main.py:41 | a key occurring as a slice at some position is contained |
| `Strings.ContainsIsSubstring` | main.py:41 | `key in s` holds exactly when `key` is the slice of `s` at some position, as Python defines `in` on strings |
| `Strings.IsSpace` | main.py:29 | the characters `strip()` removes, taken from Python's `str.isspace`: space, tab, newline and carriage return are among them, and no printable ASCII character is |
| `Strings.AsciiOnly` | main.py:29 | `encode('ascii', 'ignore').decode()`: the result is pure ASCII, no longer than the input, holds exactly the input's ASCII characters, and leaves already-ASCII text unchanged |
| `Strings.AsciiOnlyChar` | main.py:29 | a single character survives exactly when it is ASCII |
| `Strings.AsciiOnlyAppend` | main.py:29 | the clean-up works character by character (it distributes over concatenation), so the result is the input's ASCII characters in order, repeats included |
| `Ingest.NormalizeLabel` | main.py:29 | a cleaned label is pure ASCII, whatever the library's Unicode tables do |
| `Ingest.NormalizeLabels` | main.py:29 | the clean-up works label by label: same number and order of columns, and every resulting label is ASCII |
| `Ingest.NormalizeHeader` | main.py:29 | the loop over the header yields exactly the label-by-label clean-up |
| `Ingest.HeaderCleanupAsWritten` | main.py:29 | as written, the line raises AttributeError (`Index` has no `encode`) for every header |
| `Ingest.HeaderCleanupAsWrittenNeverCleans` | main.py:29 | the line as written never yields the cleaned labels, and its outcome does not depend on the header |
| `Ingest.IndexOf` | main.py:33 | the first position holding a label, with no earlier occurrence |
| `Ingest.Lookup` | main.py:32-33 | `df['fecha']` gives one column exactly when the label occurs once; a missing label is KeyError, a repeated one cannot be coerced |
| `Ingest.FirstContaining` | main.py:41 | the leftmost label containing the key; None exactly when no label contains it |
| `Ingest.Resolve` | main.py:41 | a substring role resolves to the leftmost column whose label contains the key. It succeeds when that label occurs once, fails with AmbiguousColumn when the label repeats, and fails with IndexError exactly when no label contains the key |
| `Ingest.FirstContainingAppend` | main.py:37-45 | appending a column whose label lacks the key leaves the leftmost match unchanged |
| `Ingest.WithColumn` | main.py:37-46 | `df[c] = ...` keeps every existing column where it was and makes `c` a column, adding one label exactly when `c` was not already there |
| `Ingest.Columns` | main.py:37-46 | the finished frame starts with the sheet's columns, has `mes_nombre`, `monto` and `tipo`, and at most three more labels |
| `Ingest.FirstContainingWithColumn` | main.py:37-45 | assigning `df[c]` for a label lacking the key leaves the leftmost match unchanged |
| `Ingest.ResolveWithColumn` | main.py:37-45 | such an assignment leaves the resolved column (or the error) unchanged |
| `Ingest.ResolveOnGrowingFrame` | main.py:37-45 | resolving `importe` after `mes_nombre` is added, and `tipo` after `monto` is added, finds what the sheet's own labels give |
| `Ingest.FirstContainingThroughColumns` | main.py:37-46 | three added columns whose names lack a key leave its leftmost match unchanged |
| `Ingest.AddedColumnsLackCategory` | main.py:84 | none of `mes_nombre`, `monto`, `tipo` contains `categor` |
| `Ingest.CategoryColumnIsASheetColumn` | main.py:84 | the `categor` lookup on the finished frame is the leftmost sheet label containing `categor` |
| `Ingest.ResolveRoles` | main.py:32-46 | roles resolve in source order (fecha, importe, tipo) to the exact `fecha` column and the leftmost `importe` and `tipo` columns. The first step that fails decides the exception: a missing `fecha` is KeyError and a repeated one AmbiguousColumn; once `fecha` resolves, a failing `importe` gives `Resolve`'s exception for it; once both resolve, a failing `tipo` gives `Resolve`'s exception for it; IndexError for `importe` exactly when `fecha` resolves and no label contains `importe`; IndexError for `tipo` exactly when `fecha` and `importe` resolve and no label contains `tipo`; success exactly when all three resolve |
| `Ingest.MonthNameInjective` | main.py:37 | different months have different `%B` names |
| `Ingest.MonthName` | main.py:37 | `strftime('%B')` in the C locale: a capitalised English month name with no digit, so the key carries no year |
| `Ingest.ToDatetime` | main.py:33 | `pd.to_datetime(errors='coerce')` on one cell: a blank is NaT, a date cell is its own date; text goes to the library |
| `Ingest.ToNumeric` | main.py:42 | `pd.to_numeric(errors='coerce')` on one cell: a blank is NaN, a numeric cell is its own number; text goes to the library |
| `Ingest.AsStr` | main.py:46 | `.astype(str)` on one cell: a blank prints `nan`, a text cell is itself; numbers and dates go to the library |
| `Ingest.MakeMovement` | main.py:37-46 | one kept row: its cells, its parsed date, that date's month name, the parsed amount or 0, and the upper-cased string of its type cell |
| `Ingest.KeepDated` | main.py:33-34 | after coercion and `dropna`, a row is kept exactly when its date parses |
| `Ingest.KeepDatedAppend` | main.py:33-34 | dropping works row by row, so survivors keep their relative order |
| `Ingest.KeepDatedAll` | main.py:33-34 | a sheet whose dates all parse loses no row |
| `Ingest.DropUndated` | main.py:33-34 | the row loop keeps exactly the rows whose date parses, in order |
| `Ingest.Movements` | main.py:37-46 | one cleaned row per kept row, carrying that row's cells |
| `Ingest.AddColumns` | main.py:37-46 | the loop fills `mes_nombre`, `monto` and `tipo` for every kept row |
| `Ingest.MovementFields` | main.py:37-46 | each built row carries its parsed date, that date's month name, the amount (0 when unparsable) and the upper-cased type of its own cells |
| `Ingest.KeptRowsFitRoles` | main.py:33-46 | every surviving row has the cells the resolved roles point at |
| `Ingest.Load` | main.py:25-48 | the load fails exactly when the roles of the cleaned labels fail to resolve, and then with `ResolveRoles`'s exception; on success the frame keeps the sheet's columns, and every row has one cell per column |
| `Ingest.LoadData` | main.py:25-48 | the step-by-step load (labels, date lookup, dropna, growing-frame resolution, derived columns) gives exactly `Load`'s result or exception |
| `Ingest.LoadResolved` | main.py:25-48 | once the roles resolve, the load succeeds with the cleaned labels and one row per dated sheet row |
| `Ingest.LoadedRowsAreTheDatedRows` | main.py:33-37 | loaded rows are the dated sheet rows in sheet order, each with its parsed date and that date's month name |
| `Ingest.LoadedAmountsAndTypes` | main.py:42-46 | `monto` is the parsed amount, or 0 when it does not parse; `tipo` is the upper-cased string of the type cell |
| `Ingest.DatedRowSurvives` | main.py:42 | every sheet row whose date parses is in the result, whatever its amount cell holds |
| `Ingest.MissingAmountColumnFails` | main.py:41 | a header with `fecha` but nothing containing `importe` fails with IndexError |
| `Dashboard.Where` | main.py:58 | boolean-mask selection never yields more rows than it is given |
| `Dashboard.WhereMembers` | main.py:58 | a row is selected exactly when it is one of the rows and meets the criterion |
| `Dashboard.Matches` | main.py:65-66 | `str.contains` with a regex of literal alternatives: the type matches exactly when some alternative occurs at some position of it |
| `Dashboard.SearchAlternatives` | main.py:65-66 | some alternative is contained in the type exactly when some alternative occurs at some position |
| `Dashboard.WhereAppend` | main.py:58 | selection works row by row and keeps order |
| `Dashboard.WhereAgree` | main.py:65-66 | criteria agreeing on every row select the same rows |
| `Dashboard.WhereAll` | main.py:58 | a criterion every row meets keeps the whole sequence |
| `Dashboard.WhereWhere` | main.py:58-66 | filtering the month-filtered frame by type equals filtering once by both |
| `Dashboard.Sum` | main.py:65 | `.sum()` over the `monto` column, row by row: non-negative amounts have a non-negative sum |
| `Dashboard.SumAppend` | main.py:65 | `.sum()` is additive over concatenation |
| `Dashboard.SumWhereGrows` | main.py:58-65 | widening a selection by non-negative rows never lowers its sum |
| `Dashboard.SumWhereShrinks` | main.py:58-66 | widening a selection by non-positive rows never raises its sum |
| `Dashboard.SumNonPositive` | main.py:66 | a sum of non-positive amounts is non-positive |
| `Dashboard.UniqueMonths` | main.py:55 | `unique()` lists each month name present exactly once, and no other |
| `Dashboard.AllMonths` | main.py:55-56 | the multiselect's default holds exactly the month names present in the data |
| `Dashboard.Selected` | main.py:56 | a month choice the user makes is used as made; the default choice selects every row's month |
| `Dashboard.FilterMonths` | main.py:58 | `isin` keeps exactly the rows whose month name is selected |
| `Dashboard.DefaultSelectionKeepsAll` | main.py:55-58 | with the default selection (all months present) the filter returns every row, in order |
| `Dashboard.MonthKeyIgnoresYear` | main.py:93 | rows in the same month of any two years pass the filter together and share a group key |
| `Dashboard.MonthKeySeparatesMonths` | main.py:93 | rows of different months never share a group key |
| `Dashboard.IncomeRegexIsLetterI` | main.py:65 | `'I|INGRESO'` matches exactly the types containing `I` |
| `Dashboard.ExpenseRegexIsLetterG` | main.py:66 | `'G|GASTO'` matches exactly the types containing `G` |
| `Dashboard.TotalsAsWritten` | main.py:65-67 | expense is non-negative and balance is income minus expense |
| `Dashboard.TotalsAsWrittenByLetter` | main.py:65-66 | as written, income sums the rows whose type contains `I`, and expense is the absolute value of the sum over rows whose type contains `G` |
| `Dashboard.IncomeLabelMatchesExpensePattern` | main.py:65-66 | a row typed `INGRESO (I)` meets both the income and the expense pattern |
| `Dashboard.ExpenseLabelFacts` | main.py:65-66 | a row typed `GASTO (G)` meets only the expense pattern |
| `Dashboard.KindOf` | main.py:64-66 | the corrected classification, read from the comment at line 64: a type is income exactly when it contains `I`, and an expense exactly when it contains `G` but no `I` |
| `Dashboard.SumWhereOfTwo` | main.py:65-66 | summing a selection of two rows adds the amounts of those that qualify |
| `Dashboard.SampleTotalsAsWritten` | main.py:65-67 | as written, income 1000 (`INGRESO (I)`) plus expense -200 (`GASTO (G)`) shows expense 800 and balance 200 |
| `Dashboard.KindOfChartLabels` | main.py:96 | under the corrected classification, `INGRESO (I)` is income and `GASTO (G)` is expense |
| `Dashboard.Totals` | main.py:65-67 | corrected figures: expense is non-negative and balance is income minus expense |
| `Dashboard.KindsPartition` | main.py:65-66 | corrected classification: income, expense and unclassified rows split the rows, and their amounts add up to the total |
| `Dashboard.CorrectedIncomeIsAsWritten` | main.py:65 | the correction leaves the income figure as written |
| `Dashboard.ExpenseAsWrittenAddsOverlap` | main.py:66 | the expense sum as written is the corrected expense sum plus the sum of the rows matching both patterns |
| `Dashboard.CorrectionAgreesWithoutOverlap` | main.py:65-67 | when no type matches both `I\|INGRESO` and `G\|GASTO`, the corrected figures equal the figures as written |
| `Dashboard.SampleTotals` | main.py:65-67 | corrected, the same two rows show expense 200 and balance 800 |
| `Dashboard.NarrowerSelectionLowersIncome` | main.py:56-65 | selecting fewer months never raises the income figure when every income amount is non-negative |
| `Dashboard.NarrowerSelectionLowersExpense` | main.py:56-66 | selecting fewer months never raises the expense figure when every expense amount is non-positive |
| `Dashboard.ExpenseSlices` | main.py:81-89 | no expense rows: nothing to draw. Expense rows but no label containing `categor`: IndexError. Otherwise one (category cell, amount) slice per expense row, in order, taken from the leftmost `categor` column |
| `Dashboard.WhereNone` | main.py:81 | a selection no row meets is empty |
| `Dashboard.SumWhereStep` | main.py:93 | one more row adds its amount to a selection's sum exactly when it qualifies |
| `Dashboard.KeysOfStep` | main.py:93 | one more row adds exactly its own (month, type) key |
| `Dashboard.GroupSums` | main.py:93 | the group-by accumulated row by row has exactly one key per (month, type) pair present |
| `Dashboard.GroupTotalAbsent` | main.py:93 | a key no row carries totals zero |
| `Dashboard.GroupTotalIsSum` | main.py:93 | a group's row-by-row total is the sum of the rows its (month, type) mask selects |
| `Dashboard.GroupSumsTotals` | main.py:93 | the accumulated map has one entry per pair present, holding that group's total |
| `Dashboard.GroupSumsUnfold` | main.py:93 | accumulating a row adds its amount under its own key only |
| `Dashboard.GroupSumsStep` | main.py:93 | accumulating one row keeps one entry per key present, each holding its group's total |
| `Dashboard.GroupSumsPerKey` | main.py:93 | the group-by has one entry per (month, type) pair present, each holding the signed sum of that group |
| `Dashboard.Evolution` | main.py:93 | `groupby(...).sum().abs()`: its keys are exactly the pairs present; each value is the absolute value of its group's sum, hence non-negative |
| `Dashboard.Draw` | main.py:79-97 | after the metrics, the pie's column lookup raises IndexError exactly when there are rows to draw and no label contains `categor`; otherwise the pie shows those rows' slices and the bar chart the group-by |
| `Dashboard.Render` | main.py:55-99 | corrected page. The figures are the totals of the month-filtered rows. The page raises IndexError exactly when some selected row is an expense and no label contains `categor`. Otherwise the pie shows the slices of the selected expense rows and the bar chart is the group-by of the selected rows |
| `Dashboard.RenderAsWritten` | main.py:55-93 | the page as written on a ledger from the corrected header clean-up: the figures by the letter patterns; IndexError exactly when some selected row matches `G\|GASTO` and no label contains `categor`; otherwise the pie shows the slices of every selected row matching `G\|GASTO` and the bar chart the group-by of the selected rows |
| `Dashboard.IncomeRowMatchingExpensePattern` | main.py:81-84 | a lone income row that `G\|GASTO` matches, with no `categor` column, makes the page as written raise IndexError while the corrected page is shown |
| `Dashboard.IncomeOnlyLedgerFailsAsWritten` | main.py:81-84 | one `INGRESO (I)` row and no `categor` column: as written the pie lookup raises IndexError; the corrected page is shown |
| `Dashboard.IncomeRowDrawnAsExpense` | main.py:81-87 | a lone income row that `G\|GASTO` matches, with a `categor` column: as written the pie draws its (category, amount) slice; the corrected page has nothing to draw |
| `Dashboard.IncomeSliceInPieAsWritten` | main.py:81-87 | one `INGRESO (I)` row and a `categor` column: its slice is in the pie as written and not in the corrected one |
| `Dashboard.Page` | main.py:50-113 | the corrected page (corrected header clean-up, corrected `Render`): it shows nothing but the handler's error exactly when loading fails, and that error is the load's exception; on success it is the corrected page for the loaded ledger |
| `Dashboard.DefaultPageCoversAllRows` | main.py:56-67 | with the default month choice the figures cover every loaded row |

## Left out

- The password gate and session state (main.py:9-21): UI plumbing around a fixed secret.
- `pd.read_excel` and `@st.cache_data` (main.py:24-26): file I/O and framework caching. The sheet is an input value.
- Widgets, metric formatting and chart drawing (main.py:61-99). This includes how Plotly merges pie slices that share a name and how it treats negative slice values. Only the data behind the figures is modelled.
- The chat box (main.py:101-109) and the repeated block at main.py:114-124. That block ends in an `except` with no `try`, so the file as written does not parse. The model treats the program as lines 1-113.
- Unicode case mapping, NFKD, pandas' date and number parsing, and `str()` of numbers and timestamps. These are the `Library` parameter; the model states properties relative to them.
- pandas 2 infers one date format from the column's first value. The model parses each cell on its own.
- Floating-point arithmetic: amounts are `real`, so rounding in `.sum()` is not modelled.
- Header labels that are not strings, and boolean or error cells in the workbook.
- A sheet that already has columns named `mes_nombre`, `monto` or `tipo` more than once: what pandas assigns then is not modelled.
- A repeated `categor` label: the pie model reads the first of its columns.
- `strftime('%B')` is modelled in the C locale (English month names).
- The order of `groupby` keys and of the multiselect options: the bar chart is a map.
- Dashboard.UniqueMonths: states that each month name present appears once and no other does, but not that they come in order of first appearance, which only affects how the widget lists them.
- Strings.Strip: its own contract gives the clean ends and containment only; that nothing but whitespace is cut is the lemma `Strings.StripIsTrimmedSlice`.

## Findings

| source | as written | input that shows it | evidently intended | confidence | as-written member | corrected member |
|---|---|---|---|---|---|---|
| main.py:65-67 | expense rows are those whose type matches `G\|GASTO`, and the income label `INGRESO` contains a `G` | with main.py:29 corrected, a 1000 row typed `INGRESO (I)` and a -200 row typed `GASTO (G)`: expense 800, balance 200 | a type containing `I` is income only (income takes priority); every other row is counted as written: expense 200, balance 800 | high, not executed | `Dashboard.TotalsAsWritten`, shown by `Dashboard.SampleTotalsAsWritten` | `Dashboard.Totals` with `Dashboard.KindOf`, proved by `Dashboard.KindsPartition`, `Dashboard.SampleTotals`, `Dashboard.CorrectedIncomeIsAsWritten` and `Dashboard.ExpenseAsWrittenAddsOverlap` |
| main.py:81-84 | the pie takes the rows matching `G\|GASTO`, which include every `INGRESO` row | with main.py:29 corrected, one `INGRESO (I)` row and no column label containing `categor`: the pie's column lookup raises IndexError and the handler fires; with a `categor` column, the income row is drawn as an expense slice | the pie shows expense rows only, so a month with income alone draws nothing | high, not executed | `Dashboard.RenderAsWritten`, shown by `Dashboard.IncomeOnlyLedgerFailsAsWritten` and `Dashboard.IncomeSliceInPieAsWritten` | `Dashboard.Render` |
| main.py:29 | `.encode('ascii', 'ignore')` is called on the column Index itself, which has no `encode` attribute | any workbook: AttributeError, so the handler at main.py:111 fires on every load | `.str.encode('ascii', 'ignore').str.decode('utf-8')` on every label | high, not executed | `Ingest.HeaderCleanupAsWritten`, shown by `Ingest.HeaderCleanupAsWrittenNeverCleans` | `Ingest.NormalizeLabels` (same length and order, every label ASCII) |
