# COVID-19 country plots: a verified model of the series pipeline

Two Python scripts read the global time-series tables of confirmed cases,
deaths and recoveries (one row per region, one column per date). For each
requested country they sum that country's rows, turn the cumulative series
into daily increments, and draw a figure with one row of two panels per
metric: daily bars and the cumulative line. `app/main.py` clamps negative
daily values to zero, cuts the recoveries table to `columns[3:550]`, gives
the selected metrics consecutive rows, and names each image after the
country and the flags. `app/code/main.py` keeps negative daily values, uses no column cut, puts
every metric in a fixed row of a 3 by 2 grid, and saves every figure to
`/app/plot.png`.

This project models that pipeline in Dafny and proves its properties:

- `tables.dfy` (module `Tables`): rows, tables, `groupby(...).sum().loc[...]`,
  and the three lookups in reading order.
- `deltas.dfy` (module `Deltas`): `diff().fillna(0)`, `clip(lower=0)`, and
  their sums.
- `frames.dfy` (module `Frames`): the Series class, whose index is replaced in
  place by `pd.to_datetime`, and the axes, panel and figure values given to
  the plotting library.
- `cli.dfy` (module `Cli`): the metric flags, the no-flag default, the
  drawing order, and `str.split(',')`.
- `app.dfy` (module `App`): `app/main.py`.
- `app_code.dfy` (module `AppCode`): `app/code/main.py`.

The date parser (`pd.to_datetime(..., format='%m/%d/%y', errors='coerce')`)
is a parameter `parse: string -> Option<Date>`. A label it rejects becomes
`None` (NaT) in its own position.

## Model

| member | source | states |
|---|---|---|
| Tables.SliceDateColumns | app/main.py:37-52 | Python's slice `columns[3:stop]` of the grouped frame's column labels (the three leading columns, then the dates), with both ends clamped to the length, is exactly the first `min(stop - 3, width)` date labels; `columns[3:]` is all of them |
| Tables.GroupSum | app/main.py:37-38 | the grouped-and-summed row has one entry per date column, each the sum of that column over every row labelled with the country |
| Tables.Aggregate | app/main.py:37-40 | the lookup fails exactly when no row has that exact label, and the error carries the key; otherwise the labels are the Python slice of the grouped frame's column labels from position 3, which is a prefix of the date labels, and each value is the column total over exactly the matching rows |
| App.GetDataForCountry | app/main.py:29-54 | succeeds exactly when the country is in all three tables; cases and deaths keep every date label, recoveries the first `min(547, width)` |
| AppCode.GetDataForCountry | app/code/main.py:26-53 | succeeds exactly when the country is in all three tables; all three series keep every date label |
| Tables.Fetch | app/code/main.py:33-51 | succeeds exactly when the country is in all three tables, whatever metrics are wanted; otherwise it names the first table, in reading order, that lacks it; on success the three columns are the three aggregations |
| Tables.ColumnTotalPermutation | app/main.py:38 | two row sequences that are permutations of each other have the same column totals |
| Tables.AggregatePermutation | app/main.py:37-38 | reordering the rows of a table leaves every country's result, or its error, unchanged |
| Tables.AggregateOnlyCountry | app/main.py:40 | dropping every row of other countries leaves the result, or the error, unchanged: no other country's data reaches the series |
| Tables.AggregateSingleRow | app/code/main.py:37 | a country with exactly one row gets that row's counts and labels back |
| Tables.CutIsPrefix | app/main.py:52 | a finite slice end finds the country exactly when `columns[3:]` does, and keeps a prefix of its values and labels |
| App.RecoveriesCut | app/main.py:52 | the recoveries series has `min(547, width)` values, so at most 547, and is a prefix of the uncut series |
| Deltas.Diff | app/code/main.py:59 | the daily series has the same length as the cumulative one |
| Deltas.Clamped | app/main.py:62 | same length; the first entry is 0; every entry is at least 0 and at least the day-over-day change, and is either 0 or that change (so it equals `max(0, C[i] - C[i-1])`) |
| Deltas.DiffPrefixSum | app/code/main.py:59 | the first `i + 1` unclamped increments add up to `C[i] - C[0]` |
| Deltas.DiffRoundTrip | app/code/main.py:59 | `C[0]` plus the increments of days `1..i` gives `C[i]`, for every `i` |
| Deltas.DiffTotal | app/code/main.py:59 | all unclamped increments add up to `C[last] - C[0]` |
| Deltas.AccumulateDiff | app/code/main.py:59 | accumulating the increments from `C[0]` rebuilds the cumulative series |
| Deltas.DiffAccumulate | app/code/main.py:59 | differencing an accumulated series gives the increments back, with the first one replaced by 0 |
| Deltas.DiffDeterminesSeries | app/code/main.py:59 | two series with the same first value and the same increments are equal |
| Deltas.ClipGap | app/main.py:62 | clipping at zero never lowers a total, and keeps it exactly when no entry was negative |
| Deltas.AdjacentNonDecreasing | app/main.py:62 | a series never decreases exactly when no day is below the day before |
| Deltas.ClampedSumLowerBound | app/main.py:62 | the clamped daily values add up to at least `C[last] - C[0]` |
| Deltas.ClampedSumExact | app/main.py:62 | the clamped total equals `C[last] - C[0]` exactly when the series never decreases |
| Deltas.ClampedIsDiffIffNonDecreasing | app/main.py:62 | clamping changes nothing exactly when the cumulative series never decreases |
| Deltas.ClampedRevisionExample | app/main.py:62 | `[0,0,5,5,3]` gives `[0,0,5,0,0]` clamped and `[0,0,5,0,-2]` unclamped |
| Deltas.ClampedTotalCanExceedLast | app/main.py:62 | the clamped total is not bounded by the last cumulative value: `[0,5,3,5]` gives 7 |
| Frames.ToDatetime | app/main.py:61 | the new index has the same length; position `k` holds the parse of label `k`, or NaT; nothing is dropped or reordered |
| Frames.Series.constructor | app/main.py:40 | the Series from `.loc` is indexed by the selected column labels and holds the summed values |
| Frames.Series.AttachDates | app/code/main.py:58 | reassigning `.index` changes only the index, to the coerced dates; the values and their number stay the same |
| Cli.Selected | app/main.py:136-154 | lists exactly the metrics whose flag is set, in the order confirmed, deaths, recoveries; its length is the number of set flags |
| Cli.Defaulted | app/main.py:195-196 | afterwards at least one flag is set; flags that already include a set one stay as given; no flag at all becomes all three |
| Cli.Args.ApplyDefaults | app/code/main.py:157-158 | rewrites the flags of the parsed arguments in place to their defaulted value and leaves the country list alone |
| Cli.Split | app/main.py:198 | `split(',')` always gives at least one piece, and no piece holds a comma |
| Cli.JoinSplit | app/main.py:198 | joining the pieces with commas gives the original argument back |
| Cli.DefaultIsOneCountry | app/main.py:18 | without `--countries` the comma split gives the single country `Germany` |
| Cli.SplitJoin | app/code/main.py:160 | splitting comma-joined, comma-free pieces gives the same pieces back |
| App.MakeSubplots | app/main.py:57-62 | the caller's Series gets the coerced date index in place, with values unchanged; the bars are the clamped differences of those values |
| App.AxesFor | app/main.py:137-138 | `axs[col]` for a one-row figure and `axs[row, col]` otherwise both denote the panel at (row, col) |
| App.Plot | app/main.py:126-154 | fails exactly when some table lacks the country, whatever the flags; otherwise the figure has one row per set flag and two columns; the k-th selected metric is drawn in row k; its line is the country's series, its bars the clamped differences, its x-axis the coerced labels |
| App.DrawMetric | app/main.py:140 | one `make_*_subplots` call on a fresh Series gives that metric's panel pair at the given row |
| App.GeneratePlot | app/main.py:126-154 | the row counter, advanced after each drawn metric, produces exactly the figure `App.Plot` describes |
| App.PanelDailyBounds | app/main.py:62 | every drawn daily bar is at least 0, and a metric's bars add up to at least its net growth |
| App.ImageName | app/main.py:172-181 | the `+=` steps give the country, `_`, one letter per selected metric in drawing order, then `_plot.png` |
| App.DefaultImageName | app/main.py:195-196 | with no flag given, the image is named `<country>_cdr_plot.png` |
| App.SplitAtLastSeparator | app/main.py:172 | the country and the letters are recovered from the text on either side of the last `_` |
| App.LettersDetermineFlags | app/main.py:173-178 | the letters appended for two flag sets are equal only when the flag sets are equal |
| App.ImageNameInjective | app/main.py:172-181 | two different countries, or different flags, never share an image name (a country repeated in the comma list does get the same name again) |
| App.Run | app/main.py:191-202 | the flags are defaulted in place; the countries in the comma list are processed in order; each successful country stores one image with its deterministic name; the first unknown country ends the batch, naming the failed table, and earlier images remain |
| AppCode.MakeMetricPlots | app/code/main.py:56-59 | the caller's Series gets the coerced date index in place, with values unchanged; the bars are the unclamped differences |
| AppCode.Plots | app/code/main.py:122-134 | fails exactly when some table lacks the country; otherwise the figure is a 3 by 2 grid, and every selected metric is drawn, in order, in its fixed row (confirmed 0, deaths 1, recoveries 2) with unclamped bars |
| AppCode.DrawMetric | app/code/main.py:128 | one `make_*_plots` call on a fresh Series gives that metric's panel pair in its fixed row |
| AppCode.MakePlots | app/code/main.py:122-134 | the three guarded calls produce exactly the figure `AppCode.Plots` describes |
| AppCode.PanelIndependentOfSelection | app/code/main.py:127-134 | a metric's panel, which includes its row, is the same whatever else is selected |
| AppCode.PanelRoundTrip | app/code/main.py:59 | the bars of a panel and its first total rebuild every total, and the bars add up to `last - first` |
| AppCode.Run | app/code/main.py:153-163 | the flags are defaulted in place; each successful country saves its figure to the one fixed path `/app/plot.png`, so later countries overwrite earlier ones; the first unknown country ends the batch |

## Natural expectations the code does not meet

The model follows the code in each case.

- Invalid date labels: one might expect them to be dropped from the axis.
  Both scripts keep them in place as NaT (`errors='coerce'`), and `Frames.ToDatetime`
  does the same.
- Batch failures: one might expect a failing country to be skipped and the
  batch to go on. In the code, the `KeyError` from `.loc` is not
  caught, so it ends the run. `App.Run` and `AppCode.Run` stop at the first
  unknown country.
- Clamped total: one might expect the sum of the clamped daily values to be
  at most the last cumulative value. That bound does not hold
  (`Deltas.ClampedTotalCanExceedLast`). The bound that does hold is the lower
  bound `C[last] - C[0]` (`Deltas.ClampedSumLowerBound`), met with equality
  exactly on non-decreasing series (`Deltas.ClampedSumExact`).
- Image names: one might expect each image to be named after the country and
  the flags. Only `app/main.py` does that. `app/code/main.py` saves every figure
  to `/app/plot.png`.

## Left out

- CSV reading (`pd.read_csv`): I/O. The three tables are input values
  (`Tables.Sources`).
- Missing cells: a CSV row may lack a cell, which pandas reads as NaN and
  turns into a float column. `Tables.WellFormed` requires rectangular integer
  tables instead.
- Summing the leading columns: the model assumes pandas 2.x, where
  `groupby().sum()` keeps Province/State (concatenated) and Lat and Long
  (summed), so `columns[3:]` starts at the first date (`Tables.FrameColumns`).
  Under pandas 1.x, Province/State is dropped as non-numeric. Then
  `columns[3:]` would also drop the first date, and `columns[3:550]` would
  keep dates 1 to 547. That behaviour is not modelled. The leading cells are
  opaque text that is never summed.
- int64 overflow in `sum()`: counts are unbounded integers. Real totals stay
  far below 2^63.
- Date parsing: a library call, so it is the `parse` parameter. No format
  rule is modelled.
- Every matplotlib call is left out: rendering only. This covers
  `plt.subplots` sizing and `sharex`, bars, lines, labels, legends, colours,
  tick formats, locators, rotation, `suptitle` and `savefig`. A figure is
  modelled as its grid size and the data given to each panel.
- `generate_plot` with no metric selected: `plt.subplots(0, 2)` raises.
  Callers never pass that, because the flags are defaulted first. So
  `App.Plot` and `App.GeneratePlot` require at least one flag.
- `os.makedirs`, `os.path.join` and `print`: side effects and path
  construction. `os.path.join` drops `/app/images` when the country name
  starts with `/`. Only the bare image name is modelled.
- argparse: only the parsed values are modelled (the `Cli.Args` fields). The
  `--countries` default `Germany` is the constant `Cli.DefaultCountries`
  (`Cli.DefaultIsOneCountry`).
- Figures are never closed between countries: this is a plotting-library
  resource concern and is not modelled.
- Aligning the three series on a common date axis, and ratios such as deaths
  per case: neither script computes them, so nothing of that kind is
  modelled.
