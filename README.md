# CADJPY/NZDJPY pairs-trading monitor: the numeric decision layer

This project models in Dafny the decision logic of `ForexPairsMonitor` in
`cadjpy_nzdjpy_monitor.py`. Each analysis cycle aligns the daily closes of
CADJPY and NZDJPY on their common dates and gives up below 100 rows. It then
forms the spread `NZDJPY - hedge * CADJPY` from the regression's hedge ratio
and scores the latest spread value as a z-score. The z-score is classified
into one of seven signals, and the monitor recommends a position size for
the two legs. All arithmetic uses Dafny's exact `real`.

Files and modules:

- `option.dfy` (`Optional`): `Option`, standing for Python's `None`.
- `series.dfy` (`Series`): dropping missing closes, the inner join on date
  and the 100-row gate of `download_data`.
- `stats.dfy` (`Stats`): the spread, its mean, and how the omitted regression
  intercept relates to both.
- `signals.dfy` (`Signals`): the z-score, the seven-way classification, the
  position multiplier and the two legs.
- `monitor.dfy` (`Monitor`): the `ForexPairsMonitor` class, which holds the
  parameters each analysis stores on the object (`hedgeRatio`, `spreadMean`,
  `spreadStd`, `lastZscore`), and the `run_analysis` pipeline.

The statistics library's results are inputs to the model, never re-derived.
These are the OLS fit (`OlsFit`: hedge ratio, intercept, R-squared, or `None`
when the fit raised; the intercept is `None` when the fitted model has no
`const` parameter), the cointegration test (`CointTest`, or `None`) and the
sample standard deviation of the spread. The download is an input as well
(`Option<Download>`, `None` when it raised).

The spread leaves the regression intercept out. `Stats.InterceptCancels`
shows this does not change the z-score: the residuals are the spread shifted
by a constant, so both have the same deviations from their own mean. When the
fit satisfies its normal equation for the constant term, `spread_mean` equals
the intercept (`Stats.SpreadMeanIsIntercept`).

Two consequences of the code that the model makes explicit:

- `calculate_zscore` divides by the spread's deviation unguarded, so a zero
  deviation gives inf or nan. The model makes a non-zero deviation a
  precondition.
- The position multiplier is min(|z|, 3)/3. Sizing happens only for |z| >= 1,
  so the multiplier lies in [1/3, 1] and is 2/3 at z = 2
  (`Signals.WorkedScenario`).

## Model

| member | source | states |
|---|---|---|
| `Series.DropMissing` | cadjpy_nzdjpy_monitor.py:66-67 | a point survives `dropna` exactly when the raw series has that close on that date; date order is kept |
| `Series.Join` | cadjpy_nzdjpy_monitor.py:72-76 | a row is in the joined frame exactly when both cleaned series have a close on its date, with those closes; the frame has no more rows than the CADJPY series |
| `Series.JoinIncreasing` | cadjpy_nzdjpy_monitor.py:72-76 | the joined rows keep the date order of the CADJPY series |
| `Series.Aligned` | cadjpy_nzdjpy_monitor.py:64-76 | the aligned table holds exactly the dates where both raw series have a non-missing close, in increasing order, and its length is the number of such dates |
| `Series.DistinctDates` | cadjpy_nzdjpy_monitor.py:72-76 | rows in strictly increasing date order have as many distinct dates as rows, so the table's length counts common dates |
| `Series.DownloadData` | cadjpy_nzdjpy_monitor.py:78-86 | `None` exactly when the download failed or the aligned table has fewer than 100 rows; otherwise that table |
| `Series.DownloadKeepsCommonDates` | cadjpy_nzdjpy_monitor.py:64-86 | `None` exactly when the download failed or fewer than 100 dates carry a close in both series; otherwise one row per such date, in date order, with both closes |
| `Stats.Last` | cadjpy_nzdjpy_monitor.py:149 | `iloc[-1]`: the series is its prefix followed by the returned value, i.e. the most recent value |
| `Stats.Mean` | cadjpy_nzdjpy_monitor.py:130 | `spread.mean()`: the mean times the number of values is their sum |
| `Stats.SpreadOf` | cadjpy_nzdjpy_monitor.py:129 | the spread has one value per aligned row (the value on each row is `Stats.SpreadAt`) |
| `Stats.SpreadAt` | cadjpy_nzdjpy_monitor.py:129 | the spread on each row is NZDJPY minus hedge times CADJPY, with no intercept subtracted |
| `Stats.MeanOfShift` | cadjpy_nzdjpy_monitor.py:130 | shifting a series by a constant shifts its mean by the same constant |
| `Stats.InterceptCancels` | cadjpy_nzdjpy_monitor.py:125-131 | the residuals with the intercept and the spread without it have identical deviations from their means |
| `Stats.SpreadMeanIsIntercept` | cadjpy_nzdjpy_monitor.py:121-130 | if the residuals sum to zero, as OLS with a constant makes them, the stored spread mean is the intercept |
| `Signals.ZScore` | cadjpy_nzdjpy_monitor.py:149-150 | z times the deviation is the latest spread minus the mean; with a positive deviation z is positive, negative or zero as the latest spread is above, below or at the mean |
| `Signals.Classify` | cadjpy_nzdjpy_monitor.py:165-195 | the first-match chain returns the one category whose band holds z: StrongShort for z >= 2, StrongLong for z <= -2, Short for 1 <= z < 2, Long for -2 < z <= -1, and for \|z\| < 1 Approaching (Short iff z > 0) iff \|z\| >= threshold, else Neutral |
| `Signals.BandsDisjoint` | cadjpy_nzdjpy_monitor.py:165-195 | no z-score lies in the bands of two different categories |
| `Signals.NeutralUnderDefault` | cadjpy_nzdjpy_monitor.py:186-195 | with the default threshold 0.8, the signal is Neutral exactly when \|z\| < 0.8 |
| `Signals.Multiplier` | cadjpy_nzdjpy_monitor.py:201-204 | for \|z\| >= 1 the multiplier lies in [1/3, 1], equals 1 once \|z\| >= 3 and is \|z\|/3 below that |
| `Signals.MultiplierMonotone` | cadjpy_nzdjpy_monitor.py:203-204 | a larger \|z\| never gets a smaller multiplier |
| `Signals.PositionSizing` | cadjpy_nzdjpy_monitor.py:201-215 | a recommendation exists iff \|z\| >= 1; NZDJPY is traded at the multiplier and CADJPY at multiplier times hedge, on opposite sides, NZDJPY sold iff z > 0 |
| `Signals.SizingFollowsSignal` | cadjpy_nzdjpy_monitor.py:166-215 | sizing is produced exactly for the four short/long signals, whatever the threshold, and sells NZDJPY exactly for the short ones |
| `Signals.WorkedScenario` | cadjpy_nzdjpy_monitor.py:149-204 | latest spread 4, mean 0, deviation 2 gives z = 2, StrongShort, multiplier 2/3 |
| `Monitor.CalculateCointegration` | cadjpy_nzdjpy_monitor.py:88-111 | cointegrated exactly when the test ran and its p-value is below 0.05, reporting the test's score and p-value; a failed test gives exactly `(False, None, None)` |
| `Monitor.ForexPairsMonitor.constructor` | cadjpy_nzdjpy_monitor.py:26-42 | keeps the lookback and starts with no hedge ratio, mean, deviation or z-score |
| `Monitor.ForexPairsMonitor.CalculateRegressionAndSpread` | cadjpy_nzdjpy_monitor.py:113-144 | fails exactly when the fit fails (an empty table cannot be fitted) or has no intercept. A failed fit stores nothing; a fit without an intercept stores its hedge ratio and leaves the mean and deviation. Otherwise it returns the spread and stores the hedge ratio, the spread's mean and the deviation, touching no other field |
| `Monitor.ForexPairsMonitor.CalculateZscore` | cadjpy_nzdjpy_monitor.py:146-157 | fails exactly for an empty spread or missing mean or deviation; otherwise the z-score of the last spread value, stored in `lastZscore`, the only field it may change |
| `Monitor.ForexPairsMonitor.CheckTradingSignals` | cadjpy_nzdjpy_monitor.py:159-197 | the reported category is the one whose band holds z under the monitor's threshold, Neutral exactly when \|z\| < 0.8 |
| `Monitor.ForexPairsMonitor.GeneratePositionSizing` | cadjpy_nzdjpy_monitor.py:199-215 | a recommendation exactly when \|z\| >= 1, built from the stored hedge ratio |
| `Monitor.ForexPairsMonitor.RunAnalysis` | cadjpy_nzdjpy_monitor.py:217-247 | succeeds exactly when the download yields at least 100 aligned rows and the fit succeeds with an intercept, whatever the cointegration result. A failed download or fit leaves the hedge ratio, mean and deviation; a fit without an intercept stores only the hedge ratio; any failure leaves the last z-score. On success the stored parameters are the fit's hedge ratio, the spread's mean and the deviation, and the report carries the cointegration verdict, the z-score of the spread's last value (positive or negative exactly as that value is above or below the mean), its signal and its sizing |

## Left out

- Downloading from Yahoo Finance and the date window from the wall clock (lines 53-62): the downloaded series are an input.
- The single-index branch of `download_data` (lines 68-70), which uses one series for both legs.
- Raw series are taken with strictly increasing dates, as a download's date index has them; duplicate dates are not modelled.
- The Engle-Granger test and the OLS fit (lines 95, 120-126): library numerics, taken as inputs. The printed critical values are not modelled.
- Monitor.ForexPairsMonitor.CalculateRegressionAndSpread: stores the given deviation without relating it to the spread, because the sample standard deviation needs a square root; its one-row NaN case is not modelled.
- Monitor.ForexPairsMonitor.CalculateZscore: a zero deviation is excluded by precondition, because the source divides unguarded and numpy's inf or nan has no counterpart in `real`.
- Monitor.ForexPairsMonitor.RunAnalysis: requires a positive deviation, as a sample standard deviation is never negative and the zero case divides unguarded.
- Stats.SpreadOf: its own contract gives only the length; the value on each row is stated by the lemma `Stats.SpreadAt`, so that proofs using the spread stay small.
- Monitor.ForexPairsMonitor.GeneratePositionSizing: requires a stored hedge ratio when it recommends, because the source's formatting of a missing one raises outside any handler.
- All printing and message text; the model returns the category and the recommendation instead.
- The polling loop, `time.sleep` and `KeyboardInterrupt` handling (lines 249-268), and the `input()`-driven `main` (lines 270-297): process lifecycle and console interaction.
- IEEE-754 rounding: the model's arithmetic is exact.
