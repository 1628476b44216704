/**
 * The `ForexPairsMonitor` object: its configuration, the parameters each
 * analysis stores on it, and the analysis pipeline that fills them.
 *
 * The statistics library's results enter as parameters: the regression fit
 * (`None` when fitting raised), the cointegration test (`None` when it
 * raised) and the sample standard deviation of the spread.
 */
module Monitor {
  import opened Optional
  import opened Series
  import opened Stats
  import opened Signals

  /**
   * Hedge ratio, intercept and R-squared of the OLS fit of NZDJPY on CADJPY.
   * The intercept is `None` when the fitted model has no `const` parameter,
   * as when `add_constant` skips a CADJPY column that is already constant.
   */
  datatype OlsFit = OlsFit(hedge: real, intercept: Option<real>, rSquared: real)

  /** Statistic and p-value of the Engle-Granger cointegration test. */
  datatype CointTest = CointTest(score: real, pValue: real)

  /** What `calculate_cointegration` returns. */
  datatype CointVerdict = CointVerdict(cointegrated: bool, score: Option<real>, pValue: Option<real>)

  /** The p-value below which the pair is reported as cointegrated. */
  const CointLevel: real := 0.05

  /** What one successful analysis reports on the console. */
  datatype Report = Report(verdict: CointVerdict, zscore: real, signal: Category, sizing: Option<Position>)

  /**
   * `calculate_cointegration`: a verdict of cointegration exactly when the
   * test ran and its p-value is below 5%; a failed test reports no statistic.
   */
  function CalculateCointegration(test: Option<CointTest>): (v: CointVerdict)
    ensures v.cointegrated <==> test.Some? && test.value.pValue < CointLevel
    ensures v.pValue.Some? <==> test.Some?
    ensures test.Some? ==> v.score == Some(test.value.score) && v.pValue == Some(test.value.pValue)
    ensures test.None? ==> v == CointVerdict(false, None, None)
  {
    match test
    case None => CointVerdict(false, None, None)
    case Some(t) => CointVerdict(t.pValue < CointLevel, Some(t.score), Some(t.pValue))
  }

  class ForexPairsMonitor {
    const lookbackDays: int
    const pair1: string := "CADJPY=X"
    const pair2: string := "NZDJPY=X"
    const alertThreshold: real := DefaultAlert

    var hedgeRatio: Option<real>
    var spreadMean: Option<real>
    var spreadStd: Option<real>
    var lastZscore: Option<real>

    constructor (lookbackDays: int := 1460)
      ensures this.lookbackDays == lookbackDays
      ensures hedgeRatio == None && spreadMean == None && spreadStd == None && lastZscore == None
    {
      this.lookbackDays := lookbackDays;
      hedgeRatio, spreadMean, spreadStd, lastZscore := None, None, None, None;
    }

    /**
     * `calculate_regression_and_spread` with the fit and the deviation taken
     * from the library. An empty table cannot be fitted, so it fails like a
     * fit that raised, before anything is stored. A fit without an intercept
     * fails after the hedge ratio is stored, leaving the mean and deviation.
     */
    method CalculateRegressionAndSpread(data: seq<Row>, fit: Option<OlsFit>, std: real) returns (spread: Option<seq<real>>)
      modifies this`hedgeRatio, this`spreadMean, this`spreadStd
      ensures spread.None? <==> fit.None? || |data| == 0 || fit.value.intercept.None?
      ensures fit.None? || |data| == 0 ==>
        hedgeRatio == old(hedgeRatio) && spreadMean == old(spreadMean) && spreadStd == old(spreadStd)
      ensures fit.Some? && |data| > 0 && fit.value.intercept.None? ==>
        hedgeRatio == Some(fit.value.hedge) && spreadMean == old(spreadMean) && spreadStd == old(spreadStd)
      ensures spread.Some? ==>
        && spread.value == SpreadOf(data, fit.value.hedge)
        && hedgeRatio == Some(fit.value.hedge)
        && spreadMean == Some(Mean(spread.value))
        && spreadStd == Some(std)
    {
      if fit.None? || |data| == 0 {
        return None;
      }
      hedgeRatio := Some(fit.value.hedge);
      if fit.value.intercept.None? {
        return None;
      }
      var s := SpreadOf(data, fit.value.hedge);
      spreadMean := Some(Mean(s));
      spreadStd := Some(std);
      spread := Some(s);
    }

    /**
     * `calculate_zscore`: the z-score of the last spread value against the
     * stored mean and deviation, kept in `lastZscore`. An empty spread or
     * parameters not yet computed make it fail and store nothing.
     */
    method CalculateZscore(spread: seq<real>) returns (z: Option<real>)
      requires spreadStd.Some? ==> spreadStd.value != 0.0
      modifies this`lastZscore
      ensures z.None? <==> |spread| == 0 || spreadMean.None? || spreadStd.None?
      ensures z.Some? ==> z.value == ZScore(Last(spread), spreadMean.value, spreadStd.value)
      ensures z.Some? ==> lastZscore == z
      ensures z.None? ==> lastZscore == old(lastZscore)
    {
      if |spread| == 0 || spreadMean.None? || spreadStd.None? {
        return None;
      }
      var current := Last(spread);
      z := Some(ZScore(current, spreadMean.value, spreadStd.value));
      lastZscore := z;
    }

    /** `check_trading_signals`: the signal for `zscore` under this monitor's threshold. */
    method CheckTradingSignals(zscore: real) returns (c: Category)
      ensures c == Classify(zscore, alertThreshold) && InBand(c, zscore, alertThreshold)
      ensures c == Neutral <==> Abs(zscore) < 0.8
    {
      c := Classify(zscore, alertThreshold);
      NeutralUnderDefault(zscore);
    }

    /**
     * `generate_position_sizing`: it formats the stored hedge ratio, so it
     * needs one whenever it makes a recommendation.
     */
    method GeneratePositionSizing(zscore: real) returns (p: Option<Position>)
      requires Abs(zscore) >= 1.0 ==> hedgeRatio.Some?
      ensures p.Some? <==> Abs(zscore) >= 1.0
      ensures p.Some? ==> p == PositionSizing(zscore, hedgeRatio.value)
    {
      if Abs(zscore) >= 1.0 {
        p := PositionSizing(zscore, hedgeRatio.value);
      } else {
        p := None;
      }
    }

    /**
     * `run_analysis`: download and align, test cointegration, fit and form
     * the spread, score the last value, then classify and size. A failed
     * download, fit or z-score ends the analysis with `false`; the
     * cointegration verdict is reported but never stops it.
     */
    method RunAnalysis(fetched: Option<Download>, test: Option<CointTest>, fit: Option<OlsFit>, std: real)
      returns (ok: bool, report: Option<Report>)
      requires fetched.Some? ==> ObsIncreasing(fetched.value.cad) && ObsIncreasing(fetched.value.nzd)
      requires std > 0.0
      modifies this`hedgeRatio, this`spreadMean, this`spreadStd, this`lastZscore
      ensures ok <==> DownloadData(fetched).Some? && fit.Some? && fit.value.intercept.Some?
      ensures ok <==> report.Some?
      ensures !ok ==> lastZscore == old(lastZscore)
      ensures DownloadData(fetched).None? || fit.None? ==>
        hedgeRatio == old(hedgeRatio) && spreadMean == old(spreadMean) && spreadStd == old(spreadStd)
      ensures DownloadData(fetched).Some? && fit.Some? && fit.value.intercept.None? ==>
        hedgeRatio == Some(fit.value.hedge) && spreadMean == old(spreadMean) && spreadStd == old(spreadStd)
      ensures ok ==>
        var s := SpreadOf(DownloadData(fetched).value, fit.value.hedge);
        && hedgeRatio == Some(fit.value.hedge) && spreadMean == Some(Mean(s)) && spreadStd == Some(std)
        && report.value.zscore == ZScore(Last(s), spreadMean.value, std)
        && lastZscore == Some(report.value.zscore)
        && (report.value.zscore > 0.0 <==> Last(s) > Mean(s))
        && (report.value.zscore < 0.0 <==> Last(s) < Mean(s))
      ensures ok ==>
        && report.value.verdict == CalculateCointegration(test)
        && report.value.signal == Classify(report.value.zscore, alertThreshold)
        && report.value.sizing == PositionSizing(report.value.zscore, fit.value.hedge)
    {
      var data := DownloadData(fetched);
      if data.None? {
        return false, None;
      }
      var verdict := CalculateCointegration(test);
      var spread := CalculateRegressionAndSpread(data.value, fit, std);
      if spread.None? {
        return false, None;
      }
      var zscore := CalculateZscore(spread.value);
      if zscore.None? {
        return false, None;
      }
      var signal := CheckTradingSignals(zscore.value);
      var sizing := GeneratePositionSizing(zscore.value);
      return true, Some(Report(verdict, zscore.value, signal, sizing));
    }
  }
}
