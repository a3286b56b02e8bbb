/** The whole backtest as one request runs it: classify the price windows,
    replay the strategy over them, summarise the ledger. Any exception
    along the way abandons the run. */
module Backtest {
  import opened Failures
  import opened Regime
  import opened Windows
  import opened Simulation
  import opened Performance

  /** The three tables a successful run produces. */
  datatype Report = Report(
    history: seq<ClassifiedRecord>,
    ledger: seq<LedgerRow>,
    summary: PerformanceSummary)

  method Run(prices: seq<PricePoint>, holdingPeriod: int, capital: real, t: Thresholds,
             u: Sizing, rate: RateFn)
    returns (res: Result<Report>)
    ensures holdingPeriod < 0 ==> res == Err(IndexError)
    ensures holdingPeriod == 0 ==> res == if prices == [] then Err(IndexError) else Err(ZeroDivisionError)
    ensures holdingPeriod > 0 && |prices| <= holdingPeriod ==> res == Err(IndexError)
    ensures holdingPeriod > 0 && |prices| > holdingPeriod ==>
      (res.Err? ==> res == Err(ZeroDivisionError)) &&
      (res.Err? <==>
         capital > 0.0 && forall i :: 0 <= i < |prices| - holdingPeriod ==> prices[i].date == prices[0].date)
    ensures res.Ok? ==>
      && holdingPeriod > 0
      && |res.value.history| == |prices| - holdingPeriod
      && (forall i :: 0 <= i < |res.value.history| ==>
            res.value.history[i] == Window(prices, i, holdingPeriod, t, rate))
      && IsLedger(res.value.ledger, res.value.history, capital, u)
      && Summarize(res.value.ledger, capital) == Ok(res.value.summary)
  {
    var history :- ClassifyWindows(prices, holdingPeriod, t, rate);
    var ledger := Simulate(history, capital, u);
    if holdingPeriod > 0 && |prices| > holdingPeriod {
      LedgerDatesAreEntryDates(prices, holdingPeriod, t, rate, history, ledger, capital, u);
    }
    var summary :- Summarize(ledger, capital);
    return Ok(Report(history, ledger, summary));
  }

  /** Each ledger row carries the entry date of its window. */
  lemma LedgerDatesAreEntryDates(prices: seq<PricePoint>, h: int, t: Thresholds, rate: RateFn,
                                 history: seq<ClassifiedRecord>, ledger: seq<LedgerRow>,
                                 capital: real, u: Sizing)
    requires h > 0 && |history| == |prices| - h
    requires forall i :: 0 <= i < |history| ==> history[i] == Window(prices, i, h, t, rate)
    requires IsLedger(ledger, history, capital, u)
    ensures |ledger| == |prices| - h
    ensures forall i :: 0 <= i < |ledger| ==> ledger[i].date == prices[i].date
  {
    forall i | 0 <= i < |ledger|
      ensures ledger[i].date == prices[i].date
    {
      StepFacts(AccountBefore(ledger, i, capital), history[i], u);
    }
  }
}
