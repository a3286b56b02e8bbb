/** The rolling-window stage: every row whose exit row `holdingPeriod`
    positions later exists becomes one classified record. */
module Windows {
  import opened Failures
  import opened Regime

  /** One cleaned input row: a calendar date (as a day number) and a close. */
  datatype PricePoint = PricePoint(date: int, close: real)

  /** One row of the "Historical Data with CAGR" table. */
  datatype ClassifiedRecord = ClassifiedRecord(
    date: int,
    close: real,
    exitDate: int,
    exitPrice: real,
    annualizedRate: real,
    category: Category)

  /** The annualised rate of a window, `(exit / entry) ** (252 / h) - 1`,
      is supplied by the caller as a function of entry close, exit close and
      holding period. */
  type RateFn = (real, real, int) -> real

  function Max0(n: int): nat {
    if n < 0 then 0 else n
  }

  /** The record for the window that enters at position `i`. */
  function Window(prices: seq<PricePoint>, i: nat, h: nat, t: Thresholds, rate: RateFn): (r: ClassifiedRecord)
    requires i + h < |prices|
    ensures r.date == prices[i].date && r.close == prices[i].close
    ensures r.exitDate == prices[i + h].date && r.exitPrice == prices[i + h].close
    ensures r.annualizedRate == rate(prices[i].close, prices[i + h].close, h)
    ensures r.category != ExtremeBullish ==> InBucket(r.annualizedRate, r.category, t)
    ensures forall d :: Rank(d) < Rank(r.category) ==> !InBucket(r.annualizedRate, d, t)
  {
    var entry, exit := prices[i], prices[i + h];
    var r := rate(entry.close, exit.close, h);
    ClassifiedRecord(entry.date, entry.close, exit.date, exit.close, r, Categorize(r, t))
  }

  /** Pairs position `i` with position `i + holdingPeriod` for every `i` in
      `[0, |prices| - holdingPeriod)`, in order. A negative holding period
      runs the loop past the last row (an IndexError); a zero one divides by
      zero as soon as the loop body runs. */
  method ClassifyWindows(prices: seq<PricePoint>, holdingPeriod: int, t: Thresholds, rate: RateFn)
    returns (res: Result<seq<ClassifiedRecord>>)
    ensures holdingPeriod < 0 ==> res == Err(IndexError)
    ensures holdingPeriod == 0 ==> res == if prices == [] then Ok([]) else Err(ZeroDivisionError)
    ensures holdingPeriod > 0 ==>
      && res.Ok?
      && |res.value| == Max0(|prices| - holdingPeriod)
      && forall i :: 0 <= i < |res.value| ==>
           res.value[i] == Window(prices, i, holdingPeriod, t, rate)
  {
    var records: seq<ClassifiedRecord> := [];
    var n := |prices| - holdingPeriod;
    var i := 0;
    while i < n
      invariant 0 <= i
      invariant i <= Max0(n)
      invariant holdingPeriod < 0 ==> i <= |prices|
      invariant holdingPeriod == 0 ==> i == 0 && records == []
      invariant holdingPeriod > 0 ==>
        && |records| == i
        && forall k :: 0 <= k < i ==> records[k] == Window(prices, k, holdingPeriod, t, rate)
    {
      // df.iloc[i]
      if i >= |prices| {
        return Err(IndexError);
      }
      // df.iloc[i + holding_period]; a negative position counts from the end
      var exitPos := i + holdingPeriod;
      if exitPos < -|prices| {
        return Err(IndexError);
      }
      var entry := prices[i];
      var exit := prices[if exitPos < 0 then exitPos + |prices| else exitPos];
      // 252 / holding_period
      if holdingPeriod == 0 {
        return Err(ZeroDivisionError);
      }
      var r := rate(entry.close, exit.close, holdingPeriod);
      records := records + [ClassifiedRecord(entry.date, entry.close, exit.date, exit.close, r, Categorize(r, t))];
      i := i + 1;
    }
    return Ok(records);
  }
}
