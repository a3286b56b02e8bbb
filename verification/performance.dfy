/** The performance summary derived from the last ledger row, and the
    day span of the ledger that the summary's growth rate divides by. */
module Performance {
  import opened Failures
  import opened Regime
  import opened Windows
  import opened Simulation

  /** The "Performance Summary" table without its growth-rate metric. */
  datatype PerformanceSummary = PerformanceSummary(
    finalPortfolioValue: real,
    remainingCash: real,
    totalInvested: real,
    totalWithdrawn: real,
    netProfit: real)

  /** The net profit as the summary computes it: a final value made of the
      position's value plus the cash plus the withdrawn total, less the
      starting capital. Sale proceeds already sit in the cash, so when cash
      has been conserved every withdrawal is counted twice: the result is
      the position's value less what was invested plus twice what was
      withdrawn. */
  function NetProfitAsWritten(last: LedgerRow, capital: real): (p: real)
    ensures Conserves(AccountOf(last), capital) ==>
      p == last.portfolioValue - last.invested + 2.0 * last.withdrawn
  {
    (last.portfolioValue + last.cash + last.withdrawn) - capital
  }

  /** The net profit of the run: what the account is worth at the end (the
      position at the last close plus the cash) less the starting capital.
      When cash has been conserved this is the position's value less the net
      amount put into it. */
  function NetProfit(last: LedgerRow, capital: real): (p: real)
    ensures Conserves(AccountOf(last), capital) ==>
      p == last.portfolioValue - (last.invested - last.withdrawn)
  {
    last.portfolioValue + last.cash - capital
  }

  /** Sale proceeds already sit in the cash, so the summary's formula counts
      every withdrawal twice. */
  lemma NetProfitAsWrittenCountsSalesTwice(last: LedgerRow, capital: real)
    requires Conserves(AccountOf(last), capital)
    ensures NetProfitAsWritten(last, capital) == NetProfit(last, capital) + last.withdrawn
  {
  }

  /** A run at a price that never moves makes no profit. */
  lemma FlatPriceNoProfit(rows: seq<LedgerRow>, records: seq<ClassifiedRecord>, capital: real, u: Sizing, p: real)
    requires IsLedger(rows, records, capital, u)
    requires ConstantPrice(records, p)
    requires rows != []
    ensures NetProfit(rows[|rows| - 1], capital) == 0.0
  {
    var k := |rows| - 1;
    ConservesUpTo(rows, records, capital, u, k);
    BookValueUpTo(rows, records, capital, u, p, k);
    assert rows[k] == Step(AccountBefore(rows, k, capital), records[k], u);
    assert rows[k].portfolioValue == rows[k].totalUnits * p;
  }

  /** The summary's formula reports a profit on a run that made none: buy
      at price `p` in an Extreme Bearish record, sell part of it at the same
      `p` in an Extreme Bullish record. The account is worth exactly its
      starting capital, yet the formula reports the sale proceeds as profit
      (with capital 1000, `p` = 100 and the default sizes: 100). */
  lemma FlatPriceReportsProfit(capital: real, p: real, u: Sizing)
    requires NonNegative(u) && p > 0.0
    requires capital >= u.extremeBearish * p && 0.0 < u.extremeBullish <= u.extremeBearish
    ensures var records := [ClassifiedRecord(0, p, 250, p, 0.0, ExtremeBearish),
                            ClassifiedRecord(1, p, 251, p, 0.0, ExtremeBullish)];
            var first := Step(Account(capital, 0.0, 0.0, 0.0), records[0], u);
            var rows := [first, Step(AccountOf(first), records[1], u)];
      && IsLedger(rows, records, capital, u)
      && rows[1].withdrawn == u.extremeBullish * p
      && NetProfit(rows[1], capital) == 0.0
      && NetProfitAsWritten(rows[1], capital) == u.extremeBullish * p
  {
    var records := [ClassifiedRecord(0, p, 250, p, 0.0, ExtremeBearish),
                    ClassifiedRecord(1, p, 251, p, 0.0, ExtremeBullish)];
    var first := Step(Account(capital, 0.0, 0.0, 0.0), records[0], u);
    var rows := [first, Step(AccountOf(first), records[1], u)];
    assert first.bought == u.extremeBearish;
    assert rows[1].sold == u.extremeBullish;
    assert IsLedger(rows, records, capital, u);
    FlatPriceNoProfit(rows, records, capital, u, p);
    ConservesUpTo(rows, records, capital, u, 1);
  }

  /** The latest and the earliest date in the ledger. */
  function MaxDate(rows: seq<LedgerRow>): (d: int)
    requires rows != []
    ensures forall k :: 0 <= k < |rows| ==> rows[k].date <= d
    ensures exists k :: 0 <= k < |rows| && rows[k].date == d
  {
    if |rows| == 1 then rows[0].date
    else
      var m := MaxDate(rows[1..]);
      assert forall k :: 1 <= k < |rows| ==> rows[k] == rows[1..][k - 1];
      if rows[0].date >= m then rows[0].date else m
  }

  function MinDate(rows: seq<LedgerRow>): (d: int)
    requires rows != []
    ensures forall k :: 0 <= k < |rows| ==> d <= rows[k].date
    ensures exists k :: 0 <= k < |rows| && rows[k].date == d
  {
    if |rows| == 1 then rows[0].date
    else
      var m := MinDate(rows[1..]);
      assert forall k :: 1 <= k < |rows| ==> rows[k] == rows[1..][k - 1];
      if rows[0].date <= m then rows[0].date else m
  }

  /** The summary of a ledger. An empty ledger has no last row (an
      IndexError). With positive capital the growth rate divides by the
      span in years, so a span of zero days is a ZeroDivisionError; with
      capital at or below zero that division is skipped. */
  function Summarize(rows: seq<LedgerRow>, capital: real): (r: Result<PerformanceSummary>)
    ensures r == Err(IndexError) <==> rows == []
    ensures r == Err(ZeroDivisionError) <==>
      rows != [] && capital > 0.0 && forall k :: 0 <= k < |rows| ==> rows[k].date == rows[0].date
    ensures r.Ok? ==>
      var last := rows[|rows| - 1];
      && r.value.finalPortfolioValue == last.portfolioValue
      && r.value.remainingCash == last.cash
      && r.value.totalInvested == last.invested
      && r.value.totalWithdrawn == last.withdrawn
      && r.value.netProfit + capital == last.portfolioValue + last.cash
  {
    if rows == [] then Err(IndexError)
    else if capital > 0.0 && MaxDate(rows) - MinDate(rows) == 0 then Err(ZeroDivisionError)
    else
      var last := rows[|rows| - 1];
      Ok(PerformanceSummary(last.portfolioValue, last.cash, last.invested, last.withdrawn,
                            NetProfit(last, capital)))
  }
}
