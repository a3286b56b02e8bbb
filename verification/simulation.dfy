/** The accumulation simulator: one pass over the classified records that
    buys fixed unit sizes in the bearish categories while cash allows, sells
    fixed unit sizes in the bullish ones while units allow, and records the
    running state after every record. */
module Simulation {
  import opened Regime
  import opened Windows

  /** Units bought in the three bearish categories and sold in the two
      bullish ones. */
  datatype Sizing = Sizing(
    extremeBearish: real,
    bearish: real,
    sidewaysBearish: real,
    bullish: real,
    extremeBullish: real)

  /** The unit sizes used when the form leaves them empty. */
  const DefaultSizing := Sizing(2.0, 1.0, 0.5, 0.5, 1.0)

  predicate NonNegative(u: Sizing) {
    u.extremeBearish >= 0.0 && u.bearish >= 0.0 && u.sidewaysBearish >= 0.0 &&
    u.bullish >= 0.0 && u.extremeBullish >= 0.0
  }

  predicate IsBuyCategory(c: Category) {
    c == ExtremeBearish || c == Bearish || c == SidewaysBearish
  }

  predicate IsSellCategory(c: Category) {
    c == Bullish || c == ExtremeBullish
  }

  /** The units a buy in category `c` would take (zero outside the buy categories). */
  function BuySize(c: Category, u: Sizing): real {
    match c
    case ExtremeBearish => u.extremeBearish
    case Bearish => u.bearish
    case SidewaysBearish => u.sidewaysBearish
    case _ => 0.0
  }

  /** The units a sell in category `c` would give up (zero outside the sell categories). */
  function SellSize(c: Category, u: Sizing): real {
    match c
    case Bullish => u.bullish
    case ExtremeBullish => u.extremeBullish
    case _ => 0.0
  }

  /** The buy decision: the category's size when the category is a buy
      category and the cash before the step pays for that size, nothing
      otherwise. */
  function BuyUnits(c: Category, cash: real, close: real, u: Sizing): (r: real)
    ensures r == BuySize(c, u) || r == 0.0
    ensures r != 0.0 ==> IsBuyCategory(c) && cash >= r * close
    ensures IsBuyCategory(c) && cash >= BuySize(c, u) * close ==> r == BuySize(c, u)
  {
    var size := BuySize(c, u);
    if IsBuyCategory(c) && cash >= size * close then size else 0.0
  }

  /** The sell decision: the category's size when the category is a sell
      category and at least that many units are held, nothing otherwise (no
      partial fills, no short sales). */
  function SellUnits(c: Category, held: real, u: Sizing): (r: real)
    ensures r == SellSize(c, u) || r == 0.0
    ensures r != 0.0 ==> IsSellCategory(c) && held >= r
    ensures IsSellCategory(c) && held >= SellSize(c, u) ==> r == SellSize(c, u)
  {
    var size := SellSize(c, u);
    if IsSellCategory(c) && held >= size then size else 0.0
  }

  /** The simulator's running state. */
  datatype Account = Account(cash: real, units: real, invested: real, withdrawn: real)

  /** One row of the "Backtesting Results" table. */
  datatype LedgerRow = LedgerRow(
    date: int,
    category: Category,
    close: real,
    bought: real,
    sold: real,
    totalUnits: real,
    portfolioValue: real,
    invested: real,
    withdrawn: real,
    cash: real)

  function AccountOf(row: LedgerRow): Account {
    Account(row.cash, row.totalUnits, row.invested, row.withdrawn)
  }

  /** Cash is the capital less what was spent on buys plus what sells brought in. */
  predicate Conserves(a: Account, capital: real) {
    a.cash == capital - a.invested + a.withdrawn
  }

  /** One simulation step: decide the buy against the cash before the step,
      then the sell against the units held before the step, and report the
      new running state. */
  function Step(a: Account, r: ClassifiedRecord, u: Sizing): (row: LedgerRow)
    ensures row.date == r.date && row.category == r.category && row.close == r.close
    ensures row.cash + row.invested - row.withdrawn == a.cash + a.invested - a.withdrawn
  {
    var close := r.close;
    var buy := BuyUnits(r.category, a.cash, close, u);
    var sell := SellUnits(r.category, a.units, u);
    var units := a.units + buy - sell;
    LedgerRow(r.date, r.category, close, buy, sell, units, units * close,
              a.invested + buy * close, a.withdrawn + sell * close,
              a.cash - buy * close + sell * close)
  }

  /** What one step guarantees: the row copies the record; buy and sell are
      never both non-zero; a buy was affordable and a sell was covered before
      the step; the running totals move by exactly this row's trades, which
      keeps cash plus invested less withdrawn unchanged; and with
      non-negative sizes and price neither units nor cash go negative. */
  lemma StepFacts(a: Account, r: ClassifiedRecord, u: Sizing)
    ensures var row := Step(a, r, u);
      && row.date == r.date && row.category == r.category && row.close == r.close
      && (row.bought == 0.0 || row.sold == 0.0)
      && (row.bought != 0.0 ==> IsBuyCategory(r.category) && a.cash >= row.bought * r.close)
      && (row.sold != 0.0 ==> IsSellCategory(r.category) && a.units >= row.sold)
      && row.totalUnits == a.units + row.bought - row.sold
      && row.portfolioValue == row.totalUnits * row.close
      && row.invested == a.invested + row.bought * r.close
      && row.withdrawn == a.withdrawn + row.sold * r.close
      && row.cash + row.invested - row.withdrawn == a.cash + a.invested - a.withdrawn
      && (NonNegative(u) && a.units >= 0.0 ==> row.totalUnits >= 0.0)
      && (NonNegative(u) && r.close >= 0.0 && a.cash >= 0.0 ==> row.cash >= 0.0)
      && (NonNegative(u) && r.close >= 0.0 ==> row.invested >= a.invested && row.withdrawn >= a.withdrawn)
  {
  }

  /** The state before row `k`: the starting state for the first row, the
      state row `k - 1` reports for the others. */
  function AccountBefore(rows: seq<LedgerRow>, k: nat, capital: real): Account
    requires k <= |rows|
  {
    if k == 0 then Account(capital, 0.0, 0.0, 0.0) else AccountOf(rows[k - 1])
  }

  /** `rows` is a ledger of `records`: one row per record, in order, each the
      step from the state the row before it left. */
  ghost predicate IsLedger(rows: seq<LedgerRow>, records: seq<ClassifiedRecord>, capital: real, u: Sizing) {
    && |rows| == |records|
    && forall k {:trigger records[k]} :: 0 <= k < |records| ==>
         rows[k] == Step(AccountBefore(rows, k, capital), records[k], u)
  }

  lemma {:induction false} LedgersAgreeUpTo(rows1: seq<LedgerRow>, rows2: seq<LedgerRow>, records: seq<ClassifiedRecord>, capital: real, u: Sizing, k: nat)
    requires IsLedger(rows1, records, capital, u) && IsLedger(rows2, records, capital, u)
    requires k < |records|
    ensures rows1[k] == rows2[k]
  {
    if k > 0 {
      LedgersAgreeUpTo(rows1, rows2, records, capital, u, k - 1);
    }
    assert rows1[k] == Step(AccountBefore(rows1, k, capital), records[k], u);
    assert rows2[k] == Step(AccountBefore(rows2, k, capital), records[k], u);
  }

  /** The replay is deterministic: the same records, capital and sizes
      admit exactly one ledger. */
  lemma LedgerUnique(rows1: seq<LedgerRow>, rows2: seq<LedgerRow>, records: seq<ClassifiedRecord>, capital: real, u: Sizing)
    requires IsLedger(rows1, records, capital, u) && IsLedger(rows2, records, capital, u)
    ensures rows1 == rows2
  {
    forall k | 0 <= k < |records|
      ensures rows1[k] == rows2[k]
    {
      LedgersAgreeUpTo(rows1, rows2, records, capital, u, k);
    }
  }

  /** Appending the next step to a ledger of the first `i` records gives a
      ledger of the first `i + 1`. */
  lemma LedgerSnoc(rows: seq<LedgerRow>, records: seq<ClassifiedRecord>, i: nat, capital: real, u: Sizing)
    requires i < |records| && IsLedger(rows, records[..i], capital, u)
    ensures IsLedger(rows + [Step(AccountBefore(rows, i, capital), records[i], u)], records[..i + 1], capital, u)
  {
  }

  /** The replay loop: running state in local variables, one ledger row
      appended per record. */
  method Simulate(records: seq<ClassifiedRecord>, capital: real, u: Sizing) returns (rows: seq<LedgerRow>)
    ensures IsLedger(rows, records, capital, u)
  {
    var totalUnits, investedCapital, totalWithdrawals, cash := 0.0, 0.0, 0.0, capital;
    rows := [];
    var i := 0;
    while i < |records|
      invariant 0 <= i <= |records|
      invariant IsLedger(rows, records[..i], capital, u)
      invariant Account(cash, totalUnits, investedCapital, totalWithdrawals) == AccountBefore(rows, i, capital)
    {
      ghost var before := Account(cash, totalUnits, investedCapital, totalWithdrawals);
      var rec := records[i];
      var closePrice := rec.close;
      var category := rec.category;
      var buy, sell := 0.0, 0.0;
      if category == ExtremeBearish && cash >= u.extremeBearish * closePrice {
        buy := u.extremeBearish;
      } else if category == Bearish && cash >= u.bearish * closePrice {
        buy := u.bearish;
      } else if category == SidewaysBearish && cash >= u.sidewaysBearish * closePrice {
        buy := u.sidewaysBearish;
      }
      assert buy == BuyUnits(category, before.cash, closePrice, u);
      investedCapital := investedCapital + buy * closePrice;
      cash := cash - buy * closePrice;
      if category == ExtremeBullish && totalUnits >= u.extremeBullish {
        sell := u.extremeBullish;
      } else if category == Bullish && totalUnits >= u.bullish {
        sell := u.bullish;
      }
      assert sell == SellUnits(category, before.units, u);
      totalWithdrawals := totalWithdrawals + sell * closePrice;
      cash := cash + sell * closePrice;
      totalUnits := totalUnits + buy - sell;
      var portfolioValue := totalUnits * closePrice;
      var row := LedgerRow(rec.date, category, closePrice, buy, sell, totalUnits,
                           portfolioValue, investedCapital, totalWithdrawals, cash);
      assert row == Step(before, rec, u);
      LedgerSnoc(rows, records, i, capital, u);
      rows := rows + [row];
      i := i + 1;
    }
    assert records[..|records|] == records;
  }

  /** Units bought, units sold, cash spent and cash received over some rows. */
  function SumBought(rows: seq<LedgerRow>): real {
    if rows == [] then 0.0 else SumBought(rows[..|rows| - 1]) + rows[|rows| - 1].bought
  }

  function SumSold(rows: seq<LedgerRow>): real {
    if rows == [] then 0.0 else SumSold(rows[..|rows| - 1]) + rows[|rows| - 1].sold
  }

  function SumSpent(rows: seq<LedgerRow>): real {
    if rows == [] then 0.0
    else SumSpent(rows[..|rows| - 1]) + rows[|rows| - 1].bought * rows[|rows| - 1].close
  }

  function SumReceived(rows: seq<LedgerRow>): real {
    if rows == [] then 0.0
    else SumReceived(rows[..|rows| - 1]) + rows[|rows| - 1].sold * rows[|rows| - 1].close
  }

  /** The ledger has one row per record, in the records' order; each row
      keeps the record's date, category and close; no row both buys and
      sells; every buy was affordable and in a bearish category, every sell
      covered and in a bullish one; and the portfolio value is the units
      held times the row's close. */
  lemma LedgerFollowsRecords(rows: seq<LedgerRow>, records: seq<ClassifiedRecord>, capital: real, u: Sizing)
    requires IsLedger(rows, records, capital, u)
    ensures
      && |rows| == |records|
      && forall k :: 0 <= k < |rows| ==>
           && rows[k].date == records[k].date
           && rows[k].category == records[k].category
           && rows[k].close == records[k].close
           && (rows[k].bought == 0.0 || rows[k].sold == 0.0)
           && (rows[k].bought != 0.0 ==>
                 IsBuyCategory(records[k].category)
                 && AccountBefore(rows, k, capital).cash >= rows[k].bought * rows[k].close)
           && (rows[k].sold != 0.0 ==>
                 IsSellCategory(records[k].category)
                 && AccountBefore(rows, k, capital).units >= rows[k].sold)
           && rows[k].portfolioValue == rows[k].totalUnits * rows[k].close
  {
    forall k | 0 <= k < |rows|
      ensures
           && rows[k].date == records[k].date
           && rows[k].category == records[k].category
           && rows[k].close == records[k].close
           && (rows[k].bought == 0.0 || rows[k].sold == 0.0)
           && (rows[k].bought != 0.0 ==>
                 IsBuyCategory(records[k].category)
                 && AccountBefore(rows, k, capital).cash >= rows[k].bought * rows[k].close)
           && (rows[k].sold != 0.0 ==>
                 IsSellCategory(records[k].category)
                 && AccountBefore(rows, k, capital).units >= rows[k].sold)
           && rows[k].portfolioValue == rows[k].totalUnits * rows[k].close
    {
      assert rows[k] == Step(AccountBefore(rows, k, capital), records[k], u);
      StepFacts(AccountBefore(rows, k, capital), records[k], u);
    }
  }

  lemma {:induction false} ConservesUpTo(rows: seq<LedgerRow>, records: seq<ClassifiedRecord>, capital: real, u: Sizing, k: nat)
    requires IsLedger(rows, records, capital, u)
    requires k < |rows|
    ensures Conserves(AccountOf(rows[k]), capital)
  {
    if k > 0 {
      ConservesUpTo(rows, records, capital, u, k - 1);
    }
    assert rows[k] == Step(AccountBefore(rows, k, capital), records[k], u);
    StepFacts(AccountBefore(rows, k, capital), records[k], u);
  }

  /** Cash conservation after every step: cash is the starting capital less
      everything invested plus everything withdrawn. */
  lemma LedgerConserves(rows: seq<LedgerRow>, records: seq<ClassifiedRecord>, capital: real, u: Sizing)
    requires IsLedger(rows, records, capital, u)
    ensures
      forall k :: 0 <= k < |rows| ==> rows[k].cash == capital - rows[k].invested + rows[k].withdrawn
  {
    forall k | 0 <= k < |rows|
      ensures rows[k].cash == capital - rows[k].invested + rows[k].withdrawn
    {
      ConservesUpTo(rows, records, capital, u, k);
    }
  }

  /** All closes of the records are at least zero. */
  predicate NonNegativePrices(records: seq<ClassifiedRecord>) {
    forall k :: 0 <= k < |records| ==> records[k].close >= 0.0
  }

  lemma {:induction false} SolventUpTo(rows: seq<LedgerRow>, records: seq<ClassifiedRecord>, capital: real, u: Sizing, k: nat)
    requires IsLedger(rows, records, capital, u)
    requires NonNegative(u) && capital >= 0.0 && NonNegativePrices(records)
    requires k < |rows|
    ensures rows[k].cash >= 0.0 && rows[k].totalUnits >= 0.0
    ensures rows[k].invested >= 0.0 && rows[k].withdrawn >= 0.0
  {
    if k > 0 {
      SolventUpTo(rows, records, capital, u, k - 1);
    }
    assert rows[k] == Step(AccountBefore(rows, k, capital), records[k], u);
    StepFacts(AccountBefore(rows, k, capital), records[k], u);
  }

  lemma {:induction false} UnitsUpTo(rows: seq<LedgerRow>, records: seq<ClassifiedRecord>, capital: real, u: Sizing, k: nat)
    requires IsLedger(rows, records, capital, u)
    requires NonNegative(u)
    requires k < |rows|
    ensures rows[k].totalUnits >= 0.0
  {
    if k > 0 {
      UnitsUpTo(rows, records, capital, u, k - 1);
    }
    assert rows[k] == Step(AccountBefore(rows, k, capital), records[k], u);
    StepFacts(AccountBefore(rows, k, capital), records[k], u);
  }

  /** No short position: whatever the capital and the prices, non-negative
      sizes keep the units held at or above zero, since a sell needs that
      many units in hand. */
  lemma LedgerNoShortPosition(rows: seq<LedgerRow>, records: seq<ClassifiedRecord>, capital: real, u: Sizing)
    requires NonNegative(u)
    requires IsLedger(rows, records, capital, u)
    ensures forall k :: 0 <= k < |rows| ==> rows[k].totalUnits >= 0.0
  {
    forall k | 0 <= k < |rows|
      ensures rows[k].totalUnits >= 0.0
    {
      UnitsUpTo(rows, records, capital, u, k);
    }
  }

  /** No overdraft and no short position: with non-negative capital, sizes
      and prices, cash and units held stay at or above zero after every step,
      and so do the invested and withdrawn totals. */
  lemma LedgerSolvent(rows: seq<LedgerRow>, records: seq<ClassifiedRecord>, capital: real, u: Sizing)
    requires NonNegative(u) && capital >= 0.0 && NonNegativePrices(records)
    requires IsLedger(rows, records, capital, u)
    ensures
      forall k :: 0 <= k < |rows| ==>
        && rows[k].cash >= 0.0 && rows[k].totalUnits >= 0.0
        && rows[k].invested >= 0.0 && rows[k].withdrawn >= 0.0
  {
    forall k | 0 <= k < |rows|
      ensures && rows[k].cash >= 0.0 && rows[k].totalUnits >= 0.0
              && rows[k].invested >= 0.0 && rows[k].withdrawn >= 0.0
    {
      SolventUpTo(rows, records, capital, u, k);
    }
  }

  lemma {:induction false} MonotoneUpTo(rows: seq<LedgerRow>, records: seq<ClassifiedRecord>, capital: real, u: Sizing, j: nat, k: nat)
    requires IsLedger(rows, records, capital, u)
    requires NonNegative(u) && NonNegativePrices(records)
    requires j <= k < |rows|
    ensures rows[j].invested <= rows[k].invested && rows[j].withdrawn <= rows[k].withdrawn
    decreases k
  {
    if j < k {
      MonotoneUpTo(rows, records, capital, u, j, k - 1);
      assert rows[k] == Step(AccountBefore(rows, k, capital), records[k], u);
      StepFacts(AccountBefore(rows, k, capital), records[k], u);
    }
  }

  /** With non-negative sizes and prices the invested and withdrawn totals
      never decrease from one row to a later one. */
  lemma LedgerMonotone(rows: seq<LedgerRow>, records: seq<ClassifiedRecord>, capital: real, u: Sizing)
    requires NonNegative(u) && NonNegativePrices(records)
    requires IsLedger(rows, records, capital, u)
    ensures
      forall j, k :: 0 <= j <= k < |rows| ==>
        rows[j].invested <= rows[k].invested && rows[j].withdrawn <= rows[k].withdrawn
  {
    forall j, k | 0 <= j <= k < |rows|
      ensures rows[j].invested <= rows[k].invested && rows[j].withdrawn <= rows[k].withdrawn
    {
      MonotoneUpTo(rows, records, capital, u, j, k);
    }
  }

  lemma {:induction false} TotalsUpTo(rows: seq<LedgerRow>, records: seq<ClassifiedRecord>, capital: real, u: Sizing, k: nat)
    requires IsLedger(rows, records, capital, u)
    requires k < |rows|
    ensures rows[k].totalUnits == SumBought(rows[..k + 1]) - SumSold(rows[..k + 1])
    ensures rows[k].invested == SumSpent(rows[..k + 1])
    ensures rows[k].withdrawn == SumReceived(rows[..k + 1])
  {
    if k > 0 {
      TotalsUpTo(rows, records, capital, u, k - 1);
    }
    assert rows[..k + 1][..k] == rows[..k];
    assert rows[k] == Step(AccountBefore(rows, k, capital), records[k], u);
    StepFacts(AccountBefore(rows, k, capital), records[k], u);
  }

  /** Running totals track the history: after row `k` the units held are
      the units bought minus the units sold in rows 0..k, the invested total
      is the cash spent on those buys and the withdrawn total the cash those
      sells brought in. */
  lemma LedgerTotals(rows: seq<LedgerRow>, records: seq<ClassifiedRecord>, capital: real, u: Sizing)
    requires IsLedger(rows, records, capital, u)
    ensures
      forall k :: 0 <= k < |rows| ==>
        && rows[k].totalUnits == SumBought(rows[..k + 1]) - SumSold(rows[..k + 1])
        && rows[k].invested == SumSpent(rows[..k + 1])
        && rows[k].withdrawn == SumReceived(rows[..k + 1])
  {
    forall k | 0 <= k < |rows|
      ensures && rows[k].totalUnits == SumBought(rows[..k + 1]) - SumSold(rows[..k + 1])
              && rows[k].invested == SumSpent(rows[..k + 1])
              && rows[k].withdrawn == SumReceived(rows[..k + 1])
    {
      TotalsUpTo(rows, records, capital, u, k);
    }
  }

  /** Every record closes at price `p`. */
  predicate ConstantPrice(records: seq<ClassifiedRecord>, p: real) {
    forall k :: 0 <= k < |records| ==> records[k].close == p
  }

  lemma {:induction false} BookValueUpTo(rows: seq<LedgerRow>, records: seq<ClassifiedRecord>, capital: real, u: Sizing, p: real, k: nat)
    requires IsLedger(rows, records, capital, u)
    requires ConstantPrice(records, p)
    requires k < |rows|
    ensures rows[k].invested - rows[k].withdrawn == rows[k].totalUnits * p
  {
    var a := AccountBefore(rows, k, capital);
    if k > 0 {
      BookValueUpTo(rows, records, capital, u, p, k - 1);
    }
    assert a.invested - a.withdrawn == a.units * p;
    assert rows[k] == Step(a, records[k], u);
    StepFacts(a, records[k], u);
    var b, s := rows[k].bought, rows[k].sold;
    calc {
      rows[k].invested - rows[k].withdrawn;
      a.invested + b * p - (a.withdrawn + s * p);
      a.units * p + b * p - s * p;
      (a.units + b - s) * p;
    }
  }

  /** While the price never moves, the units held are worth exactly what
      was invested less what was withdrawn: the strategy neither gains nor
      loses. */
  lemma ConstantPriceBookValue(rows: seq<LedgerRow>, records: seq<ClassifiedRecord>, capital: real, u: Sizing, p: real)
    requires ConstantPrice(records, p)
    requires IsLedger(rows, records, capital, u)
    ensures
      forall k :: 0 <= k < |rows| ==> rows[k].invested - rows[k].withdrawn == rows[k].totalUnits * p
  {
    forall k | 0 <= k < |rows|
      ensures rows[k].invested - rows[k].withdrawn == rows[k].totalUnits * p
    {
      BookValueUpTo(rows, records, capital, u, p, k);
    }
  }

  /** Starting capital 1000, one Extreme Bearish record at 100 and the
      default sizes: the step buys 2 units, leaving 800 cash, 2 units held,
      200 invested and a position worth 200. */
  lemma SingleBuyScenario()
    ensures var row := Step(Account(1000.0, 0.0, 0.0, 0.0),
                            ClassifiedRecord(0, 100.0, 250, 50.0, -0.5, ExtremeBearish), DefaultSizing);
      && row.bought == 2.0 && row.sold == 0.0 && row.totalUnits == 2.0
      && row.portfolioValue == 200.0 && row.invested == 200.0
      && row.withdrawn == 0.0 && row.cash == 800.0
  {
    var row := Step(Account(1000.0, 0.0, 0.0, 0.0),
                    ClassifiedRecord(0, 100.0, 250, 50.0, -0.5, ExtremeBearish), DefaultSizing);
    assert row.bought == 2.0;
    assert row.sold == 0.0;
  }
}
