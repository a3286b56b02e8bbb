# Index Strategy 2.0 — backtest core in Dafny

Index Strategy 2.0 backtests a rule-based index strategy on a daily price
history. The history is a table of dates and closing prices. The backtest
runs in four stages, all inside one web request:

1. **Rolling windows.** Each row is paired with the row `holdingPeriod`
   positions later. The annualised rate of that window,
   `(exit / entry) ** (252 / holdingPeriod) - 1`, is put into one of six
   market regimes by five ascending cut points.
2. **Simulation.** The classified records are replayed in date order
   against a cash account.
   - The three bearish regimes buy a fixed number of units, if the cash
     covers the cost.
   - The two bullish regimes sell a fixed number of units, if enough units
     are held.
   - Every record produces one ledger row: units held, portfolio value,
     total invested, total withdrawn and remaining cash.
3. **Summary.** The final portfolio value, the cash, the totals and a net
   profit are read off the last ledger row. A growth rate divides by the
   day span of the ledger.
4. **Errors.** Any exception raised along the way abandons the run.

The model has six modules: a shared error type, one module per stage, and the composed run:

- `Failures` holds the two Python exceptions the core can raise,
  `IndexError` and `ZeroDivisionError`, and a `Result` type that carries
  them.
- `Regime` holds the six categories, the cut points and `Categorize`.
- `Windows` has `ClassifyWindows`, the pairing loop written as a `while`
  loop. It is proved against the function `Window` that gives each record.
- `Simulation` has `Simulate`, the account loop written as a `while` loop.
  It is proved against `Step`, the function for one ledger row, through
  the predicate `IsLedger`. `IsLedger` says row `k` is `Step` applied to
  the account after row `k - 1`. The lemmas prove these properties of every
  ledger:
  - it is unique
  - cash is conserved
  - the account stays solvent
  - the running totals only grow
  - the running totals add up
  - at a constant price, the book value matches
- `Performance` reads the summary off the ledger. It also records the
  net-profit formula exactly as the source writes it, next to a corrected
  one (see "## Findings").
- `Backtest` composes the stages into one `Run`, with its error cases.

Prices are exact `real`s. Dates are day numbers. The annualised rate is a
function value `RateFn` passed in by the caller, so every result holds for
any rate formula.

## Model

| member | source | states |
|---|---|---|
| Regime.Categorize | app.py:14-26 | The category returned is the first one in chain order whose interval holds the rate. Every category earlier in the chain has an interval that does not hold it, and the result's own interval does hold it, except for the final catch-all (Extreme Bullish). |
| Regime.CategorizeMatchesInterval | app.py:14-26 | For ascending cut points, the rate maps to category `c` if and only if the rate lies in `c`'s left-closed interval. So the six intervals partition the real line. |
| Regime.CutPointGoesUp | app.py:17-26 | For strictly ascending cut points, a rate equal to a cut point belongs to the category above it, because intervals are closed on the left. |
| Regime.FirstTestWins | app.py:15-16 | For out-of-order cut points the chain order decides. 0.07 lies in the Sideways Bearish interval [0.05, 0.20) but is below the first cut point 0.10, so it is Extreme Bearish. |
| Regime.DefaultExamples | app.py:37-43 | With the default cut points (0, 0.06, 0.10, 0.12, 0.15), a rate of 0 is Bearish and a rate of 1 is Extreme Bullish. |
| Windows.Window | app.py:65-77 | The record for entry position `i` carries the date and close of row `i`, the date and close of row `i + h`, and the rate of that pair. Its category is the first one in chain order whose interval holds the rate. |
| Windows.ClassifyWindows | app.py:63-77 | A negative holding period raises IndexError. A zero holding period raises ZeroDivisionError once the loop body runs, and returns no records on an empty history. A positive one returns exactly `max(0, n - h)` records, where record `i` pairs entry `i` with exit `i + h` and carries their dates, closes, rate and category. |
| Simulation.BuyUnits | app.py:93-98 | The units bought are the category's buy size or nothing. A non-zero buy happens only in a bearish category whose cost the cash covers. When the category is bearish and the cash covers its size, exactly that size is bought. |
| Simulation.SellUnits | app.py:103-106 | The units sold are the category's sell size or nothing. A non-zero sell happens only in a bullish category whose size the held units cover. When the category is bullish and the units cover its size, exactly that size is sold. |
| Simulation.Step | app.py:88-117 | One ledger row copies its record's date, category and close. It leaves cash + invested - withdrawn unchanged from the account before it. |
| Simulation.StepFacts | app.py:87-117 | Each ledger row copies the date, category and close of its record. It never both buys and sells. A buy happens only in a bearish category whose size the cash covers, and a sell only in a bullish category whose size the held units cover. The row satisfies: units = old units + bought - sold; portfolio value = units × close; invested and withdrawn grow by the traded amounts; the cash moves by exactly the negated change in net investment. |
| Simulation.Simulate | app.py:81-117 | The rows returned are the ledger of the records: one row per record, each being `Step` of the account left by the row before it, starting from cash = capital and all totals at zero. |
| Simulation.LedgerUnique | app.py:81-117 | For given records, capital and sizes, there is only one ledger, so the loop's output is determined by its inputs. |
| Simulation.LedgerFollowsRecords | app.py:87-112 | Every row of a ledger lines up with its record (date, category, close). No row both buys and sells. Every buy was affordable and every sell was covered by the account before that row. Portfolio value is units held × close. |
| Simulation.LedgerConserves | app.py:84-109 | In every ledger row, remaining cash = capital - total invested + total withdrawn. |
| Simulation.LedgerSolvent | app.py:93-111 | With non-negative sizes, capital and prices, the cash, units held, total invested and total withdrawn never go negative. |
| Simulation.LedgerNoShortPosition | app.py:103-111 | With non-negative sizes, units held never go negative, whatever the capital and prices. |
| Simulation.LedgerMonotone | app.py:100-108 | Total invested and total withdrawn never decrease from one row to a later one. |
| Simulation.LedgerTotals | app.py:100-111 | In row `k`: units held equal units bought minus units sold over rows 0..k; total invested equals the sum of bought × close; total withdrawn equals the sum of sold × close. |
| Simulation.ConstantPriceBookValue | app.py:100-112 | When every close is the same price `p`, total invested - total withdrawn = units held × p in every row. |
| Simulation.SingleBuyScenario | app.py:93-117 | Capital 1000, one Extreme Bearish record at 100, default sizes: the row buys 2 units and holds 2. Its portfolio value is 200, total invested 200 and remaining cash 800. |
| Performance.NetProfit | app.py:124-138 | When cash is conserved, the corrected net profit equals the position's value less the net amount put into it (invested - withdrawn). |
| Performance.NetProfitAsWritten | app.py:124-138 | The net profit the program reports. When cash is conserved it equals portfolio value - invested + twice the withdrawn total, so every sale counts twice. |
| Performance.NetProfitAsWrittenCountsSalesTwice | app.py:124-138 | The source's net profit (portfolio + cash + withdrawn - capital) exceeds the true net profit by exactly the total withdrawn. |
| Performance.FlatPriceNoProfit | app.py:81-138 | For any ledger over records at one constant price, the corrected net profit of the last row is zero. |
| Performance.FlatPriceReportsProfit | app.py:124-138 | Two records at the same price `p` (buy in Extreme Bearish, then sell in Extreme Bullish) form a ledger whose true net profit is 0. The source's formula reports the sale proceeds, `sell size × p`, as profit instead. |
| Performance.MaxDate | app.py:125 | The result is the date of some row, and no row has a later date. |
| Performance.MinDate | app.py:125 | The result is the date of some row, and no row has an earlier date. |
| Performance.Summarize | app.py:124-141 | An empty ledger raises IndexError. It raises ZeroDivisionError exactly when the ledger is non-empty, capital is positive and all rows share one date. Otherwise it reports the last row's portfolio value, cash, invested and withdrawn, with net profit + capital = portfolio value + cash. |
| Backtest.LedgerDatesAreEntryDates | app.py:71-115 | Ledger row `i` carries the entry date of price row `i`, and there are `n - h` rows. |
| Backtest.Run | app.py:63-141 | A negative holding period raises IndexError. A zero holding period raises ZeroDivisionError on a non-empty history and IndexError (no ledger rows) on an empty one. A positive holding period not shorter than the history raises IndexError. Otherwise the run raises ZeroDivisionError exactly when capital is positive and all entry dates coincide, and no other error. On success it returns the classified windows, their unique ledger and its summary. |

## Left out

- The web layer, the uploaded spreadsheet and the Excel output are I/O: the form fields, reading and cleaning the sheet (date coercion, dropping rows without a date or close), and writing the three result sheets. The model starts from a cleaned list of `PricePoint`s and ends at the three tables.
- The catch-all exception handler that turns any failure into an error response is left out. `Run` returns the exception instead.
- The annualised-rate formula is not computed. The real power `(exit / entry) ** (252 / h)` is a caller-supplied `RateFn`. Only its division by the holding period is modelled, as the ZeroDivisionError for `h = 0`.
- A non-positive entry close makes that formula produce an infinite or undefined float rather than raising. Since the rate is abstract, this is not modelled.
- Floating point: closes, units and money are exact reals. Rounding, NaN and infinity are not modelled.
- Dates are integer day numbers, not timestamps.
- Performance.Summarize: the CAGR-on-capital metric is left out. Only its ZeroDivisionError (zero day span with positive capital) is modelled. The power and the 365.25-day year are not.
- Performance.Summarize: it reports the corrected net profit, not the source's `final_val - capital`. The as-written value is `Performance.NetProfitAsWritten`.
- Simulation.LedgerSolvent: cash, invested and withdrawn are proved non-negative only for non-negative sizes, capital and prices. Negative form inputs are accepted by the source and not covered by this bound. Units held are covered for any capital and prices by `Simulation.LedgerNoShortPosition`.

## Findings

| source | as written | input that shows it | evidently intended | confidence | as-written member | corrected member |
|---|---|---|---|---|---|---|
| app.py:124-138 | The final value is portfolio value + remaining cash + total withdrawn, and net profit is that less capital. Remaining cash already includes every sale's proceeds, so withdrawals are counted twice. | Capital 1000. An Extreme Bearish record at close 100 buys 2 units. An Extreme Bullish record at close 100 sells 1. The account ends with 1 unit worth 100 plus cash 900 = 1000, which is no profit, yet the reported net profit is 100. | The final value is portfolio value + remaining cash, and net profit is that less capital. Equivalently, portfolio value - (invested - withdrawn). | high; not executed | Performance.FlatPriceReportsProfit | Performance.FlatPriceNoProfit |
