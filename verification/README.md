# crypto_backtester: a Dafny model of its decision logic

This project models the three pieces of the crypto backtester that make
decisions:

- **The strategy** (`strategy.py`, module `Strategy`). On each bar, `next`
  decides what to ask of the broker. Without a position it enters long or short
  on an EMA crossover that agrees with the long-term trend. With a position,
  and only under the "Fixed" exit method, it closes when the close price
  reaches the stop or the target. The stop is either a fixed percentage or an
  ATR multiple away from the entry. The decision is the pure function
  `Strategy.Next`. It takes the position, the indicator readings, the close
  price and the parameters, and it returns `Buy`, `Sell`, `Close` or
  `NoAction`. The trade log that `notify_trade` appends to is the class
  `Strategy.TradeLog`, whose `records` field is a sequence.
- **The genotype** (`ga_optimization.py`, module `GaOptimization`). This covers
  the 20-entry bound table, the sampling of a fresh individual, and the decode
  of a gene vector into the parameters dictionary. The decode appears twice in
  the source: in `eval_individual` and again for `best_params` in `main`. It
  also covers the fitness evaluation, which gives the penalty -1e6 when the
  backtest raises.
- **The grid optimiser** (`optimization.py`, module `Optimization`). This covers
  the loop that builds the three-point `param_grid` and the loop that picks the
  run with the highest value `strat.broker.getvalue()` reports, read after all
  runs have finished. Both are methods with loop
  invariants.

The engine computes the indicator values: the long and short EMA pairs, the
short pair one bar back, and the ATR. In the model these values are inputs.
Prices and genes are `real`.

The model keys the parameters dictionary by an enumeration of the 20 parameter
names (`GaOptimization.ParamKey`) rather than by strings. The keys are the
same; only their representation differs.

A units mismatch is recorded here and not corrected. The GA bounds give the
exit percentages as fractions: 0.005 to 0.11 for the stop and 0.015 to 0.12
for the target (ga_optimization.py:15-16). The strategy divides these values by
100 (strategy.py:69-70, 75-76). As a result, the stop and target of every
in-bounds genotype (such as the initial population) lie within about 0.1% of
the entry price. The grid optimiser has the same
mismatch: its defaults are 0.01, 0.02 and 0.01 with steps of 0.001
(optimization.py:13-15, 24-26), which the strategy also divides by 100. For the GA bounds,
`GaOptimization.SearchedExitsAreTight` proves this bound; for the grid it follows
from `Optimization.DefaultGridValues`. The model keeps each formula exactly as written.

The model follows the code, which behaves as follows:
- the bear trend is a strict `<`, so equal long EMAs give no trend at all;
- nothing force-closes a position at the end of the data;
- the trade records carry no exit reason;
- the filter toggles are never read by `next`;
- rounding is Python 3's `round`, which sends ties to the even integer.

## Model

| member | source | states |
|---|---|---|
| Strategy.SideOf | strategy.py:57-73 | A position is flat exactly when its size is 0 and long exactly when its size is positive. |
| Strategy.TrendsExclusive | strategy.py:49-50 | The bull and bear trends never hold together. Neither holds when the long EMAs are equal, and one holds whenever they differ. |
| Strategy.SignalsExclusive | strategy.py:52-55 | The long and short entry signals never hold on the same bar. |
| Strategy.BullTrend | strategy.py:49 | The long fast EMA above the long slow EMA; see TrendsExclusive. |
| Strategy.BearTrend | strategy.py:50 | The long fast EMA below the long slow EMA; see TrendsExclusive. |
| Strategy.LongSignal | strategy.py:52-53 | Bull trend with an upward cross of the short pair; see SignalsExclusive, NoRepeatedLongSignal and Next. |
| Strategy.ShortSignal | strategy.py:54-55 | Bear trend with a downward cross of the short pair; see SignalsExclusive, NoRepeatedShortSignal and Next. |
| Strategy.NoRepeatedLongSignal | strategy.py:52-53 | The long signal is an upward cross, so it cannot hold on two consecutive bars. |
| Strategy.NoRepeatedShortSignal | strategy.py:54-55 | The short signal is a downward cross, so it cannot hold on two consecutive bars. |
| Strategy.LongStop | strategy.py:69 | The long stop, ATR-based or fixed; see LongFixedExit, LongAtrExit and StopsBracketEntry. |
| Strategy.LongTarget | strategy.py:70 | The long target; see LongFixedExit, LongAtrExit and StopsBracketEntry. |
| Strategy.ShortStop | strategy.py:75 | The short stop, ATR-based or fixed; see ShortFixedExit and StopsBracketEntry. |
| Strategy.ShortTarget | strategy.py:76 | The short target; see ShortFixedExit and StopsBracketEntry. |
| Strategy.Next | strategy.py:47-78 | Buy or Sell only when flat. When flat: Buy iff the long signal holds, Sell iff the short signal holds, never Close. With a position: only Close or NoAction. Any exit method other than "Fixed" never closes. Long closes iff close <= stop or close >= target. Short closes iff close >= stop or close <= target. |
| Strategy.LongFixedExit | strategy.py:69-72 | Long, fixed stop: close iff close <= entry*(1 - stopPct/100) or close >= entry*(1 + takePct/100). |
| Strategy.LongAtrExit | strategy.py:69-72 | Long with the ATR stop: the stop becomes entry - atr*atrStopLossFactor and the target is unchanged. |
| Strategy.ShortFixedExit | strategy.py:74-78 | Short, fixed stop: close iff close >= entry*(1 + stopPct/100) or close <= entry*(1 - takePct/100). |
| Strategy.StopsBracketEntry | strategy.py:69-76 | Take a positive entry and positive percentages (or a positive ATR distance). Then the long stop is below the entry and the target above it; the short side is mirrored. |
| Strategy.DefaultParams | strategy.py:5-34 | The declared defaults, field by field; the exit percentages are whole percent. See DefaultExitExample and ToStrategyParams. |
| Strategy.DefaultExitExample | strategy.py:13-14 | With the defaults (1% stop, 2% target) and a long entry at 100: 98.9 and 99 close, 102.1 closes, 100 and 101.99 hold. |
| Strategy.FiltersNeverRead | strategy.py:20-33 | For the same readings, two parameter sets that agree on exit method, ATR switch and factor, and the stop and target percentages give the same decision. The filter toggles and thresholds, the trailing percentage and `atrTakeProfitFactor` are never read by `next`. The EMA and ATR periods act only through the indicator readings, which the model takes as inputs. |
| Strategy.RecordOf | strategy.py:83-89 | The record appended for a closed trade; see TradeLog.NotifyTrade and LoggedFromClosed. |
| Strategy.Logged | strategy.py:80-89 | The log a sequence of notifications produces; see LoggedLength, LoggedExtends and LoggedFromClosed. |
| Strategy.LoggedLength | strategy.py:80-89 | The log holds exactly one record per closed trade notification. |
| Strategy.LoggedExtends | strategy.py:80-89 | Later notifications never change earlier records: the log only grows at its end. |
| Strategy.LoggedFromClosed | strategy.py:82-89 | Every record is the record of some closed trade that was notified. |
| Strategy.TradeLog.constructor | strategy.py:45 | The log starts empty. |
| Strategy.TradeLog.NotifyTrade | strategy.py:80-89 | A closed trade appends exactly its record. Any other notification leaves the log as it was. The log length stays equal to the number of closed notifications. |
| GaOptimization.ParamBoundaries | ga_optimization.py:10-31 | The 20 (low, high) bounds in gene order; see SchemaWellFormed and DecodeInBounds. |
| GaOptimization.SchemaWellFormed | ga_optimization.py:10-32 | The table has 20 entries, each with lo < hi. Integer fields have integer bounds. The 20 names are distinct. |
| GaOptimization.RandomGene | ga_optimization.py:40-41 | For a draw in [0,1], the gene lies between the two bounds. |
| GaOptimization.CreateIndividual | ga_optimization.py:43-44 | A fresh individual has exactly 20 genes, and gene i lies in [lo_i, hi_i]. |
| GaOptimization.RoundHalfEven | ga_optimization.py:52 | The rounded integer is within 1/2 of the gene, and a tie goes to the even integer. |
| GaOptimization.RoundHalfEvenUnique | ga_optimization.py:52 | No other integer satisfies that contract, so it pins down Python's `round`. |
| GaOptimization.RoundOfInteger | ga_optimization.py:52 | Rounding an integer gives the integer back. |
| GaOptimization.RoundMonotone | ga_optimization.py:52 | Rounding preserves order. |
| GaOptimization.RoundWithin | ga_optimization.py:52 | A gene between two integers rounds to an integer between them. |
| GaOptimization.DecodeGene | ga_optimization.py:52-71 | An integer field is within 1/2 of its gene. A real field is the gene unchanged. A flag is true iff the gene is >= 0.5, inclusive at 0.5. |
| GaOptimization.GeneIndex | ga_optimization.py:52-71 | Each parameter name reads the gene at its own position in the gene order. |
| GaOptimization.Decode | ga_optimization.py:51-71 | The decode in `eval_individual`; see DecodeBySchema and DecodeInBounds. |
| GaOptimization.DecodeBySchema | ga_optimization.py:51-71 | Each decoded parameter is its gene decoded under its kind. Genes 0,1,2,3,8,11,13 are rounded. Genes 4,5,6,9,14,15,17 pass through. Genes 7,10,12,16,18,19 are flags. |
| GaOptimization.DecodeInBounds | ga_optimization.py:10-71 | For an in-bounds genotype, each integer field lies in its integer bound (for example longTermFastLen in [10,200]) and each real field lies in its bound. |
| GaOptimization.EvalParams | ga_optimization.py:51-71 | The parameters dictionary; see EvalParamsKeys and BestParamsIsDecode. |
| GaOptimization.EvalParamsKeys | ga_optimization.py:51-71 | The parameters dictionary has exactly 20 keys, one per parameter name, and each key holds its field. |
| GaOptimization.BestEntry | ga_optimization.py:110-131 | One entry of the `best_params` literal; see BestParamsIsDecode. |
| GaOptimization.BestParams | ga_optimization.py:110-131 | The `best_params` dictionary; see BestParamsIsDecode. |
| GaOptimization.BestParamsIsDecode | ga_optimization.py:110-131 | `best_params` in `main` equals the `eval_individual` decode of the same genes, with the same 20 keys. |
| GaOptimization.EvalIndividual | ga_optimization.py:73-85 | The result is always a 1-tuple. It holds the backtest's final value if the backtest returns, and -1e6 if it raises. |
| GaOptimization.UnimportedRunBacktest | ga_optimization.py:75 | The unbound name raises on every call; see EvalAsWrittenAlwaysPenalised. |
| GaOptimization.EvalAsWrittenAlwaysPenalised | ga_optimization.py:75 | With `run_backtest` unbound, every individual gets the penalty -1e6, whatever its genes. |
| GaOptimization.EvalWithWorkingBacktest | ga_optimization.py:73-85 | With a backtest that always returns, the fitness is that backtest's final value for the decoded parameters. |
| GaOptimization.ToStrategyParams | backtesting.py:9 | The decoded stop and target percentages reach the strategy unchanged. The exit method and the ATR switch keep their defaults ("Fixed", off). |
| GaOptimization.SearchedExitsAreTight | ga_optimization.py:15-16 | For in-bounds genes, the long stop lies within 0.11% below the entry and the target within 0.12% above it. This is the units mismatch. |
| Optimization.Sub | optimization.py:34 | int - int stays an int. Anything involving a float is a float. The value is the difference. |
| Optimization.Add | optimization.py:34 | int + int stays an int. Anything involving a float is a float. The value is the sum. |
| Optimization.AtLeastOne | optimization.py:36 | A positive value is kept. A non-positive value becomes 1. |
| Optimization.Around | optimization.py:34-38 | The three unclamped candidates; see GridValues and FloatGridUnclamped. |
| Optimization.GridValues | optimization.py:32-39 | Exactly three values. For a float default they are default - step, default, default + step. For an int default each of those is kept positive. |
| Optimization.IntGridPositive | optimization.py:33-36 | For an integer default and step, every grid value is an integer >= 1. |
| Optimization.IntGridKeepsPositiveValues | optimization.py:34-36 | For a positive integer default, the middle value is the default. The ends equal default -/+ step whenever those are positive. |
| Optimization.FloatGridUnclamped | optimization.py:37-38 | Float values are never clamped. |
| Optimization.BuildParamGrid | optimization.py:30-39 | The grid's items follow the defaults' order: item j has the j-th default's name and the grid values of that default and its step. The names stay distinct, and every list has three elements. |
| Optimization.DefaultParams | optimization.py:8-16 | The seven defaults in declaration order; see DefaultsFitGrid and DefaultGridValues. |
| Optimization.Steps | optimization.py:19-27 | One step per default; see DefaultsFitGrid and DefaultGridValues. |
| Optimization.DefaultsFitGrid | optimization.py:8-27 | The seven defaults have distinct names and each has a step, so the grid loop never fails a lookup. |
| Optimization.DefaultGridValues | optimization.py:8-27 | The grid around each of the distinct defaults: 49-51, 199-201, 9-11, 19-21, and 0.01 and 0.02 each -/+ 0.001. |
| Optimization.Exceeds | optimization.py:61 | The strict `>` against the best so far, where any value beats minus infinity; see SelectBest. |
| Optimization.SelectBest | optimization.py:56-64 | No runs gives minus infinity and no run. Otherwise the result is the maximum value and a run that attains it. That run is the earliest one attaining the maximum, because the comparison is a strict `>`. |

## Left out

- Indicator computation (EMA, ATR) and the warm-up before the engine first calls `next`: these belong to the backtesting engine, so indicator readings are inputs.
- Order execution, fills, sizing, commission and portfolio value: these belong to the engine's broker. The model returns the requested action and claims no fill price, size or profit. A trade's profit and size appear only as values passed through to the log.
- Strategy.Next: the change of position after an order is not modelled. The engine fills market orders on the next bar, so "at most one open position" is stated as "entries are requested only when flat".
- Strategy.TradeLog.NotifyTrade: date formatting (`num2date(...).strftime(...)`) is not modelled. The record keeps the engine's numeric timestamps.
- The "Trailing" and "ATR" exit methods: the source has no code for them, so under any method other than "Fixed" an open position is never closed by `next`. `Strategy.Next` states this.
- DEAP's population, tournament selection, blend crossover, Gaussian mutation, `eaSimple` and `selBest`, plus the random generator and the process pool: these are randomised library code and concurrency. A uniform draw appears only as a number in [0,1] passed to `RandomGene`.
- GaOptimization.SearchedExitsAreTight: blend crossover (alpha 0.5) and Gaussian mutation (sigma 1.0) move genes outside their bounds, and nothing clamps them afterwards (ga_optimization.py:88-89). The bounds proved here and in `GaOptimization.DecodeInBounds` therefore cover the initial population, not every individual that is evaluated.
- Floating point: genes, prices, portfolio values and grid values are mathematical reals, so a NaN portfolio value (which never beats minus infinity at optimization.py:61) cannot be represented, and IEEE rounding of `random.uniform`, of the products in the stops, of the `0.5` tie in `round`, and of the float grid values (0.01 - 0.001 is 0.009 here, 0.009000000000000001 in doubles) is not modelled.
- The backtest itself (`run_backtest`, backtesting.py) is a function parameter of `EvalIndividual`. It either returns an initial and final value or raises.
- Fetching price data, the dashboard and live order placement (data.py, main.py, dashboard.py, live_api.py) are I/O and presentation and are not part of this model.
- Optimization.SelectBest: a run is represented only by the value `strat.broker.getvalue()` gives for it after all runs (the engine decides that value), and the run answered is its index.
- Optimization.BuildParamGrid: the engine's expansion of the grid into runs (`optstrategy` over the product of the lists, in the grid's key order) is not modelled. `SelectBest` takes the runs' values in whatever order the engine produces them, so which run wins a tie is stated only relative to that order.
- GaOptimization.EvalIndividual: the message printed in the `except` branch (ga_optimization.py:82) is console output and is not modelled; only the penalty fitness is.

## Findings

| source | as written | input that shows it | evidently intended | confidence | as-written member | corrected member |
|---|---|---|---|---|---|---|
| ga_optimization.py:75 | `run_backtest` is called but never imported (the imports are at lines 2-7), so every call raises a NameError. The `except` branch then gives every individual the fitness -1e6. | any individual, e.g. the 20 lower bounds | import `run_backtest` from backtesting.py, so that the fitness is the backtest's final portfolio value | high; not executed | GaOptimization.EvalAsWrittenAlwaysPenalised | GaOptimization.EvalWithWorkingBacktest |
