# Sniperbot backtester core in Dafny

This project models the strategy logic of the Sniperbot BTCUSDT backtester:

- the **break-of-structure (BOS) detector**. It makes one forward scan, keeping a running swing high and swing low.
- the **fair-value-gap (FVG) detector**. It uses a three-candle window.
- **signal extraction**. This is `get_signals` without the data loading. It turns the per-row `bos`/`fvg` labels into an ordered list of trade signals.
- the **trade simulator**. It sets fixed stop/target levels, then scans a bounded window of later candles with the stop checked first.
- the **aggregator**. It counts TP and SL results, computes net pips and the guarded percentages.

Modules:

- `Series` (`series.dfy`): candles, the candle table (`Frame`: the set of columns present plus the rows in index order), labels and directions.
- `Structure` (`structure.dfy`): models `structure.py`.
- `Signals` (`signals.dfy`): models `get_signals` in `main.py`.
- `Executor` (`executor.dfy`): models `simulate_trade`, `run` and the percentage guard of `save_summary` in `executor.py`.

Every loop in the source is a Dafny method with a `for`/`while` loop. Each method is proved equal to a specification function, and the properties are lemmas about those functions:

- `DetectBreakOfStructure` is proved equal to `BosAt`/`BreakAt`/`SwingThrough`.
- `DetectFairValueGaps` is proved equal to `FvgAt`/`GapBetween`.
- `CollectSignals`/`GetSignals` are proved equal to `SignalsBefore`/`ExtractSignals`.
- `SimulateTrade` is proved equal to `TradeResult`/`ScanFrom`.
- `Run` is proved equal to `RunResult`/`Outcomes`/`Summarize`.

The source works on a copy of its data frame. In the model the table is an immutable value, so an input is never changed. The detectors return the new columns and `Annotate` attaches them.

Exceptions become `Result` values:

- `simulate_trade` raises `ValueError` on a direction other than long/short after lower-casing. This is `InvalidDirection`.
- The candle lookups can raise pandas `KeyError`. This happens for a negative row, or when the high/low column is missing and the window is not empty. This is `LookupFailed`.
- `get_signals` reads `close` for every labelled row. When that column is missing this is `MissingColumn(Close)`.
- `run` does not catch errors, so the first error aborts the run (`FirstErrorAborts`).

Where the written specification and the code differ, the model follows the code:

- **No entry filter.** The specification describes a BOS+FVG filter: strength at least 2.0, a same-direction FVG within 3 signals, gap at least 0.5% of close, a strong-candle test, spacing of at least 5, and a counter-trend check. No such code exists. `run` simulates every extracted signal. For that reason the ten-candle example in the specification gives 9 BOS signals and 9 simulated trades here, not an empty summary. `RisingHighsAreAllBullish` and `FlatLowsLeaveNoGaps` state the detector half of that example.
- **Outside bars.** The specification says a new high and a new low "cannot co-occur". They can: an outside bar does both. The code tests the high first, so such a bar is bullish only and the swing low stays put (`BreaksMoveOneSwing`, `SwingLowIsMinOffNewHighs`).
- **Merge debris.** `main.py` and `executor.py` contain merge debris. The model follows the final coherent version:
  - `get_signals` returns `(signals, df)`. On empty data it returns no signals and an empty table.
  - `simulate_trade` takes the data frame, row index and lookahead (default 3). It scans candles rather than drawing a random result.
  - `run` calls it with the signal's index.

## Model

| member | source | states |
|---|---|---|
| `Structure.Classify` | structure.py:44-54 | A candle's break strength is positive exactly when it is labelled, and 0 when unlabelled |
| `Structure.DetectBreakOfStructure` | structure.py:24-58 | Returns one label and one strength per row. Each cell is the BOS of that row against the swing points of the rows before it. With high or low missing, or fewer than 2 rows, every cell is none/0.0 |
| `Structure.SwingHighIsRunningMax` | structure.py:38-47 | After rows 0..i the swing high is at least every high among them and equals one of them: it is their maximum |
| `Structure.NewHighIffAboveSwing` | structure.py:44-47 | A row clears the previous swing high exactly when its high is above every earlier high |
| `Structure.BreakAtCharacterised` | structure.py:44-54 | Row i >= 1 is bullish iff its high beats every earlier high, with strength high minus previous swing high. It is bearish iff it is not a new high and its low undercuts the swing low, with strength swing low minus low. Strength > 0 iff labelled |
| `Structure.SwingLowIsMinOffNewHighs` | structure.py:39-51 | The swing low after rows 0..i is the minimum low of row 0 and of the rows 1..i that were not new highs. A new-high row never moves it |
| `Structure.SwingsAreMonotone` | structure.py:44-51 | Along the scan the swing high never falls and the swing low never rises |
| `Structure.BreaksMoveOneSwing` | structure.py:44-54 | A bullish row strictly raises the swing high and keeps the swing low. A bearish row strictly lowers the swing low and keeps the swing high. An unlabelled row moves neither. An outside bar is bullish and leaves the swing low unchanged |
| `Structure.RisingHighsAreAllBullish` | structure.py:36-47 | With strictly rising highs every row after the first is bullish, with strength equal to its rise over the previous high |
| `Structure.GapBetween` | structure.py:98-106 | A three-candle gap has a positive size exactly when it is labelled, and size 0 when not |
| `Structure.DetectFairValueGaps` | structure.py:77-114 | Returns one label and one gap per row. Interior row i is the gap between rows i-1 and i+1. The first and last rows are always none/0.0. With high or low missing, or fewer than 3 rows, every cell is none/0.0 |
| `Structure.FvgDependsOnNeighboursOnly` | structure.py:92-106 | Two tables that agree on the high/low of rows i-1 and i+1 get the same FVG cell at i, whatever row i holds |
| `Structure.FlatLowsLeaveNoGaps` | structure.py:92-106 | When every low is one level that no high goes below, no row has a gap |
| `Signals.GetSignals` | main.py:43-56 | No data, or a table with no rows or no columns, gives no signals and an empty table. Otherwise the signals of the table both detectors annotate, or the missing-close error |
| `Signals.CollectSignals` | main.py:61-114 | The row walk yields, row by row, the BOS signal then the FVG signal of each labelled row. It fails exactly when the close column is missing and some row is labelled |
| `Signals.SignalCount` | main.py:62-112 | The number of signals is the number of BOS-labelled rows plus the number of FVG-labelled rows |
| `Signals.SignalsDescribeRows` | main.py:77-111 | Every signal has: index = a labelled row; price = that row's close; symbol BTCUSDT; direction long iff the label is bullish; magnitude = that row's bos_strength or fvg_gap |
| `Signals.SignalsOrdered` | main.py:62-112 | Signals are ordered by row index. Two signals of one row are the BOS signal followed by the FVG signal |
| `Signals.LabelledRowsSignal` | main.py:62-112 | Every BOS-labelled row and every FVG-labelled row has its signal in the list |
| `Signals.ExtractedSignalsAreTradeable` | main.py:77-83 | Every extracted signal's index is a row of the table. Signals exist only when the table has high and low columns |
| `Executor.ParseDirection` | executor.py:54-56 | A direction is accepted exactly when it lower-cases to "long" or "short", and is long iff it lower-cases to "long". Anything else is rejected with an error naming it |
| `Executor.ParseOwnName` | executor.py:54-56 | The direction string of a signal parses back to its direction |
| `Executor.LevelsFor` | executor.py:58-63 | The stop is 10 units against the trade and the target 20 units in its favour: stop < price < target for long, the reverse for short, a 1:2 risk/reward |
| `Executor.SimulateTrade` | executor.py:20-95 | Returns exactly the trade result: an unknown direction is the InvalidDirection error. Otherwise candles index+1..min(index+lookahead, N-1) are scanned in order, stop before target within a candle, first touch deciding, default SL. Lookups at a negative row or without high/low fail |
| `Executor.UnknownDirectionRejected` | executor.py:54-56 | A trade fails with InvalidDirection exactly when its direction lower-cases to neither "long" nor "short", whatever the table, entry row and lookahead |
| `Executor.ScanWinsIff` | executor.py:67-85 | The scan ends in TP exactly when some candle reaches the target and no candle up to and including it reaches the stop |
| `Executor.TradeCharacterised` | executor.py:67-85 | For a valid direction, an entry row >= 0 and high/low columns the trade never fails. It is TP iff a window candle hits the target with no stop at or before it. An untouched or empty window is SL. A first candle hitting the stop is SL even if it also hits the target |
| `Executor.FirstErrorAborts` | executor.py:118-125 | Once the first k signals end in a simulation error, that error is the result of the whole run |
| `Executor.CountStep` | executor.py:126-129 | One more outcome adds one to the TP count when it is TP, otherwise one to the SL count, and leaves the other count unchanged |
| `Executor.Run` | executor.py:112-133 | Simulates every signal in order, counting TP results as TP and all others as SL. Returns tp, sl, total = tp + sl and net pips = 20·tp − 10·sl, or the first simulation error |
| `Executor.CountsPartition` | executor.py:126-131 | Every outcome is counted exactly once, as TP or as SL |
| `Executor.OutcomesPerSignal` | executor.py:118-129 | A successful run over the first k signals has exactly k outcomes |
| `Executor.RunAccounts` | executor.py:115-132 | A successful run has total = tp + sl = number of signals, and net pips = 20·tp − 10·sl |
| `Executor.OutcomesSucceed` | executor.py:118-129 | Signals with non-negative indices on a table with high/low columns simulate without error, for every prefix of them |
| `Executor.ExtractedSignalsRun` | main.py:164-165 | Running the extracted signals against the extracted table never fails, and the summary's total is the number of signals |
| `Executor.Percentages` | executor.py:149-153 | With total 0 both percentages are 0.0 and nothing is divided. Otherwise each percentage times the total is 100 times its count |
| `Executor.SharesOfTrades` | executor.py:149-153 | For a summary with a positive total equal to tp + sl, both percentages lie in 0..100 and add up to 100 |
| `Executor.RunPercentages` | executor.py:149-153 | For a successful run with at least one signal, the percentages lie in 0..100 and add up to 100 |

## Left out

- Data loading in `get_signals` is not modelled: `BybitClient`, the CSV load, the error printing around it, argparse and the `OHLCV_CSV` lookup. The model starts from the table the data source returned, or None. `api.py` and `generate_ohlcv.py` are network, randomness and CSV output, and are not part of this model.
- Trade and summary logging is not modelled: `log_trade`, the CSV append of `save_summary`, `datetime.utcnow()`, and the `open_time` timestamp lookup of `simulate_trade`. All are file I/O or clock reads. The timestamp lookup could also fail for an entry row outside the table when an `open_time` column exists; signals from extraction always name a row of the table.
- Printing and number formatting are not modelled (`print_summary`, `:.2f`).
- Prices are exact reals, not floating point. The detectors and the simulator only compare and subtract.
- Row positions equal index labels, as for a default range index.
- Sorting and de-duplication by `open_time` are not modelled. No code in the core does either.
- `Executor.LowersTo` folds ASCII letters only. This is exact for comparing with "long" and "short": no non-ASCII character lower-cases to one of their letters.
- `Executor.Run`: signals always carry an index and a direction. The `-1` default for a missing index key (executor.py:124) is not modelled.
- `Signals.GetSignals`: both detectors always add the `bos_strength` and `fvg_gap` columns. So the "column exists" test before copying the magnitude (main.py:84, 110) is always true, and a signal always carries its magnitude.
- The stale `random.choice` result (executor.py:65) is not modelled. Nor are the earlier `simulate_trade`/`run` signatures (executor.py:18, 96, 123). Later lines replace them.
