# Forex indicator and signal engine, modelled in Dafny

This project models the computational core of a small family of forex dashboards. It covers:

- the technical indicators they compute over a frame of price bars;
- the rules that turn the last row of indicators into BUY / SELL / HOLD (or WAIT) with stop-loss and take-profit levels;
- the MACD-crossover labeller and the single-position backtest of the two strategy modules;
- the Close-column resolution of the live signal script.

The repository repeats one engine several times with small differences. Each source file has its own module:

| source file | module | Dafny file |
|---|---|---|
| strategy.py | `Strategy` | strategy.dfy |
| Strategy.py | `StrategyUnchecked` (shares `Strategy`'s indicators, labels and backtest) | strategy_unchecked.dfy |
| App.py | `App` | app_indicators.dfy |
| indicators.py | `Indicators` | indicators.dfy |
| signal_engine.py | `SignalEngine` | signal_engine.dfy |
| forex_ai_app.py | `ForexAiApp` | forex_ai_app.dfy |
| app.py | `MinimalApp` | app_minimal.dfy |
| Core/Risk_manager.py | `RiskManager` | risk_manager.dfy |
| Core/Signals.py | `CoreSignals` | signals.dfy |

Shared pieces:

- `Frames` models the part of a pandas DataFrame the engine relies on. A `Table` value holds named columns of equal height. A cell is `Option<real>`, where `None` is NaN, and every comparison with NaN is false. `Frames.Frame` is a class holding a table: a caller's frame that `df[name] = column` changes in place. `DropNa` keeps the complete rows, in order.
- `Series` holds the indicator recurrences over exact reals:
  - the `adjust=False` EMA, as a function and as a loop method filling an array;
  - MACD and its signal line;
  - `diff`, gains and losses;
  - the rolling mean;
  - RSI, with its floating-point divisions by zero made explicit branches;
  - true range and ATR;
  - Bollinger bands;
  - classic pivots.
- Prices are `real`. The rolling standard deviation is an input, because Dafny has no square root. Values from the `ta` library (the ATR in app.py and Core/Risk_manager.py, the RSI in forex_ai_app.py and Core/Signals.py) are inputs too.
- Functions that mutate the caller's frame are module-level methods that take the caller's `Frames.Frame` and carry `modifies` clauses: indicators.py, strategy.py `calculate_indicators`, the app.py signal and backtest, and Core/Signals.py.
  - App.py builds its indicators on a fresh copy, so its method leaves the caller's frame unchanged.
  - Each method is proved equal to a specification function.
  - The properties are lemmas about those functions.
- The backtest of strategy.py / Strategy.py is a `while` loop with the invariant that its four variables equal the replay function on the rows seen so far. The Close-column search of forex_ai_app.py is two loops with `break`, proved equal to a recursive search.

A constant Close does not give an RSI of 100:

- strategy.py, Strategy.py and indicators.py divide 0 by 0 in that case, so the RSI is NaN. Only a window with gains and no losses gives 100 (`Series.RsiFromAverages`).
- App.py replaces a zero average loss with NaN, so its RSI is NaN whenever the window saw no loss (`App.RsiWithoutZeroLoss`).

## Model

| member | source | states |
|---|---|---|
| Frames.Lift | indicators.py:7 | a NaN-free series as a column holds each value on its row |
| Frames.Values | indicators.py:4 | the numbers of a fully defined column, row for row |
| Frames.Frame.Assign | indicators.py:7 | `df[name] = c` replaces or adds exactly that column; every other column and the height are unchanged |
| Frames.FirstMissing | App.py:13-15 | None iff every name is a column; otherwise the first absent name, all names before it present |
| Frames.Where | forex_ai_app.py:66 | the positions a mask selects are increasing and are exactly the marked ones |
| Frames.WhereOfAllTrue | strategy.py:35 | a mask that holds on every row selects every row, in order |
| Frames.DefinedRows | strategy.py:35 | the kept rows are increasing, each has no NaN in the subset, and every such row is kept |
| Frames.SelectRows | strategy.py:35 | the selected table holds, at position k, row rows[k] of every column, and keeps the column set |
| Frames.DropNa | App.py:54 | every row left has no NaN in the subset, and the column set is unchanged |
| Series.Alpha | indicators.py:7 | the `ewm(span)` smoothing factor 2/(span+1) lies in (0, 1] |
| Series.Ema | indicators.py:7-9 | e[0] = x[0] and e[i] = a·x[i] + (1−a)·e[i−1] for every later row |
| Series.ComputeEma | indicators.py:7-9 | the loop filling a buffer row by row returns exactly the EMA recurrence |
| Series.EmaPrefix | indicators.py:7 | the EMA of a prefix is the prefix of the EMA |
| Series.EmaOfConstantAt | App.py:18-20 | a constant series is its own EMA at every row |
| Series.EmaOfConstant | App.py:18-20 | a constant series is its own EMA on all rows |
| Series.EmaWithinBounds | indicators.py:7-9 | with 0 ≤ a ≤ 1, every EMA value lies within the range of the inputs |
| Series.EmaLagsRisingSeries | indicators.py:7-9 | on a strictly rising series, the EMA is below the close after the first row |
| Series.Minus | indicators.py:14 | the row-wise difference: d[i] + ys[i] = xs[i] |
| Series.Macd | indicators.py:12-14 | MACD has one cell per row and MACD[i] + EMA26[i] = EMA12[i] |
| Series.MacdSignal | indicators.py:15 | the signal line has one cell per row, starts at MACD[0] and then follows the EMA9 step over MACD |
| Series.MacdOfConstant | indicators.py:12-15 | a flat close makes MACD and its EMA9 signal line 0 on every row |
| Series.Diff | indicators.py:18 | `diff()` keeps the series length, is NaN on row 0, and holds x[i] − x[i−1] on every later row |
| Series.Gains | indicators.py:19 | gains are never negative |
| Series.Losses | indicators.py:20 | losses are never negative |
| Series.GainsLossesSplitMoves | indicators.py:18-20 | at most one of gain and loss is non-zero; both are 0 on row 0; gain − loss is the move |
| Series.SumWithinBounds | indicators.py:21 | a sum of n values in [lo, hi] lies in [n·lo, n·hi] |
| Series.RollingMean | indicators.py:21-22 | `rolling(w).mean()` is defined exactly from row w−1 on |
| Series.RollingMeanWithNaN | app.py:28-29 | `rolling(w).mean()` of a column with NaN is defined exactly from row w−1 on where the window holds no NaN |
| Series.RollingMeanWithNaNOnDefined | app.py:28-29 | on a column without NaN it equals the rolling mean of the numbers |
| Series.RollingMeanWithNaNAt | app.py:28-29 | a NaN inside a window makes that row's mean NaN |
| Series.RollingMeanWithinBounds | indicators.py:27 | a rolling mean lies within the range of its window |
| Series.RollingMeanOfNonNegative | indicators.py:21-22 | a rolling mean of non-negative values is non-negative |
| Series.SumNonNegativeBound | indicators.py:21 | a sum of non-negative values is non-negative and bounds each term |
| Series.RsiFromAverages | indicators.py:23-24 | `100 − 100/(1+g/l)` in floating point: defined iff both averages are and l > 0 or g > 0; in [0,100]; below 100 when l > 0; 100 when only g > 0 |
| Series.RsiIsGainShare | indicators.py:23-24 | with l > 0, RSI = 100·g/(g+l) |
| Series.AverageGains | indicators.py:21 | the 14-row average gain is never negative |
| Series.AverageLosses | indicators.py:22 | the 14-row average loss is never negative |
| Series.Rsi | indicators.py:18-24 | the RSI column has one cell per row |
| Series.RsiRange | indicators.py:21-24 | NaN on the first w−1 rows; in [0,100]; < 100 when the average loss is positive; 100 with gains only; NaN with neither |
| Series.Max3 | indicators.py:37 | the row maximum is one of the three values and at least each of them |
| Series.TrueRange | indicators.py:34-37 | TR[0] = H−L (the NaN distances are skipped); later TR is max(H−L, \|H−prevC\|, \|L−prevC\|) |
| Series.TrueRangeNonNegative | indicators.py:34-37 | every true range after the first row is ≥ 0, and the first one too when High ≥ Low there |
| Series.Atr | indicators.py:38 | the ATR column has one cell per row |
| Series.AtrNonNegative | App.py:42-46 | ATR is defined exactly from row w−1 and never negative once its window leaves row 0 |
| Series.RollingStd | indicators.py:28 | the supplied std is NaN on the first w−1 rows, like `rolling(w).std()` |
| Series.Band | indicators.py:30-31 | a band column has one cell per row |
| Series.BandsSymmetric | indicators.py:27-31 | bands are defined iff mid and std are; upper − mid = mid − lower = 2·std; upper ≥ mid ≥ lower when std ≥ 0 |
| Series.ClassicPivots | App.py:49-51 | 3P = H+L+C, R1 − P = P − L, P − S1 = H − P, R1 − S1 = H − L |
| Strategy.Compute | strategy.py:4-24 | all seven indicator columns have one cell per row |
| Strategy.MomentumFacts | strategy.py:6-9 | MACD[i] = EMA12[i] − EMA26[i]; Signal_Line starts at MACD[0] and follows the EMA9 step |
| Strategy.RsiFacts | strategy.py:12-16 | RSI is NaN on the first 13 rows, within [0,100], and below 100 when the average loss is positive |
| Strategy.BandFacts | strategy.py:19-22 | the bands are defined iff row ≥ 19; upper − MA = MA − lower = 2·20_STD; upper ≥ MA ≥ lower |
| Strategy.FlatCloseHasNoMomentum | strategy.py:6-9 | a constant close gives MACD = Signal_Line = 0 everywhere |
| Strategy.CalculateIndicators | strategy.py:4-24 | the caller's frame gains the seven columns computed from its Close; other columns and height are unchanged; the same frame is returned (Strategy.py lines 4-24 are the same code) |
| Strategy.BuyAt | strategy.py:38-42 | a Buy row is never row 0 (the shifted values are NaN there), has numbers in every compared cell, and is never a Sell row |
| Strategy.SellAt | strategy.py:45-49 | a Sell row is never row 0 and has numbers in every compared cell |
| Strategy.GenerateSignals | strategy.py:26-58 | fails iff a required column or Close is absent; the KeyError lists the missing required columns, or Close alone; on success the labelled table is the input with every row holding NaN in the inputs dropped |
| Strategy.Missing | strategy.py:29-30 | exactly the required names that are not columns; empty iff all are present; its first name is the first absent one in the order of `required` |
| Strategy.Label | strategy.py:38-56 | Buy and Sell are the crossover/RSI/band conditions and never both hold; Signal is 1 iff Buy, −1 iff Sell, 0 otherwise; row 0 is 0 (Strategy.py lines 37-44 label the same way) |
| Strategy.GenerateSignalsOutcome | strategy.py:26-58 | fails iff a required column or Close is absent; the KeyError lists exactly the missing required columns; the kept rows are, in order, exactly those with no NaN in the inputs |
| Strategy.KeptRowSignals | strategy.py:38-56 | on kept rows the labels are plain real comparisons against the previous kept row; the first kept row is 0 |
| Strategy.Step | strategy.py:68-78 | one row of the loop only appends to both logs; a row that does not change the position changes nothing; opening needs Signal 1, records Close as buy_price and appends a Buy; closing needs Signal −1 and appends a Sell and its return |
| Strategy.Replay | strategy.py:68-78 | an open position always has a positive entry price |
| Strategy.OpenAlternates | strategy.py:69-72 | opening while flat appends a Buy at an even place of the log |
| Strategy.CloseAlternates | strategy.py:73-78 | closing while long appends a Sell and its return (sell−buy)/buy from the Buy before it |
| Strategy.ReplayAlternates | strategy.py:65-78 | for any labels the log alternates Buy, Sell, … from Buy; open iff the log ends in a Buy at buy_price; one return per Sell |
| Strategy.Wins | strategy.py:81 | the number of winning trades is at most the number of trades |
| Strategy.Summary | strategy.py:80-90 | total_return + 1 is the product of (1 + r), win_rate·total = wins, win_rate in [0,1], both 0 with no trade |
| Strategy.Backtest | strategy.py:60-90 | the loop's result is the replay summary: alternating log, one (sell−buy)/buy return per pair, total_trades = returns, win_rate in [0,1]; the input is only read (Strategy.py lines 47-84 are the same loop) |
| StrategyUnchecked.GenerateSignals | Strategy.py:37-45 | succeeds iff every compared column exists, then labels every row of an unchanged copy; otherwise a KeyError for the first absent column in the order the expression reads them |
| StrategyUnchecked.NaNMeansNoSignal | Strategy.py:38-44 | a NaN in MACD, Signal_Line, RSI or Close (now or shifted) gives 0; a NaN band rules out its side |
| StrategyUnchecked.SignalsAreDocumentedCrossings | Strategy.py:27-39 | 1 iff an upward MACD cross, RSI < 30 and Close ≤ Lower_BB on numbers; −1 for the mirror image |
| StrategyUnchecked.AgreesWithCheckedOnCompleteFrames | Strategy.py:37-45 | without NaN in the inputs, the unchecked labeller gives what strategy.py gives |
| StrategyUnchecked.LossTrades | Strategy.py:75 | losing trades are at most all trades |
| StrategyUnchecked.WinsAndLossesPartition | Strategy.py:74-76 | win_trades + loss_trades = total_trades |
| App.RsiWithoutZeroLoss | App.py:36-39 | defined iff the average loss is positive; then in [0,100) and equal to the plain RSI |
| App.AppRsi | App.py:29-39 | the RSI column has one cell per row |
| App.PivotColumn | App.py:49-51 | each row's levels are the classic pivots of that row |
| App.PivotLine | App.py:49 | the Pivot column holds every row's pivot |
| App.R1Line | App.py:50 | the R1 column holds every row's R1 |
| App.S1Line | App.py:51 | the S1 column holds every row's S1 |
| App.Compute | App.py:17-51 | all eleven indicator columns have one cell per row; the EMAs and the pivot levels are numbers on every row |
| App.Augmented | App.py:17-51 | the copy with indicators keeps its height and is well formed |
| App.Calculate | App.py:4-59 | EmptyFrame iff the frame is empty; MissingInput iff it is not and a required column is absent, naming the first absent one in the loop's order; on success a well-formed, non-empty table, and High, Low and Close were present (the third case, NoCompleteRow, is characterised by `App.NoCompleteRowExactly`) |
| App.NoCompleteRowExactly | App.py:54-57 | once the column checks pass, "Indicators removed all rows" is raised iff no row of the augmented copy is complete, so one complete row gives a result |
| App.SuccessIsComplete | App.py:17-59 | a successful result has the input columns plus the eleven, a number in every cell, and exactly the complete rows of the augmented copy, in order |
| App.CalculateIndicators | App.py:4-59 | the procedure (copy, column loop, eleven assignments, dropna) returns exactly `Calculate`; the caller's frame is not modified |
| App.AddIndicators | App.py:17-51 | the eleven assignments leave the working copy equal to the augmented table |
| App.CalculateOutcome | App.py:4-59 | EmptyFrame iff empty; MissingInput iff a price column is absent; NoCompleteRow iff every column is present and no row of the augmented copy is complete; on success every cell is a number, the columns are the inputs plus the eleven, and the rows are exactly the complete rows, in order |
| App.FlatCloseEmas | App.py:18-20 | a constant close keeps EMA20/50/200 at that constant on every row |
| App.RsiFacts | App.py:36-39 | RSI is defined iff row ≥ 13 with a positive average loss; then in [0,100) and equal to the plain RSI |
| App.AtrFacts | App.py:42-46 | ATR is defined iff row ≥ 13, equals the mean of the last 14 true ranges, and is ≥ 0 from row 14 |
| App.PivotFacts | App.py:49-51 | every row satisfies the pivot identities |
| App.CheckLast | App.py:69-75 | no fallback iff every input is present with a number on the last row; otherwise the reply is about the first input, in the loop's order, that is absent (missing by name) or NaN on the last row (not enough data), every input before it being present with a number |
| App.Decide | App.py:77-95 | the reply is a decision at the last close |
| App.DecideFacts | App.py:82-95 | BUY iff Close>EMA200, EMA20>EMA50, RSI>50; else SELL iff the mirror; HOLD iff no levels; TP−P = rr·(P−SL), mirrored for SELL; SL<P<TP (resp. TP<P<SL) with positive ATR, m, rr |
| App.GenerateSignal | App.py:62-66 | "no data" exactly on an empty frame |
| App.GenerateSignalFallbacks | App.py:64-75 | a reported missing column is an absent input; a decision exactly when every input has a number on the last row; with no NaN earlier an absent input is reported |
| App.FirstAbsentIsReported | App.py:71-75 | the check loop reports a missing column when one is absent and no present one is NaN |
| App.PipelineAlwaysDecides | App.py:54-95 | any frame `calculate_indicators` returns leads `generate_signal` to a decision |
| Indicators.Compute | indicators.py:3-38 | all ten indicator series have one cell per bar |
| Indicators.Of | indicators.py:4-38 | the indicators of a frame have one cell per row of the frame |
| Indicators.CalculateIndicators | indicators.py:3-40 | the caller's frame gains the ten columns computed from its prices, in place; the same frame is returned |
| Indicators.AddsTenColumns | indicators.py:7-38 | exactly the ten names are added; other columns are unchanged |
| Indicators.AugmentedShape | indicators.py:3-40 | the frame left behind is well formed, has exactly the input columns plus the ten names, and holds the computed MACD and MACD_Signal |
| Indicators.EmaFacts | indicators.py:7-9 | the three EMAs start at the first close and follow the α-recurrence |
| Indicators.FlatClose | indicators.py:7-15 | a constant close keeps the EMAs at the constant and makes MACD and MACD_Signal 0 |
| Indicators.RsiFacts | indicators.py:18-24 | NaN on the first 13 rows; in [0,100) when the average loss is positive; 100 with gains only; NaN when flat |
| Indicators.BandFacts | indicators.py:27-31 | bands defined iff row ≥ 19, each 2·std from BB_Mid |
| Indicators.AtrFacts | indicators.py:34-38 | NaN on the first 13 rows, then the mean of the last 14 true ranges, ≥ 0 from row 14 |
| SignalEngine.LastRow | signal_engine.py:3-12 | each of the ten values read is that column's cell on the last row |
| SignalEngine.Decide | signal_engine.py:61-66 | BUY iff price > EMA200, EMA20 > EMA50, MACD > MACD_Signal and RSI > 50; SELL iff price is not above EMA200 and the other three are strictly below; otherwise WAIT |
| SignalEngine.Evaluate | signal_engine.py:23-83 | the report carries the decision, the 2-or-3 confidence, the trend, the EMA and MACD verdicts, the RSI with its zone and the band zone; SL and TP are defined iff price and ATR are |
| SignalEngine.GenerateSignal | signal_engine.py:1-83 | on a frame's last row: BUY iff the four bullish comparisons hold, SELL iff the four bearish ones do; confidence is 2 or 3 |
| SignalEngine.TrendOf | signal_engine.py:24-29 | Uptrend iff price > EMA200; a tie or NaN is Downtrend |
| SignalEngine.Confidence | signal_engine.py:15-42 | always 2 or 3; 3 iff MACD > MACD_Signal |
| SignalEngine.ZoneOfRsi | signal_engine.py:45-50 | Overbought iff > 70, Oversold iff < 30, Neutral otherwise (NaN included) |
| SignalEngine.ZoneOfBands | signal_engine.py:53-58 | near upper iff price ≥ upper; near lower iff not that and price ≤ lower |
| SignalEngine.Offset | signal_engine.py:69-70 | a level is defined iff price and ATR are |
| SignalEngine.DecisionRule | signal_engine.py:61-66 | BUY and SELL iff their four conditions; BUY has confidence 3 and Uptrend, SELL confidence 2 and Downtrend |
| SignalEngine.RiskLevels | signal_engine.py:69-70 | BUY: SL = P−1.5·ATR, TP = P+3·ATR, TP−P = 2(P−SL); anything else mirrored; ordered when ATR > 0 |
| SignalEngine.FlatMarketWaits | signal_engine.py:1-83 | on indicators.py's output for a constant close the engine says WAIT with confidence 2 |
| ForexAiApp.FlattenHeader | forex_ai_app.py:40-41 | each name is the first level's, or the second's when the first is empty |
| ForexAiApp.Lower | forex_ai_app.py:46 | lower-casing maps every character |
| ForexAiApp.CloseNames | forex_ai_app.py:46 | an illustration of the name test: Close, CLOSE and close match; Adj Close and Open do not |
| ForexAiApp.FindCloseName | forex_ai_app.py:45-48 | a found position holds a Close name |
| ForexAiApp.FindNumeric | forex_ai_app.py:51-54 | a found position holds a numeric column |
| ForexAiApp.CloseColumn | forex_ai_app.py:44-58 | the chosen position is a column |
| ForexAiApp.FindCloseNameIsFirst | forex_ai_app.py:45-48 | none iff no name matches; a found one is the first match |
| ForexAiApp.FindNumericIsFirst | forex_ai_app.py:51-54 | none iff no numeric column; a found one is the first |
| ForexAiApp.CloseColumnChoice | forex_ai_app.py:44-58 | the first Close-named column if any; else the first numeric column after the first; none iff neither |
| ForexAiApp.DetectCloseColumn | forex_ai_app.py:44-54 | the two loops with `break` return exactly `CloseColumn` |
| ForexAiApp.Coerce | forex_ai_app.py:65 | `to_numeric(errors='coerce')` is a number iff the cell is one |
| ForexAiApp.NumericMask | forex_ai_app.py:65-66 | a row survives the Close cleaning iff its Close cell coerces to a number |
| ForexAiApp.Closes | forex_ai_app.py:65-66 | the cleaned Close series holds, at each kept position, the number in that row's cell |
| ForexAiApp.Align | forex_ai_app.py:70 | a series is placed on its rows, NaN beyond its end |
| ForexAiApp.LabelBars | forex_ai_app.py:71-82 | `dropna` keeps, in order, exactly the rows with MA20, RSI and every other cell present; each bar carries its own row's Close, MA20 and RSI and is labelled by `smarter_signal` |
| ForexAiApp.KeptAreComplete | forex_ai_app.py:71 | every kept bar is a complete row and carries that row's Close, MA20 and RSI |
| ForexAiApp.CompleteAreKept | forex_ai_app.py:71 | every complete row is kept |
| ForexAiApp.SmarterSignal | forex_ai_app.py:74-80 | BUY iff Close > MA20 and RSI < 30; SELL iff Close < MA20 and RSI > 70; HOLD otherwise |
| ForexAiApp.Script | forex_ai_app.py:33-82 | NoData iff the download has no rows or no columns; on success a Close column was found and exactly that position is renamed to Close |
| ForexAiApp.ScriptOutcome | forex_ai_app.py:33-82 | stops on empty data or no Close column; renames it to Close; keeps exactly the rows with a numeric Close; the labelled rows are, in order, exactly the complete ones, each with its Close, its 20-row mean of the cleaned closes, its RSI and the classifier's label |
| RiskManager.CalculateRiskLevels | Core/Risk_manager.py:4-12 | entry − SL = ATR; TP − entry = rr·(entry − SL); SL < entry < TP when ATR, rr > 0; all equal when ATR = 0 |
| CoreSignals.RsiSignal | Core/Signals.py:8-12 | BUY iff RSI < 30, SELL iff > 70, HOLD otherwise including 30, 70 and NaN |
| CoreSignals.GenerateSignal | Core/Signals.py:4-12 | on a frame with a `close` column and a row, writes the `rsi` column into the caller's frame and decides on its last value |
| MinimalApp.Crossover | app.py:31-36 | BUY iff SMA_20 > SMA_50, SELL iff <, HOLD on a tie or NaN |
| MinimalApp.GenerateSignal | app.py:27-36 | adds SMA_20 and SMA_50 (rolling means of Close, NaN on any window holding a NaN close) to the caller's frame and applies the crossover to their last values |
| MinimalApp.ShortHistoryHolds | app.py:28-36 | with fewer than 50 bars SMA_50 is NaN, so the signal is HOLD |
| MinimalApp.RecentGapHolds | app.py:28-36 | a NaN among the last 20 closes makes SMA_20 NaN, so the signal is HOLD |
| MinimalApp.DefinedCloseCrossover | app.py:28-36 | on a Close without NaN the signal is the crossover of the plain rolling means |
| MinimalApp.CalculateRiskLevels | app.py:12-22 | levels are defined iff the last ATR is; SL = entry − ATR and TP − entry = rr·(entry − SL) |
| MinimalApp.Mark | app.py:70 | the masked rows take the value, every other row keeps its own, and the length is unchanged |
| MinimalApp.Labels | app.py:67-71 | Signal is 1 iff SMA_20 > SMA_50, −1 iff <, 0 otherwise |
| MinimalApp.BarReturn | app.py:72 | a bar earns 0 iff the previous label is 0 or the price did not move; long, 1 + r is the price ratio; short, 1 − r is |
| MinimalApp.StrategyReturns | app.py:72 | the return is defined on every bar but the first |
| MinimalApp.Growth | app.py:73 | when no defined return loses 100% or more, the compounded growth is positive |
| MinimalApp.TotalReturn | app.py:73 | when no defined return loses 100% or more, the total return is above −100% |
| MinimalApp.Backtest | app.py:64-74 | writes Signal, SMA_20, SMA_50, the labels and Returns into the frame and returns Π(1+r) − 1 over defined returns |
| MinimalApp.NoLookAhead | app.py:72 | a bar's return depends only on labels of earlier bars |
| MinimalApp.LongGrowth | app.py:72-73 | always long, the growth of the first k returns is C[k−1]/C[0] |
| MinimalApp.LongThroughoutIsBuyAndHold | app.py:72-73 | always long, the total return is the buy-and-hold return |
| MinimalApp.FlatGrowth | app.py:72-73 | never labelled, the growth of any prefix is 1 |
| MinimalApp.FlatEarnsNothing | app.py:72-73 | never labelled, the total return is 0 |
| MinimalApp.ShortHistoryEarnsNothing | app.py:67-73 | with fewer than 50 bars SMA_50 is NaN on every row, so no bar is labelled and the backtest returns 0 |

## Left out

- The Streamlit interface, plotting and page setup are presentation only. This covers forex_ai_app.py:7-28 and 84-105, and app.py:7 and 41-59.
- The yfinance downloads are network I/O. The downloaded frame is a parameter of each model.
- strategies.py is not part of this model: its behaviour lives in the backtrader framework (orders, broker fills, `CrossOver`). Core/multi_timeframe.py is not part of this model either: it returns a constant.
- The `ta` library's ATR and RSI are taken as inputs. The source of that library is not available, so their smoothing is not reproduced.
- The rolling standard deviation is supplied as an input, because Dafny has no square root. The bands lemmas that need it assume std ≥ 0.
- Floating point is replaced by exact reals. `round(x, 5)`, the `"x/5"` confidence text and the `.2f` / `.2%` formatting are not modelled. Texts are tags (`Action`, `Trend`, `RsiZone`, `BandZone`, `Reply`).
- The rendered string of App.py:97-102 is not modelled; `App.Reply` stands in for it. Its format specifications on lines 100-101 (`:.5f if stop_loss else 0`) are not valid, so rendering a decision would raise in Python.
- The indicator pipelines (`Strategy.CalculateIndicators`, `App.CalculateIndicators`, `Indicators.CalculateIndicators`) require Close, High and Low without NaN. pandas' NaN-aware EWM weighting of gaps is not modelled.
- signal_engine.py, app.py and Core/Signals.py raise KeyError or IndexError on a missing column or an empty frame. Their models require the columns and a row instead.
- `Strategy.Backtest` and `MinimalApp.Backtest` require every close to be positive. A zero close would give inf or NaN returns in Python, not an exception.
- `MinimalApp.Backtest` requires a Close without NaN. On a NaN close pandas' `pct_change` first fills the gap from the previous close, and the rolling means turn NaN over the gap; that filling is not modelled. `MinimalApp.GenerateSignal` does model NaN closes.
- `ForexAiApp.Lower` lower-cases ASCII letters only.
- `ForexAiApp.Coerce` does not parse numeric strings: a text cell becomes NaN.
- `ForexAiApp.Script` does not model duplicate column names after the rename, the `reset_index` and MultiIndex objects themselves, or the `Datetime` display.
- `RiskManager.CalculateRiskLevels` takes a defined ATR; a NaN ATR would give NaN levels there. `MinimalApp.CalculateRiskLevels` models the NaN case.
- `Frames.DropNa` states that every kept row is complete. That the complete rows are all kept, in order, is stated by `Frames.DefinedRows`, from which it is built.
