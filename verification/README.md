# Signal classifier of the trading data API, in Dafny

This project models the decision logic of the `/data` handler in `app.py`.
The handler takes the latest price bar of an instrument (XAUUSD, XAGUSD or DXY)
together with its technical indicators. It labels the market state with French
labels:
- trend: HAUSSIÈRE / BAISSIÈRE / NEUTRE;
- RSI signal: SURACHETÉ / SURVENDU / NEUTRE;
- MACD signal: HAUSSIER / BAISSIER;
- Bollinger position: proche_resistance / proche_support;
- position against EMA20: AU-DESSUS / EN-DESSOUS;
- strength: FORTE / FAIBLE.

It also reports the signed distances to the 50-bar support and resistance
levels and the bar-over-bar change of the close.

Modules:
- `Numbers` (`numbers.dfy`): float column values as `Num = NaN | Real(value)`.
  Every comparison with NaN is false and arithmetic carries NaN through, as in
  Python and numpy.
- `Config` (`config.dfy`): the `SYMBOLS` and `INTERVALS` tables and the check of
  a symbol and an interval against them.
- `Rolling` (`rolling.dfy`): pandas' `rolling(window=w).max()` / `.min()` with
  the default `min_periods`. `RollingMaxAt` / `RollingMinAt` define one entry.
  The methods `RollingMax` / `RollingMin` compute the whole column in one
  left-to-right pass that rescans each complete window. They are proved equal
  to those definitions at every index.
- `Indicators` (`indicators.dfy`): bars, the indicator library's outputs per
  bar, and the enriched frame with its `resistance` / `support` columns.
- `Signals` (`signals.dfy`): the classification rules and the derived numbers.
  `SignalLaws` (`signal_laws.dfy`) holds the laws that relate several calls.
- `Api` (`api.dfy`): argument defaults, the order of the error checks, the
  provider call and the HTTP status. `ApiLaws` (`api_laws.dfy`) holds the laws
  about it.

The market-data provider is a parameter `feed: Query -> Option<seq<Bar>>`. The
indicator library is a parameter `ta: seq<Bar> -> seq<TaRow>` that returns one
row of possibly-NaN outputs per bar.

On these points the model follows what the code does:
- A missing indicator value does not produce a label of its own. Each rule
  falls through to its last label: NEUTRE for trend and RSI, BAISSIER for MACD,
  proche_support, EN-DESSOUS and FAIBLE.
- The handler accepts the nine intervals of the `INTERVALS` table. Its docstring
  lists only five of them.
- A one-bar frame is a 500 error because `iloc[-2]` raises.
- A malformed `bars` argument fails in `int()` before the symbol is checked. So
  it is a 500 error even when the symbol is also unsupported.

## Model

| member | source | states |
|---|---|---|
| Config.Validate | app.py:91-95 | accepts exactly the symbols XAUUSD, XAGUSD, DXY and the nine interval names; an unknown symbol is refused as such whatever the interval; a known symbol with an unknown interval is refused for the interval; an accepted request is routed to OANDA (TVC for DXY) under its own ticker and carries the provider interval code of its name (1min → 1-minute, …, 1D → daily, 1W → weekly) |
| Config.IntervalCodesDistinct | app.py:15-25 | two different interval names never map to the same provider interval |
| Rolling.RollingMaxAt | app.py:66 | the rolling 50-bar high is NaN before 50 bars or when any high in the window is NaN; otherwise it is at least every high in the window and equals one of them |
| Rolling.RollingMinAt | app.py:67 | the rolling 50-bar low is NaN before 50 bars or when any low in the window is NaN; otherwise it is at most every low in the window and equals one of them |
| Rolling.RollingMax | app.py:66 | one left-to-right pass that rescans each complete window; the rolling-max column it builds agrees with the per-entry definition at every index |
| Rolling.RollingMin | app.py:67 | one left-to-right pass that rescans each complete window; the rolling-min column it builds agrees with the per-entry definition at every index |
| Indicators.CalculateIndicators | app.py:34-69 | the enriched frame keeps each bar and its library outputs; resistance and support are NaN for the first 49 bars, defined exactly when the 50-bar window is NaN-free, and bracket every high and low in that window |
| Signals.ClassifyTrend | app.py:120-124 | HAUSSIÈRE iff close > EMA20 > EMA50 strictly, BAISSIÈRE iff close < EMA20 < EMA50 strictly, all three defined |
| Signals.ClassifyRsi | app.py:127-131 | SURACHETÉ iff RSI > 70, SURVENDU iff RSI < 30, with a defined RSI |
| Signals.ClassifyMacd | app.py:134-138 | never NEUTRE; HAUSSIER iff both lines are defined and MACD > signal, BAISSIER otherwise |
| Signals.ClassifyBollinger | app.py:167 | proche_resistance iff close > middle band strictly, both defined |
| Signals.ClassifyEmaPosition | app.py:179 | AU-DESSUS iff close > EMA20 strictly, both defined |
| Signals.ClassifyForce | app.py:180 | FORTE iff close, EMA20 and ATR are defined and the close is more than one ATR away from EMA20 on either side |
| Signals.DistanceResistance | app.py:173 | defined iff resistance and close are; its value is resistance − close, so it is negative exactly when the close is above the resistance |
| Signals.DistanceSupport | app.py:174 | defined iff close and support are; its value is close − support, so it is negative exactly when the close is below the support |
| Signals.Variation | app.py:145 | defined iff both closes are; the previous close plus the variation gives the current close |
| Signals.Analyse | app.py:116-181 | each label is tied to its own columns of the latest row: trend to close/ema_20/ema_50, RSI signal to rsi against 70 and 30, MACD to macd against macd_signal (never NEUTRE), Bollinger position to close against bb_middle, position to close against ema_20, strength to abs(close − ema_20) against atr; the variation, resistance distance and support distance are fixed by the previous close and the latest levels; a bullish trend is AU-DESSUS and a bearish one EN-DESSOUS; the two distances add up to resistance minus support |
| Api.Respond | app.py:140-181 | the response carries the query's symbol and interval, the latest close as price, the latest indicator values and levels, and exactly the classification of the latest row against the previous one, so every label is tied to its own columns of the latest row |
| SignalLaws.TrendNeutralOnTieOrNaN | app.py:120-124 | any NaN among close, EMA20, EMA50 or any equality in the chain gives NEUTRE |
| SignalLaws.TrendMirror | app.py:120-124 | negating close, EMA20 and EMA50 swaps HAUSSIÈRE and BAISSIÈRE and keeps NEUTRE |
| SignalLaws.RsiNeutralOnBoundsAndNaN | app.py:127-131 | RSI exactly 70, exactly 30, or NaN gives NEUTRE |
| SignalLaws.RsiReflect | app.py:127-131 | replacing RSI by 100 − RSI swaps SURACHETÉ and SURVENDU |
| SignalLaws.RsiMonotone | app.py:127-131 | a higher RSI never gives a signal closer to SURVENDU |
| SignalLaws.MacdTieOrNaNIsBearish | app.py:134-138 | MACD equal to its signal, or NaN on either side, gives BAISSIER |
| SignalLaws.MacdSwap | app.py:134-138 | swapping two distinct defined lines flips the label; at a tie both orders give BAISSIER |
| SignalLaws.BollingerMatchesEmaRule | app.py:167 | the Bollinger position is the EMA-position rule applied to the middle band, and a higher close never moves it from proche_resistance to proche_support |
| SignalLaws.ForceSymmetric | app.py:180 | strength is unchanged by swapping close and EMA20 or by negating both |
| SignalLaws.StrongMoveLeavesEma | app.py:180 | with a non-negative ATR, FORTE implies the close differs from EMA20 |
| SignalLaws.TrendImpliesPosition | app.py:120-124 | HAUSSIÈRE implies AU-DESSUS and BAISSIÈRE implies EN-DESSOUS, and a close above EMA20 can still be NEUTRE |
| SignalLaws.DistancesSpanLevels | app.py:173-174 | the two distances sum to resistance minus support whatever the close |
| SignalLaws.AnalyseIsMemoryless | app.py:116-117 | of the previous bar only its close affects the result |
| SignalLaws.LabelTextsDistinct | app.py:120-138 | different trend, RSI or MACD labels have different texts |
| Api.Status | app.py:85-189 | 200 exactly on success, 400 exactly for an unsupported symbol or interval, 500 for every other failure |
| Api.ParseArgs | app.py:86-95 | a malformed `bars` fails first; otherwise the defaulted symbol, then interval, are checked against the tables; an accepted query carries the defaulted symbol, interval and bar count, and is routed and coded exactly as the table check states (exchange and ticker of the symbol, provider code of the interval) |
| Api.Process | app.py:106-117 | an empty frame is "no data", a one-bar frame fails, two or more bars succeed with the last close as price, the last bar's indicators and rolling levels, the classification of the last enriched row against the one before, and the change from the bar before |
| Api.GetData | app.py:85-189 | a refused request returns its refusal; an accepted one is "no data" exactly when the provider returns nothing or an empty frame, and otherwise is processed on the frame the provider returned |
| ApiLaws.DefaultRequest | app.py:86-88 | with no arguments the request is 100 hourly XAUUSD bars from OANDA |
| ApiLaws.RefusedRequestsNeverFetch | app.py:91-104 | a refused request does not depend on the provider |
| ApiLaws.BadRequestExactlyWhenUnsupported | app.py:88-95 | the status is 400 exactly when `bars` parses and the symbol or interval is unsupported |
| ApiLaws.MalformedBarsComesFirst | app.py:86-92 | a malformed `bars` with an unsupported symbol is a 500, while the same symbol with `bars` absent is a 400 for the symbol |
| ApiLaws.SingleBarIsServerError | app.py:116-117 | a one-bar frame is answered with 500 |
| ApiLaws.ShortHistoryLeavesLevelsMissing | app.py:66-67 | with 2 to 49 bars the levels and both distances are NaN |
| ApiLaws.LevelsBracketWellFormedClose | app.py:66-67 | with 50 or more well-formed bars the levels are defined, bracket the latest high and low, and both distances are non-negative |

## Left out

- The Flask routes, CORS, the `/health` endpoint, the timestamp and JSON serialisation are left out. So are `donnees_brutes` (the last ten rows as records) and the error texts. These are I/O and wire formatting.
- The market-data client (`TvDatafeed.get_hist`) is an external network call. It is the `feed` parameter. The requested bar count is passed to it unchecked.
- The indicator library (RSI, MACD, Bollinger, ATR, Stochastic, EMA) is foreign code whose floating-point recursions are not visible. Its outputs are the `ta` parameter, an opaque row of possibly-NaN values per bar aligned with the bars. Any exception it might raise is not modelled.
- `variation_pourcent` is left out. It is a floating-point division by the previous close with numpy's divide-by-zero behaviour.
- The `/multi` aggregator is left out. It re-enters `get_data`, which reads the global request rather than the per-combination arguments it builds. A successful call then fails on `response[1]`. So it does not give independent per-combination results.
- Floating point: values are exact reals or NaN. Infinities and rounding are not modelled.
- The bar timestamp is left out; no rule reads it.
