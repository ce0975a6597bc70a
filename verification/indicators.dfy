/**
 * The bar frame and its indicator columns (app.py, `calculate_indicators`).
 * The momentum, trend and volatility indicators come from an external library
 * and enter the model as an opaque row of possibly-NaN values per bar; the
 * support and resistance levels are computed here as 50-bar rolling extremes.
 */
module Indicators {
  import opened Numbers
  import Rolling

  /** Look-back of the rolling support/resistance levels. */
  const LevelWindow: nat := 50

  /** One OHLCV price bar as the provider delivers it (timestamp left out). */
  datatype Bar = Bar(open: Num, high: Num, low: Num, close: Num, volume: Num)

  /** The external library's outputs at one bar: RSI(14), MACD(12, 26, 9),
      Bollinger(20, 2), ATR(14), Stochastic(14, 3) and EMA 20/50/200. */
  datatype TaRow = TaRow(
    rsi: Num,
    macd: Num, macdSignal: Num, macdDiff: Num,
    bbUpper: Num, bbMiddle: Num, bbLower: Num,
    atr: Num,
    stochK: Num, stochD: Num,
    ema20: Num, ema50: Num, ema200: Num)

  /** One row of the enriched frame. */
  datatype Row = Row(bar: Bar, ta: TaRow, resistance: Num, support: Num)

  /** A bar that satisfies the usual OHLC ordering, with no NaN price. */
  predicate WellFormed(b: Bar) {
    && b.open.Real? && b.high.Real? && b.low.Real? && b.close.Real?
    && b.low.value <= b.open.value <= b.high.value
    && b.low.value <= b.close.value <= b.high.value
  }

  /** The `high` column. */
  function Highs(bars: seq<Bar>): (hs: seq<Num>)
    ensures |hs| == |bars| && forall i :: 0 <= i < |bars| ==> hs[i] == bars[i].high
  {
    seq(|bars|, i requires 0 <= i < |bars| => bars[i].high)
  }

  /** The `low` column. */
  function Lows(bars: seq<Bar>): (ls: seq<Num>)
    ensures |ls| == |bars| && forall i :: 0 <= i < |bars| ==> ls[i] == bars[i].low
  {
    seq(|bars|, i requires 0 <= i < |bars| => bars[i].low)
  }

  /**
   * The enriched frame: each bar keeps its prices and its library outputs, and
   * gains `resistance` (the highest high) and `support` (the lowest low) of the
   * 50 bars ending at it. The library's columns are aligned with the bars.
   */
  function CalculateIndicators(bars: seq<Bar>, ta: seq<TaRow>): (rows: seq<Row>)
    requires |ta| == |bars|
    ensures |rows| == |bars|
    ensures forall i :: 0 <= i < |rows| ==> rows[i].bar == bars[i] && rows[i].ta == ta[i]
    ensures forall i :: 0 <= i < |rows| && i + 1 < LevelWindow ==>
      rows[i].resistance.NaN? && rows[i].support.NaN?
    ensures forall i :: 0 <= i < |rows| ==>
      (rows[i].resistance.Real? <==>
        LevelWindow <= i + 1 && forall k :: i + 1 - LevelWindow <= k <= i ==> bars[k].high.Real?)
    ensures forall i :: 0 <= i < |rows| ==>
      (rows[i].support.Real? <==>
        LevelWindow <= i + 1 && forall k :: i + 1 - LevelWindow <= k <= i ==> bars[k].low.Real?)
    ensures forall i, k ::
      0 <= i < |rows| && rows[i].resistance.Real? && i + 1 - LevelWindow <= k <= i ==>
      bars[k].high.Real? && bars[k].high.value <= rows[i].resistance.value
    ensures forall i, k ::
      0 <= i < |rows| && rows[i].support.Real? && i + 1 - LevelWindow <= k <= i ==>
      bars[k].low.Real? && rows[i].support.value <= bars[k].low.value
    ensures forall i :: 0 <= i < |rows| && rows[i].resistance.Real? ==>
      exists k :: i + 1 - LevelWindow <= k <= i && bars[k].high == rows[i].resistance
    ensures forall i :: 0 <= i < |rows| && rows[i].support.Real? ==>
      exists k :: i + 1 - LevelWindow <= k <= i && bars[k].low == rows[i].support
  {
    var highs := Highs(bars);
    var lows := Lows(bars);
    seq(|bars|, i requires 0 <= i < |bars| =>
      Row(bars[i], ta[i],
          Rolling.RollingMaxAt(highs, LevelWindow, i),
          Rolling.RollingMinAt(lows, LevelWindow, i)))
  }
}
