/**
 * The signal classifier of `get_data` (app.py): categorical labels derived from
 * the latest row of the enriched frame by strict threshold comparisons, plus
 * the signed distances to the support/resistance levels and the bar-over-bar
 * change. A NaN input makes every comparison false, so each rule falls through
 * to its last label.
 */
module Signals {
  import opened Numbers
  import opened Indicators

  /** RSI above this is overbought. */
  const Overbought: real := 70.0
  /** RSI below this is oversold. */
  const Oversold: real := 30.0

  datatype Trend = Haussiere | Baissiere | TrendNeutre {
    function Text(): string {
      match this
      case Haussiere => "HAUSSIÈRE"
      case Baissiere => "BAISSIÈRE"
      case TrendNeutre => "NEUTRE"
    }
  }

  datatype RsiSignal = Surachete | Survendu | RsiNeutre {
    function Text(): string {
      match this
      case Surachete => "SURACHETÉ"
      case Survendu => "SURVENDU"
      case RsiNeutre => "NEUTRE"
    }
  }

  /** The MACD label; the source starts from "NEUTRE" and always overwrites it. */
  datatype MacdSignal = Haussier | Baissier | MacdNeutre {
    function Text(): string {
      match this
      case Haussier => "HAUSSIER"
      case Baissier => "BAISSIER"
      case MacdNeutre => "NEUTRE"
    }
  }

  datatype BollingerPosition = ProcheResistance | ProcheSupport {
    function Text(): string {
      match this
      case ProcheResistance => "proche_resistance"
      case ProcheSupport => "proche_support"
    }
  }

  datatype EmaPosition = AuDessus | EnDessous {
    function Text(): string {
      match this
      case AuDessus => "AU-DESSUS"
      case EnDessous => "EN-DESSOUS"
    }
  }

  datatype Force = Forte | Faible {
    function Text(): string {
      match this
      case Forte => "FORTE"
      case Faible => "FAIBLE"
    }
  }

  /** Trend: bullish when close > EMA20 > EMA50, bearish when close < EMA20 < EMA50. */
  function ClassifyTrend(close: Num, ema20: Num, ema50: Num): (t: Trend)
    ensures t == Haussiere <==>
      close.Real? && ema20.Real? && ema50.Real? && close.value > ema20.value > ema50.value
    ensures t == Baissiere <==>
      close.Real? && ema20.Real? && ema50.Real? && close.value < ema20.value < ema50.value
  {
    if Gt(close, ema20) && Gt(ema20, ema50) then Haussiere
    else if Lt(close, ema20) && Lt(ema20, ema50) then Baissiere
    else TrendNeutre
  }

  /** RSI signal: strictly above 70 or strictly below 30; the bounds themselves are neutral. */
  function ClassifyRsi(rsi: Num): (s: RsiSignal)
    ensures s == Surachete <==> rsi.Real? && rsi.value > Overbought
    ensures s == Survendu <==> rsi.Real? && rsi.value < Oversold
  {
    if Gt(rsi, Real(Overbought)) then Surachete
    else if Lt(rsi, Real(Oversold)) then Survendu
    else RsiNeutre
  }

  /** MACD signal: a two-way rule; a tie or a NaN counts as bearish. */
  function ClassifyMacd(macd: Num, signal: Num): (s: MacdSignal)
    ensures s != MacdNeutre
    ensures s == Haussier <==> macd.Real? && signal.Real? && macd.value > signal.value
    ensures s == Baissier <==> !(macd.Real? && signal.Real? && macd.value > signal.value)
  {
    if Gt(macd, signal) then Haussier else Baissier
  }

  /** Bollinger position: near resistance only when the close is strictly above the middle band. */
  function ClassifyBollinger(close: Num, bbMiddle: Num): (p: BollingerPosition)
    ensures p == ProcheResistance <==> close.Real? && bbMiddle.Real? && close.value > bbMiddle.value
  {
    if Gt(close, bbMiddle) then ProcheResistance else ProcheSupport
  }

  /** Position against EMA20: above only when the close is strictly above it. */
  function ClassifyEmaPosition(close: Num, ema20: Num): (p: EmaPosition)
    ensures p == AuDessus <==> close.Real? && ema20.Real? && close.value > ema20.value
  {
    if Gt(close, ema20) then AuDessus else EnDessous
  }

  /** Strength: strong only when the close is farther from EMA20 than one ATR. */
  function ClassifyForce(close: Num, ema20: Num, atr: Num): (f: Force)
    ensures f == Forte <==>
      && close.Real? && ema20.Real? && atr.Real?
      && (close.value - ema20.value > atr.value || ema20.value - close.value > atr.value)
  {
    if Gt(Abs(Sub(close, ema20)), atr) then Forte else Faible
  }

  /** `resistance - close`: positive while the close is below the resistance level. */
  function DistanceResistance(resistance: Num, close: Num): (d: Num)
    ensures d.Real? <==> resistance.Real? && close.Real?
    ensures d.Real? ==> (d.value < 0.0 <==> close.value > resistance.value)
    ensures d.Real? ==> d.value + close.value == resistance.value
  {
    Sub(resistance, close)
  }

  /** `close - support`: positive while the close is above the support level. */
  function DistanceSupport(close: Num, support: Num): (d: Num)
    ensures d.Real? <==> close.Real? && support.Real?
    ensures d.Real? ==> (d.value < 0.0 <==> close.value < support.value)
    ensures d.Real? ==> support.value + d.value == close.value
  {
    Sub(close, support)
  }

  /** Bar-over-bar change of the close. */
  function Variation(close: Num, previousClose: Num): (v: Num)
    ensures v.Real? <==> close.Real? && previousClose.Real?
    ensures v.Real? ==> previousClose.value + v.value == close.value
  {
    Sub(close, previousClose)
  }

  /** The labels and derived numbers of the response. */
  datatype Analysis = Analysis(
    trend: Trend,
    rsiSignal: RsiSignal,
    macdSignal: MacdSignal,
    bollinger: BollingerPosition,
    position: EmaPosition,
    force: Force,
    variation: Num,
    distanceResistance: Num,
    distanceSupport: Num)

  /**
   * Classification of the latest row; the previous row contributes only its close.
   * Each label reads its own columns of the latest row, and the labels agree
   * with each other: a bullish trend is above EMA20, a bearish one below, and
   * the MACD label is never neutral.
   */
  function Analyse(current: Row, previous: Row): (a: Analysis)
    ensures a.trend == Haussiere <==>
      Gt(current.bar.close, current.ta.ema20) && Gt(current.ta.ema20, current.ta.ema50)
    ensures a.trend == Baissiere <==>
      Lt(current.bar.close, current.ta.ema20) && Lt(current.ta.ema20, current.ta.ema50)
    ensures a.rsiSignal == Surachete <==> Gt(current.ta.rsi, Real(Overbought))
    ensures a.rsiSignal == Survendu <==> Lt(current.ta.rsi, Real(Oversold))
    ensures a.macdSignal != MacdNeutre
    ensures a.macdSignal == Haussier <==> Gt(current.ta.macd, current.ta.macdSignal)
    ensures a.bollinger == ProcheResistance <==> Gt(current.bar.close, current.ta.bbMiddle)
    ensures a.position == AuDessus <==> Gt(current.bar.close, current.ta.ema20)
    ensures a.force == Forte <==> Gt(Abs(Sub(current.bar.close, current.ta.ema20)), current.ta.atr)
    ensures a.trend == Haussiere ==> a.position == AuDessus
    ensures a.trend == Baissiere ==> a.position == EnDessous
    ensures a.variation.Real? <==> current.bar.close.Real? && previous.bar.close.Real?
    ensures a.distanceResistance.Real? <==> current.resistance.Real? && current.bar.close.Real?
    ensures a.distanceSupport.Real? <==> current.support.Real? && current.bar.close.Real?
    ensures a.distanceResistance.Real? && a.distanceSupport.Real? ==>
      a.distanceResistance.value + a.distanceSupport.value
        == current.resistance.value - current.support.value
    ensures a.variation.Real? ==>
      previous.bar.close.value + a.variation.value == current.bar.close.value
    ensures a.distanceResistance.Real? ==>
      a.distanceResistance.value + current.bar.close.value == current.resistance.value
    ensures a.distanceSupport.Real? ==>
      current.support.value + a.distanceSupport.value == current.bar.close.value
  {
    var close := current.bar.close;
    var ta := current.ta;
    Analysis(
      ClassifyTrend(close, ta.ema20, ta.ema50),
      ClassifyRsi(ta.rsi),
      ClassifyMacd(ta.macd, ta.macdSignal),
      ClassifyBollinger(close, ta.bbMiddle),
      ClassifyEmaPosition(close, ta.ema20),
      ClassifyForce(close, ta.ema20, ta.atr),
      Variation(close, previous.bar.close),
      DistanceResistance(current.resistance, close),
      DistanceSupport(close, current.support))
  }
}
