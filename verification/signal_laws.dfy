/**
 * Laws of the signal classifier that relate several calls: up/down symmetry,
 * boundary and NaN cases, monotonicity and the agreement between labels.
 */
module SignalLaws {
  import opened Numbers
  import opened Indicators
  import opened Signals

  /** The trend seen in a mirror: bullish and bearish swap. */
  function OppositeTrend(t: Trend): Trend {
    match t
    case Haussiere => Baissiere
    case Baissiere => Haussiere
    case TrendNeutre => TrendNeutre
  }

  /** The RSI signal seen in a mirror: overbought and oversold swap. */
  function OppositeRsi(s: RsiSignal): RsiSignal {
    match s
    case Surachete => Survendu
    case Survendu => Surachete
    case RsiNeutre => RsiNeutre
  }

  /** The MACD label seen in a mirror. */
  function OppositeMacd(s: MacdSignal): MacdSignal {
    match s
    case Haussier => Baissier
    case Baissier => Haussier
    case MacdNeutre => MacdNeutre
  }

  /** Order of the RSI signals from oversold to overbought. */
  function RsiRank(s: RsiSignal): int {
    match s
    case Survendu => 0
    case RsiNeutre => 1
    case Surachete => 2
  }

  /** `100 - rsi`: the RSI of the price series turned upside down. */
  function Reflect(rsi: Num): Num {
    match rsi
    case NaN => NaN
    case Real(x) => Real(100.0 - x)
  }

  /** Any equality in the chain, or any NaN, gives a neutral trend. */
  lemma TrendNeutralOnTieOrNaN(close: Num, ema20: Num, ema50: Num)
    requires close.NaN? || ema20.NaN? || ema50.NaN? || close == ema20 || ema20 == ema50
    ensures ClassifyTrend(close, ema20, ema50) == TrendNeutre
  {
  }

  /** Negating the close and both averages swaps bullish and bearish. */
  lemma TrendMirror(close: Num, ema20: Num, ema50: Num)
    ensures ClassifyTrend(Neg(close), Neg(ema20), Neg(ema50))
         == OppositeTrend(ClassifyTrend(close, ema20, ema50))
  {
  }

  /** 70, 30 and NaN are neutral readings. */
  lemma RsiNeutralOnBoundsAndNaN(rsi: Num)
    requires rsi.NaN? || rsi == Real(Overbought) || rsi == Real(Oversold)
    ensures ClassifyRsi(rsi) == RsiNeutre
  {
  }

  /** The thresholds are symmetric about 50: reflecting the RSI swaps the extremes. */
  lemma RsiReflect(rsi: Num)
    ensures ClassifyRsi(Reflect(rsi)) == OppositeRsi(ClassifyRsi(rsi))
  {
  }

  /** A higher RSI never gives a signal further toward oversold. */
  lemma RsiMonotone(a: Num, b: Num)
    requires a.Real? && b.Real? && a.value <= b.value
    ensures RsiRank(ClassifyRsi(a)) <= RsiRank(ClassifyRsi(b))
  {
  }

  /** A MACD line equal to its signal line, or a NaN on either side, is bearish. */
  lemma MacdTieOrNaNIsBearish(macd: Num, signal: Num)
    requires macd == signal || macd.NaN? || signal.NaN?
    ensures ClassifyMacd(macd, signal) == Baissier
  {
  }

  /** Away from a tie, swapping the MACD line and its signal line flips the label;
      at a tie both orders are bearish, so the rule is not symmetric. */
  lemma MacdSwap(macd: Num, signal: Num)
    requires macd.Real? && signal.Real?
    ensures macd != signal ==> ClassifyMacd(signal, macd) == OppositeMacd(ClassifyMacd(macd, signal))
    ensures macd == signal ==> ClassifyMacd(signal, macd) == ClassifyMacd(macd, signal) == Baissier
  {
  }

  /** The Bollinger rule is the EMA-position rule against another line, and it is
      monotone in the close. */
  lemma BollingerMatchesEmaRule(close: Num, higher: Num, bbMiddle: Num)
    requires close.Real? && higher.Real? && close.value <= higher.value
    ensures (ClassifyBollinger(close, bbMiddle) == ProcheResistance)
        <==> (ClassifyEmaPosition(close, bbMiddle) == AuDessus)
    ensures ClassifyBollinger(close, bbMiddle) == ProcheResistance ==>
      ClassifyBollinger(higher, bbMiddle) == ProcheResistance
  {
  }

  /** Strength depends only on the size of the gap between close and EMA20, not its side. */
  lemma ForceSymmetric(close: Num, ema20: Num, atr: Num)
    ensures ClassifyForce(ema20, close, atr) == ClassifyForce(close, ema20, atr)
    ensures ClassifyForce(Neg(close), Neg(ema20), atr) == ClassifyForce(close, ema20, atr)
  {
  }

  /** With a non-negative ATR, a strong move is never a close sitting on EMA20. */
  lemma StrongMoveLeavesEma(close: Num, ema20: Num, atr: Num)
    requires atr.Real? && atr.value >= 0.0
    requires ClassifyForce(close, ema20, atr) == Forte
    ensures close.Real? && ema20.Real? && close.value != ema20.value
  {
  }

  /** Trend and position against EMA20 agree; the converse fails, because a close
      above EMA20 with EMA20 not above EMA50 is neutral. */
  lemma TrendImpliesPosition(close: Num, ema20: Num, ema50: Num)
    ensures ClassifyTrend(close, ema20, ema50) == Haussiere ==>
      ClassifyEmaPosition(close, ema20) == AuDessus
    ensures ClassifyTrend(close, ema20, ema50) == Baissiere ==>
      ClassifyEmaPosition(close, ema20) == EnDessous
    ensures ClassifyEmaPosition(Real(2.0), Real(1.0)) == AuDessus
    ensures ClassifyTrend(Real(2.0), Real(1.0), Real(1.0)) == TrendNeutre
  {
  }

  /** The two distances always add up to the width of the support/resistance band,
      whatever the close. */
  lemma DistancesSpanLevels(close: Num, resistance: Num, support: Num)
    requires close.Real? && resistance.Real? && support.Real?
    ensures DistanceResistance(resistance, close).value + DistanceSupport(close, support).value
         == resistance.value - support.value
  {
  }

  /** Only the previous bar's close matters to the classification. */
  lemma AnalyseIsMemoryless(current: Row, previous1: Row, previous2: Row)
    requires previous1.bar.close == previous2.bar.close
    ensures Analyse(current, previous1) == Analyse(current, previous2)
  {
  }

  /** Distinct labels are distinguishable in the response text. */
  lemma LabelTextsDistinct(
    t1: Trend, t2: Trend, s1: RsiSignal, s2: RsiSignal, m1: MacdSignal, m2: MacdSignal)
    ensures t1 != t2 ==> t1.Text() != t2.Text()
    ensures s1 != s2 ==> s1.Text() != s2.Text()
    ensures m1 != m2 ==> m1.Text() != m2.Text()
  {
  }
}
