/**
 * Properties of the request handler that relate its inputs to its outcome:
 * the defaults, the order of the error checks, the provider being consulted
 * only for valid requests, and the support/resistance distances on frames of
 * well-formed bars.
 */
module ApiLaws {
  import opened Wrappers
  import opened Numbers
  import Config
  import opened Indicators
  import opened Signals
  import opened Api

  /** With no arguments the handler asks for 100 hourly XAUUSD bars on OANDA. */
  lemma DefaultRequest()
    ensures ParseArgs(Args(None, None, BarsAbsent))
         == Success(Config.Query("XAUUSD", Config.Route("OANDA", "XAUUSD"), "1h", Config.In1Hour, 100))
  {
  }

  /** A refused request gives the same answer whatever the provider would have
      returned: the provider is never consulted. */
  lemma RefusedRequestsNeverFetch(
    args: Args,
    feed1: Config.Query -> Option<seq<Bar>>, feed2: Config.Query -> Option<seq<Bar>>,
    ta: seq<Bar> -> seq<TaRow>)
    requires forall bars :: |ta(bars)| == |bars|
    requires ParseArgs(args).Failure?
    ensures GetData(args, feed1, ta) == GetData(args, feed2, ta)
  {
  }

  /** The handler answers 400 exactly when `bars` is an integer (or absent) and the
      symbol or the interval is not in the tables. */
  lemma BadRequestExactlyWhenUnsupported(
    args: Args, feed: Config.Query -> Option<seq<Bar>>, ta: seq<Bar> -> seq<TaRow>)
    requires forall bars :: |ta(bars)| == |bars|
    ensures Status(GetData(args, feed, ta)) == 400 <==>
      && !args.bars.BarsNotAnInteger?
      && (args.symbol.GetOr(DefaultSymbol) !in Config.Symbols
          || args.interval.GetOr(DefaultInterval) !in Config.Intervals)
  {
  }

  /** `int(bars)` fails before the symbol is looked at: an unsupported symbol with
      a malformed `bars` is a server error, not a bad request. */
  lemma MalformedBarsComesFirst(feed: Config.Query -> Option<seq<Bar>>, ta: seq<Bar> -> seq<TaRow>)
    requires forall bars :: |ta(bars)| == |bars|
    ensures GetData(Args(Some("EURUSD"), Some("3h"), BarsNotAnInteger), feed, ta)
         == Failure(InvalidBars)
    ensures Status(GetData(Args(Some("EURUSD"), Some("3h"), BarsNotAnInteger), feed, ta)) == 500
    ensures GetData(Args(Some("EURUSD"), Some("3h"), BarsAbsent), feed, ta)
         == Failure(Rejected(Config.UnsupportedSymbol("EURUSD")))
  {
  }

  /** A one-bar frame cannot be classified and is answered with 500. */
  lemma SingleBarIsServerError(q: Config.Query, b: Bar, t: TaRow)
    ensures Process(q, [b], [t]) == Failure(TooFewBars)
    ensures Status(Process(q, [b], [t])) == 500
  {
  }

  /** Below 50 bars the levels are NaN, and so are both distances. */
  lemma ShortHistoryLeavesLevelsMissing(q: Config.Query, bars: seq<Bar>, ta: seq<TaRow>)
    requires |ta| == |bars| && 2 <= |bars| < LevelWindow
    ensures Process(q, bars, ta).Success?
    ensures Process(q, bars, ta).value.levels == Levels(NaN, NaN)
    ensures Process(q, bars, ta).value.analysis.distanceResistance == NaN
    ensures Process(q, bars, ta).value.analysis.distanceSupport == NaN
  {
  }

  /**
   * On a frame of at least 50 well-formed bars the window that sets the levels
   * includes the latest bar, so the close can never break through: both
   * distances are defined and non-negative, and the resistance is at or above
   * the latest high, the support at or below the latest low.
   */
  lemma LevelsBracketWellFormedClose(q: Config.Query, bars: seq<Bar>, ta: seq<TaRow>)
    requires |ta| == |bars| && |bars| >= LevelWindow
    requires forall i :: 0 <= i < |bars| ==> WellFormed(bars[i])
    ensures Process(q, bars, ta).Success?
    ensures var r := Process(q, bars, ta).value;
      && r.levels.resistance.Real? && r.levels.support.Real?
      && bars[|bars| - 1].high.value <= r.levels.resistance.value
      && r.levels.support.value <= bars[|bars| - 1].low.value
      && r.analysis.distanceResistance.Real? && r.analysis.distanceResistance.value >= 0.0
      && r.analysis.distanceSupport.Real? && r.analysis.distanceSupport.value >= 0.0
  {
  }
}
