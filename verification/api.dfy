/**
 * The `/data` request handler (app.py, `get_data`): argument defaults, the
 * validation against the configuration tables, the provider call, the
 * enrichment of the frame and the classification of its last two rows, with
 * each failure mapped to its HTTP status. The provider and the indicator
 * library are parameters of the model.
 */
module Api {
  import opened Wrappers
  import opened Numbers
  import Config
  import opened Indicators
  import opened Signals

  const DefaultSymbol: string := "XAUUSD"
  const DefaultInterval: string := "1h"
  const DefaultBars: int := 100

  /** The `bars` query argument: absent, an integer, or text `int()` refuses. */
  datatype BarsArg = BarsAbsent | BarsGiven(n: int) | BarsNotAnInteger

  /** The query-string arguments of one request. */
  datatype Args = Args(symbol: Option<string>, interval: Option<string>, bars: BarsArg)

  /** Every way a request can fail. */
  datatype ApiError =
    | InvalidBars                        // `int(bars)` raised
    | Rejected(why: Config.Rejection)    // unsupported symbol or interval
    | NoData                             // the provider returned nothing or an empty frame
    | TooFewBars                         // `iloc[-2]` on a one-bar frame raised

  /** The HTTP status the handler answers with. */
  function Status(r: Result<Response, ApiError>): (code: int)
    ensures code == 200 <==> r.Success?
    ensures code == 400 <==> r.Failure? && r.error.Rejected?
    ensures code == 200 || code == 400 || code == 500
  {
    match r
    case Success(_) => 200
    case Failure(Rejected(_)) => 400
    case Failure(_) => 500
  }

  /** The `niveaux` block of the response. */
  datatype Levels = Levels(resistance: Num, support: Num)

  /** The response body (timestamp, percentage change and raw tail left out). */
  datatype Response = Response(
    symbol: string,
    interval: string,
    price: Num,
    indicators: TaRow,
    levels: Levels,
    analysis: Analysis)

  /**
   * Reading and validating the arguments. `int(bars)` runs before any check,
   * so a malformed `bars` is a server error even for an unsupported symbol;
   * then the symbol is checked, then the interval.
   */
  function ParseArgs(args: Args): (r: Result<Config.Query, ApiError>)
    ensures r == Failure(InvalidBars) <==> args.bars.BarsNotAnInteger?
    ensures !args.bars.BarsNotAnInteger? ==>
      var symbol := args.symbol.GetOr(DefaultSymbol);
      var interval := args.interval.GetOr(DefaultInterval);
      && (r.Success? <==> symbol in Config.Symbols && interval in Config.Intervals)
      && (symbol !in Config.Symbols ==> r == Failure(Rejected(Config.UnsupportedSymbol(symbol))))
      && (symbol in Config.Symbols && interval !in Config.Intervals ==>
            r == Failure(Rejected(Config.UnsupportedInterval(interval))))
    ensures r.Success? ==>
      && r.value.symbol == args.symbol.GetOr(DefaultSymbol)
      && r.value.interval == args.interval.GetOr(DefaultInterval)
      && r.value.bars == (if args.bars.BarsGiven? then args.bars.n else DefaultBars)
    ensures r.Success? ==>
      Config.Validate(r.value.symbol, r.value.interval, r.value.bars) == Success(r.value)
  {
    var symbol := args.symbol.GetOr(DefaultSymbol);
    var interval := args.interval.GetOr(DefaultInterval);
    if args.bars.BarsNotAnInteger? then Failure(InvalidBars)
    else
      var bars := if args.bars.BarsGiven? then args.bars.n else DefaultBars;
      match Config.Validate(symbol, interval, bars)
      case Failure(why) => Failure(Rejected(why))
      case Success(q) => Success(q)
  }

  /** The response built from the last row and the one before it: the price,
      indicators and levels are the last row's, the labels its classification. */
  function Respond(q: Config.Query, current: Row, previous: Row): (r: Response)
    ensures r.symbol == q.symbol && r.interval == q.interval
    ensures r.price == current.bar.close
    ensures r.indicators == current.ta
    ensures r.levels.resistance == current.resistance && r.levels.support == current.support
    ensures r.analysis == Analyse(current, previous)
    ensures r.analysis.macdSignal != MacdNeutre
    ensures r.analysis.rsiSignal == Surachete <==> Gt(current.ta.rsi, Real(Overbought))
    ensures r.analysis.trend == Haussiere <==>
      Gt(current.bar.close, current.ta.ema20) && Gt(current.ta.ema20, current.ta.ema50)
  {
    Response(
      q.symbol,
      q.interval,
      current.bar.close,
      current.ta,
      Levels(current.resistance, current.support),
      Analyse(current, previous))
  }

  /**
   * Everything after the provider call: an empty frame is "no data", a
   * one-bar frame fails on the second-to-last row, and otherwise the last row
   * is classified against the one before it.
   */
  function Process(q: Config.Query, bars: seq<Bar>, ta: seq<TaRow>): (r: Result<Response, ApiError>)
    requires |ta| == |bars|
    ensures r == Failure(NoData) <==> |bars| == 0
    ensures r == Failure(TooFewBars) <==> |bars| == 1
    ensures r.Success? <==> |bars| >= 2
    ensures r.Success? ==>
      var n := |bars|;
      && r.value.symbol == q.symbol && r.value.interval == q.interval
      && r.value.price == bars[n - 1].close
      && r.value.indicators == ta[n - 1]
      && r.value.analysis.variation == Variation(bars[n - 1].close, bars[n - 2].close)
    ensures r.Success? ==>
      var rows := CalculateIndicators(bars, ta);
      && r.value.levels == Levels(rows[|bars| - 1].resistance, rows[|bars| - 1].support)
      && r.value.analysis == Analyse(rows[|bars| - 1], rows[|bars| - 2])
  {
    if |bars| == 0 then Failure(NoData)
    else
      var rows := CalculateIndicators(bars, ta);
      if |rows| < 2 then Failure(TooFewBars)
      else Success(Respond(q, rows[|rows| - 1], rows[|rows| - 2]))
  }

  /**
   * The whole handler. `feed` stands for the provider (`None` when it returns
   * nothing) and `ta` for the indicator library, which yields one row of
   * outputs per bar. The provider is asked only after the arguments pass.
   */
  function GetData(args: Args, feed: Config.Query -> Option<seq<Bar>>, ta: seq<Bar> -> seq<TaRow>)
    : (r: Result<Response, ApiError>)
    requires forall bars :: |ta(bars)| == |bars|
    ensures ParseArgs(args).Failure? ==> r == Failure(ParseArgs(args).error)
    ensures ParseArgs(args).Success? ==>
      var frame := feed(ParseArgs(args).value);
      && (r == Failure(NoData) <==> frame.None? || |frame.value| == 0)
      && (frame.Some? ==> r == Process(ParseArgs(args).value, frame.value, ta(frame.value)))
  {
    match ParseArgs(args)
    case Failure(e) => Failure(e)
    case Success(q) =>
      match feed(q)
      case None => Failure(NoData)
      case Some(bars) => Process(q, bars, ta(bars))
  }
}
