/**
 * The fixed configuration tables of the service and the request validation that
 * checks a symbol and an interval against them (app.py, `SYMBOLS`, `INTERVALS`
 * and the checks at the head of `get_data`).
 */
module Config {
  import opened Wrappers

  /** The market-data provider's interval codes (`Interval.in_…`). */
  datatype IntervalCode =
    | In1Minute | In5Minute | In15Minute | In30Minute
    | In1Hour | In2Hour | In4Hour | InDaily | InWeekly

  /** Where the provider finds an instrument: its exchange and its ticker there. */
  datatype Route = Route(exchange: string, ticker: string)

  /** `SYMBOLS`: the supported instruments and their provider routing. */
  const Symbols: map<string, Route> := map[
    "XAUUSD" := Route("OANDA", "XAUUSD"),
    "XAGUSD" := Route("OANDA", "XAGUSD"),
    "DXY" := Route("TVC", "DXY")
  ]

  /** `INTERVALS`: the supported timeframe names and their provider codes. */
  const Intervals: map<string, IntervalCode> := map[
    "1min" := In1Minute,
    "5min" := In5Minute,
    "15min" := In15Minute,
    "30min" := In30Minute,
    "1h" := In1Hour,
    "2h" := In2Hour,
    "4h" := In4Hour,
    "1D" := InDaily,
    "1W" := InWeekly
  ]

  /** A validated request, ready to be handed to the provider. */
  datatype Query = Query(symbol: string, route: Route, interval: string, code: IntervalCode, bars: int)

  /** Why a request was refused before any data was fetched (HTTP 400). */
  datatype Rejection = UnsupportedSymbol(symbol: string) | UnsupportedInterval(interval: string)

  /**
   * The symbol is checked first, then the interval; a request passing both is
   * routed through the two tables. The supported names are restated here
   * independently of the tables.
   */
  function Validate(symbol: string, interval: string, bars: int): (r: Result<Query, Rejection>)
    ensures r.Success? <==>
      symbol in {"XAUUSD", "XAGUSD", "DXY"} &&
      interval in {"1min", "5min", "15min", "30min", "1h", "2h", "4h", "1D", "1W"}
    ensures symbol !in {"XAUUSD", "XAGUSD", "DXY"} ==> r == Failure(UnsupportedSymbol(symbol))
    ensures symbol in {"XAUUSD", "XAGUSD", "DXY"} &&
            interval !in {"1min", "5min", "15min", "30min", "1h", "2h", "4h", "1D", "1W"}
            ==> r == Failure(UnsupportedInterval(interval))
    ensures r.Success? ==>
      && r.value.symbol == symbol && r.value.interval == interval && r.value.bars == bars
      && r.value.route.ticker == symbol
      && r.value.route.exchange == (if symbol == "DXY" then "TVC" else "OANDA")
    ensures r.Success? && interval == "1min" ==> r.value.code == In1Minute
    ensures r.Success? && interval == "5min" ==> r.value.code == In5Minute
    ensures r.Success? && interval == "15min" ==> r.value.code == In15Minute
    ensures r.Success? && interval == "30min" ==> r.value.code == In30Minute
    ensures r.Success? && interval == "1h" ==> r.value.code == In1Hour
    ensures r.Success? && interval == "2h" ==> r.value.code == In2Hour
    ensures r.Success? && interval == "4h" ==> r.value.code == In4Hour
    ensures r.Success? && interval == "1D" ==> r.value.code == InDaily
    ensures r.Success? && interval == "1W" ==> r.value.code == InWeekly
  {
    if symbol !in Symbols then Failure(UnsupportedSymbol(symbol))
    else if interval !in Intervals then Failure(UnsupportedInterval(interval))
    else Success(Query(symbol, Symbols[symbol], interval, Intervals[interval], bars))
  }

  /** Distinct timeframe names never reach the provider as the same interval code. */
  lemma IntervalCodesDistinct()
    ensures forall a, b :: a in Intervals && b in Intervals && a != b ==> Intervals[a] != Intervals[b]
  {
  }
}
