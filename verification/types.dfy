/** The values the signal core passes around: candles, queries, the database
    connection, the backtest settings and the errors it raises. */
module Types {

  /** One 5-minute candle, as a row of the time-series database. */
  datatype Bar = Bar(time: int, open: real, high: real, low: real, close: real, volume: real)

  /** The look-back window of a 5-minute candle query (`now() - 12h`, `24h`, `64h`). */
  datatype Window = Last12h | Last24h | Last64h

  /** "Every 5-minute candle of `symbol` inside `window`": stands for the InfluxQL text. */
  datatype Query = Query(window: Window, symbol: string)

  /** The time-series connection, reduced to the rows a query returns, in database order. */
  datatype Connection = Connection(rows: Query -> seq<Bar>)
  {
    /** A batched query answers statement by statement, in the order the statements were given. */
    function Batch(qs: seq<Query>): seq<seq<Bar>>
    {
      seq(|qs|, i requires 0 <= i < |qs| => rows(qs[i]))
    }
  }

  /** The `backtest` section of the configuration. A string flag is set when it is
      non-empty, which is how the source tests it. */
  datatype Backtest = Backtest(test: bool, isLastDate: string, date: string, interval: int)

  /** What the core throws. */
  datatype Error =
    | ConfigRequired(field: string)  // a required configuration entry is missing
    | NoReplayStore                  // replay requested outside backtest mode (no store exists)
    | NoBacktestData                 // cold start whose historical fetch returned no candles
}
