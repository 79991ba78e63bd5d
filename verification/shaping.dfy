/** The list-shaping part of the signal core: how a symbol argument becomes
    queries, how query results become candle lists, and how candle lists become
    decorated strategy outputs. */
module Shaping {
  import opened Wrappers
  import opened Types

  /** The symbol argument of `getCq5minData` and `kdj`: one symbol, or a list. */
  datatype SymbolArg = One(symbol: string) | Many(symbols: seq<string>)

  /** The branch the source takes on a symbol argument. */
  datatype Symbols = Scalar(symbol: string) | Several(symbols: seq<string>)

  /** The query argument of `_getCq5minData`: one query, or a list. */
  datatype QueryArg = OneQuery(query: Query) | QueryList(queries: seq<Query>)

  /** Candle data as returned: one flat list, or one list per symbol. */
  datatype BarData = Flat(bars: seq<Bar>) | Nested(lists: seq<seq<Bar>>)

  /** A strategy result decorated with the time and close of the last candle. */
  datatype KdjOutput<S> = KdjOutput(strategy: S, lastTime: Option<int>, lastPrice: Option<real>)

  /** What `kdj` returns: one output for a scalar symbol, a list otherwise. */
  datatype KdjResult<S> = Single(signal: KdjOutput<S>) | List(signals: seq<KdjOutput<S>>)

  /** A single-element list is unwrapped to its element; any other list (also the
      empty one) is kept as a list. */
  function Normalize(arg: SymbolArg): (r: Symbols)
    ensures r.Several? <==> arg.Many? && |arg.symbols| != 1
    ensures r.Scalar? ==> r.symbol == (if arg.One? then arg.symbol else arg.symbols[0])
    ensures r.Several? ==> r.symbols == arg.symbols
  {
    match arg
    case One(s) => Scalar(s)
    case Many(xs) => if |xs| == 1 then Scalar(xs[0]) else Several(xs)
  }

  /** The live 5-minute candle query of a symbol: the last 12 hours. */
  function Cq5minQuery(symbol: string): Query
  {
    Query(Last12h, symbol)
  }

  /** One live query per symbol, in symbol order. */
  function Cq5minQueries(symbols: seq<string>): seq<Query>
  {
    seq(|symbols|, i requires 0 <= i < |symbols| => Cq5minQuery(symbols[i]))
  }

  /** `_getCq5minData`: a single query (or a one-element list) gives one flat candle
      list; otherwise every query gives its own list, in query order, each keeping
      the database's row order. */
  function Cq5minRows(conn: Connection, arg: QueryArg): (r: BarData)
    ensures r.Flat? <==> arg.OneQuery? || |arg.queries| == 1
    ensures r.Flat? ==> r.bars == conn.rows(if arg.OneQuery? then arg.query else arg.queries[0])
    ensures r.Nested? ==>
      |r.lists| == |arg.queries| &&
      forall i :: 0 <= i < |arg.queries| ==> r.lists[i] == conn.rows(arg.queries[i])
  {
    match arg
    case OneQuery(q) => Flat(conn.rows(q))
    case QueryList(qs) => if |qs| == 1 then Flat(conn.rows(qs[0])) else Nested(conn.Batch(qs))
  }

  /** `getCq5minData`: a scalar symbol gives the flat candle list of its 12-hour
      query; n symbols (n != 1) give n lists, the i-th being the candles of the
      i-th symbol. */
  function Cq5minData(conn: Connection, arg: SymbolArg): (r: BarData)
    ensures Normalize(arg).Scalar? ==> r == Flat(conn.rows(Cq5minQuery(Normalize(arg).symbol)))
    ensures Normalize(arg).Several? ==>
      r.Nested? && |r.lists| == |arg.symbols| &&
      forall i :: 0 <= i < |arg.symbols| ==> r.lists[i] == conn.rows(Cq5minQuery(arg.symbols[i]))
  {
    match Normalize(arg)
    case Scalar(s) => Cq5minRows(conn, OneQuery(Cq5minQuery(s)))
    case Several(xs) => Cq5minRows(conn, QueryList(Cq5minQueries(xs)))
  }

  /** Runs the strategy on `bars` and, when there is a last candle, records its time
      and close. */
  function Decorate<S>(execute: seq<Bar> -> S, bars: seq<Bar>): (o: KdjOutput<S>)
    ensures o.strategy == execute(bars)
    ensures o.lastTime.Some? <==> bars != []
    ensures o.lastPrice.Some? <==> bars != []
    ensures bars != [] ==> o.lastTime.value == bars[|bars| - 1].time
    ensures bars != [] ==> o.lastPrice.value == bars[|bars| - 1].close
  {
    var signal := execute(bars);
    if |bars| > 0 then
      var last := bars[|bars| - 1];
      KdjOutput(signal, Some(last.time), Some(last.close))
    else
      KdjOutput(signal, None, None)
  }

  /** `kdj`: a scalar symbol gives one decorated output; n symbols (n != 1) give n
      outputs, the i-th decorating the candles of the i-th symbol. */
  function KdjOf<S>(conn: Connection, arg: SymbolArg, execute: seq<Bar> -> S): (r: KdjResult<S>)
    ensures r.Single? <==> Normalize(arg).Scalar?
    ensures r.Single? ==> r.signal == Decorate(execute, conn.rows(Cq5minQuery(Normalize(arg).symbol)))
    ensures r.List? ==>
      |r.signals| == |arg.symbols| &&
      forall i :: 0 <= i < |arg.symbols| ==>
        r.signals[i] == Decorate(execute, conn.rows(Cq5minQuery(arg.symbols[i])))
  {
    var data := Cq5minData(conn, arg);
    match Normalize(arg)
    case Scalar(_) => Single(Decorate(execute, data.bars))
    case Several(_) => List(seq(|data.lists|, i requires 0 <= i < |data.lists| => Decorate(execute, data.lists[i])))
  }

  /** Passing `x` and passing `[x]` are indistinguishable. */
  lemma ScalarAndSingletonAgree<S>(conn: Connection, x: string, execute: seq<Bar> -> S)
    ensures Cq5minData(conn, One(x)) == Cq5minData(conn, Many([x]))
    ensures KdjOf(conn, One(x), execute) == KdjOf(conn, Many([x]), execute)
  {
  }

  /** In the list branch every output carries a last time and price exactly when its
      symbol returned candles, and they are those of its last candle. */
  lemma KdjListLastBar<S>(conn: Connection, xs: seq<string>, execute: seq<Bar> -> S, i: nat)
    requires |xs| != 1 && i < |xs|
    ensures KdjOf(conn, Many(xs), execute).List?
    ensures var o := KdjOf(conn, Many(xs), execute).signals[i];
            var bars := conn.rows(Cq5minQuery(xs[i]));
            && (o.lastTime.Some? <==> bars != [])
            && (bars != [] ==> o.lastTime == Some(bars[|bars| - 1].time) && o.lastPrice == Some(bars[|bars| - 1].close))
  {
  }
}
