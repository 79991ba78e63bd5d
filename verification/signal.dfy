/** The `Signal` service: configuration checks, the live candle fetch with its
    symbol fan-out, the strategy decoration, and the backtest replay accessor. */
module Signal {
  import opened Wrappers
  import opened Types
  import opened Shaping
  import Replay
  import Loki

  /** The configuration entries the constructor looks at. An absent or empty entry is
      None. The strategies and store entries are only checked for presence. */
  datatype Config = Config(
    influxdb: Option<Connection>,
    backtest: Option<Backtest>,
    strategies: Option<string>,
    store: Option<string>)

  /** The required entries that `config` lacks, in the order the constructor checks them. */
  function MissingFields(config: Option<Config>): seq<string>
  {
    match config
    case None => ["config"]
    case Some(c) =>
      (if c.influxdb.None? then ["config.influxdb"] else []) +
      (if c.backtest.None? then ["config.backtest"] else []) +
      (if c.strategies.None? then ["config.strategies"] else []) +
      (if c.store.None? then ["config.store"] else [])
  }

  /** The constructor's checks: it accepts exactly the configurations that have every
      required entry, and otherwise rejects with the first missing one. */
  function CheckConfig(config: Option<Config>): (r: Result<(Connection, Backtest), Error>)
    ensures r.Success? <==>
      config.Some? && config.value.influxdb.Some? && config.value.backtest.Some? &&
      config.value.strategies.Some? && config.value.store.Some?
    ensures r.Success? <==> MissingFields(config) == []
    ensures r.Success? ==> r.value.0 == config.value.influxdb.value && r.value.1 == config.value.backtest.value
    ensures r.Failure? ==> r.error == ConfigRequired(MissingFields(config)[0])
  {
    if config.None? then Failure(ConfigRequired("config"))
    else if config.value.influxdb.None? then Failure(ConfigRequired("config.influxdb"))
    else if config.value.backtest.None? then Failure(ConfigRequired("config.backtest"))
    else if config.value.strategies.None? then Failure(ConfigRequired("config.strategies"))
    else if config.value.store.None? then Failure(ConfigRequired("config.store"))
    else Success((config.value.influxdb.value, config.value.backtest.value))
  }

  /** Copies query rows into a candle list, one by one, in row order. */
  method ToBarList(res: seq<Bar>) returns (barList: seq<Bar>)
    ensures |barList| == |res|
    ensures forall i :: 0 <= i < |res| ==> barList[i] == res[i]
  {
    barList := [];
    for i := 0 to |res|
      invariant barList == res[..i]
    {
      barList := barList + [res[i]];
    }
  }

  class Signal {
    const backtest: Backtest
    const influxdb: Connection
    /** The replay store; it exists only in backtest mode. */
    const loki: Loki.Database?

    /** The replay store only holds non-empty collections. */
    ghost predicate Valid()
      reads this, loki
    {
      loki != null ==> Replay.WellFormed(loki.collections)
    }

    /** A service over checked settings: the replay store is created, empty, exactly
        in test mode. */
    constructor (backtest: Backtest, influxdb: Connection)
      ensures this.backtest == backtest && this.influxdb == influxdb
      ensures (loki != null) == backtest.test
      ensures loki != null ==> fresh(loki) && loki.collections == map[]
      ensures Valid()
    {
      this.backtest := backtest;
      this.influxdb := influxdb;
      if backtest.test {
        var db := new Loki.Database();
        this.loki := db;
      } else {
        this.loki := null;
      }
    }

    /** Construction from a raw configuration: fails with the first missing entry,
        otherwise builds the service from it. */
    static method Create(config: Option<Config>) returns (r: Result<Signal, Error>)
      ensures r.Success? <==> MissingFields(config) == []
      ensures r.Failure? ==> r.error == ConfigRequired(MissingFields(config)[0])
      ensures r.Success? ==>
        && fresh(r.value) && r.value.Valid()
        && r.value.backtest == config.value.backtest.value
        && r.value.influxdb == config.value.influxdb.value
        && (r.value.loki != null <==> r.value.backtest.test)
        && (r.value.loki != null ==> fresh(r.value.loki) && r.value.loki.collections == map[])
    {
      var checked := CheckConfig(config);
      if checked.Failure? {
        return Failure(checked.error);
      }
      var s := new Signal(checked.value.1, checked.value.0);
      r := Success(s);
    }

    /** `_getCq5minData`: runs one query or a batch, and copies each result into its
        own candle list. */
    method GetCq5minRows(query: QueryArg) returns (r: BarData)
      ensures r == Cq5minRows(influxdb, query)
    {
      if query.OneQuery? || |query.queries| == 1 {
        var q := if query.OneQuery? then query.query else query.queries[0];
        var res := influxdb.rows(q);
        var barList := ToBarList(res);
        r := Flat(barList);
      } else {
        var resList := influxdb.Batch(query.queries);
        var symbolList: seq<seq<Bar>> := [];
        for i := 0 to |resList|
          invariant |symbolList| == i
          invariant forall j :: 0 <= j < i ==> symbolList[j] == resList[j]
        {
          var barList := ToBarList(resList[i]);
          symbolList := symbolList + [barList];
        }
        r := Nested(symbolList);
      }
    }

    /** `getCq5minData`: one 12-hour query for a scalar symbol, else one per symbol
        in order, run as a batch. */
    method GetCq5minData(symbol: SymbolArg) returns (r: BarData)
      ensures r == Cq5minData(influxdb, symbol)
    {
      if symbol.One? || |symbol.symbols| == 1 {
        var s := if symbol.One? then symbol.symbol else symbol.symbols[0];
        r := GetCq5minRows(OneQuery(Cq5minQuery(s)));
      } else {
        var queryList: seq<Query> := [];
        for i := 0 to |symbol.symbols|
          invariant |queryList| == i
          invariant forall j :: 0 <= j < i ==> queryList[j] == Cq5minQuery(symbol.symbols[j])
        {
          queryList := queryList + [Cq5minQuery(symbol.symbols[i])];
        }
        assert queryList == Cq5minQueries(symbol.symbols);
        r := GetCq5minRows(QueryList(queryList));
      }
    }

    /** `kdj`: fetches the live candles and decorates the strategy result of each
        candle list, keeping the symbol order. */
    method Kdj<S>(symbol: SymbolArg, execute: seq<Bar> -> S) returns (r: KdjResult<S>)
      ensures r == KdjOf(influxdb, symbol, execute)
    {
      if symbol.One? || |symbol.symbols| == 1 {
        var data := GetCq5minData(symbol);
        var hisData := data.bars;
        r := Single(Decorate(execute, hisData));
      } else {
        var data := GetCq5minData(symbol);
        var hisDataList := data.lists;
        var signalList: seq<KdjOutput<S>> := [];
        for i := 0 to |hisDataList|
          invariant |signalList| == i
          invariant forall j :: 0 <= j < i ==> signalList[j] == Decorate(execute, hisDataList[j])
        {
          signalList := signalList + [Decorate(execute, hisDataList[i])];
        }
        r := List(signalList);
      }
    }

    /** `_getTest5minData`: the historical candles a cold start receives, from the
        window the backtest flags choose (none when neither flag is set). */
    method GetTest5minHistory(symbol: string) returns (hisData: seq<Bar>)
      ensures hisData == Replay.FetchHistory(influxdb, backtest, symbol)
    {
      hisData := [];
      if backtest.isLastDate != "" {
        var data := GetCq5minRows(OneQuery(Query(Last24h, symbol)));
        hisData := data.bars;
      } else if backtest.date != "" {
        var data := GetCq5minRows(OneQuery(Query(Last64h, symbol)));
        hisData := data.bars;
      }
    }

    /** First half of `getTest5minData`: the stored input of `symbol`, or on a cold
        start the fetched history, captured in a new input collection. */
    method CaptureInput(symbol: string) returns (r: Result<seq<Bar>, Error>)
      requires loki != null
      modifies loki
      ensures var fetched := Replay.FetchHistory(influxdb, backtest, symbol);
        && (r.Failure? <==> Replay.InName(symbol) !in old(loki.collections) && fetched == [])
        && (r.Failure? ==> r.error == NoBacktestData && loki.collections == old(loki.collections))
        && (r.Success? ==>
              && r.value == Replay.Input(old(loki.collections), symbol, fetched)
              && loki.collections == old(loki.collections)[Replay.InName(symbol) := r.value])
    {
      var inCollName := Replay.InName(symbol);
      var inColl := loki.GetCollection(inCollName);
      var hisData: seq<Bar>;
      if inColl.None? {
        hisData := GetTest5minHistory(symbol);
        if |hisData| == 0 {
          return Failure(NoBacktestData);
        }
        loki.AddCollection(inCollName);
        loki.Insert(inCollName, hisData);
        assert [] + hisData == hisData;
      } else {
        hisData := inColl.value;
        assert old(loki.collections)[inCollName := hisData] == old(loki.collections);
      }
      r := Success(hisData);
    }

    /** Second half of `getTest5minData`: creates the output collection with the first
        input candle, or appends the next unrevealed input candle if there is one. */
    method RevealNext(symbol: string, hisData: seq<Bar>)
      requires loki != null && hisData != []
      modifies loki
      ensures loki.collections ==
        old(loki.collections)[symbol := Replay.NextOutput(old(loki.collections), symbol, hisData)]
    {
      var outColl := loki.GetCollection(symbol);
      if outColl.None? {
        loki.AddCollection(symbol);
        loki.Insert(symbol, [hisData[0]]);
        assert [] + [hisData[0]] == [hisData[0]];
      } else {
        var n := |outColl.value|;
        if n < |hisData| {
          loki.Insert(symbol, [hisData[n]]);
        } else {
          assert old(loki.collections)[symbol := outColl.value] == old(loki.collections);
        }
      }
    }

    /** `getTest5minData`: one replay call for `symbol` on the store, as `Replay.Advance`
        describes it; returns the output collection after the call. */
    method GetTest5minData(symbol: string) returns (r: Result<seq<Bar>, Error>)
      requires Valid()
      modifies loki
      ensures Valid()
      ensures loki == null ==> r == Failure(NoReplayStore)
      ensures loki != null ==>
        var fetched := Replay.FetchHistory(influxdb, backtest, symbol);
        match Replay.Advance(old(loki.collections), symbol, fetched)
        case Failure(e) => r == Failure(e) && loki.collections == old(loki.collections)
        case Success(after) => loki.collections == after && r == Success(after[symbol])
    {
      if loki == null {
        return Failure(NoReplayStore);
      }
      var input := CaptureInput(symbol);
      if input.Failure? {
        return Failure(input.error);
      }
      var hisData := input.value;
      assert hisData != [] by {
        assert Replay.WellFormed(old(loki.collections));
      }
      RevealNext(symbol, hisData);
      r := Success(loki.collections[symbol]);
    }
  }
}
