# ns-signal: the backtest replay store and signal shaping, in Dafny

This project models the core of `src/lib/signal.ts` in the `ns-signal` trading-signal
service. That core has four parts:

- **Configuration checks.** The `Signal` constructor rejects a configuration that lacks
  `influxdb`, `backtest`, `strategies` or `store`. It creates the replay database only in
  backtest (`test`) mode.
- **Live candle fetch.** `getCq5minData` turns one symbol, or a list of symbols, into
  12-hour 5-minute-candle queries. `_getCq5minData` runs them and copies every result
  into a candle list. One symbol, or a one-element list, gives a flat list. n symbols
  give n lists, in symbol order.
- **Decoration.** `kdj` runs the strategy on each candle list. When the list has a last
  candle, it records that candle's time and close.
- **Replay store.** `getTest5minData` keeps two collections per symbol. The input
  collection `i_<symbol>` holds the whole historical fetch, captured once. The output
  collection `<symbol>` holds the candles revealed so far. Each call reveals one more
  input candle, until the output has caught up with the input.

Modules:

- `Types` holds the values: candles, query windows, queries, the connection and the errors.
- `Replay` is the replay store as values. `Advance` is one call, and the lemmas about it
  state the store's invariants.
- `Loki` is the document database: a class whose collections are a `map` field.
- `Shaping` holds the pure specifications of the fan-out and decoration.
- `Signal` holds the `Signal` class. Its methods have the source's loops and state
  changes, and each is proved against a specification function from `Replay` or
  `Shaping`.

The database connection is a value whose `rows` function gives the rows of a query. The
strategy is a function parameter `execute: seq<Bar> -> S` with an uninterpreted result
type `S`.

## Model

| member | source | states |
|---|---|---|
| Replay.InName | src/lib/signal.ts:84 | The input collection name is the symbol behind a two-character `i_` prefix. It therefore always looks like an input name, never equals the symbol, and determines the symbol. |
| Replay.TestWindow | src/lib/signal.ts:68-80 | A non-empty `isLastDate` selects the 24-hour window. Otherwise a non-empty `date` selects the 64-hour window. With neither set, no query is made. Each case holds in both directions. |
| Replay.Advance | src/lib/signal.ts:82-112 | A call fails exactly when the symbol has no input collection and the fetch is empty, and then it changes nothing. Otherwise both collections of the symbol exist afterwards, and every collection stays non-empty. The input collection is the stored one if it existed, else the fetch. No other collection changes. |
| Replay.AdvanceRevealsNext | src/lib/signal.ts:99-110 | From a consistent state, where the output is a prefix of the input, a successful call makes the output the input prefix one longer (the first candle on a cold start), capped at the input length. The state stays consistent. |
| Replay.CaughtUpIsNoOp | src/lib/signal.ts:105-110 | Once the output is as long as the input, a call leaves the whole store unchanged and succeeds. |
| Replay.InputCapturedOnce | src/lib/signal.ts:86-98 | When the input collection exists, the call does not depend on the fetch and does not change the input collection. |
| Replay.ColdStartWithoutWindowFails | src/lib/signal.ts:72-92 | With neither backtest flag set, every cold start fails with the no-data error. |
| Replay.AdvanceIsolatesSymbols | src/lib/signal.ts:82-111 | For two different symbols, neither starting with `i_`, replaying one leaves both collections of the other as they were. It also keeps the other symbol's prefix invariant. |
| Replay.ReplayRun | src/lib/signal.ts:82-112 | After m >= 1 calls from a consistent state, the output is the input prefix of length (already revealed + m), capped at the input length. The input is the one captured at the start. So the output grows by one per call, never shrinks, and stops at the input length. |
| Replay.InputNameAliasing | src/lib/signal.ts:84-108 | For any symbol `x`, the output collection of `i_` + `x` is the input collection of `x`. While that collection is shorter than the input of `i_` + `x`, replaying `i_` + `x` appends the next candle to `x`'s input collection, so that collection changes. |
| Replay.InputNameAliasingExample | src/lib/signal.ts:84-108 | The hazard is reachable from an empty store: after replaying `X` with two candles, replaying `i_X` with three candles turns `X`'s input collection from the two fetched candles into three. |
| Shaping.Normalize | src/lib/signal.ts:144-148 | A one-element list is unwrapped to its element. A scalar stays a scalar. Any other list, including the empty one, takes the list branch unchanged. |
| Shaping.Cq5minRows | src/lib/signal.ts:114-137 | A single query, or a one-element list of queries, gives one flat list: that query's rows. Otherwise there is exactly one list per query, in query order, each holding that query's rows in order. |
| Shaping.Cq5minData | src/lib/signal.ts:139-158 | A scalar symbol gives the rows of its 12-hour query. n symbols (n != 1) give n lists, and list i holds the rows of symbol i's 12-hour query. |
| Shaping.Decorate | src/lib/signal.ts:46-50 | The output holds the strategy result of the candle list. `lastTime` and `lastPrice` are present exactly when the list is non-empty, and then they are the time and close of its last candle. |
| Shaping.KdjOf | src/lib/signal.ts:43-65 | A scalar symbol gives one decorated output, not a list. n symbols (n != 1) give n outputs, and output i decorates symbol i's candles. |
| Shaping.ScalarAndSingletonAgree | src/lib/signal.ts:144-157 | Passing `x` and passing `[x]` give the same candle data and the same `kdj` result. |
| Shaping.KdjListLastBar | src/lib/signal.ts:53-63 | In the list branch, output i has a last time exactly when symbol i returned candles. Its last time and last price then come from that symbol's last candle. |
| Signal.CheckConfig | src/lib/signal.ts:29-34 | A configuration is accepted exactly when `config`, `influxdb`, `backtest`, `strategies` and `store` are all present. Otherwise the error names the first missing entry, in the order the checks run. |
| Signal.ToBarList | src/lib/signal.ts:119-124 | The candle list has the query's rows, one for one and in order. |
| Signal.Signal.constructor | src/lib/signal.ts:35-40 | Keeps the backtest settings and the connection. Creates a fresh, empty replay database exactly when `test` is set. |
| Signal.Signal.Create | src/lib/signal.ts:29-40 | Fails exactly when an entry is missing, with the first missing one. Otherwise returns a new service built from the configuration, with a replay database exactly in test mode. |
| Signal.Signal.GetCq5minRows | src/lib/signal.ts:114-137 | The loops build exactly what `Shaping.Cq5minRows` describes. |
| Signal.Signal.GetCq5minData | src/lib/signal.ts:144-158 | The query-building loop and the call build exactly what `Shaping.Cq5minData` describes. |
| Signal.Signal.Kdj | src/lib/signal.ts:43-65 | The decoration loop builds exactly what `Shaping.KdjOf` describes. |
| Signal.Signal.GetTest5minHistory | src/lib/signal.ts:68-80 | Returns the rows of the window `Replay.TestWindow` chooses, or nothing when it chooses none. |
| Signal.Signal.CaptureInput | src/lib/signal.ts:86-98 | On a cold start with an empty fetch, fails and changes nothing. On a cold start with data, stores the fetch as the input collection. Otherwise returns the stored input and changes nothing. |
| Signal.Signal.RevealNext | src/lib/signal.ts:100-110 | Creates the output collection with the first input candle. Otherwise it appends the input candle at the output's current length, if there is one. No other collection changes. |
| Signal.Signal.GetTest5minData | src/lib/signal.ts:82-112 | Outside backtest mode, fails because there is no store. Otherwise the new store is the one `Replay.Advance` gives, or the old one on failure. The call returns the symbol's output collection, and every collection stays non-empty. |

## Left out

- The InfluxDB client and query execution are not modelled. The connection is a function from a query to its rows. A batched query is assumed to answer statement by statement, in order.
- The InfluxQL text is not modelled. A query is the pair (window, symbol), and the `now()`-relative windows are the enumeration `Window`.
- `SniperStrategy.execute` is a function parameter with an uninterpreted result type. The empty first argument the source passes to it is not modelled.
- Time formatting (`moment`) and price parsing (`numeral`) are not modelled. `lastTime` is the last candle's time value and `lastPrice` is its close.
- Candle prices are `real`. Floating-point behaviour is not modelled.
- LokiJS internals are not modelled: document metadata, `removeMeta` and the JSON deep copy. Collections are value sequences in a map. `addCollection` on an existing name keeps that collection.
- `get5minData` (src/lib/signal.ts:160-186) is not modelled. Its backtest branches are commented out, so it only reshapes the live candle data.
- The async sequencing of the calls is not modelled, and neither is the test file.
- The contents of the `strategies` and `store` entries are not modelled. The core only checks that they are present.
- A missing replay store is modelled as the error `NoReplayStore`. In the source, reading a collection of an undefined database throws a type error.
- The cross-symbol invariant (`Replay.AdvanceIsolatesSymbols`) is stated only for symbols that do not start with `i_`. `Replay.InputNameAliasing` shows why.
- For a scalar symbol, `kdj` returns a single output, not a list (src/lib/signal.ts:51).
- The strategy runs even on an empty candle list (src/lib/signal.ts:46).
- Signal.Signal.constructor: the replay store is modelled as belonging to the service. In the source it is written onto the caller's `config.backtest` object (src/lib/signal.ts:35, 39). Services built from the same configuration object therefore share one store. A later test-mode construction replaces the store an earlier service replays on, so that service starts again from a cold start. A non-test service built from a configuration that already carries a store replays on it, where the model gives `NoReplayStore`.
- Signal.Signal.Create: the same per-service store model as the constructor. Sharing the store through the configuration object is not modelled.
