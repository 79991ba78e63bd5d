/** The backtest replay store, as values. For each symbol the store keeps two
    collections: the input collection `i_<symbol>`, holding the whole historical
    fetch, and the output collection `<symbol>`, holding the candles revealed so
    far. Each replay call reveals one more input candle. */
module Replay {
  import opened Wrappers
  import opened Types

  /** The store: collection name to its documents, in insertion order. */
  type Collections = map<string, seq<Bar>>

  /** Does `name` have the shape of an input collection name? */
  predicate IsInputName(name: string)
  {
    |name| >= 2 && name[..2] == "i_"
  }

  /** The name of the input collection of `symbol`. It always looks like an input name,
      and it determines the symbol, so two symbols never share an input collection. */
  function InName(symbol: string): (name: string)
    ensures |name| == |symbol| + 2 && name[2..] == symbol
    ensures IsInputName(name) && name != symbol
  {
    "i_" + symbol
  }

  /** Which historical window a cold start fetches: the last day wins over an
      explicit date; with neither flag set nothing is fetched. */
  function TestWindow(bt: Backtest): (w: Option<Window>)
    ensures w == Some(Last24h) <==> bt.isLastDate != ""
    ensures w == Some(Last64h) <==> bt.isLastDate == "" && bt.date != ""
    ensures w == None <==> bt.isLastDate == "" && bt.date == ""
  {
    if bt.isLastDate != "" then Some(Last24h)
    else if bt.date != "" then Some(Last64h)
    else None
  }

  /** The candles a cold start receives for `symbol`. */
  function FetchHistory(conn: Connection, bt: Backtest, symbol: string): seq<Bar>
  {
    match TestWindow(bt)
    case None => []
    case Some(w) => conn.rows(Query(w, symbol))
  }

  /** Every collection the store ever creates holds at least one candle. */
  ghost predicate WellFormed(cols: Collections)
  {
    forall name :: name in cols ==> cols[name] != []
  }

  /** The replay state of `symbol` is consistent: its two collections exist together,
      and the output is a prefix of the input. */
  ghost predicate Consistent(cols: Collections, symbol: string)
  {
    && (symbol in cols <==> InName(symbol) in cols)
    && (symbol in cols ==>
          |cols[symbol]| <= |cols[InName(symbol)]| &&
          cols[symbol] == cols[InName(symbol)][..|cols[symbol]|])
  }

  /** How many candles of `symbol` have been revealed. */
  function Revealed(cols: Collections, symbol: string): nat
  {
    if symbol in cols then |cols[symbol]| else 0
  }

  /** The input sequence a replay call for `symbol` works from: the stored one, or the
      fetched one on a cold start. */
  function Input(cols: Collections, symbol: string, fetched: seq<Bar>): seq<Bar>
  {
    if InName(symbol) in cols then cols[InName(symbol)] else fetched
  }

  function Min(a: int, b: int): int
  {
    if a <= b then a else b
  }

  /** The output collection of `symbol` after a call working from `input`: seeded with
      the first input candle, else grown by the input candle at its current length
      while there is one. */
  function NextOutput(cols: Collections, symbol: string, input: seq<Bar>): seq<Bar>
    requires input != []
  {
    if symbol !in cols then [input[0]]
    else if |cols[symbol]| < |input| then cols[symbol] + [input[|cols[symbol]|]]
    else cols[symbol]
  }

  /** One replay call for `symbol`. `fetched` is what the historical query would
      return; it is consulted only on a cold start. On success the result is the new
      store, and the call returns the new output collection of `symbol`. */
  function Advance(cols: Collections, symbol: string, fetched: seq<Bar>): (r: Result<Collections, Error>)
    requires WellFormed(cols)
    ensures r.Failure? <==> InName(symbol) !in cols && fetched == []
    ensures r.Failure? ==> r.error == NoBacktestData
    ensures r.Success? ==> WellFormed(r.value) && symbol in r.value && InName(symbol) in r.value
    ensures r.Success? ==> r.value[InName(symbol)] == Input(cols, symbol, fetched)
    ensures r.Success? ==>
      forall name :: name != symbol && name != InName(symbol) ==>
        (name in r.value <==> name in cols) && (name in cols ==> r.value[name] == cols[name])
  {
    var inName := InName(symbol);
    if inName !in cols && fetched == [] then
      Failure(NoBacktestData)
    else
      var input := Input(cols, symbol, fetched);
      Success(cols[inName := input][symbol := NextOutput(cols, symbol, input)])
  }

  /** From a consistent state, a call that succeeds reveals exactly the next input
      candle (the first one on a cold start) or nothing once the output has caught up,
      and leaves the state consistent. */
  lemma AdvanceRevealsNext(cols: Collections, symbol: string, fetched: seq<Bar>)
    requires WellFormed(cols) && Consistent(cols, symbol)
    requires InName(symbol) in cols || fetched != []
    ensures Advance(cols, symbol, fetched).Success?
    ensures var after := Advance(cols, symbol, fetched).value;
            var input := Input(cols, symbol, fetched);
            && Consistent(after, symbol)
            && after[InName(symbol)] == input
            && after[symbol] == input[..Min(Revealed(cols, symbol) + 1, |input|)]
  {
  }

  /** A symbol whose output has caught up with its input is a no-op: the store is
      left exactly as it was. */
  lemma CaughtUpIsNoOp(cols: Collections, symbol: string, fetched: seq<Bar>)
    requires WellFormed(cols) && Consistent(cols, symbol) && symbol in cols
    requires |cols[symbol]| == |cols[InName(symbol)]|
    ensures Advance(cols, symbol, fetched) == Success(cols)
  {
    var after := Advance(cols, symbol, fetched).value;
    assert after == cols[InName(symbol) := cols[InName(symbol)]][symbol := cols[symbol]];
    assert cols[InName(symbol) := cols[InName(symbol)]][symbol := cols[symbol]] == cols;
  }

  /** Once the input collection exists it is never written again and the fetch is not
      consulted: any two fetches give the same call. */
  lemma InputCapturedOnce(cols: Collections, symbol: string, fetched1: seq<Bar>, fetched2: seq<Bar>)
    requires WellFormed(cols) && InName(symbol) in cols
    ensures Advance(cols, symbol, fetched1) == Advance(cols, symbol, fetched2)
    ensures Advance(cols, symbol, fetched1).Success?
    ensures Advance(cols, symbol, fetched1).value[InName(symbol)] == cols[InName(symbol)]
  {
  }

  /** With neither backtest flag set a cold start has no window to fetch, so it always fails. */
  lemma ColdStartWithoutWindowFails(conn: Connection, bt: Backtest, cols: Collections, symbol: string)
    requires WellFormed(cols) && InName(symbol) !in cols
    requires bt.isLastDate == "" && bt.date == ""
    ensures Advance(cols, symbol, FetchHistory(conn, bt, symbol)) == Failure(NoBacktestData)
  {
  }

  /** Replaying one symbol leaves the collections of every other symbol untouched,
      provided neither name starts with `i_`. */
  lemma AdvanceIsolatesSymbols(cols: Collections, symbol: string, fetched: seq<Bar>, other: string)
    requires WellFormed(cols) && Advance(cols, symbol, fetched).Success?
    requires !IsInputName(symbol) && !IsInputName(other) && other != symbol
    ensures var after := Advance(cols, symbol, fetched).value;
            && (other in after <==> other in cols)
            && (InName(other) in after <==> InName(other) in cols)
            && (other in cols ==> after[other] == cols[other])
            && (InName(other) in cols ==> after[InName(other)] == cols[InName(other)])
            && (Consistent(cols, other) ==> Consistent(after, other))
  {
  }

  /** `calls` successive replay calls for `symbol`, stopping at the first failure. */
  ghost function Run(cols: Collections, symbol: string, fetched: seq<Bar>, calls: nat): Result<Collections, Error>
    requires WellFormed(cols)
    decreases calls
  {
    if calls == 0 then Success(cols)
    else match Advance(cols, symbol, fetched)
      case Failure(e) => Failure(e)
      case Success(next) => Run(next, symbol, fetched, calls - 1)
  }

  /** After `calls` >= 1 calls from a consistent state (with data to start from), the
      output is the input prefix of length `revealed + calls`, capped at the input
      length, and the input is the one captured at the start. */
  lemma {:induction false} ReplayRun(cols: Collections, symbol: string, fetched: seq<Bar>, calls: nat)
    requires WellFormed(cols) && Consistent(cols, symbol)
    requires InName(symbol) in cols || fetched != []
    requires calls >= 1
    ensures Run(cols, symbol, fetched, calls).Success?
    ensures var after := Run(cols, symbol, fetched, calls).value;
            var input := Input(cols, symbol, fetched);
            && symbol in after && InName(symbol) in after
            && Consistent(after, symbol)
            && after[InName(symbol)] == input
            && after[symbol] == input[..Min(Revealed(cols, symbol) + calls, |input|)]
    decreases calls
  {
    AdvanceRevealsNext(cols, symbol, fetched);
    var next := Advance(cols, symbol, fetched).value;
    if calls > 1 {
      ReplayRun(next, symbol, fetched, calls - 1);
      assert Input(next, symbol, fetched) == Input(cols, symbol, fetched);
    }
  }

  /** A symbol spelled `i_` + `x` has as its output collection the input collection of
      `x`: while that collection is shorter than the input of `i_` + `x`, replaying
      `i_` + `x` appends a candle to the history of `x`. */
  lemma InputNameAliasing(cols: Collections, x: string, fetched: seq<Bar>)
    requires WellFormed(cols) && InName(x) in cols
    requires InName(InName(x)) in cols || fetched != []
    requires |cols[InName(x)]| < |Input(cols, InName(x), fetched)|
    ensures Advance(cols, InName(x), fetched).Success?
    ensures var input := Input(cols, InName(x), fetched);
            var after := Advance(cols, InName(x), fetched).value;
            && after[InName(x)] == cols[InName(x)] + [input[|cols[InName(x)]|]]
            && after[InName(x)] != cols[InName(x)]
  {
  }

  /** The hazard is reachable from an empty store: replaying `i_X` after `X` appends
      to the history of `X`. */
  lemma InputNameAliasingExample(b1: Bar, b2: Bar, c1: Bar, c2: Bar, c3: Bar)
    ensures var first := Advance(map[], "X", [b1, b2]).value;
            var second := Advance(first, "i_X", [c1, c2, c3]).value;
            && first[InName("X")] == [b1, b2]
            && second[InName("X")] == [b1, b2, c3]
  {
    var first := Advance(map[], "X", [b1, b2]).value;
    assert InName("X") == "i_X";
    assert InName("i_X") == "i_i_X";
    assert first == map["i_X" := [b1, b2], "X" := [b1]];
  }
}
