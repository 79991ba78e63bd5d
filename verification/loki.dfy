/** The in-memory document database the backtest replay runs on, reduced to named
    collections of candles kept in insertion order. */
module Loki {
  import opened Wrappers
  import opened Types

  class Database {
    var collections: map<string, seq<Bar>>

    /** A new database has no collections. */
    constructor ()
      ensures collections == map[]
    {
      collections := map[];
    }

    /** The documents of collection `name`, or None when it does not exist. */
    function GetCollection(name: string): (c: Option<seq<Bar>>)
      reads this
      ensures c.Some? <==> name in collections
      ensures c.Some? ==> c.value == collections[name]
    {
      if name in collections then Some(collections[name]) else None
    }

    /** Creates collection `name` empty; an existing collection is kept as it is. */
    method AddCollection(name: string)
      modifies this
      ensures name in collections
      ensures collections == if name in old(collections) then old(collections) else old(collections)[name := []]
    {
      if name !in collections {
        collections := collections[name := []];
      }
    }

    /** Appends `docs`, in order, to collection `name`. */
    method Insert(name: string, docs: seq<Bar>)
      requires name in collections
      modifies this
      ensures collections == old(collections)[name := old(collections)[name] + docs]
    {
      collections := collections[name := collections[name] + docs];
    }
  }
}
