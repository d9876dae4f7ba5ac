/** The SQLite database the loaders append to and the joiner rebuilds, with
    `load_stock_data`, `load_weather_data` and `create_joined_table` as
    methods on it. Connections are counted, not modelled. */
module Database {
  import opened Wrappers
  import opened StockTransform
  import opened WeatherTransform
  import opened Join

  /** The dict a fetch stage hands to its loader: `{"records": [...]}`, or a
      dict without that key. */
  datatype Batch<R> = Batch(records: seq<R>) | Keyless

  /** `batch.get("records", [])`. */
  function RecordsOf<R>(batch: Batch<R>): seq<R> {
    match batch
    case Batch(records) => records
    case Keyless => []
  }

  /** What a loader call does besides changing its table: return, or raise
      the write error to its caller. */
  datatype LoadOutcome = Returned | Raised

  /** Which statement of `create_joined_table` fails, if any (the error is
      caught and logged either way). */
  datatype JoinFault = NoFault | DropFails | CreateFails

  /** The rows of a table; a table that does not exist yet has none. */
  function Rows<R>(table: Option<seq<R>>): seq<R> {
    if table.Some? then table.value else []
  }

  /** A table after a loader call. An empty batch never reaches `to_sql`.
      Otherwise `to_sql(..., if_exists="append")` first creates a missing
      table, a DDL statement that Python's sqlite3 runs outside a transaction
      and so keeps, and then inserts the records after the existing rows in
      one transaction, which a failed write rolls back. */
  function AfterLoad<R>(table: Option<seq<R>>, batch: Batch<R>, writeFails: bool): (t: Option<seq<R>>)
    ensures table.Some? ==> t.Some? && table.value <= t.value
    ensures RecordsOf(batch) != [] ==> t.Some?
    ensures t.Some? ==> |t.value| <= |Rows(table)| + |RecordsOf(batch)|
  {
    if RecordsOf(batch) == [] then table
    else if writeFails then Some(Rows(table))
    else Some(Rows(table) + RecordsOf(batch))
  }

  /** `joined_data` after `create_joined_table`, given its prior state and the
      base tables: a failed DROP leaves it untouched; once the DROP has run,
      the table is absent unless the CREATE ... AS SELECT succeeds, which it
      cannot when a base table does not exist; a created table holds the
      inner join's rows in some order. */
  ghost predicate RebuiltFrom(joined: Option<seq<JoinedRow>>, prior: Option<seq<JoinedRow>>,
                              stock: Option<seq<StockRecord>>, weather: Option<seq<WeatherRecord>>,
                              fault: JoinFault)
    ensures RebuiltFrom(joined, prior, stock, weather, fault) && fault == NoFault ==>
              (joined.Some? <==> stock.Some? && weather.Some?)
    ensures RebuiltFrom(joined, prior, stock, weather, fault) && fault != DropFails && joined.Some? ==>
              stock.Some? && weather.Some?
  {
    match fault
    case DropFails => joined == prior
    case CreateFails => joined.None?
    case NoFault =>
      if stock.None? || weather.None? then joined.None?
      else joined.Some? && multiset(joined.value) == multiset(InnerJoin(stock.value, weather.value))
  }

  class Database {
    var stockData: Option<seq<StockRecord>>
    var weatherData: Option<seq<WeatherRecord>>
    var joinedData: Option<seq<JoinedRow>>
    /** Connections opened so far, and those open now. */
    var connectionsOpened: nat
    var openConnections: nat

    /** A database file with no tables yet. */
    constructor ()
      ensures stockData.None? && weatherData.None? && joinedData.None?
      ensures connectionsOpened == 0 && openConnections == 0
    {
      stockData := None;
      weatherData := None;
      joinedData := None;
      connectionsOpened := 0;
      openConnections := 0;
    }

    /** load_stock_data. `writeFails` stands for a failing `to_sql`. */
    method LoadStockData(batch: Batch<StockRecord>, writeFails: bool) returns (outcome: LoadOutcome)
      modifies this
      ensures stockData == AfterLoad(old(stockData), batch, writeFails)
      ensures weatherData == old(weatherData) && joinedData == old(joinedData)
      ensures outcome.Raised? <==> RecordsOf(batch) != [] && writeFails
      ensures connectionsOpened == old(connectionsOpened) + (if RecordsOf(batch) == [] then 0 else 1)
      ensures openConnections == old(openConnections)
    {
      var records := RecordsOf(batch);
      if records == [] {
        return Returned;
      }
      connectionsOpened := connectionsOpened + 1;
      openConnections := openConnections + 1;
      stockData := Some(Rows(stockData));
      if writeFails {
        outcome := Raised;
      } else {
        stockData := Some(Rows(stockData) + records);
        outcome := Returned;
      }
      openConnections := openConnections - 1;
    }

    /** load_weather_data. `writeFails` stands for a failing `to_sql`. */
    method LoadWeatherData(batch: Batch<WeatherRecord>, writeFails: bool) returns (outcome: LoadOutcome)
      modifies this
      ensures weatherData == AfterLoad(old(weatherData), batch, writeFails)
      ensures stockData == old(stockData) && joinedData == old(joinedData)
      ensures outcome.Raised? <==> RecordsOf(batch) != [] && writeFails
      ensures connectionsOpened == old(connectionsOpened) + (if RecordsOf(batch) == [] then 0 else 1)
      ensures openConnections == old(openConnections)
    {
      var records := RecordsOf(batch);
      if records == [] {
        return Returned;
      }
      connectionsOpened := connectionsOpened + 1;
      openConnections := openConnections + 1;
      weatherData := Some(Rows(weatherData));
      if writeFails {
        outcome := Raised;
      } else {
        weatherData := Some(Rows(weatherData) + records);
        outcome := Returned;
      }
      openConnections := openConnections - 1;
    }

    /** create_joined_table: DROP, then CREATE ... AS SELECT, each outside a
        transaction, errors swallowed. */
    method CreateJoinedTable(fault: JoinFault)
      modifies this
      ensures RebuiltFrom(joinedData, old(joinedData), stockData, weatherData, fault)
      ensures stockData == old(stockData) && weatherData == old(weatherData)
      ensures connectionsOpened == old(connectionsOpened) + 1
      ensures openConnections == old(openConnections)
    {
      connectionsOpened := connectionsOpened + 1;
      openConnections := openConnections + 1;
      if fault != DropFails {
        joinedData := None;
        if fault == NoFault && stockData.Some? && weatherData.Some? {
          joinedData := Some(InnerJoin(stockData.value, weatherData.value));
        }
      }
      openConnections := openConnections - 1;
    }
  }

  // ----- Loaders -----

  /** An empty batch, or one without "records", leaves the table as it was,
      whether or not a write would fail. */
  lemma EmptyBatchIsNoOp<R>(table: Option<seq<R>>, batch: Batch<R>, writeFails: bool)
    requires batch.Keyless? || batch.records == []
    ensures AfterLoad(table, batch, writeFails) == table
  {
  }

  /** A successful load of R records appends them after the existing rows,
      which are kept: the row count grows by exactly R, and the table exists
      afterwards. */
  lemma LoadAppends<R>(table: Option<seq<R>>, batch: Batch<R>)
    requires RecordsOf(batch) != []
    ensures var after := AfterLoad(table, batch, false);
            && after.Some?
            && |Rows(after)| == |Rows(table)| + |RecordsOf(batch)|
            && Rows(after)[..|Rows(table)|] == Rows(table)
            && Rows(after)[|Rows(table)|..] == RecordsOf(batch)
  {
    var after := AfterLoad(table, batch, false);
    assert Rows(after) == Rows(table) + RecordsOf(batch);
  }

  /** A failed write keeps the rows there were, but a missing table has
      been created by then and stays, empty. */
  lemma FailedLoadKeepsRowsAndCreatesTable<R>(table: Option<seq<R>>, batch: Batch<R>)
    requires RecordsOf(batch) != []
    ensures AfterLoad(table, batch, true).Some?
    ensures Rows(AfterLoad(table, batch, true)) == Rows(table)
    ensures table.Some? ==> AfterLoad(table, batch, true) == table
    ensures table.None? ==> AfterLoad(table, batch, true) == Some([])
  {
  }

  /** No load ever removes or alters a row. */
  lemma LoadNeverRemovesRows<R>(table: Option<seq<R>>, batch: Batch<R>, writeFails: bool)
    ensures Rows(table) <= Rows(AfterLoad(table, batch, writeFails))
    ensures table.Some? ==> AfterLoad(table, batch, writeFails).Some?
  {
  }

  /** No deduplication: loading the same batch twice holds each of its
      records twice more than before. */
  lemma LoadTwiceDuplicates<R>(table: Option<seq<R>>, batch: Batch<R>)
    ensures var twice := AfterLoad(AfterLoad(table, batch, false), batch, false);
            && Rows(twice) == Rows(table) + RecordsOf(batch) + RecordsOf(batch)
            && forall r :: multiset(Rows(twice))[r] ==
                 multiset(Rows(table))[r] + 2 * multiset(RecordsOf(batch))[r]
  {
    var rs := RecordsOf(batch);
    var twice := AfterLoad(AfterLoad(table, batch, false), batch, false);
    if rs == [] {
      assert Rows(table) + rs + rs == Rows(table);
    } else {
      assert Rows(twice) == Rows(table) + rs + rs;
    }
    assert multiset(Rows(twice)) == multiset(Rows(table)) + multiset(rs) + multiset(rs);
  }

  // ----- Joiner -----

  /** The rebuilt table depends only on the base tables, not on what
      joined_data held before; in particular running the joiner twice on
      unchanged base tables gives the same rows. */
  lemma RebuildIgnoresPriorContents(j1: Option<seq<JoinedRow>>, p1: Option<seq<JoinedRow>>,
                                    j2: Option<seq<JoinedRow>>, p2: Option<seq<JoinedRow>>,
                                    stock: Option<seq<StockRecord>>, weather: Option<seq<WeatherRecord>>)
    requires RebuiltFrom(j1, p1, stock, weather, NoFault) && RebuiltFrom(j2, p2, stock, weather, NoFault)
    ensures j1.Some? <==> j2.Some?
    ensures j1.Some? ==> multiset(j1.value) == multiset(j2.value)
  {
  }

  /** The joined table reflects the whole base tables, not just the latest
      batches: after appending stock records S and weather records W, it
      holds the old tables' joined rows, plus old stock against W, plus S
      against all weather rows. */
  lemma JoinReflectsWholeTables(joined: Option<seq<JoinedRow>>, prior: Option<seq<JoinedRow>>,
                                stock: seq<StockRecord>, weather: seq<WeatherRecord>,
                                s: Batch<StockRecord>, w: Batch<WeatherRecord>)
    requires RebuiltFrom(joined, prior, AfterLoad(Some(stock), s, false), AfterLoad(Some(weather), w, false), NoFault)
    ensures joined.Some?
    ensures var newWeather := weather + RecordsOf(w);
            multiset(joined.value) ==
              multiset(InnerJoin(stock, weather)) + multiset(InnerJoin(stock, RecordsOf(w))) +
              multiset(InnerJoin(RecordsOf(s), newWeather))
  {
    var newWeather := weather + RecordsOf(w);
    assert Rows(AfterLoad(Some(stock), s, false)) == stock + RecordsOf(s);
    assert AfterLoad(Some(weather), w, false) == Some(newWeather) by {
      if RecordsOf(w) == [] {
        assert newWeather == weather;
      }
    }
    assert AfterLoad(Some(stock), s, false) == Some(stock + RecordsOf(s)) by {
      if RecordsOf(s) == [] {
        assert stock + RecordsOf(s) == stock;
      }
    }
    JoinAppendStock(stock, RecordsOf(s), newWeather);
    JoinAppendWeather(stock, weather, RecordsOf(w));
  }

  /** A first stock load whose write fails leaves an empty stock_data, so
      the joiner then creates an empty joined_data rather than none. */
  lemma FailedFirstLoadGivesEmptyJoin(joined: Option<seq<JoinedRow>>, prior: Option<seq<JoinedRow>>,
                                      s: Batch<StockRecord>, weather: seq<WeatherRecord>)
    requires RecordsOf(s) != []
    requires RebuiltFrom(joined, prior, AfterLoad(None, s, true), Some(weather), NoFault)
    ensures joined == Some([])
  {
    assert InnerJoin([], weather) == [];
  }

  /** The joiner leaves joined_data absent when the CREATE fails after the
      DROP, and also on a first run before both base tables exist. */
  lemma FailedCreateLeavesTableAbsent(joined: Option<seq<JoinedRow>>, prior: Option<seq<JoinedRow>>,
                                      stock: Option<seq<StockRecord>>, weather: Option<seq<WeatherRecord>>,
                                      fault: JoinFault)
    requires RebuiltFrom(joined, prior, stock, weather, fault)
    requires fault == CreateFails || (fault == NoFault && (stock.None? || weather.None?))
    ensures joined.None?
  {
  }
}
