/** The stock fetch-transform stage: one Alpha Vantage daily time series
    turned into a batch of uniform records. */
module StockTransform {
  import opened Wrappers
  import opened Json
  import opened Http
  import opened SeqUtil

  const TIME_SERIES_KEY := "Time Series (Daily)"
  const META_DATA_KEY := "Meta Data"
  const SYMBOL_KEY := "2. Symbol"
  const UNKNOWN_SYMBOL := "UNKNOWN"
  /** open, high, low, close, volume */
  const NUMERIC_FIELDS := 5

  /** One row of the batch. A numeric field is `None` where pandas holds NaN. */
  datatype StockRecord = StockRecord(
    date: string,
    open: Option<real>,
    high: Option<real>,
    low: Option<real>,
    close: Option<real>,
    volume: Option<real>,
    stockSymbol: Json,
    partitionHour: string)

  /** The exceptions that escape `fetch_transform_stock` (nothing catches them). */
  datatype StockError =
    | NotSubscriptable              // TypeError: `in` on a scalar, or a string key on a string/array
    | NoMetaData                    // KeyError at stock_json["Meta Data"]
    | MetaDataNotObject             // AttributeError: `.get` on a non-dict
    | SeriesNotObject               // from_dict on something that is not a dict
    | EntryNotObject                // a series entry that is not a dict
    | ColumnCountMismatch(found: nat) // ValueError: five names for `found` columns

  /** The five numeric fields of a record, by position. */
  function Field(r: StockRecord, c: nat): Option<real>
    requires c < NUMERIC_FIELDS
  {
    if c == 0 then r.open
    else if c == 1 then r.high
    else if c == 2 then r.low
    else if c == 3 then r.close
    else r.volume
  }

  /** `pd.to_numeric(..., errors="coerce")` on one cell: a JSON number is kept,
      text goes through `parse`, and anything else, or a missing cell, is NaN. */
  function Coerce(parse: string -> Option<real>, cell: Option<Json>): (v: Option<real>)
    ensures v.Some? ==> cell.Some? && (cell.value.JNum? || cell.value.JStr?)
    ensures cell.Some? && cell.value.JNum? ==> v == Some(cell.value.n)
    ensures cell.Some? && cell.value.JStr? ==> v == parse(cell.value.s)
  {
    match cell
    case Some(JNum(x)) => Some(x)
    case Some(JStr(s)) => parse(s)
    case _ => None
  }

  /** The coerced value in column `col` of the row built from `entry`. */
  function Cell(parse: string -> Option<real>, entry: Json, col: string): Option<real> {
    if entry.JObj? then Coerce(parse, Find(entry.members, col)) else None
  }

  /** The member keys of an object, in order. */
  function KeysOf(v: Json): (ks: seq<string>)
    ensures v.JObj? ==> |ks| == |v.members|
    ensures v.JObj? ==> forall j :: 0 <= j < |ks| ==> ks[j] == v.members[j].0
    ensures !v.JObj? ==> ks == []
  {
    if v.JObj? then seq(|v.members|, j requires 0 <= j < |v.members| => v.members[j].0) else []
  }

  /** `acc` extended by the keys of `ks` it does not hold yet, in order. */
  function AddNew(acc: seq<string>, ks: seq<string>): (r: seq<string>)
    ensures acc <= r
    ensures Distinct(acc) ==> Distinct(r)
    ensures forall k :: k in r <==> k in acc || k in ks
    decreases ks
  {
    if ks == [] then acc
    else AddNew(if ks[0] in acc then acc else acc + [ks[0]], ks[1..])
  }

  /** The column keys of `pd.DataFrame.from_dict(series, orient="index")`:
      every key of every entry once, in order of first appearance. */
  function Columns(entries: seq<(string, Json)>): (cols: seq<string>)
    ensures Distinct(cols)
  {
    if entries == [] then []
    else AddNew(Columns(entries[..|entries| - 1]), KeysOf(entries[|entries| - 1].1))
  }

  /** The columns are exactly the keys that occur in some entry. */
  lemma {:induction false} ColumnsAreKeyUnion(entries: seq<(string, Json)>)
    ensures forall k :: k in Columns(entries) <==> exists i :: 0 <= i < |entries| && k in KeysOf(entries[i].1)
    decreases |entries|
  {
    if entries != [] {
      var prefix := entries[..|entries| - 1];
      ColumnsAreKeyUnion(prefix);
      assert forall i :: 0 <= i < |prefix| ==> prefix[i] == entries[i];
    }
  }

  predicate AllObjects(entries: seq<(string, Json)>) {
    forall i :: 0 <= i < |entries| ==> entries[i].1.JObj?
  }

  /** How many rows `df.head(n)` keeps of `k`: the first `n`, or for a
      negative `n` all but the last `-n`. */
  function KeepCount(k: nat, n: int): (c: nat)
    ensures c <= k
  {
    if n >= 0 then (if n < k then n else k)
    else if k + n > 0 then k + n else 0
  }

  /** The series entries `from_dict(orient="index")` builds a row for, in
      series order. The frame is assembled column by column from the
      entries' keys, so an entry without keys gives no row. */
  function RowEntries(members: seq<(string, Json)>): (rows: seq<(string, Json)>)
    ensures |rows| <= |members|
  {
    if members == [] then []
    else
      var last := members[|members| - 1];
      RowEntries(members[..|members| - 1]) + (if KeysOf(last.1) != [] then [last] else [])
  }

  /** The rows are exactly the entries that have a key. */
  lemma {:induction false} RowEntriesAreKeyedEntries(members: seq<(string, Json)>)
    ensures forall e :: e in RowEntries(members) <==> e in members && KeysOf(e.1) != []
  {
    if members != [] {
      var prefix := members[..|members| - 1];
      RowEntriesAreKeyedEntries(prefix);
      assert members == prefix + [members[|members| - 1]];
    }
  }

  /** A series whose every entry has a key gives one row per entry, in order. */
  lemma {:induction false} KeyedEntriesAllGiveRows(members: seq<(string, Json)>)
    requires forall i :: 0 <= i < |members| ==> KeysOf(members[i].1) != []
    ensures RowEntries(members) == members
  {
    if members != [] {
      var prefix := members[..|members| - 1];
      KeyedEntriesAllGiveRows(prefix);
      assert members == prefix + [members[|members| - 1]];
    }
  }

  lemma {:induction false} RowsOfObjectsAreObjects(members: seq<(string, Json)>)
    requires AllObjects(members)
    ensures AllObjects(RowEntries(members))
  {
    if members != [] {
      var prefix := members[..|members| - 1];
      assert AllObjects(prefix) by {
        assert forall i :: 0 <= i < |prefix| ==> prefix[i] == members[i];
      }
      RowsOfObjectsAreObjects(prefix);
    }
  }

  /** Entries without keys add no column. */
  lemma {:induction false} KeylessEntriesAddNoColumn(members: seq<(string, Json)>)
    ensures Columns(RowEntries(members)) == Columns(members)
  {
    if members != [] {
      var prefix := members[..|members| - 1];
      var last := members[|members| - 1];
      KeylessEntriesAddNoColumn(prefix);
      assert Columns(members) == AddNew(Columns(prefix), KeysOf(last.1));
      if KeysOf(last.1) != [] {
        var rows := RowEntries(prefix) + [last];
        assert RowEntries(members) == rows;
        assert rows[..|rows| - 1] == RowEntries(prefix) && rows[|rows| - 1] == last;
        assert Columns(rows) == AddNew(Columns(RowEntries(prefix)), KeysOf(last.1));
      } else {
        assert RowEntries(members) == RowEntries(prefix) + [];
        assert RowEntries(prefix) + [] == RowEntries(prefix);
        assert AddNew(Columns(prefix), KeysOf(last.1)) == Columns(prefix);
      }
    }
  }

  /** What lines 33-41 of fetch_transform_stock.py make of a decoded body
      before any row is built. */
  datatype Payload =
    | NoSeries                                   // the time-series key is absent
    | Raising(error: StockError)
    | Series(symbol: Json, entries: seq<(string, Json)>, columns: seq<string>)

  function Intake(body: Json): (r: Payload)
    ensures r.NoSeries? <==> KeyIn(body, TIME_SERIES_KEY) == Some(false)
    ensures r.Series? ==> |r.columns| == NUMERIC_FIELDS && AllObjects(r.entries)
    ensures r.Series? ==> r.columns == Columns(r.entries)
    ensures r.Series? ==>
              && body.JObj? && Find(body.members, TIME_SERIES_KEY).Some?
              && Find(body.members, TIME_SERIES_KEY).value.JObj?
              && r.entries == RowEntries(Find(body.members, TIME_SERIES_KEY).value.members)
  {
    match KeyIn(body, TIME_SERIES_KEY)
    case None => Raising(NotSubscriptable)
    case Some(false) => NoSeries
    case Some(true) =>
      if !body.JObj? then Raising(NotSubscriptable)
      else
        match Find(body.members, META_DATA_KEY)
        case None => Raising(NoMetaData)
        case Some(meta) =>
          if !meta.JObj? then Raising(MetaDataNotObject)
          else
            var symbol := match Find(meta.members, SYMBOL_KEY)
              case Some(v) => v
              case None => JStr(UNKNOWN_SYMBOL);
            var series := Find(body.members, TIME_SERIES_KEY).value;
            if !series.JObj? then Raising(SeriesNotObject)
            else if !AllObjects(series.members) then Raising(EntryNotObject)
            else
              var cols := Columns(series.members);
              if |cols| != NUMERIC_FIELDS then Raising(ColumnCountMismatch(|cols|))
              else
                KeylessEntriesAddNoColumn(series.members);
                RowsOfObjectsAreObjects(series.members);
                Series(symbol, RowEntries(series.members), cols)
  }

  /** The record built from one series entry. */
  function Row(entry: (string, Json), cols: seq<string>, symbol: Json, now: string,
               parse: string -> Option<real>): (r: StockRecord)
    requires |cols| == NUMERIC_FIELDS
    ensures r.date == entry.0 && r.stockSymbol == symbol && r.partitionHour == now
    ensures forall c :: 0 <= c < NUMERIC_FIELDS ==> Field(r, c) == Cell(parse, entry.1, cols[c])
  {
    StockRecord(entry.0,
      Cell(parse, entry.1, cols[0]), Cell(parse, entry.1, cols[1]), Cell(parse, entry.1, cols[2]),
      Cell(parse, entry.1, cols[3]), Cell(parse, entry.1, cols[4]),
      symbol, now)
  }

  /** The batch `fetch_transform_stock` returns (its "records" list) or the
      exception it raises: the reference the method below is proved against. */
  function StockBatch(outcome: HttpOutcome, daysToKeep: int, now: string,
                      parse: string -> Option<real>): (r: Result<seq<StockRecord>, StockError>)
    ensures outcome.Failed? ==> r == Ok([])
    ensures outcome.Received? && KeyIn(outcome.body, TIME_SERIES_KEY) == Some(false) ==> r == Ok([])
    ensures r.Err? ==> outcome.Received? && Intake(outcome.body).Raising?
    ensures r.Ok? && r.value != [] ==> outcome.Received? && Intake(outcome.body).Series?
    ensures outcome.Received? && Intake(outcome.body).Series? ==>
              r.Ok? && |r.value| == KeepCount(|Intake(outcome.body).entries|, daysToKeep)
  {
    match outcome
    case Failed => Ok([])
    case Received(body) =>
      match Intake(body)
      case NoSeries => Ok([])
      case Raising(e) => Err(e)
      case Series(symbol, entries, cols) =>
        var kept := KeepCount(|entries|, daysToKeep);
        Ok(seq(kept, i requires 0 <= i < kept => Row(entries[i], cols, symbol, now, parse)))
  }

  /** `pd.to_numeric(df[col], errors="coerce")`: one column, coerced row by row. */
  method ToNumeric(parse: string -> Option<real>, entries: seq<(string, Json)>, col: string)
    returns (column: seq<Option<real>>)
    ensures |column| == |entries|
    ensures forall i :: 0 <= i < |entries| ==> column[i] == Cell(parse, entries[i].1, col)
  {
    column := [];
    for i := 0 to |entries|
      invariant |column| == i
      invariant forall i' :: 0 <= i' < i ==> column[i'] == Cell(parse, entries[i'].1, col)
    {
      column := column + [Cell(parse, entries[i].1, col)];
    }
  }

  /** fetch_transform_stock. The DataFrame is held column by column: each
      numeric column is coerced in turn, then the kept rows are assembled and
      stamped with the symbol and the partition hour. */
  method FetchTransformStock(outcome: HttpOutcome, daysToKeep: int, now: string,
                             parse: string -> Option<real>)
    returns (r: Result<seq<StockRecord>, StockError>)
    ensures r == StockBatch(outcome, daysToKeep, now, parse)
  {
    if outcome.Failed? {
      return Ok([]);
    }
    var intake := Intake(outcome.body);
    match intake {
      case NoSeries =>
        return Ok([]);
      case Raising(e) =>
        return Err(e);
      case Series(symbol, entries, cols) =>
        var records := BuildRecords(parse, entries, cols, symbol, now, KeepCount(|entries|, daysToKeep));
        return Ok(records);
    }
  }

  /** Lines 43-55 of fetch_transform_stock.py on a well-formed series: each numeric column is coerced in
      turn (the frame is held column by column), then the first `kept` rows
      are assembled with the symbol, the date and the partition hour. */
  method BuildRecords(parse: string -> Option<real>, entries: seq<(string, Json)>, cols: seq<string>,
                      symbol: Json, now: string, kept: nat)
    returns (records: seq<StockRecord>)
    requires |cols| == NUMERIC_FIELDS && kept <= |entries|
    ensures records == seq(kept, i requires 0 <= i < kept => Row(entries[i], cols, symbol, now, parse))
  {
    var numeric: seq<seq<Option<real>>> := [];
    for c := 0 to NUMERIC_FIELDS
      invariant |numeric| == c
      invariant forall c' :: 0 <= c' < c ==> IsCoercedColumn(numeric[c'], parse, entries, cols[c'])
    {
      var column := ToNumeric(parse, entries, cols[c]);
      numeric := numeric + [column];
    }
    assert IsCoercedColumn(numeric[0], parse, entries, cols[0]);
    assert IsCoercedColumn(numeric[1], parse, entries, cols[1]);
    assert IsCoercedColumn(numeric[2], parse, entries, cols[2]);
    assert IsCoercedColumn(numeric[3], parse, entries, cols[3]);
    assert IsCoercedColumn(numeric[4], parse, entries, cols[4]);
    records := [];
    for i := 0 to kept
      invariant |records| == i
      invariant forall i' :: 0 <= i' < i ==> records[i'] == Row(entries[i'], cols, symbol, now, parse)
    {
      records := records + [StockRecord(entries[i].0,
        numeric[0][i], numeric[1][i], numeric[2][i], numeric[3][i], numeric[4][i],
        symbol, now)];
    }
  }

  /** `column` holds, row by row, the coerced cells of column `col`. */
  ghost predicate IsCoercedColumn(column: seq<Option<real>>, parse: string -> Option<real>,
                                  entries: seq<(string, Json)>, col: string)
  {
    |column| == |entries| && forall i :: 0 <= i < |entries| ==> column[i] == Cell(parse, entries[i].1, col)
  }

  // ----- Properties of the batch -----

  /** A decoded object never repeats a key. */
  predicate DistinctKeys(v: Json) {
    Distinct(KeysOf(v))
  }

  /** Where keys are distinct, looking up the j-th key finds the j-th value. */
  lemma {:induction false} FindAt(members: seq<(string, Json)>, j: nat)
    requires j < |members|
    requires Distinct(KeysOf(JObj(members)))
    ensures Find(members, members[j].0) == Some(members[j].1)
  {
    if j > 0 {
      var tail := members[1..];
      assert KeysOf(JObj(tail)) == KeysOf(JObj(members))[1..];
      assert members[0].0 != members[j].0 by {
        assert KeysOf(JObj(members))[0] != KeysOf(JObj(members))[j];
      }
      FindAt(tail, j - 1);
    }
  }

  lemma {:induction false} AddNewAllPresent(acc: seq<string>, ks: seq<string>)
    requires forall k :: k in ks ==> k in acc
    ensures AddNew(acc, ks) == acc
    decreases ks
  {
    if ks != [] {
      AddNewAllPresent(acc, ks[1..]);
    }
  }

  lemma {:induction false} AddNewFresh(acc: seq<string>, ks: seq<string>)
    requires Distinct(acc + ks)
    ensures AddNew(acc, ks) == acc + ks
    decreases ks
  {
    if ks != [] {
      assert ks[0] !in acc by {
        assert (acc + ks)[|acc|] == ks[0];
        forall i | 0 <= i < |acc| ensures acc[i] != ks[0] {
          assert (acc + ks)[i] == acc[i];
        }
      }
      assert (acc + [ks[0]]) + ks[1..] == acc + ks;
      AddNewFresh(acc + [ks[0]], ks[1..]);
    }
  }

  /** When every entry has the same key list, that list is the frame's columns. */
  lemma {:induction false} UniformColumns(entries: seq<(string, Json)>, ks: seq<string>)
    requires |entries| > 0 && Distinct(ks)
    requires forall i :: 0 <= i < |entries| ==> KeysOf(entries[i].1) == ks
    ensures Columns(entries) == ks
    decreases |entries|
  {
    var prefix := entries[..|entries| - 1];
    if |prefix| == 0 {
      assert [] + ks == ks;
      AddNewFresh([], ks);
    } else {
      UniformColumns(prefix, ks);
      AddNewAllPresent(ks, ks);
    }
  }

  /** The batch as the rows of the kept leading entries. */
  lemma BatchOfSeries(body: Json, daysToKeep: int, now: string, parse: string -> Option<real>)
    requires Intake(body).Series?
    ensures var p := Intake(body);
            var kept := KeepCount(|p.entries|, daysToKeep);
            StockBatch(Received(body), daysToKeep, now, parse) ==
              Ok(seq(kept, i requires 0 <= i < kept => Row(p.entries[i], p.columns, p.symbol, now, parse)))
  {
  }

  /** With K series entries that each hold a key, the batch holds the first
      `days_to_keep` of them (all but the last `-days_to_keep` when that is
      negative), in the order the API returned them, each dated by its series
      key. An entry without keys gives no row and is passed over
      (RowEntriesAreKeyedEntries, KeyedEntriesAllGiveRows). */
  lemma KeepsLeadingEntriesInApiOrder(body: Json, daysToKeep: int, now: string,
                                      parse: string -> Option<real>)
    requires Intake(body).Series?
    ensures var series := Find(body.members, TIME_SERIES_KEY).value.members;
            var entries := RowEntries(series);
            var r := StockBatch(Received(body), daysToKeep, now, parse);
            && r.Ok?
            && (daysToKeep >= 0 ==> |r.value| == if daysToKeep < |entries| then daysToKeep else |entries|)
            && (daysToKeep < 0 ==> |r.value| == if |entries| + daysToKeep > 0 then |entries| + daysToKeep else 0)
            && (forall i :: 0 <= i < |r.value| ==> r.value[i].date == entries[i].0)
  {
    var p := Intake(body);
    var series := Find(body.members, TIME_SERIES_KEY).value.members;
    assert p.entries == RowEntries(series);
    BatchOfSeries(body, daysToKeep, now, parse);
    var r := StockBatch(Received(body), daysToKeep, now, parse).value;
    assert |r| == KeepCount(|p.entries|, daysToKeep);
    assert forall i :: 0 <= i < |r| ==> r[i] == Row(p.entries[i], p.columns, p.symbol, now, parse);
  }

  /** Every record carries the same symbol, Meta Data's "2. Symbol" or
      "UNKNOWN" when that key is absent, and the same partition hour. */
  lemma SymbolAndPartitionAreUniform(body: Json, daysToKeep: int, now: string,
                                     parse: string -> Option<real>)
    requires Intake(body).Series?
    ensures body.JObj? && Find(body.members, META_DATA_KEY).Some?
    ensures var meta := Find(body.members, META_DATA_KEY).value;
            var expected := if meta.JObj? && Find(meta.members, SYMBOL_KEY).Some?
                            then Find(meta.members, SYMBOL_KEY).value else JStr(UNKNOWN_SYMBOL);
            var recs := StockBatch(Received(body), daysToKeep, now, parse).value;
            forall i :: 0 <= i < |recs| ==> recs[i].stockSymbol == expected && recs[i].partitionHour == now
  {
    var p := Intake(body);
    BatchOfSeries(body, daysToKeep, now, parse);
    var recs := StockBatch(Received(body), daysToKeep, now, parse).value;
    assert forall i :: 0 <= i < |recs| ==> recs[i] == Row(p.entries[i], p.columns, p.symbol, now, parse);
  }

  /** Each numeric field is its own cell coerced: text that does not parse
      is missing (NaN) in that field alone, and neither the record count nor
      any other field depends on it. */
  lemma CoercionIsPerField(body: Json, daysToKeep: int, now: string,
                           parse: string -> Option<real>, i: nat, c: nat)
    requires Intake(body).Series?
    requires i < |StockBatch(Received(body), daysToKeep, now, parse).value| && c < NUMERIC_FIELDS
    ensures var p := Intake(body);
            var rec := StockBatch(Received(body), daysToKeep, now, parse).value[i];
            && Field(rec, c) == Coerce(parse, Find(p.entries[i].1.members, p.columns[c]))
            && (forall t :: Find(p.entries[i].1.members, p.columns[c]) == Some(JStr(t)) && parse(t).None? ==>
                  Field(rec, c).None?)
  {
    var p := Intake(body);
    var rec := StockBatch(Received(body), daysToKeep, now, parse).value[i];
    assert rec == Row(p.entries[i], p.columns, p.symbol, now, parse);
  }

  /** When every entry lists the same five keys, the fields are taken by
      position: open, high, low, close, volume are the entry's five values
      in order. */
  lemma {:induction false} FieldsArePositional(body: Json, daysToKeep: int, now: string,
                                               parse: string -> Option<real>)
    requires Intake(body).Series?
    requires DistinctKeys(Intake(body).entries[0].1)
    requires forall i :: 0 <= i < |Intake(body).entries| ==>
               KeysOf(Intake(body).entries[i].1) == KeysOf(Intake(body).entries[0].1)
    ensures var entries := Intake(body).entries;
            var recs := StockBatch(Received(body), daysToKeep, now, parse).value;
            forall i, c :: 0 <= i < |recs| && 0 <= c < NUMERIC_FIELDS ==>
              |entries[i].1.members| == NUMERIC_FIELDS &&
              Field(recs[i], c) == Coerce(parse, Some(entries[i].1.members[c].1))
  {
    var p := Intake(body);
    var ks := KeysOf(p.entries[0].1);
    UniformColumns(p.entries, ks);
    assert p.columns == ks;
    BatchOfSeries(body, daysToKeep, now, parse);
    var recs := StockBatch(Received(body), daysToKeep, now, parse).value;
    assert |recs| <= |p.entries|;
    forall i | 0 <= i < |recs|
      ensures |p.entries[i].1.members| == NUMERIC_FIELDS
      ensures forall c :: 0 <= c < NUMERIC_FIELDS ==>
                Field(recs[i], c) == Coerce(parse, Some(p.entries[i].1.members[c].1))
    {
      assert recs[i] == Row(p.entries[i], ks, p.symbol, now, parse);
      RowIsPositional(p.entries[i], ks, p.symbol, now, parse);
    }
  }

  /** A record built from an entry whose keys are the columns, in order. */
  lemma RowIsPositional(entry: (string, Json), ks: seq<string>, symbol: Json, now: string,
                        parse: string -> Option<real>)
    requires |ks| == NUMERIC_FIELDS && Distinct(ks) && KeysOf(entry.1) == ks && entry.1.JObj?
    ensures |entry.1.members| == NUMERIC_FIELDS
    ensures forall c :: 0 <= c < NUMERIC_FIELDS ==>
              Field(Row(entry, ks, symbol, now, parse), c) == Coerce(parse, Some(entry.1.members[c].1))
  {
    forall c | 0 <= c < NUMERIC_FIELDS
      ensures Field(Row(entry, ks, symbol, now, parse), c) == Coerce(parse, Some(entry.1.members[c].1))
    {
      FindAt(entry.1.members, c);
    }
  }

  /** The exceptions: the payload is not a container, or holds the series
      key without being an object, or lacks "Meta Data" or has a non-object
      one, or its series (or an entry of it) is not an object, or the series
      does not give exactly five columns, which includes an empty series. */
  lemma RaisesExactly(outcome: HttpOutcome, daysToKeep: int, now: string,
                      parse: string -> Option<real>)
    ensures StockBatch(outcome, daysToKeep, now, parse).Err? <==>
      outcome.Received? &&
      var b := outcome.body;
      || KeyIn(b, TIME_SERIES_KEY).None?
      || (KeyIn(b, TIME_SERIES_KEY) == Some(true) &&
          (|| !b.JObj?
           || Find(b.members, META_DATA_KEY).None?
           || !Find(b.members, META_DATA_KEY).value.JObj?
           || !Find(b.members, TIME_SERIES_KEY).value.JObj?
           || !AllObjects(Find(b.members, TIME_SERIES_KEY).value.members)
           || |Columns(Find(b.members, TIME_SERIES_KEY).value.members)| != NUMERIC_FIELDS))
  {
  }

  /** An empty series raises at the column assignment rather than giving an
      empty batch. */
  lemma EmptySeriesRaises(meta: seq<(string, Json)>, daysToKeep: int, now: string,
                          parse: string -> Option<real>)
    ensures var body := JObj([(META_DATA_KEY, JObj(meta)), (TIME_SERIES_KEY, JObj([]))]);
            StockBatch(Received(body), daysToKeep, now, parse) == Err(ColumnCountMismatch(0))
  {
    var body := JObj([(META_DATA_KEY, JObj(meta)), (TIME_SERIES_KEY, JObj([]))]);
    assert META_DATA_KEY[0] != TIME_SERIES_KEY[0];
    assert Find(body.members, TIME_SERIES_KEY) == Some(JObj([]));
    assert Find(body.members, META_DATA_KEY) == Some(JObj(meta));
    assert Columns([]) == [];
    assert Intake(body) == Raising(ColumnCountMismatch(0));
  }
}
