/** The stock stage on the payloads of its unit tests. */
module StockExamples {
  import opened Wrappers
  import opened Json
  import opened Http
  import opened SeqUtil
  import opened StockTransform

  const PRICE_KEYS := ["1. open", "2. high", "3. low", "4. close", "5. volume"]

  function Prices(open: string, high: string, low: string, close: string, volume: string): Json {
    JObj([(PRICE_KEYS[0], JStr(open)), (PRICE_KEYS[1], JStr(high)), (PRICE_KEYS[2], JStr(low)),
          (PRICE_KEYS[3], JStr(close)), (PRICE_KEYS[4], JStr(volume))])
  }

  const META := JObj([
    ("2. Symbol", JStr("IBM")),
    ("1. Information", JStr("Daily Time Series with Splits and Dividend Events")),
    ("3. Last Refreshed", JStr("2023-10-10")),
    ("4. Output Size", JStr("Compact")),
    ("5. Time Zone", JStr("US/Eastern"))])

  function TestSeries(firstOpen: string): seq<(string, Json)> {
    [("2023-10-10", Prices(firstOpen, "142.0000", "139.0000", "141.0000", "3000000")),
     ("2023-10-09", Prices("138.0000", "141.0000", "137.5000", "140.5000", "2500000"))]
  }

  function TestPayload(firstOpen: string): Json {
    JObj([(META_DATA_KEY, META), (TIME_SERIES_KEY, JObj(TestSeries(firstOpen)))])
  }

  lemma PriceKeysDistinct()
    ensures Distinct(PRICE_KEYS)
  {
    forall i, j | 0 <= i < j < |PRICE_KEYS| ensures PRICE_KEYS[i] != PRICE_KEYS[j] {
      assert PRICE_KEYS[i][0] != PRICE_KEYS[j][0];
    }
  }

  lemma PayloadIsSeries(firstOpen: string)
    ensures Intake(TestPayload(firstOpen)) == Series(JStr("IBM"), TestSeries(firstOpen), PRICE_KEYS)
  {
    var body := TestPayload(firstOpen);
    var entries := TestSeries(firstOpen);
    assert META_DATA_KEY[0] != TIME_SERIES_KEY[0];
    assert Find(body.members, TIME_SERIES_KEY) == Some(JObj(entries));
    assert Find(body.members, META_DATA_KEY) == Some(META);
    assert Find(META.members, SYMBOL_KEY) == Some(JStr("IBM"));
    assert AllObjects(entries);
    PriceKeysDistinct();
    assert KeysOf(entries[0].1) == PRICE_KEYS && KeysOf(entries[1].1) == PRICE_KEYS;
    UniformColumns(entries, PRICE_KEYS);
    KeyedEntriesAllGiveRows(entries);
  }

  /** Two series entries and days_to_keep 7: two records, symbol "IBM". */
  lemma ValidPayloadGivesTwoRecords(now: string, parse: string -> Option<real>)
    ensures var r := StockBatch(Received(TestPayload("140.0000")), 7, now, parse);
            && r.Ok? && |r.value| == 2
            && r.value[0].date == "2023-10-10" && r.value[1].date == "2023-10-09"
            && r.value[0].stockSymbol == JStr("IBM") && r.value[0].partitionHour == now
  {
    var body := TestPayload("140.0000");
    PayloadIsSeries("140.0000");
    BatchOfSeries(body, 7, now, parse);
    var p := Intake(body);
    assert KeepCount(|p.entries|, 7) == 2;
    var r := StockBatch(Received(body), 7, now, parse);
    assert r.value[0] == Row(p.entries[0], p.columns, p.symbol, now, parse);
    assert r.value[1] == Row(p.entries[1], p.columns, p.symbol, now, parse);
  }

  /** A request exception gives an empty batch. */
  lemma RequestExceptionGivesNoRecords(now: string, parse: string -> Option<real>)
    ensures StockBatch(Failed, 7, now, parse) == Ok([])
  {
  }

  /** Meta Data without a time series gives an empty batch. */
  lemma MissingSeriesGivesNoRecords(now: string, parse: string -> Option<real>)
    ensures StockBatch(Received(JObj([(META_DATA_KEY, META)])), 7, now, parse) == Ok([])
  {
  }

  /** An unparsable first open price, such as "invalid_number": still two
      records, and that record's open is missing. */
  lemma UnparsableOpenIsMissing(firstOpen: string, now: string, parse: string -> Option<real>)
    requires parse(firstOpen).None?
    ensures var r := StockBatch(Received(TestPayload(firstOpen)), 7, now, parse);
            && r.Ok? && |r.value| == 2 && r.value[0].open.None?
  {
    PayloadIsSeries(firstOpen);
    var entries := TestSeries(firstOpen);
    var r := StockBatch(Received(TestPayload(firstOpen)), 7, now, parse);
    assert |r.value| == 2;
    CoercionIsPerField(TestPayload(firstOpen), 7, now, parse, 0, 0);
    assert Find(entries[0].1.members, PRICE_KEYS[0]) == Some(JStr(firstOpen));
  }

  /** A parsable first open (every Alpha Vantage price arrives as text)
      survives as its parsed value, and the batch still holds two records. */
  lemma ParsableOpenIsKept(firstOpen: string, now: string, parse: string -> Option<real>)
    requires parse(firstOpen).Some?
    ensures var r := StockBatch(Received(TestPayload(firstOpen)), 7, now, parse);
            && r.Ok? && |r.value| == 2 && r.value[0].open == parse(firstOpen)
  {
    PayloadIsSeries(firstOpen);
    var entries := TestSeries(firstOpen);
    var r := StockBatch(Received(TestPayload(firstOpen)), 7, now, parse);
    assert |r.value| == 2;
    CoercionIsPerField(TestPayload(firstOpen), 7, now, parse, 0, 0);
    assert Find(entries[0].1.members, PRICE_KEYS[0]) == Some(JStr(firstOpen));
  }

  /** The test's first entry next to a day holding no prices. */
  function SeriesWithKeylessDay(firstOpen: string): seq<(string, Json)> {
    [TestSeries(firstOpen)[0], ("2023-10-09", JObj([]))]
  }

  function PayloadWithKeylessDay(firstOpen: string): Json {
    JObj([(META_DATA_KEY, META), (TIME_SERIES_KEY, JObj(SeriesWithKeylessDay(firstOpen)))])
  }

  /** The keyless day gives no row. */
  lemma KeylessDayGivesNoRow(firstOpen: string)
    ensures var series := SeriesWithKeylessDay(firstOpen);
            RowEntries(series) == series[..1]
  {
    var series := SeriesWithKeylessDay(firstOpen);
    var full := series[..1];
    assert KeysOf(series[1].1) == [];
    assert KeysOf(full[0].1) != [] by {
      assert KeysOf(full[0].1)[0] == PRICE_KEYS[0];
    }
    assert full[..0] == [];
    assert RowEntries(full) == full;
  }

  /** The keyless day adds no column. */
  lemma KeylessDayAddsNoColumn(firstOpen: string)
    ensures Columns(SeriesWithKeylessDay(firstOpen)) == PRICE_KEYS
  {
    var series := SeriesWithKeylessDay(firstOpen);
    var full := series[..1];
    PriceKeysDistinct();
    assert KeysOf(full[0].1) == PRICE_KEYS;
    UniformColumns(full, PRICE_KEYS);
    KeylessDayGivesNoRow(firstOpen);
    KeylessEntriesAddNoColumn(series);
  }

  lemma KeylessDayPayloadIsSeries(firstOpen: string)
    ensures Intake(PayloadWithKeylessDay(firstOpen)) ==
            Series(JStr("IBM"), SeriesWithKeylessDay(firstOpen)[..1], PRICE_KEYS)
  {
    var series := SeriesWithKeylessDay(firstOpen);
    var body := PayloadWithKeylessDay(firstOpen);
    assert META_DATA_KEY[0] != TIME_SERIES_KEY[0];
    assert Find(body.members, TIME_SERIES_KEY) == Some(JObj(series));
    assert Find(body.members, META_DATA_KEY) == Some(META);
    assert Find(META.members, SYMBOL_KEY) == Some(JStr("IBM"));
    assert AllObjects(series);
    KeylessDayGivesNoRow(firstOpen);
    KeylessDayAddsNoColumn(firstOpen);
  }

  /** pandas builds no row for a day without prices: next to a full day and
      with days_to_keep 7, one record, the full day's. */
  lemma KeylessDayGivesNoRecord(firstOpen: string, now: string, parse: string -> Option<real>)
    ensures var r := StockBatch(Received(PayloadWithKeylessDay(firstOpen)), 7, now, parse);
            && r.Ok? && |r.value| == 1 && r.value[0].date == "2023-10-10"
  {
    KeylessDayPayloadIsSeries(firstOpen);
  }
}
