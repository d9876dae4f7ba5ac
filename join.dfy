/** The relational part of `create_joined_table`: the inner join of the stock
    and weather tables on their date column, as a function of the two row
    sequences. */
module Join {
  import opened Wrappers
  import opened Json
  import opened SeqUtil
  import opened StockTransform
  import opened WeatherTransform

  /** A row of joined_data, in the column order of the SELECT list. */
  datatype JoinedRow = JoinedRow(
    stockDate: string,
    open: Option<real>,
    high: Option<real>,
    low: Option<real>,
    close: Option<real>,
    volume: Option<real>,
    stockSymbol: Json,
    partitionHour: string,
    temperature: Option<Json>,
    humidity: Option<Json>,
    precipitation: Option<Json>,
    windSpeed: Option<Json>)

  /** The stock columns of a joined row, read back as a stock row. */
  function StockPart(r: JoinedRow): StockRecord {
    StockRecord(r.stockDate, r.open, r.high, r.low, r.close, r.volume, r.stockSymbol, r.partitionHour)
  }

  /** The weather columns of a joined row, dated by the join key. */
  function WeatherPart(r: JoinedRow): WeatherRecord {
    WeatherRecord(r.stockDate, r.temperature, r.humidity, r.precipitation, r.windSpeed)
  }

  /** The output row for a stock row and a weather row with the same date:
      nothing of either is lost. */
  function Combine(s: StockRecord, w: WeatherRecord): (r: JoinedRow)
    ensures StockPart(r) == s
    ensures s.date == w.date ==> WeatherPart(r) == w
  {
    JoinedRow(s.date, s.open, s.high, s.low, s.close, s.volume, s.stockSymbol, s.partitionHour,
              w.temperature, w.humidity, w.precipitation, w.windSpeed)
  }

  /** The output rows contributed by one stock row, in weather-table order. */
  function Matches(s: StockRecord, weather: seq<WeatherRecord>): (rs: seq<JoinedRow>)
    ensures |rs| <= |weather|
  {
    if weather == [] then []
    else (if weather[0].date == s.date then [Combine(s, weather[0])] else []) + Matches(s, weather[1..])
  }

  /** `stock_data s JOIN weather_data w ON s.date = w.date`, enumerated as a
      nested loop; SQL fixes the rows but not their order. */
  function InnerJoin(stock: seq<StockRecord>, weather: seq<WeatherRecord>): (rs: seq<JoinedRow>)
    ensures |rs| <= |stock| * |weather|
  {
    if stock == [] then []
    else
      assert |stock| * |weather| == |weather| + (|stock| - 1) * |weather|;
      Matches(stock[0], weather) + InnerJoin(stock[1..], weather)
  }

  /** The date column of each table. */
  function StockDates(stock: seq<StockRecord>): (ds: seq<string>)
    ensures |ds| == |stock| && forall i :: 0 <= i < |stock| ==> ds[i] == stock[i].date
  {
    seq(|stock|, i requires 0 <= i < |stock| => stock[i].date)
  }

  function WeatherDates(weather: seq<WeatherRecord>): (ds: seq<string>)
    ensures |ds| == |weather| && forall j :: 0 <= j < |weather| ==> ds[j] == weather[j].date
  {
    seq(|weather|, j requires 0 <= j < |weather| => weather[j].date)
  }

  /** The stock dates of the joined rows. */
  function JoinedDates(rows: seq<JoinedRow>): (ds: seq<string>)
    ensures |ds| == |rows| && forall k :: 0 <= k < |rows| ==> ds[k] == rows[k].stockDate
  {
    seq(|rows|, k requires 0 <= k < |rows| => rows[k].stockDate)
  }

  /** Over the dates `ds`, the sum of (stock rows with that date) times
      (weather rows with that date), the counts read from the two tables'
      date multisets. */
  function PairCount(ds: seq<string>, stockDates: multiset<string>, weatherDates: multiset<string>): nat {
    if ds == [] then 0
    else stockDates[ds[0]] * weatherDates[ds[0]] + PairCount(ds[1..], stockDates, weatherDates)
  }

  // ----- Membership -----

  lemma {:induction false} MatchesMembership(s: StockRecord, weather: seq<WeatherRecord>, r: JoinedRow)
    ensures r in Matches(s, weather) <==>
            exists j :: 0 <= j < |weather| && weather[j].date == s.date && r == Combine(s, weather[j])
  {
    if weather != [] {
      MatchesMembership(s, weather[1..], r);
      if r in Matches(s, weather[1..]) {
        var j :| 0 <= j < |weather[1..]| && weather[1..][j].date == s.date && r == Combine(s, weather[1..][j]);
        assert weather[j + 1] == weather[1..][j];
      }
      if exists j :: 0 <= j < |weather| && weather[j].date == s.date && r == Combine(s, weather[j]) {
        var j :| 0 <= j < |weather| && weather[j].date == s.date && r == Combine(s, weather[j]);
        if j > 0 {
          assert weather[1..][j - 1] == weather[j];
        }
      }
    }
  }

  /** Every joined row pairs a stock row with a weather row of the same date,
      and every such pair gives a joined row. */
  lemma {:induction false} JoinMembership(stock: seq<StockRecord>, weather: seq<WeatherRecord>, r: JoinedRow)
    ensures r in InnerJoin(stock, weather) <==>
            exists i, j :: 0 <= i < |stock| && 0 <= j < |weather| &&
                           stock[i].date == weather[j].date && r == Combine(stock[i], weather[j])
  {
    if stock != [] {
      MatchesMembership(stock[0], weather, r);
      JoinMembership(stock[1..], weather, r);
      if r in InnerJoin(stock[1..], weather) {
        var i, j :| 0 <= i < |stock[1..]| && 0 <= j < |weather| &&
                    stock[1..][i].date == weather[j].date && r == Combine(stock[1..][i], weather[j]);
        assert stock[i + 1] == stock[1..][i];
      }
      if exists i, j :: 0 <= i < |stock| && 0 <= j < |weather| &&
                        stock[i].date == weather[j].date && r == Combine(stock[i], weather[j]) {
        var i, j :| 0 <= i < |stock| && 0 <= j < |weather| &&
                    stock[i].date == weather[j].date && r == Combine(stock[i], weather[j]);
        if i > 0 {
          assert stock[1..][i - 1] == stock[i];
        }
      }
    }
  }

  /** A joined row splits back into a stock row and a weather row of the two
      tables, sharing the row's date. */
  lemma JoinedRowsComeFromBothTables(stock: seq<StockRecord>, weather: seq<WeatherRecord>, r: JoinedRow)
    requires r in InnerJoin(stock, weather)
    ensures StockPart(r) in stock && WeatherPart(r) in weather
  {
    JoinMembership(stock, weather, r);
    var i, j :| 0 <= i < |stock| && 0 <= j < |weather| &&
                stock[i].date == weather[j].date && r == Combine(stock[i], weather[j]);
    assert StockPart(r) == stock[i] && WeatherPart(r) == weather[j];
  }

  /** Inner join: a date occurs in the output exactly when both tables hold it. */
  lemma JoinedDatesAreCommonDates(stock: seq<StockRecord>, weather: seq<WeatherRecord>, d: string)
    ensures d in JoinedDates(InnerJoin(stock, weather)) <==> d in StockDates(stock) && d in WeatherDates(weather)
  {
    var rows := InnerJoin(stock, weather);
    if d in JoinedDates(rows) {
      var k :| 0 <= k < |rows| && JoinedDates(rows)[k] == d;
      JoinMembership(stock, weather, rows[k]);
      var i, j :| 0 <= i < |stock| && 0 <= j < |weather| &&
                  stock[i].date == weather[j].date && rows[k] == Combine(stock[i], weather[j]);
      assert StockDates(stock)[i] == d && WeatherDates(weather)[j] == d;
    }
    if d in StockDates(stock) && d in WeatherDates(weather) {
      var i :| 0 <= i < |stock| && StockDates(stock)[i] == d;
      var j :| 0 <= j < |weather| && WeatherDates(weather)[j] == d;
      JoinMembership(stock, weather, Combine(stock[i], weather[j]));
      var k :| 0 <= k < |rows| && rows[k] == Combine(stock[i], weather[j]);
      assert JoinedDates(rows)[k] == d;
    }
  }

  // ----- Cardinality -----

  /** One stock row contributes one output row per weather row of its date. */
  lemma {:induction false} MatchesCount(s: StockRecord, weather: seq<WeatherRecord>)
    ensures |Matches(s, weather)| == multiset(WeatherDates(weather))[s.date]
  {
    if weather != [] {
      MatchesCount(s, weather[1..]);
      assert WeatherDates(weather) == [weather[0].date] + WeatherDates(weather[1..]);
    }
  }

  /** Adding one stock row of a listed date adds that date's weather count. */
  lemma {:induction false} PairCountAddOne(ds: seq<string>, stockDates: multiset<string>,
                                           weatherDates: multiset<string>, d: string)
    requires Distinct(ds) && d in ds
    ensures PairCount(ds, stockDates + multiset{d}, weatherDates) ==
            PairCount(ds, stockDates, weatherDates) + weatherDates[d]
  {
    if ds[0] == d {
      assert forall k :: 0 <= k < |ds[1..]| ==> ds[1..][k] == ds[k + 1] != d;
      PairCountUnaffected(ds[1..], stockDates, weatherDates, d);
    } else {
      assert d in ds[1..] by {
        var k :| 0 <= k < |ds| && ds[k] == d;
        assert ds[1..][k - 1] == d;
      }
      assert Distinct(ds[1..]) by {
        forall a, b | 0 <= a < b < |ds[1..]| ensures ds[1..][a] != ds[1..][b] {
          assert ds[1..][a] == ds[a + 1] && ds[1..][b] == ds[b + 1];
        }
      }
      PairCountAddOne(ds[1..], stockDates, weatherDates, d);
    }
  }

  /** A stock row of an unlisted date changes nothing over the listed dates. */
  lemma {:induction false} PairCountUnaffected(ds: seq<string>, stockDates: multiset<string>,
                                               weatherDates: multiset<string>, d: string)
    requires forall k :: 0 <= k < |ds| ==> ds[k] != d
    ensures PairCount(ds, stockDates + multiset{d}, weatherDates) == PairCount(ds, stockDates, weatherDates)
  {
    if ds != [] {
      assert (stockDates + multiset{d})[ds[0]] == stockDates[ds[0]];
      assert forall k :: 0 <= k < |ds[1..]| ==> ds[1..][k] == ds[k + 1];
      PairCountUnaffected(ds[1..], stockDates, weatherDates, d);
    }
  }

  /** The join has, summed over the dates, (stock rows of the date) times
      (weather rows of the date) rows: `ds` lists each date once and covers
      every stock date. */
  lemma {:induction false} JoinCardinality(stock: seq<StockRecord>, weather: seq<WeatherRecord>, ds: seq<string>)
    requires Distinct(ds)
    requires forall i :: 0 <= i < |stock| ==> stock[i].date in ds
    ensures |InnerJoin(stock, weather)| == PairCount(ds, multiset(StockDates(stock)), multiset(WeatherDates(weather)))
  {
    var mw := multiset(WeatherDates(weather));
    if stock == [] {
      PairCountEmpty(ds, mw);
    } else {
      var rest := stock[1..];
      assert forall i :: 0 <= i < |rest| ==> rest[i] == stock[i + 1];
      JoinCardinality(rest, weather, ds);
      MatchesCount(stock[0], weather);
      assert StockDates(stock) == [stock[0].date] + StockDates(rest);
      assert multiset(StockDates(stock)) == multiset(StockDates(rest)) + multiset{stock[0].date};
      PairCountAddOne(ds, multiset(StockDates(rest)), mw, stock[0].date);
    }
  }

  lemma {:induction false} PairCountEmpty(ds: seq<string>, weatherDates: multiset<string>)
    ensures PairCount(ds, multiset{}, weatherDates) == 0
  {
    if ds != [] {
      PairCountEmpty(ds[1..], weatherDates);
    }
  }

  // ----- Growth of the base tables -----

  /** Stock rows contribute independently: the join over `a + b` is the join
      over `a` followed by the join over `b`. */
  lemma {:induction false} JoinAppendStock(a: seq<StockRecord>, b: seq<StockRecord>, weather: seq<WeatherRecord>)
    ensures InnerJoin(a + b, weather) == InnerJoin(a, weather) + InnerJoin(b, weather)
  {
    if a == [] {
      assert a + b == b;
    } else {
      assert (a + b)[0] == a[0] && (a + b)[1..] == a[1..] + b;
      JoinAppendStock(a[1..], b, weather);
    }
  }

  lemma {:induction false} MatchesAppend(s: StockRecord, v: seq<WeatherRecord>, w: seq<WeatherRecord>)
    ensures Matches(s, v + w) == Matches(s, v) + Matches(s, w)
  {
    if v == [] {
      assert v + w == w;
    } else {
      assert (v + w)[0] == v[0] && (v + w)[1..] == v[1..] + w;
      MatchesAppend(s, v[1..], w);
    }
  }

  /** Weather rows contribute independently: the rows of the join over
      `v + w` are those over `v` together with those over `w`. */
  lemma {:induction false} JoinAppendWeather(stock: seq<StockRecord>, v: seq<WeatherRecord>, w: seq<WeatherRecord>)
    ensures multiset(InnerJoin(stock, v + w)) == multiset(InnerJoin(stock, v)) + multiset(InnerJoin(stock, w))
  {
    if stock != [] {
      MatchesAppend(stock[0], v, w);
      JoinAppendWeather(stock[1..], v, w);
    }
  }

  /** Loading the same weather rows twice doubles every joined row. */
  lemma DuplicateWeatherDoublesJoin(stock: seq<StockRecord>, weather: seq<WeatherRecord>)
    ensures var once := multiset(InnerJoin(stock, weather));
            multiset(InnerJoin(stock, weather + weather)) == once + once
  {
    JoinAppendWeather(stock, weather, weather);
  }

  /** Loading the same stock rows twice doubles every joined row. */
  lemma DuplicateStockDoublesJoin(stock: seq<StockRecord>, weather: seq<WeatherRecord>)
    ensures var once := InnerJoin(stock, weather);
            InnerJoin(stock + stock, weather) == once + once
  {
    JoinAppendStock(stock, stock, weather);
  }
}
