# thoughtspot-airflow pipeline core, modelled in Dafny

This project models the five pipeline stages of the thoughtspot-airflow
repository and proves what they promise:

- `fetch_transform_stock` turns one Alpha Vantage "Time Series (Daily)" payload into a batch of stock records.
- `fetch_transform_weather` requests one WeatherAPI history day at a time over the last `days` days, and keeps or skips each day on its own.
- `load_stock_data` and `load_weather_data` append a batch to the `stock_data` or `weather_data` table.
- `create_joined_table` drops `joined_data` and rebuilds it as the inner join of the two tables on the date.

Modules, one per concern:

| file | module | what it holds |
|---|---|---|
| wrappers.dfy | Wrappers | `Option`, `Result` |
| json.dfy | Json | decoded JSON values; Python's `in`, `x[key]` and `dict.get` on them |
| http.dfy | Http | the outcome of one request: `Failed` (any `RequestException`, including a non-2xx status and, from requests 2.27 on, an undecodable body) or `Received(body)` |
| seq_util.dfy | SeqUtil | `Distinct`, `Increasing` |
| fetch_transform_stock.dfy | StockTransform | the stock stage: the reference function `StockBatch`, the imperative `FetchTransformStock` proved equal to it, and lemmas |
| fetch_transform_weather.dfy | WeatherTransform | the weather stage: the per-day `Step`, the reference `Collect`, the loop `FetchTransformWeather` proved equal to it, and lemmas |
| join.dfy | Join | the `SELECT ... JOIN ... ON s.date = w.date` as a pure function `InnerJoin`, with membership and cardinality lemmas |
| database.dfy | Database | class `Database` with the three tables and the methods `LoadStockData`, `LoadWeatherData` and `CreateJoinedTable` |
| *_examples.dfy | StockExamples, WeatherExamples, JoinExamples | the repository's unit-test scenarios, proved |

Modelling choices:

- **Inputs.** The HTTP answer is an input. For stock it is one `HttpOutcome`. For weather it is a function from day number to `HttpOutcome`.
- **Clock.** "Today" is an integer day number. `strftime` is a function `format` from day numbers to strings. The partition hour `now` is an opaque string.
- **Numbers.** `pd.to_numeric(errors="coerce")` is a parameter `parse: string -> Option<real>`; `None` stands for NaN. A JSON number is kept as it is. Any other value (null, boolean, array, object) and a missing cell become missing.
- **DataFrame.** It is held column by column. Its columns are the union of the entry keys in order of first appearance, which is what `from_dict(orient="index")` builds. The frame gets a row only for an entry that has at least one key, because it is assembled column by column; an entry `{}` gives no row. The five names of fetch_transform_stock.py:41 are then assigned by position, so any other column count raises, and that includes an empty series. Each record reads its five numeric fields through the frame's columns, in order.
- **`head`.** `df.head(n)` keeps the first `n` rows. For negative `n` it keeps all but the last `-n` rows.
- **Exceptions.** Both stages catch the request exception (an empty stock batch, a skipped weather day). After the request, nothing in either stage is caught, so exceptions are `Err` results. In the weather stage an `Err` discards the records collected so far.
- **Tables.** A table is `Option<seq<_>>`, where `None` means the table does not exist yet. A row order is fixed only where the code fixes one. The joined table is specified up to order (as a multiset), because the query has no `ORDER BY`.
- **Load failures.** A failing INSERT of `to_sql` is the flag `writeFails`. pandas inserts a batch in one transaction, so a failed write adds no row. When the table did not exist, `to_sql` has already created it by then, outside any transaction, so it stays, empty. The failure reaches the caller as `Raised`.
- **Defaults.** `days_to_keep` and `days` default to 7 in the source; the model takes them as plain parameters, and the examples pass 7.
- **Join failures.** The failing statement of the joiner is the parameter `fault`. Python's `sqlite3` runs `DROP` and `CREATE ... AS SELECT` outside a transaction. So a failure after the drop leaves `joined_data` absent. That also happens when a base table does not exist yet.
- **Connections.** They are counted. `openConnections` is the same after every call, because `finally` closes the connection. `connectionsOpened` is unchanged by an empty batch.

The stock unit tests describe malformed JSON as handled gracefully
(dags/tests/test_fetch_transform_stock.py:114-134: a payload with "Meta Data"
but no time series gives an empty batch). The model follows the code, which
is graceful only for a failed request and a missing series or forecast, and
raises in these cases:

- a stock payload without "Meta Data" (fetch_transform_stock.py:37);
- a non-object "Meta Data" (fetch_transform_stock.py:37);
- an empty series, or one whose entries do not give exactly five columns (fetch_transform_stock.py:41);
- a weather day whose "forecastday" is empty or whose first element lacks "day" (fetch_transform_weather.py:40, `WeatherTransform.MalformedForecastDayRaises`).

A comment in the weather tests says "Only 5 valid days". That comment is wrong: the requested days lie 7 down to 1 days back, four of them are within the valid window, and the test's assertion of 4 matches this model (`WeatherExamples.MixedWeekGivesFourRecords`).

## Model

| member | source | states |
|---|---|---|
| Json.Find | dags/tasks/fetch_transform_stock.py:37-38 | dict lookup: absent exactly when no member has the key; otherwise the value is one stored under the key |
| Json.KeyIn | dags/tasks/fetch_transform_weather.py:33-36 | Python `key in x` raises exactly on null, booleans and numbers; on an object it is key presence |
| Json.Subscript | dags/tasks/fetch_transform_weather.py:33-40 | a membership test followed by `x[key]` yields the value exactly when `x` is an object holding the key, is absent exactly when `in` is false, and raises otherwise |
| Json.GetOrNone | dags/tasks/fetch_transform_weather.py:43-46 | `.get(key)` is None exactly when the key is absent or holds JSON null, and otherwise returns the stored value |
| StockTransform.Columns | dags/tasks/fetch_transform_stock.py:40 | the frame's columns never repeat |
| StockTransform.ColumnsAreKeyUnion | dags/tasks/fetch_transform_stock.py:40 | a column exists exactly when some series entry has that key |
| StockTransform.UniformColumns | dags/tasks/fetch_transform_stock.py:40-41 | when all entries list the same distinct keys, those keys, in that order, are the columns |
| StockTransform.KeepCount | dags/tasks/fetch_transform_stock.py:51 | `head` never keeps more rows than there are |
| StockTransform.Intake | dags/tasks/fetch_transform_stock.py:33-41 | the series is reported missing exactly when `"Time Series (Daily)" in stock_json` is false; a usable series comes from an object payload whose "Time Series (Daily)" is an object, its rows are that object's keyed entries in API order, all objects, and it has exactly five columns, their key union |
| StockTransform.RowEntries | dags/tasks/fetch_transform_stock.py:40 | the frame's rows, never more than the series entries; RowEntriesAreKeyedEntries and KeyedEntriesAllGiveRows characterise them |
| StockTransform.RowEntriesAreKeyedEntries | dags/tasks/fetch_transform_stock.py:40 | the frame's rows are exactly the series entries that have at least one key |
| StockTransform.KeyedEntriesAllGiveRows | dags/tasks/fetch_transform_stock.py:40 | when every entry has a key, every entry gives a row, in series order |
| StockTransform.KeylessEntriesAddNoColumn | dags/tasks/fetch_transform_stock.py:40 | entries without keys change no column, so the columns of the rows are those of the whole series |
| StockTransform.StockBatch | dags/tasks/fetch_transform_stock.py:25-55 | a request exception or a missing series gives an empty batch; an exception arises only from a received payload that cannot be shaped; a non-empty batch comes from a usable series; a usable series gives a batch of `head`'s count of its rows |
| StockTransform.Coerce | dags/tasks/fetch_transform_stock.py:44-45 | `pd.to_numeric(errors="coerce")` on one cell: a JSON number is kept as it is, a text cell becomes its parsed value or NaN when it does not parse, and only a number or text can give a value, so a missing cell or any other JSON value is NaN; CoercionIsPerField, ParsableOpenIsKept and UnparsableOpenIsMissing apply it to the batch |
| StockTransform.Row | dags/tasks/fetch_transform_stock.py:47-55 | a record carries its entry's date, the symbol and the partition hour, and its c-th numeric field is the coerced cell of the c-th column; RowIsPositional and FieldsArePositional read those cells by position |
| StockTransform.ToNumeric | dags/tasks/fetch_transform_stock.py:44-45 | the coerced column has one cell per entry, each that entry's value coerced |
| StockTransform.BuildRecords | dags/tasks/fetch_transform_stock.py:43-55 | after coercing the five columns in a loop, record i is built from entry i's date, its five coerced cells, the symbol and the partition hour, for the first `kept` entries |
| StockTransform.FetchTransformStock | dags/tasks/fetch_transform_stock.py:25-55 | the imperative stage returns exactly the reference batch or exception |
| StockTransform.KeepsLeadingEntriesInApiOrder | dags/tasks/fetch_transform_stock.py:40-51 | with K keyed entries in the payload's series the batch has min(K, days_to_keep) records (for negative days_to_keep, max(K + days_to_keep, 0)), the leading keyed entries in API order, each dated by its series key |
| StockTransform.SymbolAndPartitionAreUniform | dags/tasks/fetch_transform_stock.py:37-53 | every record carries Meta Data's "2. Symbol", or "UNKNOWN" when it is absent, and the same partition hour |
| StockTransform.CoercionIsPerField | dags/tasks/fetch_transform_stock.py:43-45 | each numeric field is its own cell coerced: unparsable text is missing in that field alone |
| StockTransform.FieldsArePositional | dags/tasks/fetch_transform_stock.py:40-41 | when all entries list the same five distinct keys, open, high, low, close and volume are the entry's five values in order |
| StockTransform.RowIsPositional | dags/tasks/fetch_transform_stock.py:41 | a record built from an entry whose keys are the columns reads its fields by position |
| StockTransform.RaisesExactly | dags/tasks/fetch_transform_stock.py:33-41 | for object entries and a scalar symbol, the stage raises exactly for a scalar payload, a non-object holding the series key, a missing or non-object "Meta Data", a non-object series or entry, or a column count other than five |
| StockTransform.EmptySeriesRaises | dags/tasks/fetch_transform_stock.py:40-41 | an empty series raises at the column assignment instead of giving an empty batch |
| StockExamples.PayloadIsSeries | dags/tests/test_fetch_transform_stock.py:18-42 | the valid test payload is a usable series with symbol "IBM" and the five price keys as columns |
| StockExamples.ValidPayloadGivesTwoRecords | dags/tests/test_fetch_transform_stock.py:55-91 | two entries and days_to_keep 7 give two records in API order, with symbol "IBM" |
| StockExamples.RequestExceptionGivesNoRecords | dags/tests/test_fetch_transform_stock.py:94-111 | a request exception gives an empty batch |
| StockExamples.MissingSeriesGivesNoRecords | dags/tests/test_fetch_transform_stock.py:114-134 | Meta Data without a time series gives an empty batch |
| StockExamples.ParsableOpenIsKept | dags/tasks/fetch_transform_stock.py:44-45 | a parsable text open is kept as its parsed value in the first record, and the batch still holds two records |
| StockExamples.UnparsableOpenIsMissing | dags/tests/test_fetch_transform_stock.py:137-171 | an unparsable first open still gives two records, and that open is missing |
| StockExamples.KeylessDayGivesNoRow | dags/tasks/fetch_transform_stock.py:40 | a day holding `{}` next to a full day gives no row |
| StockExamples.KeylessDayAddsNoColumn | dags/tasks/fetch_transform_stock.py:40-41 | that series still has the five price columns |
| StockExamples.KeylessDayPayloadIsSeries | dags/tasks/fetch_transform_stock.py:33-41 | that payload is a usable series of the full day alone, with symbol "IBM" |
| StockExamples.KeylessDayGivesNoRecord | dags/tasks/fetch_transform_stock.py:40-55 | with days_to_keep 7 that payload gives one record, the full day's |
| WeatherTransform.Record | dags/tasks/fetch_transform_weather.py:41-47 | the record carries the queried date; temperature, humidity, precipitation and wind speed are the values stored under "avgtemp_c", "avghumidity", "totalprecip_mm" and "maxwind_kph", each None exactly when the summary lacks that key or holds null |
| WeatherTransform.Step | dags/tasks/fetch_transform_weather.py:24-48 | a failed request skips the day; a kept day's record carries the queried date |
| WeatherTransform.DaySkipsExactlyWhen | dags/tasks/fetch_transform_weather.py:24-38 | a day is skipped exactly when its request fails or "forecast" or "forecast.forecastday" is missing |
| WeatherTransform.KeptDayReadsFirstForecastDay | dags/tasks/fetch_transform_weather.py:40-47 | a kept day's record is read from the "day" object of the first element of a non-empty "forecastday" list |
| WeatherTransform.WellFormedDayIsKept | dags/tasks/fetch_transform_weather.py:33-48 | conversely, an answer whose "forecast.forecastday" is a non-empty list whose first element holds an object "day" is kept, as the record of that "day" object and the queried date, whatever other keys it holds |
| WeatherTransform.DayRaisesExactlyWhen | dags/tasks/fetch_transform_weather.py:33-47 | a day raises if and only if its answer was received and is not subscriptable at "forecast" or "forecastday", or its "forecastday" is present but not a non-empty list whose first element holds an object "day" |
| WeatherTransform.MalformedForecastDayRaises | dags/tasks/fetch_transform_weather.py:40-47 | a present "forecastday" that is empty or not a list, a first forecast day without "day", or a non-object "day" raises instead of skipping the day |
| WeatherTransform.RequestedDates | dags/tasks/fetch_transform_weather.py:12-19 | exactly `days` dates (none when days <= 0), today-days+i in order, strictly increasing, the last one yesterday |
| WeatherTransform.FetchTransformWeather | dags/tasks/fetch_transform_weather.py:12-50 | the loop returns exactly the reference batch; it requests the dates in order, all of them unless a day raises, and that day is the last requested; with days <= 0 it requests nothing |
| WeatherTransform.Collect | dags/tasks/fetch_transform_weather.py:15-50 | the batch for the requested days, in order, or the first exception, never more records than days; RecordsAreKeptDaysInOrder, OkUnlessSomeDayRaises and CollectAppend characterise it |
| WeatherTransform.CollectErrorPersists | dags/tasks/fetch_transform_weather.py:17-40 | once a day raises, the whole stage raises the same exception |
| WeatherTransform.OkUnlessSomeDayRaises | dags/tasks/fetch_transform_weather.py:24-40 | the stage returns a batch exactly when no requested day raises |
| WeatherTransform.RecordsAreKeptDaysInOrder | dags/tasks/fetch_transform_weather.py:17-48 | the batch is the record of each kept day, in request order, and its length is days minus skipped days |
| WeatherTransform.RecordsCarryQueriedDates | dags/tasks/fetch_transform_weather.py:19-42 | each record of a batch is dated by the queried date of its day (the formatted `date`), whatever date the payload names |
| WeatherTransform.KeptIsOrderedSubsequence | dags/tasks/fetch_transform_weather.py:17-48 | the kept days are requested days, in increasing order |
| WeatherTransform.AllSkippedGivesEmptyBatch | dags/tasks/fetch_transform_weather.py:28-38 | when every day is skipped, for instance every request fails, the batch is empty and nothing raises |
| WeatherTransform.AllKeptGivesOneRecordPerDay | dags/tasks/fetch_transform_weather.py:17-48 | when every day is kept (WellFormedDayIsKept says which days are) there is one record per requested day, in order |
| WeatherTransform.CollectAppend | dags/tasks/fetch_transform_weather.py:17-48 | days are processed independently: the batch for days a ++ b is a's batch followed by b's, and raises when either does |
| WeatherExamples.ValidAnswerReachesSummary | dags/tests/test_fetch_transform_weather.py:18-36 | the valid test answer leads through forecast and forecastday to its day summary |
| WeatherExamples.SummaryGivesItsValues | dags/tests/test_fetch_transform_weather.py:24-29 | a summary with the four keys gives their four values |
| WeatherExamples.ValidAnswerIsKept | dags/tests/test_fetch_transform_weather.py:52-110 | a valid answer is kept with 15.5, 70, 5.2, 20 and the queried date, whatever date the payload names |
| WeatherExamples.MalformedAnswerIsSkipped | dags/tests/test_fetch_transform_weather.py:38-49 | a forecast without "forecastday" is skipped |
| WeatherExamples.WellFormedWeekGivesSevenRecords | dags/tests/test_fetch_transform_weather.py:52-110 | seven days answered well, each payload naming its queried date, give seven records in request order, each with the queried date and the expected values |
| WeatherExamples.FailingWeekGivesNoRecords | dags/tests/test_fetch_transform_weather.py:113-128 | seven failing requests give an empty batch |
| WeatherExamples.MalformedWeekGivesNoRecords | dags/tests/test_fetch_transform_weather.py:131-149 | seven malformed answers give an empty batch |
| WeatherExamples.MixedWeekGivesFourRecords | dags/tests/test_fetch_transform_weather.py:152-206 | with answers well formed only for days fewer than five back and malformed otherwise, four records, those of the last four requested days in order |
| Join.Combine | dags/tasks/create_joined_table.py:16-27 | the joined row's stock columns are the stock row, and for a matching date its weather columns are the weather row |
| Join.Matches | dags/tasks/create_joined_table.py:28-30 | one stock row yields at most one joined row per weather row |
| Join.MatchesMembership | dags/tasks/create_joined_table.py:28-30 | a row is among one stock row's matches exactly when it combines that row with a weather row of the same date |
| Join.InnerJoin | dags/tasks/create_joined_table.py:13-31 | the inner join on date, at most stock rows times weather rows; JoinMembership and JoinCardinality characterise its rows and their number |
| Join.JoinMembership | dags/tasks/create_joined_table.py:28-30 | a row is in the join exactly when it combines some stock row with some weather row of the same date |
| Join.JoinedRowsComeFromBothTables | dags/tasks/create_joined_table.py:14-30 | every joined row splits back into a stock row of stock_data and a weather row of weather_data |
| Join.JoinedDatesAreCommonDates | dags/tasks/create_joined_table.py:29-30 | a date occurs in the join exactly when both tables hold it |
| Join.MatchesCount | dags/tasks/create_joined_table.py:29-30 | a stock row gets one joined row per weather row of its date |
| Join.JoinCardinality | dags/tasks/create_joined_table.py:28-30 | the join has, summed over the dates, (stock rows of the date) times (weather rows of the date) rows |
| Join.JoinAppendStock | dags/tasks/create_joined_table.py:28-30 | the join over stock a ++ b is a's join followed by b's |
| Join.MatchesAppend | dags/tasks/create_joined_table.py:28-30 | a stock row's matches against weather v ++ w are those against v followed by those against w |
| Join.JoinAppendWeather | dags/tasks/create_joined_table.py:28-30 | the join over weather v ++ w holds the rows of v's join and of w's join |
| Join.DuplicateWeatherDoublesJoin | dags/tasks/create_joined_table.py:28-30 | weather rows loaded twice double every joined row |
| Join.DuplicateStockDoublesJoin | dags/tasks/create_joined_table.py:28-30 | stock rows loaded twice double every joined row |
| JoinExamples.MatchesAgainstThreeDays | dags/tasks/create_joined_table.py:28-30 | a stock row matches a weather row only of its own date |
| JoinExamples.OverlappingDaysRows | dags/tasks/create_joined_table.py:28-30 | stock days D1, D2, D3 against weather days D2, D3, D4 give the rows for D2 and D3 |
| JoinExamples.OverlappingDaysJoin | dags/tasks/create_joined_table.py:28-30 | stock days D1, D2, D3 against weather days D2, D3, D4 give exactly one row each for D2 and D3 |
| Database.Database.LoadStockData | dags/tasks/load_stock_data.py:10-21 | the new stock_data is the old one after the load; the other tables are unchanged; it raises exactly on a failed write of a non-empty batch; a connection is opened only for a non-empty batch and always closed |
| Database.Database.LoadWeatherData | dags/tasks/load_weather_data.py:10-21 | the same for weather_data |
| Database.Database.CreateJoinedTable | dags/tasks/create_joined_table.py:8-39 | joined_data is rebuilt from the base tables, or left as it was when the DROP fails, or absent when the CREATE fails; the base tables are unchanged; the connection is closed |
| Database.AfterLoad | dags/tasks/load_stock_data.py:10-21 | a loaded table keeps an existing table's rows as a prefix, exists after any non-empty batch, and grows by at most the batch; EmptyBatchIsNoOp, LoadAppends and FailedLoadKeepsRowsAndCreatesTable fix it exactly |
| Database.RebuiltFrom | dags/tasks/create_joined_table.py:10-36 | after a rebuild without a failing statement joined_data exists exactly when both base tables do, and after any rebuild that ran the DROP it exists only when both do; RebuildIgnoresPriorContents and JoinReflectsWholeTables state its rows |
| Database.EmptyBatchIsNoOp | dags/tasks/load_stock_data.py:10-13 | a batch without "records", or with none, leaves the table as it was |
| Database.LoadAppends | dags/tasks/load_weather_data.py:15-18 | a successful load of R records keeps the old rows as a prefix, adds the records after them, grows the count by exactly R, and creates the table when needed |
| Database.LoadNeverRemovesRows | dags/tasks/load_stock_data.py:18 | no load removes or alters a row or drops a table |
| Database.FailedLoadKeepsRowsAndCreatesTable | dags/tasks/load_stock_data.py:17-21 | a failed write of a non-empty batch adds no row, keeps an existing table as it was, and leaves a missing table created and empty |
| Database.FailedFirstLoadGivesEmptyJoin | dags/tasks/create_joined_table.py:11-32 | after a failed first stock load the joiner creates an empty joined_data, not none |
| Database.LoadTwiceDuplicates | dags/tasks/load_weather_data.py:18 | loading the same batch twice adds its records twice, with no deduplication |
| Database.RebuildIgnoresPriorContents | dags/tasks/create_joined_table.py:11-32 | the rebuilt joined_data depends only on the base tables, so rebuilding twice gives the same rows |
| Database.JoinReflectsWholeTables | dags/tasks/create_joined_table.py:11-32 | after new stock and weather batches, joined_data holds the old tables' join plus old stock against the new weather plus the new stock against all weather |
| Database.FailedCreateLeavesTableAbsent | dags/tasks/create_joined_table.py:10-36 | a failed CREATE after the DROP, or a missing base table, leaves joined_data absent |

## Left out

- HTTP transport (`requests.get`, `raise_for_status`, `resp.json`): the answer is an input. The request parameters, the URL and the timeout are not modelled.
- The weather location, API key and base URL are not modelled, because they only reach the request.
- Clock and date arithmetic (`datetime.now`, `datetime.today`, `timedelta`, `strftime`): these are parameters, with days as integers.
- pandas internals: dtype inference, the parsing done by `pd.to_numeric` (the abstract `parse` stands for it), and the table schema that `to_sql` derives from the first batch.
- Floating point: numbers are `real`.
- StockTransform.RaisesExactly: a series whose entries are JSON arrays is reported as the `EntryNotObject` error, where pandas would build rows positionally from them.
- Boolean, array and object cells: pandas may coerce some of them. The model treats them as missing.
- StockTransform.Intake, StockTransform.KeepsLeadingEntriesInApiOrder: their row order is the series (API) order, which holds when the entries share their keys. Row order when series entries hold different key sets: pandas then orders rows by first appearance column by column. The model keeps the series order of the keyed entries, which agrees whenever the entries share their keys.
- StockTransform.SymbolAndPartitionAreUniform, StockTransform.RaisesExactly: a "2. Symbol" that is a JSON array or object is stored unchanged in every record, and no error is raised for it. At fetch_transform_stock.py:47 pandas would spread an array over the rows, raising when its length differs from the row count, and would align an object by key with the row dates, giving NaN for each date the object does not hold.
- Duplicate keys in a JSON object: the decoder keeps the last one. The model assumes keys are distinct and looks up the first.
- SQLite connection failures at `sqlite3.connect`, which happen before the `try` blocks. The counters stand in for connect, cursor, commit and close.
- Database.Database.CreateJoinedTable: states the rebuilt table only up to row order (as a multiset), because the query has no `ORDER BY`.
- Database.Database.LoadStockData: `writeFails` is a failing INSERT; a failure of the CREATE TABLE itself, or of building the DataFrame, is not modelled.
- Database.Database.LoadWeatherData: `writeFails` is a failing INSERT; a failure of the CREATE TABLE itself, or of building the DataFrame, is not modelled.
- `print` logging in every stage.
- Airflow wiring and retries (dags/data_pipeline_dag.py) and configuration loading (dags/config.py): these are orchestration and I/O.
