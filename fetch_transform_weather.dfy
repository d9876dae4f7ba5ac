/** The weather fetch-transform stage: one WeatherAPI request per day over
    the last `days` days, each day kept or skipped on its own. */
module WeatherTransform {
  import opened Wrappers
  import opened Json
  import opened Http
  import opened SeqUtil

  const FORECAST_KEY := "forecast"
  const FORECAST_DAY_KEY := "forecastday"
  const DAY_KEY := "day"
  const TEMPERATURE_KEY := "avgtemp_c"
  const HUMIDITY_KEY := "avghumidity"
  const PRECIPITATION_KEY := "totalprecip_mm"
  const WIND_SPEED_KEY := "maxwind_kph"

  /** One row of the batch. A field is `None` where Python holds None. */
  datatype WeatherRecord = WeatherRecord(
    date: string,
    temperature: Option<Json>,
    humidity: Option<Json>,
    precipitation: Option<Json>,
    windSpeed: Option<Json>)

  /** The exceptions that escape `fetch_transform_weather` (only request
      exceptions are caught). */
  datatype WeatherError =
    | NotSubscriptable     // TypeError at the membership tests or the subscripts of fetch_transform_weather.py:33-40
    | NoForecastDay        // forecastday[0] where forecastday is not a non-empty list
    | NoDaySummary         // [0]["day"] where the first forecast day is not an object holding "day"
    | DaySummaryNotObject  // `.get` on a "day" value that is not a dict

  /** What one requested day contributes. */
  datatype DayStep = Skip | Keep(record: WeatherRecord) | Raise(error: WeatherError)

  /** The record of fetch_transform_weather.py:41-47: the queried date and four fields of the day
      summary, each the value stored under its own key, or `None` when that key is absent or
      null. */
  function Record(dateStr: string, summary: seq<(string, Json)>): (r: WeatherRecord)
    ensures r.date == dateStr
    ensures r.temperature.None? <==> Find(summary, TEMPERATURE_KEY) in [None, Some(JNull)]
    ensures r.humidity.None? <==> Find(summary, HUMIDITY_KEY) in [None, Some(JNull)]
    ensures r.precipitation.None? <==> Find(summary, PRECIPITATION_KEY) in [None, Some(JNull)]
    ensures r.windSpeed.None? <==> Find(summary, WIND_SPEED_KEY) in [None, Some(JNull)]
    ensures r.temperature.Some? ==> Find(summary, TEMPERATURE_KEY) == r.temperature
    ensures r.humidity.Some? ==> Find(summary, HUMIDITY_KEY) == r.humidity
    ensures r.precipitation.Some? ==> Find(summary, PRECIPITATION_KEY) == r.precipitation
    ensures r.windSpeed.Some? ==> Find(summary, WIND_SPEED_KEY) == r.windSpeed
  {
    WeatherRecord(dateStr,
      GetOrNone(summary, TEMPERATURE_KEY), GetOrNone(summary, HUMIDITY_KEY),
      GetOrNone(summary, PRECIPITATION_KEY), GetOrNone(summary, WIND_SPEED_KEY))
  }

  /** fetch_transform_weather.py:24-48 for one day whose request produced
      `outcome`. */
  function Step(outcome: HttpOutcome, dateStr: string): (s: DayStep)
    ensures outcome.Failed? ==> s == Skip
    ensures s.Keep? ==> s.record.date == dateStr
  {
    match outcome
    case Failed => Skip
    case Received(body) =>
      match Subscript(body, FORECAST_KEY)
      case Raises => Raise(NotSubscriptable)
      case Absent => Skip
      case Present(forecast) =>
        match Subscript(forecast, FORECAST_DAY_KEY)
        case Raises => Raise(NotSubscriptable)
        case Absent => Skip
        case Present(forecastDays) =>
          if !forecastDays.JArr? || |forecastDays.items| == 0 then Raise(NoForecastDay)
          else
            var first := forecastDays.items[0];
            if !first.JObj? || Find(first.members, DAY_KEY).None? then Raise(NoDaySummary)
            else
              var summary := Find(first.members, DAY_KEY).value;
              if !summary.JObj? then Raise(DaySummaryNotObject)
              else Keep(Record(dateStr, summary.members))
  }

  /** A day is skipped exactly when its request fails, or its payload
      lacks "forecast", or its forecast lacks "forecastday". */
  lemma DaySkipsExactlyWhen(outcome: HttpOutcome, dateStr: string)
    ensures Step(outcome, dateStr).Skip? <==>
            || outcome.Failed?
            || (outcome.Received? &&
                var forecast := Subscript(outcome.body, FORECAST_KEY);
                || forecast.Absent?
                || (forecast.Present? && Subscript(forecast.value, FORECAST_DAY_KEY).Absent?))
  {
  }

  /** A kept day's record is read from the "day" summary of the first
      forecast day, dated by the queried date. */
  lemma KeptDayReadsFirstForecastDay(outcome: HttpOutcome, dateStr: string)
    requires Step(outcome, dateStr).Keep?
    ensures outcome.Received?
    ensures var forecast := Subscript(outcome.body, FORECAST_KEY);
            forecast.Present? &&
            var days := Subscript(forecast.value, FORECAST_DAY_KEY);
            days.Present? && days.value.JArr? && |days.value.items| > 0 &&
            var first := days.value.items[0];
            first.JObj? && Find(first.members, DAY_KEY).Some? &&
            var summary := Find(first.members, DAY_KEY).value;
            summary.JObj? && Step(outcome, dateStr).record == Record(dateStr, summary.members)
  {
  }

  /** The converse: a received payload whose "forecast.forecastday" is a
      non-empty list whose first element holds an object "day" gives one
      record, read from that "day" object and dated by the queried date,
      however many other keys the summary holds. */
  lemma WellFormedDayIsKept(body: Json, dateStr: string, forecast: Json, days: Json, summary: Json)
    requires Subscript(body, FORECAST_KEY) == Present(forecast)
    requires Subscript(forecast, FORECAST_DAY_KEY) == Present(days)
    requires days.JArr? && days.items != [] && days.items[0].JObj?
    requires Find(days.items[0].members, DAY_KEY) == Some(summary) && summary.JObj?
    ensures Step(Received(body), dateStr) == Keep(Record(dateStr, summary.members))
  {
  }

  /** A day raises exactly when its request was answered and the answer is
      not subscriptable at "forecast" or "forecastday", or its
      "forecastday" is present but is not a non-empty list whose first
      element holds an object "day". */
  lemma DayRaisesExactlyWhen(outcome: HttpOutcome, dateStr: string)
    ensures Step(outcome, dateStr).Raise? <==>
            outcome.Received? &&
            var forecast := Subscript(outcome.body, FORECAST_KEY);
            || forecast.Raises?
            || (forecast.Present? &&
                var days := Subscript(forecast.value, FORECAST_DAY_KEY);
                || days.Raises?
                || (days.Present? &&
                    !(days.value.JArr? && days.value.items != [] && days.value.items[0].JObj? &&
                      Find(days.value.items[0].members, DAY_KEY).Some? &&
                      Find(days.value.items[0].members, DAY_KEY).value.JObj?)))
  {
  }

  /** A day whose "forecastday" is present but empty or not a list, or whose
      first forecast day lacks a "day" object, raises rather than being
      skipped. */
  lemma MalformedForecastDayRaises(body: Json, dateStr: string, forecast: Json, days: Json)
    requires Subscript(body, FORECAST_KEY) == Present(forecast)
    requires Subscript(forecast, FORECAST_DAY_KEY) == Present(days)
    ensures !days.JArr? || days.items == [] ==>
              Step(Received(body), dateStr) == Raise(NoForecastDay)
    ensures days.JArr? && days.items != [] &&
            (!days.items[0].JObj? || Find(days.items[0].members, DAY_KEY).None?) ==>
              Step(Received(body), dateStr) == Raise(NoDaySummary)
    ensures days.JArr? && days.items != [] && days.items[0].JObj? &&
            Find(days.items[0].members, DAY_KEY).Some? && !Find(days.items[0].members, DAY_KEY).value.JObj? ==>
              Step(Received(body), dateStr) == Raise(DaySummaryNotObject)
  {
  }

  /** The step of each day number, its request answered by `fetch` and its
      date formatted by `format`. */
  function DaySteps(fetch: int -> HttpOutcome, format: int -> string): int -> DayStep {
    d => Step(fetch(d), format(d))
  }

  /** The day numbers requested: today-days, ..., today-1. */
  function RequestedDates(today: int, days: int): (ds: seq<int>)
    ensures |ds| == if days > 0 then days else 0
    ensures forall i :: 0 <= i < |ds| ==> ds[i] == today - days + i
    ensures Increasing(ds)
    ensures days > 0 ==> ds[|ds| - 1] == today - 1
  {
    if days > 0 then seq(days, i => today - days + i) else []
  }

  /** The batch for the requests `dates`, in order, or the first exception:
      the reference the method below is proved against. */
  function Collect(dates: seq<int>, step: int -> DayStep)
    : (r: Result<seq<WeatherRecord>, WeatherError>)
    ensures r.Ok? ==> |r.value| <= |dates|
  {
    if dates == [] then Ok([])
    else
      match Collect(dates[..|dates| - 1], step)
      case Err(e) => Err(e)
      case Ok(records) =>
        match step(dates[|dates| - 1])
        case Skip => Ok(records)
        case Keep(record) => Ok(records + [record])
        case Raise(e) => Err(e)
  }

  /** The requested days that yield a record, in request order. */
  function Kept(dates: seq<int>, step: int -> DayStep): seq<int> {
    if dates == [] then []
    else
      var rest := Kept(dates[..|dates| - 1], step);
      if step(dates[|dates| - 1]).Keep? then rest + [dates[|dates| - 1]] else rest
  }

  /** How many requested days are skipped. */
  function SkipCount(dates: seq<int>, step: int -> DayStep): nat {
    if dates == [] then 0
    else
      SkipCount(dates[..|dates| - 1], step) +
      (if step(dates[|dates| - 1]).Skip? then 1 else 0)
  }

  /** fetch_transform_weather. `fetch` stands for the API's answer to the
      request for a date, `format` for strftime("%Y-%m-%d"); besides the
      outcome, the method returns the dates it requested, in order. */
  method FetchTransformWeather(today: int, days: int, fetch: int -> HttpOutcome, format: int -> string)
    returns (r: Result<seq<WeatherRecord>, WeatherError>, requested: seq<int>)
    ensures r == Collect(RequestedDates(today, days), DaySteps(fetch, format))
    ensures requested <= RequestedDates(today, days)
    ensures r.Ok? ==> requested == RequestedDates(today, days)
    ensures r.Err? ==> requested != [] && Step(fetch(requested[|requested| - 1]), format(requested[|requested| - 1])).Raise?
    ensures days <= 0 ==> requested == [] && r == Ok([])
  {
    ghost var dates := RequestedDates(today, days);
    ghost var step := DaySteps(fetch, format);
    var n := if days > 0 then days else 0;
    var records: seq<WeatherRecord> := [];
    requested := [];
    for i := 0 to n
      invariant requested == dates[..i]
      invariant Collect(requested, step) == Ok(records)
    {
      var date := today - days + i;
      ghost var before := requested;
      requested := requested + [date];
      assert requested[..i] == before && requested[i] == date == dates[i];
      assert step(date) == Step(fetch(date), format(date));
      match Step(fetch(date), format(date)) {
        case Skip =>
          assert Collect(requested, step) == Ok(records);
        case Keep(record) =>
          assert Collect(requested, step) == Ok(records + [record]);
          records := records + [record];
        case Raise(e) =>
          assert requested == dates[..i + 1];
          assert Collect(requested, step) == Err(e);
          CollectErrorPersists(dates, i + 1, step);
          return Err(e), requested;
      }
    }
    assert dates[..n] == dates;
    r := Ok(records);
  }

  // ----- Properties of the batch -----

  /** Once a prefix of the requests raises, the whole stage raises the same. */
  lemma {:induction false} CollectErrorPersists(dates: seq<int>, j: nat,
                                                step: int -> DayStep)
    requires j <= |dates| && Collect(dates[..j], step).Err?
    ensures Collect(dates, step) == Collect(dates[..j], step)
    decreases |dates| - j
  {
    if j < |dates| {
      var longer := dates[..|dates| - 1];
      assert longer[..j] == dates[..j];
      CollectErrorPersists(longer, j, step);
    } else {
      assert dates[..j] == dates;
    }
  }

  /** The stage raises exactly when some requested day raises: a day whose
      request fails or whose payload lacks forecast.forecastday never does. */
  lemma {:induction false} OkUnlessSomeDayRaises(dates: seq<int>, step: int -> DayStep)
    ensures Collect(dates, step).Ok? <==>
            forall i :: 0 <= i < |dates| ==> !step(dates[i]).Raise?
  {
    if dates != [] {
      var prefix := dates[..|dates| - 1];
      var last := dates[|dates| - 1];
      OkUnlessSomeDayRaises(prefix, step);
      var none := forall i :: 0 <= i < |dates| ==> !step(dates[i]).Raise?;
      var noneBefore := forall i :: 0 <= i < |prefix| ==> !step(prefix[i]).Raise?;
      assert none <==> noneBefore && !step(last).Raise? by {
        assert forall i :: 0 <= i < |prefix| ==> prefix[i] == dates[i];
      }
      match Collect(prefix, step)
      case Err(e) =>
        assert Collect(dates, step) == Err(e);
      case Ok(records) =>
        assert Collect(dates, step).Ok? <==> !step(last).Raise?;
    }
  }

  /** A successful batch is the record of each kept day, in request order,
      and has as many records as days requested minus days skipped. */
  lemma {:induction false} RecordsAreKeptDaysInOrder(dates: seq<int>, step: int -> DayStep)
    requires Collect(dates, step).Ok?
    ensures var records := Collect(dates, step).value;
            var kept := Kept(dates, step);
            && |records| == |kept| == |dates| - SkipCount(dates, step)
            && forall k :: 0 <= k < |records| ==> step(kept[k]) == Keep(records[k])
  {
    if dates != [] {
      var prefix := dates[..|dates| - 1];
      RecordsAreKeptDaysInOrder(prefix, step);
    }
  }

  /** Each record of a successful batch is dated by the queried date of its
      day, not by any date the payload names. */
  lemma RecordsCarryQueriedDates(dates: seq<int>, fetch: int -> HttpOutcome, format: int -> string)
    requires Collect(dates, DaySteps(fetch, format)).Ok?
    ensures var records := Collect(dates, DaySteps(fetch, format)).value;
            var kept := Kept(dates, DaySteps(fetch, format));
            |records| == |kept| && forall k :: 0 <= k < |records| ==> records[k].date == format(kept[k])
  {
    var step := DaySteps(fetch, format);
    RecordsAreKeptDaysInOrder(dates, step);
    var records := Collect(dates, step).value;
    var kept := Kept(dates, step);
    forall k | 0 <= k < |records| ensures records[k].date == format(kept[k]) {
      assert step(kept[k]) == Step(fetch(kept[k]), format(kept[k]));
    }
  }

  /** The kept days are requested days, and stay in increasing order. */
  lemma {:induction false} KeptIsOrderedSubsequence(dates: seq<int>, step: int -> DayStep)
    ensures forall d :: d in Kept(dates, step) ==> d in dates
    ensures Increasing(dates) ==> Increasing(Kept(dates, step))
  {
    if dates != [] {
      var prefix := dates[..|dates| - 1];
      KeptIsOrderedSubsequence(prefix, step);
      assert forall d :: d in prefix ==> d in dates;
      if Increasing(dates) {
        assert Increasing(prefix);
        var rest := Kept(prefix, step);
        assert forall d :: d in rest ==> d < dates[|dates| - 1];
        IncreasingSnoc(rest, dates[|dates| - 1]);
      }
    }
  }

  /** When every day is skipped, for instance because every request fails,
      the batch is empty and nothing raises. */
  lemma {:induction false} AllSkippedGivesEmptyBatch(dates: seq<int>, step: int -> DayStep)
    requires forall i :: 0 <= i < |dates| ==> step(dates[i]).Skip?
    ensures Collect(dates, step) == Ok([])
  {
    if dates != [] {
      var prefix := dates[..|dates| - 1];
      assert forall i :: 0 <= i < |prefix| ==> prefix[i] == dates[i];
      AllSkippedGivesEmptyBatch(prefix, step);
    }
  }

  /** When every day is well formed there is one record per requested day,
      dated by the queried date. */
  lemma {:induction false} AllKeptGivesOneRecordPerDay(dates: seq<int>, step: int -> DayStep)
    requires forall i :: 0 <= i < |dates| ==> step(dates[i]).Keep?
    ensures var r := Collect(dates, step);
            && r.Ok? && |r.value| == |dates|
            && forall i :: 0 <= i < |dates| ==> r.value[i] == step(dates[i]).record
  {
    if dates != [] {
      var prefix := dates[..|dates| - 1];
      assert forall i :: 0 <= i < |prefix| ==> prefix[i] == dates[i];
      AllKeptGivesOneRecordPerDay(prefix, step);
      var records := Collect(prefix, step).value;
      var last := step(dates[|dates| - 1]);
      var all := records + [last.record];
      assert Collect(dates, step) == Ok(all);
      forall i | 0 <= i < |dates| ensures all[i] == step(dates[i]).record {
        if i < |prefix| {
          assert all[i] == records[i] && prefix[i] == dates[i];
        }
      }
    }
  }

  /** Days are processed independently: the batch for the requests `a + b`
      is the batch for `a` followed by the batch for `b`, and raises when
      either raises. */
  lemma {:induction false} CollectAppend(a: seq<int>, b: seq<int>, step: int -> DayStep)
    ensures Collect(a + b, step) ==
            match Collect(a, step)
            case Err(e) => Err(e)
            case Ok(x) =>
              match Collect(b, step)
              case Err(e) => Err(e)
              case Ok(y) => Ok(x + y)
  {
    if b == [] {
      assert a + b == a;
      if Collect(a, step).Ok? {
        assert Collect(a, step).value + [] == Collect(a, step).value;
      }
    } else {
      var front := b[..|b| - 1];
      CollectAppend(a, front, step);
      assert (a + b)[..|a + b| - 1] == a + front;
      assert (a + b)[|a + b| - 1] == b[|b| - 1];
      if Collect(a, step).Ok? && Collect(front, step).Ok? {
        var x := Collect(a, step).value;
        var y := Collect(front, step).value;
        match step(b[|b| - 1])
        case Skip =>
        case Raise(e) =>
        case Keep(record) =>
          assert x + y + [record] == x + (y + [record]);
      }
    }
  }
}
