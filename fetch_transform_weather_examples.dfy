/** The weather stage on the payloads of its unit tests, over a week of
    requests. */
module WeatherExamples {
  import opened Wrappers
  import opened Json
  import opened Http
  import opened WeatherTransform

  const LOCATION := JObj([
    ("name", JStr("New York")), ("region", JStr("New York")), ("country", JStr("USA"))])

  /** A day summary holding the four values the stage reads. */
  function Summary(temperature: real, humidity: real, precipitation: real, windSpeed: real): Json {
    JObj([(TEMPERATURE_KEY, JNum(temperature)), (HUMIDITY_KEY, JNum(humidity)),
          (PRECIPITATION_KEY, JNum(precipitation)), (WIND_SPEED_KEY, JNum(windSpeed))])
  }

  const SUMMARY := Summary(15.5, 70.0, 5.2, 20.0)

  /** A well-formed answer: one forecast day holding the day summary. */
  function ValidAnswer(payloadDate: string): Json {
    JObj([
      (FORECAST_KEY, JObj([(FORECAST_DAY_KEY, JArr([JObj([("date", JStr(payloadDate)), (DAY_KEY, SUMMARY)])]))])),
      ("location", LOCATION)])
  }

  /** A forecast without "forecastday". */
  const MALFORMED := JObj([(FORECAST_KEY, JObj([])), ("location", LOCATION)])

  /** The record a well-formed answer gives for `dateStr`. */
  function ExpectedRecord(dateStr: string): WeatherRecord {
    WeatherRecord(dateStr, Some(JNum(15.5)), Some(JNum(70.0)), Some(JNum(5.2)), Some(JNum(20.0)))
  }

  /** The first forecast day of a well-formed answer. */
  function FirstDay(payloadDate: string): Json {
    JObj([("date", JStr(payloadDate)), (DAY_KEY, SUMMARY)])
  }

  /** A well-formed answer leads through forecast, forecastday and its first
      element to the day summary. */
  lemma ValidAnswerReachesSummary(payloadDate: string)
    ensures var forecast := JObj([(FORECAST_DAY_KEY, JArr([FirstDay(payloadDate)]))]);
            && Subscript(ValidAnswer(payloadDate), FORECAST_KEY) == Present(forecast)
            && Subscript(forecast, FORECAST_DAY_KEY) == Present(JArr([FirstDay(payloadDate)]))
            && Find(FirstDay(payloadDate).members, DAY_KEY) == Some(SUMMARY)
  {
    var body := ValidAnswer(payloadDate);
    var forecast := JObj([(FORECAST_DAY_KEY, JArr([FirstDay(payloadDate)]))]);
    assert FORECAST_KEY[0] != "location"[0];
    assert Find(body.members, FORECAST_KEY) == Some(forecast);
    assert "date"[2] != DAY_KEY[2];
  }

  /** A day summary gives its four values. */
  lemma SummaryGivesItsValues(dateStr: string, t: real, h: real, p: real, w: real)
    ensures Record(dateStr, Summary(t, h, p, w).members) ==
            WeatherRecord(dateStr, Some(JNum(t)), Some(JNum(h)), Some(JNum(p)), Some(JNum(w)))
  {
    var m := Summary(t, h, p, w).members;
    assert TEMPERATURE_KEY[3] != HUMIDITY_KEY[3] && TEMPERATURE_KEY[0] != PRECIPITATION_KEY[0];
    assert TEMPERATURE_KEY[0] != WIND_SPEED_KEY[0] && HUMIDITY_KEY[0] != PRECIPITATION_KEY[0];
    assert HUMIDITY_KEY[0] != WIND_SPEED_KEY[0] && PRECIPITATION_KEY[0] != WIND_SPEED_KEY[0];
    assert m[1..][1..] == m[2..] && m[2..][1..] == m[3..];
    assert m[3..] == [(WIND_SPEED_KEY, JNum(w))];
    assert Find(m[2..], PRECIPITATION_KEY) == Some(JNum(p));
    assert Find(m[2..], WIND_SPEED_KEY) == Some(JNum(w));
    assert Find(m[1..], HUMIDITY_KEY) == Some(JNum(h));
    assert Find(m, TEMPERATURE_KEY) == Some(JNum(t));
    assert Find(m, HUMIDITY_KEY) == Some(JNum(h));
    assert Find(m, PRECIPITATION_KEY) == Some(JNum(p));
    assert Find(m, WIND_SPEED_KEY) == Some(JNum(w));
    var r := Record(dateStr, m);
    assert r.temperature == Some(JNum(t)) && r.humidity == Some(JNum(h));
    assert r.precipitation == Some(JNum(p)) && r.windSpeed == Some(JNum(w));
  }

  /** A well-formed answer is kept with the queried date, whatever date the
      payload itself names. */
  lemma ValidAnswerIsKept(payloadDate: string, dateStr: string)
    ensures Step(Received(ValidAnswer(payloadDate)), dateStr) == Keep(ExpectedRecord(dateStr))
  {
    ValidAnswerReachesSummary(payloadDate);
    SummaryGivesItsValues(dateStr, 15.5, 70.0, 5.2, 20.0);
    var arr := JArr([FirstDay(payloadDate)]);
    assert arr.items[0] == FirstDay(payloadDate);
    assert Step(Received(ValidAnswer(payloadDate)), dateStr) == Keep(Record(dateStr, SUMMARY.members));
  }

  /** A malformed answer is skipped. */
  lemma MalformedAnswerIsSkipped(dateStr: string)
    ensures Step(Received(MALFORMED), dateStr) == Skip
  {
    assert FORECAST_KEY[0] != "location"[0];
    assert Find(MALFORMED.members, FORECAST_KEY) == Some(JObj([]));
  }

  /** Every request answered well, the payload naming the queried date, as
      the mocked session of the unit tests does. */
  function ValidFetch(format: int -> string): int -> HttpOutcome {
    d => Received(ValidAnswer(format(d)))
  }

  /** The day `d` answered well exactly when it lies fewer than five days
      before `today`; the other answers are malformed. */
  function MixedFetch(today: int, format: int -> string): int -> HttpOutcome {
    d => if today - d < 5 then Received(ValidAnswer(format(d))) else Received(MALFORMED)
  }

  /** Each day of the well-formed week is kept. */
  lemma ValidDayIsKept(format: int -> string, d: int)
    ensures DaySteps(ValidFetch(format), format)(d) == Keep(ExpectedRecord(format(d)))
  {
    ValidAnswerIsKept(format(d), format(d));
  }

  /** Each day of the malformed week is skipped. */
  lemma MalformedDayIsSkipped(format: int -> string, d: int)
    ensures DaySteps(d => Received(MALFORMED), format)(d).Skip?
  {
    MalformedAnswerIsSkipped(format(d));
  }

  /** Each day of the mixed week is kept when recent, skipped otherwise. */
  lemma MixedDaySteps(today: int, format: int -> string, d: int)
    ensures today - d < 5 ==> DaySteps(MixedFetch(today, format), format)(d) == Keep(ExpectedRecord(format(d)))
    ensures today - d >= 5 ==> DaySteps(MixedFetch(today, format), format)(d).Skip?
  {
    if today - d < 5 {
      ValidAnswerIsKept(format(d), format(d));
    } else {
      MalformedAnswerIsSkipped(format(d));
    }
  }

  /** A week whose every day keeps the expected record. */
  lemma KeptWeekGivesSevenRecords(today: int, step: int -> DayStep, format: int -> string)
    requires forall d :: step(d) == Keep(ExpectedRecord(format(d)))
    ensures var r := Collect(RequestedDates(today, 7), step);
            && r.Ok? && |r.value| == 7
            && forall i :: 0 <= i < 7 ==> r.value[i] == ExpectedRecord(format(today - 7 + i))
  {
    var dates := RequestedDates(today, 7);
    AllKeptGivesOneRecordPerDay(dates, step);
    var r := Collect(dates, step).value;
    forall i | 0 <= i < 7 ensures r[i] == ExpectedRecord(format(today - 7 + i)) {
      assert r[i] == step(dates[i]).record && dates[i] == today - 7 + i;
    }
  }

  /** Every request answered well: seven records, one per requested day in
      order, each with the summary's four values. */
  lemma WellFormedWeekGivesSevenRecords(today: int, format: int -> string)
    ensures var r := Collect(RequestedDates(today, 7), DaySteps(ValidFetch(format), format));
            && r.Ok? && |r.value| == 7
            && forall i :: 0 <= i < 7 ==> r.value[i] == ExpectedRecord(format(today - 7 + i))
  {
    var step := DaySteps(ValidFetch(format), format);
    forall d ensures step(d) == Keep(ExpectedRecord(format(d))) {
      ValidDayIsKept(format, d);
    }
    KeptWeekGivesSevenRecords(today, step, format);
  }

  /** Every request raises a request exception: no records. */
  lemma FailingWeekGivesNoRecords(today: int, format: int -> string)
    ensures Collect(RequestedDates(today, 7), DaySteps(d => Failed, format)) == Ok([])
  {
    var dates := RequestedDates(today, 7);
    var step := DaySteps(d => Failed, format);
    forall i | 0 <= i < |dates| ensures step(dates[i]).Skip? {
      assert step(dates[i]) == Step(Failed, format(dates[i]));
    }
    AllSkippedGivesEmptyBatch(dates, step);
  }

  /** Every answer malformed: no records. */
  lemma MalformedWeekGivesNoRecords(today: int, format: int -> string)
    ensures Collect(RequestedDates(today, 7), DaySteps(d => Received(MALFORMED), format)) == Ok([])
  {
    var dates := RequestedDates(today, 7);
    var step := DaySteps(d => Received(MALFORMED), format);
    forall i | 0 <= i < |dates| ensures step(dates[i]).Skip? {
      MalformedDayIsSkipped(format, dates[i]);
    }
    AllSkippedGivesEmptyBatch(dates, step);
  }

  /** A week whose first three days are skipped and whose last four keep
      the expected record. */
  lemma LateDaysKeptGiveFourRecords(today: int, step: int -> DayStep, format: int -> string)
    requires forall d :: today - d >= 5 ==> step(d).Skip?
    requires forall d :: today - d < 5 ==> step(d) == Keep(ExpectedRecord(format(d)))
    ensures var r := Collect(RequestedDates(today, 7), step);
            && r.Ok? && |r.value| == 4
            && forall i :: 0 <= i < 4 ==> r.value[i] == ExpectedRecord(format(today - 4 + i))
  {
    var dates := RequestedDates(today, 7);
    var early, late := dates[..3], dates[3..];
    assert dates == early + late;
    forall i | 0 <= i < |early| ensures step(early[i]).Skip? {
      assert early[i] == today - 7 + i;
    }
    AllSkippedGivesEmptyBatch(early, step);
    forall i | 0 <= i < |late| ensures step(late[i]) == Keep(ExpectedRecord(format(today - 4 + i))) {
      assert late[i] == today - 4 + i;
    }
    AllKeptGivesOneRecordPerDay(late, step);
    var r := Collect(late, step).value;
    CollectAppend(early, late, step);
    assert Collect(dates, step) == Ok([] + r);
    assert [] + r == r;
    forall i | 0 <= i < 4 ensures r[i] == ExpectedRecord(format(today - 4 + i)) {
      assert r[i] == step(late[i]).record;
    }
  }

  /** The week is requested at offsets 7 down to 1 days before today, so the
      last four answers are well formed: four records, those of the last four
      requested days. */
  lemma MixedWeekGivesFourRecords(today: int, format: int -> string)
    ensures var r := Collect(RequestedDates(today, 7), DaySteps(MixedFetch(today, format), format));
            && r.Ok? && |r.value| == 4
            && forall i :: 0 <= i < 4 ==> r.value[i] == ExpectedRecord(format(today - 4 + i))
  {
    var step := DaySteps(MixedFetch(today, format), format);
    forall d ensures today - d >= 5 ==> step(d).Skip?
             ensures today - d < 5 ==> step(d) == Keep(ExpectedRecord(format(d))) {
      MixedDaySteps(today, format, d);
    }
    LateDaysKeptGiveFourRecords(today, step, format);
  }
}
