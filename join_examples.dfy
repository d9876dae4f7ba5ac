/** The join on three stock days and three weather days, two of them shared. */
module JoinExamples {
  import opened StockTransform
  import opened WeatherTransform
  import opened Join

  /** The output rows of each stock row against weather rows dated d2, d3, d4. */
  lemma MatchesAgainstThreeDays(s: StockRecord, w2: WeatherRecord, w3: WeatherRecord, w4: WeatherRecord)
    requires w2.date != w3.date && w4.date != s.date
    ensures Matches(s, [w2, w3, w4]) ==
            if s.date == w2.date then [Combine(s, w2)]
            else if s.date == w3.date then [Combine(s, w3)]
            else []
  {
    var weather := [w2, w3, w4];
    assert weather[1..] == [w3, w4] && weather[1..][1..] == [w4] && [w4][1..] == [];
    assert Matches(s, [w4]) == [];
  }

  /** The nested-loop enumeration of that join. */
  lemma OverlappingDaysRows(s1: StockRecord, s2: StockRecord, s3: StockRecord,
                            w2: WeatherRecord, w3: WeatherRecord, w4: WeatherRecord)
    requires s1.date != s2.date && s1.date != s3.date && s2.date != s3.date
    requires w2.date == s2.date && w3.date == s3.date
    requires w4.date != s1.date && w4.date != s2.date && w4.date != s3.date
    ensures InnerJoin([s1, s2, s3], [w2, w3, w4]) == [Combine(s2, w2), Combine(s3, w3)]
  {
    var weather := [w2, w3, w4];
    MatchesAgainstThreeDays(s1, w2, w3, w4);
    MatchesAgainstThreeDays(s2, w2, w3, w4);
    MatchesAgainstThreeDays(s3, w2, w3, w4);
    var stock := [s1, s2, s3];
    assert stock[1..] == [s2, s3] && stock[1..][1..] == [s3] && [s3][1..] == [];
    assert InnerJoin([s3], weather) == [Combine(s3, w3)];
  }

  /** Stock rows dated d1, d2, d3 and weather rows dated d2, d3, d4: the join
      holds exactly one row for d2 and one for d3. */
  lemma OverlappingDaysJoin(s1: StockRecord, s2: StockRecord, s3: StockRecord,
                            w2: WeatherRecord, w3: WeatherRecord, w4: WeatherRecord)
    requires s1.date != s2.date && s1.date != s3.date && s2.date != s3.date
    requires w2.date == s2.date && w3.date == s3.date
    requires w4.date != s1.date && w4.date != s2.date && w4.date != s3.date
    ensures var rows := InnerJoin([s1, s2, s3], [w2, w3, w4]);
            && multiset(rows) == multiset{Combine(s2, w2), Combine(s3, w3)}
            && forall d :: d in JoinedDates(rows) <==> d == s2.date || d == s3.date
  {
    OverlappingDaysRows(s1, s2, s3, w2, w3, w4);
    var rows := [Combine(s2, w2), Combine(s3, w3)];
    assert JoinedDates(rows) == [s2.date, s3.date];
  }
}
