/** A worked run: a forecast whose only segment is `watts`, with two
    entries, and no message. */
module Scenario {
  import opened Wrappers
  import opened Digits
  import opened ForecastData
  import opened Influx
  import opened Transform
  import opened Batch

  const TwoWatts: ForecastSegment := map["1700000000" := 250.5, "1700003600" := 0.0]

  const WattsOnly := Forecast(Some(ForecastResult(Some(TwoWatts), None, None, None)), None)

  lemma DecimalOfPrefix()
    ensures Decimal(17000) == "17000"
  {
    assert Decimal(17) == "17";
    assert Decimal(170) == "170";
    assert Decimal(1700) == "1700";
  }

  lemma DecimalOfFirstKey()
    ensures Decimal(1700000000) == "1700000000"
  {
    DecimalOfPrefix();
    assert Decimal(170000) == "170000";
    assert Decimal(1700000) == "1700000";
    assert Decimal(17000000) == "17000000";
    assert Decimal(170000000) == "170000000";
  }

  lemma DecimalOfSecondKey()
    ensures Decimal(1700003600) == "1700003600"
  {
    DecimalOfPrefix();
    assert Decimal(170000) == "170000";
    assert Decimal(1700003) == "1700003";
    assert Decimal(17000036) == "17000036";
    assert Decimal(170000360) == "170000360";
  }

  lemma FirstKeyTime()
    ensures KeyTime("1700000000") == Millis(1_700_000_000_000)
  {
    KeyTimeOfDecimal(1700000000);
    DecimalOfFirstKey();
  }

  lemma SecondKeyTime()
    ensures KeyTime("1700003600") == Millis(1_700_003_600_000)
  {
    KeyTimeOfDecimal(1700003600);
    DecimalOfSecondKey();
  }

  lemma TwoWattsSize()
    ensures |TwoWatts| == 2
  {
  }

  /** Whatever order the entries are visited in, the run writes three
      points: two `solarforecast_watts` points and then the last-updated
      point. */
  lemma WattsOnlyRun(nowMillis: int, orders: seq<seq<string>>)
    requires ValidOrders(WattsOnly, orders)
    ensures
      var pts := ForecastPoints(WattsOnly, nowMillis, orders);
      && |pts| == 3
      && CountNamed(pts, "solarforecast_watts") == 2
      && pts[2] == LastUpdatedPoint(nowMillis)
  {
    TwoWattsSize();
    BatchSize(WattsOnly, nowMillis, orders);
    SegmentPointCount(WattsOnly, nowMillis, orders, Watts);
    LastUpdatedOnce(WattsOnly, nowMillis, orders);
  }

  /** The two watts points are for 250.5 at 1700000000 s and for 0 at
      1700003600 s. */
  lemma WattsOnlyPoints(nowMillis: int, orders: seq<seq<string>>)
    requires ValidOrders(WattsOnly, orders)
    ensures
      var pts := ForecastPoints(WattsOnly, nowMillis, orders);
      && Point("solarforecast_watts", 250.5, Millis(1_700_000_000_000)) in pts
      && Point("solarforecast_watts", 0.0, Millis(1_700_003_600_000)) in pts
  {
    SegmentEntriesWritten(WattsOnly, nowMillis, orders, Watts);
    assert "1700000000" in TwoWatts && "1700003600" in TwoWatts;
    FirstKeyTime();
    SecondKeyTime();
  }
}
