/** The batching routine: one segment at a time into a write API, then one
    whole run from a parsed forecast to a closed batch. */
module Writer {
  import opened Wrappers
  import opened ForecastData
  import opened Influx
  import opened Transform

  const LocationTag := "location"
  const WritePrecision := "ns"
  const UnauthorizedStatus := 401

  /** The database the batch goes to. */
  datatype InfluxConfig = InfluxConfig(url: string, token: string, org: string, bucket: string)

  /** What a run reports once the batch is closed. A failed flush is
      reported, never raised; a 401 answer is told apart as "database not
      found". */
  datatype WriteReport = Finished | FinishedWithError(databaseNotFound: bool)

  function ReportOf(outcome: CloseOutcome): (r: WriteReport)
    ensures r.Finished? <==> outcome.Flushed?
    ensures r.FinishedWithError? ==>
      (r.databaseNotFound <==> outcome.error.HttpError? && outcome.error.statusCode == UnauthorizedStatus)
  {
    match outcome
    case Flushed => Finished
    case Failed(e) => FinishedWithError(e.HttpError? && e.statusCode == UnauthorizedStatus)
  }

  /** Appends one point per entry of segment `s` of the forecast, in an
      order JavaScript chooses (`order`); an absent segment appends nothing.
      The result must be present, since the segment is read from it. */
  method WriteSegment(api: WriteApi, forecast: Forecast, s: SegmentKey) returns (ghost order: seq<string>)
    requires forecast.result.Some?
    requires !api.closed
    modifies api
    ensures ValidOrder(SegmentOf(forecast, s), order)
    ensures api.written == old(api.written) + Block(s, SegmentOf(forecast, s), order)
    ensures SegmentOf(forecast, s).None? ==> api.written == old(api.written)
    ensures api.defaultTags == old(api.defaultTags) && !api.closed
  {
    order := [];
    var segment := Lookup(forecast.result.value, s);
    if segment.Some? {
      var entries := segment.value;
      var rest := entries.Keys;
      while rest != {}
        invariant rest <= entries.Keys
        invariant forall i, j :: 0 <= i < j < |order| ==> order[i] != order[j]
        invariant forall i :: 0 <= i < |order| ==> order[i] in entries && order[i] !in rest
        invariant forall k :: k in entries && k !in rest ==> k in order
        invariant api.written == old(api.written) + SegmentPoints(s, entries, order)
        invariant api.defaultTags == old(api.defaultTags) && !api.closed
        decreases rest
      {
        var key :| key in rest;
        var point := EntryPoint(s, key, entries[key]);
        api.WritePoint(point);
        assert (order + [key])[..|order|] == order;
        assert SegmentPoints(s, entries, order + [key]) == SegmentPoints(s, entries, order) + [point];
        AppendAssoc(old(api.written), SegmentPoints(s, entries, order), [point]);
        order := order + [key];
        rest := rest - {key};
      }
    }
  }

  lemma AppendAssoc<T>(a: seq<T>, b: seq<T>, c: seq<T>)
    ensures a + b + c == a + (b + c)
  {
  }

  /** Writes the four segments of a forecast with a result, in
      `SegmentOrder`. */
  method WriteSegments(api: WriteApi, forecast: Forecast) returns (ghost orders: seq<seq<string>>)
    requires forecast.result.Some? && !api.closed
    modifies api
    ensures ValidOrders(forecast, orders)
    ensures api.written == old(api.written) + SegmentsPoints(forecast, orders)
    ensures api.defaultTags == old(api.defaultTags) && !api.closed
  {
    ghost var start := api.written;
    ghost var o0 := WriteSegment(api, forecast, Watts);
    ghost var b0 := Block(Watts, SegmentOf(forecast, Watts), o0);
    ghost var o1 := WriteSegment(api, forecast, WattHours);
    ghost var b1 := Block(WattHours, SegmentOf(forecast, WattHours), o1);
    AppendAssoc(start, b0, b1);
    ghost var o2 := WriteSegment(api, forecast, WattHoursPeriod);
    ghost var b2 := Block(WattHoursPeriod, SegmentOf(forecast, WattHoursPeriod), o2);
    AppendAssoc(start, b0 + b1, b2);
    ghost var o3 := WriteSegment(api, forecast, WattHoursDay);
    ghost var b3 := Block(WattHoursDay, SegmentOf(forecast, WattHoursDay), o3);
    AppendAssoc(start, b0 + b1 + b2, b3);
    orders := [o0, o1, o2, o3];
  }

  /** The body of a run with a result: tags the batch with the host, writes
      every segment in turn, the remaining-quota point when the message has
      rate-limit counters and the last-updated point. */
  method WriteResult(api: WriteApi, forecast: Forecast, host: string, nowMillis: int)
    returns (ghost orders: seq<seq<string>>)
    requires forecast.result.Some? && !api.closed
    modifies api
    ensures ValidOrders(forecast, orders)
    ensures api.written == old(api.written) + ForecastPoints(forecast, nowMillis, orders)
    ensures api.defaultTags == map[LocationTag := host] && !api.closed
  {
    api.UseDefaultTags(map[LocationTag := host]);
    orders := WriteSegments(api, forecast);
    if forecast.message.Some? && forecast.message.value.ratelimit.Some? {
      var remaining := forecast.message.value.ratelimit.value.remaining;
      api.WritePoint(Point(RequestRemainingName, remaining, Implicit));
    }
    api.WritePoint(Point(LastUpdatedName, nowMillis as real / 1000.0, Implicit));
  }

  /** One run: tags the batch with the host, writes the forecast's points
      when it has a result, then closes the batch. The database's answer to
      the flush is `flush`; it is reported, never raised. */
  method WritePoints(config: InfluxConfig, forecast: Forecast, host: string, nowMillis: int, flush: CloseOutcome)
    returns (api: WriteApi, report: WriteReport, ghost orders: seq<seq<string>>)
    ensures fresh(api)
    ensures api.org == config.org && api.bucket == config.bucket && api.precision == WritePrecision
    ensures ValidOrders(forecast, orders)
    ensures api.written == ForecastPoints(forecast, nowMillis, orders)
    ensures forecast.result.None? ==> api.written == []
    ensures api.defaultTags == map[LocationTag := host]
    ensures api.closed
    ensures report == ReportOf(flush)
  {
    api := new WriteApi(config.org, config.bucket, WritePrecision);
    api.UseDefaultTags(map[LocationTag := host]);
    orders := [[], [], [], []];
    if forecast.result.Some? {
      orders := WriteResult(api, forecast, host, nowMillis);
    }
    var outcome := api.Close(flush);
    report := ReportOf(outcome);
  }
}
