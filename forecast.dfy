/** The parsed forecast returned by the forecast provider: four optional
    segments of timestamped values and an optional message carrying the
    provider's rate-limit counters. */
module ForecastData {
  import opened Wrappers

  /** One segment: a timestamp key (seconds since the epoch, as text) mapped
      to a number. */
  type ForecastSegment = map<string, real>

  /** The four segment names that the batching routine walks. */
  datatype SegmentKey = Watts | WattHours | WattHoursPeriod | WattHoursDay

  /** The order in which the segments are written. */
  const SegmentOrder: seq<SegmentKey> := [Watts, WattHours, WattHoursPeriod, WattHoursDay]

  /** The property name of a segment in the provider's response. */
  function SegmentName(s: SegmentKey): string {
    match s
    case Watts => "watts"
    case WattHours => "watt_hours"
    case WattHoursPeriod => "watt_hours_period"
    case WattHoursDay => "watt_hours_day"
  }

  /** The position of a segment in `SegmentOrder`. */
  function SegmentIndex(s: SegmentKey): (i: nat)
    ensures i < |SegmentOrder| && SegmentOrder[i] == s
  {
    match s
    case Watts => 0
    case WattHours => 1
    case WattHoursPeriod => 2
    case WattHoursDay => 3
  }

  datatype ForecastResult = ForecastResult(
    watts: Option<ForecastSegment>,
    wattHoursPeriod: Option<ForecastSegment>,
    wattHours: Option<ForecastSegment>,
    wattHoursDay: Option<ForecastSegment>)

  datatype Info = Info(
    latitude: real,
    longitude: real,
    distance: real,
    place: string,
    timezone: string,
    time: string,
    timeUtc: string)

  datatype RateLimit = RateLimit(period: real, limit: real, remaining: real)

  datatype Message = Message(
    code: real,
    kind: string,
    text: string,
    info: Option<Info>,
    ratelimit: Option<RateLimit>)

  datatype Forecast = Forecast(result: Option<ForecastResult>, message: Option<Message>)

  /** The segment stored under a segment name. */
  function Lookup(r: ForecastResult, s: SegmentKey): Option<ForecastSegment> {
    match s
    case Watts => r.watts
    case WattHours => r.wattHours
    case WattHoursPeriod => r.wattHoursPeriod
    case WattHoursDay => r.wattHoursDay
  }

  /** The segment of a forecast; a forecast without a result has none. */
  function SegmentOf(f: Forecast, s: SegmentKey): Option<ForecastSegment> {
    if f.result.Some? then Lookup(f.result.value, s) else None
  }

  /** The rate-limit counters, present only when the message and its
      `ratelimit` member both are. */
  function RateLimitOf(f: Forecast): Option<RateLimit> {
    if f.message.Some? then f.message.value.ratelimit else None
  }
}
