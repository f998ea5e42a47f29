# solarforecast: forecast-to-points batching, modelled in Dafny

The service fetches a solar-production forecast and writes it into an
InfluxDB bucket. This project models the part that turns one parsed
`Forecast` into InfluxDB points and puts them in one write batch.

- `writePoint` walks one segment of the forecast (`watts`, `watt_hours`,
  `watt_hours_period` or `watt_hours_day`). It writes one point per entry.
  The point is named `solarforecast_<segment>`, carries the entry's number
  in a field `value`, and is stamped with the entry's key read as seconds.
- `writePoints` opens a write API and sets the default tag
  `location ↦ hostname`. When the forecast has a `result`, it sets that tag
  again and walks the four segments in order. It then writes a
  `solarforecast_request_remaining` point if the message has rate-limit
  counters, and then a final `solarforecast_lastUpdated` point
  holding the current time in seconds. Last, it closes the batch. A failed
  close is logged, never raised; a 401 answer (HTTP "unauthorized") gets
  its own message.

Modules, in dependency order:

- `Wrappers` (wrappers.dfy): `Option`. An absent or falsy JavaScript value is `None`.
- `Digits` (digits.dfy): decimal digit strings, `ParseNat`, and its inverse `Decimal`.
- `ForecastData` (forecast.dfy): the `Forecast` shape, the four `SegmentKey`s and their fixed order.
- `Influx` (influx.dfy): the `Point` datatype, and the `WriteApi` class. The class holds the batch written so far (`written`), the default tags and a `closed` flag.
- `Transform` (transform.dfy): what gets written, as functions of the forecast. `EntryPoint` is the point of one entry. `SegmentPoints`, `Block` and `ForecastPoints` are given for an *enumeration*, meaning an order that visits each segment key exactly once.
- `Batch` (batch.dfy): lemmas about `ForecastPoints`: point counts per name, which point comes last, and the order of segments.
- `Writer` (writer.dfy): the imperative routine. `WriteSegment` is `writePoint` and its loop, and `WritePoints` is `writePoints`. Each method's `ensures` ties the write API's new state to the `Transform` functions.
- `Scenario` (scenario.dfy): a concrete run with two `watts` entries.

JavaScript's `Object.entries` order is not fixed by the model. The loop in
`WriteSegment` picks any remaining key. Its ghost out-parameter `order`
records the order it chose, and its postcondition says that order visits
every key exactly once. So every lemma holds for every visiting order.

The wall clock (`new Date().getTime()`) is the parameter `nowMillis`. The
host name is the parameter `host`. The database's answer to the final
flush is the parameter `flush`.

## Model

| member | source | states |
|---|---|---|
| `Digits.ParseNat` | index.ts:37 | A key has a number value exactly when it is a non-empty string of decimal digits. |
| `Digits.ParseDecimal` | index.ts:37 | Reading the decimal text of `n` gives back `n`, so the key parser inverts `Decimal`. |
| `Digits.LeadingZero` | index.ts:37 | A leading `0` does not change the number a key stands for. |
| `Transform.KeyTimeOfDecimal` | index.ts:37 | The key for `n` seconds gives the timestamp `Millis(1000 * n)` when a JavaScript `Date` can hold it (at most 8.64e15 ms), and `InvalidDate` otherwise. |
| `Transform.SegmentMeasurementIsPrefixed` | index.ts:35 | The points of segment `s` are named `"solarforecast_"` followed by the segment's name. |
| `Transform.MeasurementNamesDistinct` | index.ts:35-69 | The four segment names, `solarforecast_request_remaining` and `solarforecast_lastUpdated` are pairwise different. |
| `Transform.EnumerationSize` | index.ts:33 | An order that visits every key exactly once has as many steps as the segment has entries. |
| `Transform.SegmentPointsAt` | index.ts:33-38 | The i-th point of a segment is the point of the i-th visited entry. It has the segment's name, that entry's value and that entry's key as its timestamp. |
| `Transform.SegmentPointsOfEnumeration` | index.ts:33-38 | Visiting every key once gives exactly one point per entry. Position `i` holds the point of the `i`-th visited key, so distinct keys sit at distinct positions. Each point is named after the segment, and each entry's point is among them. |
| `Transform.BlockContents` | index.ts:32-38 | An absent segment gives no points. A present one gives one point per entry: position `i` holds the point of the `i`-th visited key, and each point has the segment's name. |
| `Batch.BatchSize` | index.ts:53-75 | A forecast without a result gives an empty batch. Otherwise the batch size is the number of segment entries, plus 1 when rate-limit counters are present, plus 1. |
| `Batch.SegmentPointCount` | index.ts:33-38 | The batch holds exactly as many `solarforecast_<s>` points as segment `s` has entries, and none when `s` is absent. |
| `Batch.SegmentEntriesWritten` | index.ts:33-38 | Every entry of a present segment has its point, with its value and timestamp, in the batch. |
| `Batch.LastUpdatedOnce` | index.ts:69-73 | With a result, the batch has exactly one `solarforecast_lastUpdated` point. It is the last point, has no timestamp, and its value is `nowMillis / 1000`. |
| `Batch.RequestRemainingIff` | index.ts:61-67 | With a result, the batch has one `solarforecast_request_remaining` point if the message and its `ratelimit` are present, and none otherwise. |
| `Batch.RequestRemainingPoint` | index.ts:61-73 | With a result and rate-limit counters, the second-to-last point is the remaining-quota point. It carries `ratelimit.remaining` and has no timestamp. |
| `Batch.SegmentsInOrder` | index.ts:56-73 | The batch is sorted by position: watts, watt_hours, watt_hours_period, watt_hours_day, then request_remaining, then lastUpdated. |
| `Writer.ReportOf` | index.ts:77-86 | A run reports `Finished` exactly when the flush succeeds. A failed flush is reported as "database not found" exactly when it is an HTTP 401 error. |
| `Writer.WriteSegment` | index.ts:27-42 | Appends `Block(s, …, order)` to the batch for an order that visits every key once. An absent segment leaves the batch unchanged. The tags and the open state stay as they were. |
| `Writer.WriteSegments` | index.ts:56-59 | Appends the four segments' points in their fixed order. |
| `Writer.WriteResult` | index.ts:53-75 | Sets the tag `location ↦ host`, then appends exactly `ForecastPoints` to the batch. |
| `Writer.WritePoints` | index.ts:44-87 | Returns a fresh write API for the configured org and bucket with precision `ns`. Its batch is `ForecastPoints` (empty without a result), its tags are exactly `location ↦ host`, and it is closed. The run always returns normally, with `ReportOf(flush)`. |
| `Influx.WriteApi.constructor` | index.ts:46-50 | A new write API has an empty batch, no tags and is open. |
| `Influx.WriteApi.UseDefaultTags` | index.ts:51 | Replaces the default tags and leaves the batch unchanged, so setting the same tags twice has the effect of setting them once. |
| `Influx.WriteApi.WritePoint` | index.ts:38 | Appends one point to an open batch and changes nothing else. |
| `Influx.WriteApi.Close` | index.ts:78 | Closes the batch, keeps its contents and returns the database's answer. |
| `Scenario.FirstKeyTime` | index.ts:37 | The key `"1700000000"` gives the timestamp 1700000000000 ms. |
| `Scenario.SecondKeyTime` | index.ts:37 | The key `"1700003600"` gives the timestamp 1700003600000 ms. |
| `Scenario.WattsOnlyRun` | index.ts:53-75 | A forecast whose only segment is `watts`, with two entries, gives exactly three points, in any visiting order: two `solarforecast_watts` points, then the last-updated point. |
| `Scenario.WattsOnlyPoints` | index.ts:33-38 | That run writes `solarforecast_watts` = 250.5 at 1700000000 s and `solarforecast_watts` = 0 at 1700003600 s. |

## Behaviour worth noting

- The last-updated point is written only when the forecast has a `result` (index.ts:53, 69-73). A forecast without a result gives an empty batch, which is still tagged and closed.
- The code stamps each segment point with a JavaScript `Date`, in milliseconds. The conversion to nanoseconds for the `ns` write precision happens inside the client's line-protocol encoder, which is not modelled.
- The code does not guarantee a valid timestamp. A digit key above 8.64e12 seconds gives an invalid `Date`; the model keeps that as `InvalidDate`.
- An empty segment `{}` is truthy in JavaScript, but it has no entries, so it also gives no points.

## Left out

- The Express server, the route handler, `server.setTimeout` and the port: HTTP plumbing.
- The axios client, `apiRequest` and `getForecast`: network I/O. The caller passes the parsed forecast in.
- Reading configuration from the environment: `InfluxConfig` is a parameter.
- The InfluxDB client internals: `toLineProtocol`, how default tags are applied to each line, the actual flush, and what happens to a point whose value is not finite.
- `hostname()` and `new Date()`: passed in as `host` and `nowMillis`.
- Console logging: the two log branches of the close handler become `WriteReport` values.
- Float semantics: values are exact `real`s, so `parseFloat(value.toString())` is the identity. `nowMillis / 1000` is exact division.
- KeyTime: keys that are not decimal digit strings become `NonDecimalKey(key)`. `parseFloat` would still read some of them (`"1.5e9"`, `" 12"`, `"12abc"`), and the model does not compute those timestamps.
- The order in which `Object.entries` lists a segment's keys (ascending for integer-like keys) is not modelled. Every lemma holds for every order.
