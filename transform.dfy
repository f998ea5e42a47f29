/** What the batching routine writes, as functions of the forecast: the
    point for one segment entry, the points of one segment, and the whole
    batch of one run. The model does not fix the order in which a segment's
    entries are visited, so each segment's points are given for an
    enumeration of its keys (`order`), which the caller supplies. */
module Transform {
  import opened Wrappers
  import opened Digits
  import opened ForecastData
  import opened Influx

  const MeasurementPrefix := "solarforecast_"
  const RequestRemainingName := "solarforecast_request_remaining"
  const LastUpdatedName := "solarforecast_lastUpdated"

  /** The largest distance from the epoch, in milliseconds, that a
      JavaScript `Date` can hold (the TimeClip operation of ECMAScript). */
  const MaxDateMillis: nat := 8_640_000_000_000_000

  /** The measurement name of a segment's points: the prefix followed by
      the segment's name. */
  function SegmentMeasurement(s: SegmentKey): string {
    match s
    case Watts => "solarforecast_watts"
    case WattHours => "solarforecast_watt_hours"
    case WattHoursPeriod => "solarforecast_watt_hours_period"
    case WattHoursDay => "solarforecast_watt_hours_day"
  }

  /** Each segment's measurement is the prefix followed by its name. */
  lemma SegmentMeasurementIsPrefixed(s: SegmentKey)
    ensures SegmentMeasurement(s) == MeasurementPrefix + SegmentName(s)
  {
  }

  /** The six measurement names a run writes are pairwise different. */
  lemma MeasurementNamesDistinct()
    ensures forall s, t :: SegmentMeasurement(s) == SegmentMeasurement(t) ==> s == t
    ensures forall s :: SegmentMeasurement(s) != RequestRemainingName
    ensures forall s :: SegmentMeasurement(s) != LastUpdatedName
    ensures RequestRemainingName != LastUpdatedName
  {
  }

  /** The timestamp of the point for key `key`: the key read as seconds,
      times 1000, as a `Date`. */
  function KeyTime(key: string): Time {
    match ParseNat(key)
    case Some(n) => if 1000 * n <= MaxDateMillis then Millis(1000 * n) else InvalidDate
    case None => NonDecimalKey(key)
  }

  /** A key written as the decimal text of `n` seconds is a timestamp of
      `1000 * n` milliseconds, as long as a `Date` can hold it. */
  lemma KeyTimeOfDecimal(n: nat)
    ensures KeyTime(Decimal(n)) == if 1000 * n <= MaxDateMillis then Millis(1000 * n) else InvalidDate
  {
    ParseDecimal(n);
  }

  /** The point written for one entry of segment `s`. */
  function EntryPoint(s: SegmentKey, key: string, value: real): Point {
    Point(SegmentMeasurement(s), value, KeyTime(key))
  }

  /** `order` lists every key of `keys` exactly once. */
  ghost predicate IsEnumeration(order: seq<string>, keys: set<string>) {
    && (forall i, j :: 0 <= i < j < |order| ==> order[i] != order[j])
    && (forall i :: 0 <= i < |order| ==> order[i] in keys)
    && (forall k :: k in keys ==> k in order)
  }

  /** An enumeration is exactly as long as the set it enumerates. */
  lemma {:induction false} EnumerationSize(order: seq<string>, keys: set<string>)
    requires IsEnumeration(order, keys)
    ensures |order| == |keys|
    decreases |order|
  {
    if order == [] {
      assert keys == {};
    } else {
      var n := |order| - 1;
      var last := order[n];
      var rest := keys - {last};
      assert IsEnumeration(order[..n], rest) by {
        forall k | k in rest ensures k in order[..n] {
          assert k in order;
          var i :| 0 <= i < |order| && order[i] == k;
          assert i != n;
        }
      }
      EnumerationSize(order[..n], rest);
    }
  }

  /** The points a segment's entries give, visited in `order` (a key that
      is not in the segment gives none; a valid order has no such key). */
  function SegmentPoints(s: SegmentKey, seg: ForecastSegment, order: seq<string>): seq<Point>
    decreases |order|
  {
    if order == [] then []
    else
      var n := |order| - 1;
      SegmentPoints(s, seg, order[..n])
      + (if order[n] in seg then [EntryPoint(s, order[n], seg[order[n]])] else [])
  }

  /** Point `i` of a segment is the point of the `i`-th visited entry. */
  lemma {:induction false} SegmentPointsAt(s: SegmentKey, seg: ForecastSegment, order: seq<string>)
    requires forall i :: 0 <= i < |order| ==> order[i] in seg
    ensures |SegmentPoints(s, seg, order)| == |order|
    ensures forall i :: 0 <= i < |order| ==>
      SegmentPoints(s, seg, order)[i] == EntryPoint(s, order[i], seg[order[i]])
    decreases |order|
  {
    if order != [] {
      var n := |order| - 1;
      var init := order[..n];
      assert forall i :: 0 <= i < n ==> init[i] == order[i];
      SegmentPointsAt(s, seg, init);
      var pts := SegmentPoints(s, seg, order);
      assert pts == SegmentPoints(s, seg, init) + [EntryPoint(s, order[n], seg[order[n]])];
      forall i | 0 <= i < |order| ensures pts[i] == EntryPoint(s, order[i], seg[order[i]]) {
        if i < n {
          assert pts[i] == SegmentPoints(s, seg, init)[i];
        }
      }
    }
  }

  /** Visiting every key once gives one point per entry, each named after
      the segment: position `i` holds the point of the `i`-th visited key,
      and every entry's point is among them. */
  lemma SegmentPointsOfEnumeration(s: SegmentKey, seg: ForecastSegment, order: seq<string>)
    requires IsEnumeration(order, seg.Keys)
    ensures |order| == |seg|
    ensures |SegmentPoints(s, seg, order)| == |seg|
    ensures forall i :: 0 <= i < |order| ==>
      SegmentPoints(s, seg, order)[i] == EntryPoint(s, order[i], seg[order[i]])
    ensures forall i :: 0 <= i < |seg| ==> SegmentPoints(s, seg, order)[i].measurement == SegmentMeasurement(s)
    ensures forall k :: k in seg ==>
      exists i :: 0 <= i < |seg| && SegmentPoints(s, seg, order)[i] == EntryPoint(s, k, seg[k])
  {
    var pts := SegmentPoints(s, seg, order);
    SegmentPointsAt(s, seg, order);
    EnumerationSize(order, seg.Keys);
    assert |pts| == |order| == |seg|;
    forall i | 0 <= i < |pts| ensures pts[i].measurement == SegmentMeasurement(s) {
      assert pts[i] == EntryPoint(s, order[i], seg[order[i]]);
    }
    forall k | k in seg
      ensures exists i :: 0 <= i < |seg| && pts[i] == EntryPoint(s, k, seg[k])
    {
      assert k in order;
      var i :| 0 <= i < |order| && order[i] == k;
      assert pts[i] == EntryPoint(s, order[i], seg[order[i]]);
    }
  }

  /** `order` is a valid visit of segment `seg`: nothing when the segment is
      absent, every key once when it is present. */
  ghost predicate ValidOrder(seg: Option<ForecastSegment>, order: seq<string>) {
    match seg
    case None => order == []
    case Some(m) => IsEnumeration(order, m.Keys)
  }

  /** The points written for a segment that may be absent. */
  function Block(s: SegmentKey, seg: Option<ForecastSegment>, order: seq<string>): seq<Point> {
    match seg
    case None => []
    case Some(m) => SegmentPoints(s, m, order)
  }

  /** The number of entries of a segment that may be absent. */
  function EntryCount(seg: Option<ForecastSegment>): nat {
    match seg
    case None => 0
    case Some(m) => |m|
  }

  /** A segment contributes one point per entry: none when it is absent,
      and otherwise at position `i` the point of the `i`-th visited key;
      each point carries the segment's measurement name. */
  lemma BlockContents(s: SegmentKey, seg: Option<ForecastSegment>, order: seq<string>)
    requires ValidOrder(seg, order)
    ensures seg.None? ==> Block(s, seg, order) == []
    ensures |Block(s, seg, order)| == EntryCount(seg)
    ensures forall i :: 0 <= i < |Block(s, seg, order)| ==> Block(s, seg, order)[i].measurement == SegmentMeasurement(s)
    ensures seg.Some? ==> |order| == |seg.value|
    ensures seg.Some? ==> forall i :: 0 <= i < |order| ==>
      Block(s, seg, order)[i] == EntryPoint(s, order[i], seg.value[order[i]])
    ensures seg.Some? ==> forall k :: k in seg.value ==>
      exists i :: 0 <= i < |Block(s, seg, order)| && Block(s, seg, order)[i] == EntryPoint(s, k, seg.value[k])
  {
    if seg.Some? {
      SegmentPointsOfEnumeration(s, seg.value, order);
    }
  }

  /** One valid visit per segment, listed in `SegmentOrder`. */
  ghost predicate ValidOrders(f: Forecast, orders: seq<seq<string>>) {
    && |orders| == |SegmentOrder|
    && ValidOrder(SegmentOf(f, Watts), orders[0])
    && ValidOrder(SegmentOf(f, WattHours), orders[1])
    && ValidOrder(SegmentOf(f, WattHoursPeriod), orders[2])
    && ValidOrder(SegmentOf(f, WattHoursDay), orders[3])
  }

  /** The point that reports the provider's remaining request quota. */
  function RemainingPoints(f: Forecast): seq<Point> {
    match RateLimitOf(f)
    case None => []
    case Some(rl) => [Point(RequestRemainingName, rl.remaining, Implicit)]
  }

  /** The point that marks the end of a run at `nowMillis` milliseconds
      since the epoch; its value is in seconds. */
  function LastUpdatedPoint(nowMillis: int): Point {
    Point(LastUpdatedName, nowMillis as real / 1000.0, Implicit)
  }

  /** Every point of one run: nothing without a result; otherwise the four
      segments in order, the remaining-quota point when the message has
      rate-limit counters, and the last-updated point. */
  function ForecastPoints(f: Forecast, nowMillis: int, orders: seq<seq<string>>): seq<Point>
    requires |orders| == |SegmentOrder|
  {
    if f.result.None? then []
    else SegmentsPoints(f, orders) + RemainingPoints(f) + [LastUpdatedPoint(nowMillis)]
  }

  /** The points of the four segments, in `SegmentOrder`. */
  function SegmentsPoints(f: Forecast, orders: seq<seq<string>>): seq<Point>
    requires |orders| == |SegmentOrder|
  {
    Block(Watts, SegmentOf(f, Watts), orders[0])
    + Block(WattHours, SegmentOf(f, WattHours), orders[1])
    + Block(WattHoursPeriod, SegmentOf(f, WattHoursPeriod), orders[2])
    + Block(WattHoursDay, SegmentOf(f, WattHoursDay), orders[3])
  }
}
