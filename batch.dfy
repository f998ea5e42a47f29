/** Properties of the batch one run writes: how many points of each name
    it holds, which point comes last, and that segments keep their order. */
module Batch {
  import opened Wrappers
  import opened ForecastData
  import opened Influx
  import opened Transform

  /** The number of points named `name`. */
  function CountNamed(ps: seq<Point>, name: string): nat
    decreases |ps|
  {
    if ps == [] then 0
    else CountNamed(ps[..|ps| - 1], name) + (if ps[|ps| - 1].measurement == name then 1 else 0)
  }

  lemma {:induction false} CountNamedAppend(xs: seq<Point>, ys: seq<Point>, name: string)
    ensures CountNamed(xs + ys, name) == CountNamed(xs, name) + CountNamed(ys, name)
    decreases |ys|
  {
    if ys == [] {
      assert xs + ys == xs;
    } else {
      var n := |ys| - 1;
      assert (xs + ys)[..|xs + ys| - 1] == xs + ys[..n];
      CountNamedAppend(xs, ys[..n], name);
    }
  }

  /** In a run of points that all share one name, that name occurs once per
      point and every other name not at all. */
  lemma {:induction false} CountNamedUniform(xs: seq<Point>, shared: string, name: string)
    requires forall i :: 0 <= i < |xs| ==> xs[i].measurement == shared
    ensures CountNamed(xs, name) == if shared == name then |xs| else 0
    decreases |xs|
  {
    if xs != [] {
      CountNamedUniform(xs[..|xs| - 1], shared, name);
    }
  }

  /** The position of a measurement name in the order the batch is built:
      the four segments, then the remaining quota, then the last update. */
  function Rank(name: string): nat {
    if name == SegmentMeasurement(Watts) then 0
    else if name == SegmentMeasurement(WattHours) then 1
    else if name == SegmentMeasurement(WattHoursPeriod) then 2
    else if name == SegmentMeasurement(WattHoursDay) then 3
    else if name == RequestRemainingName then 4
    else if name == LastUpdatedName then 5
    else 6
  }

  lemma RankOfNames()
    ensures forall s :: Rank(SegmentMeasurement(s)) == SegmentIndex(s)
    ensures Rank(RequestRemainingName) == 4 && Rank(LastUpdatedName) == 5
  {
    MeasurementNamesDistinct();
  }

  ghost predicate RankedInOrder(ps: seq<Point>) {
    forall i, j :: 0 <= i < j < |ps| ==> Rank(ps[i].measurement) <= Rank(ps[j].measurement)
  }

  ghost predicate RankedAtMost(ps: seq<Point>, k: nat) {
    forall i :: 0 <= i < |ps| ==> Rank(ps[i].measurement) <= k
  }

  /** Appending points of rank `k` to points of rank at most `k` keeps the
      batch in order. */
  lemma AppendRanked(xs: seq<Point>, ys: seq<Point>, k: nat)
    requires RankedInOrder(xs) && RankedAtMost(xs, k)
    requires forall i :: 0 <= i < |ys| ==> Rank(ys[i].measurement) == k
    ensures RankedInOrder(xs + ys) && RankedAtMost(xs + ys, k)
  {
  }

  /** The number of entries over the four segments of a forecast. */
  function TotalEntries(f: Forecast): nat {
    EntryCount(SegmentOf(f, Watts)) + EntryCount(SegmentOf(f, WattHours))
    + EntryCount(SegmentOf(f, WattHoursPeriod)) + EntryCount(SegmentOf(f, WattHoursDay))
  }

  lemma ValidOrderAt(f: Forecast, orders: seq<seq<string>>, s: SegmentKey)
    requires ValidOrders(f, orders)
    ensures ValidOrder(SegmentOf(f, s), orders[SegmentIndex(s)])
  {
  }

  /** The count of `name` in the block of segment `s`. */
  lemma BlockCount(f: Forecast, orders: seq<seq<string>>, s: SegmentKey, name: string)
    requires ValidOrders(f, orders)
    ensures CountNamed(Block(s, SegmentOf(f, s), orders[SegmentIndex(s)]), name)
      == if name == SegmentMeasurement(s) then EntryCount(SegmentOf(f, s)) else 0
  {
    ValidOrderAt(f, orders, s);
    var b := Block(s, SegmentOf(f, s), orders[SegmentIndex(s)]);
    BlockContents(s, SegmentOf(f, s), orders[SegmentIndex(s)]);
    CountNamedUniform(b, SegmentMeasurement(s), name);
  }

  /** The count of `name` over the four segments: the entries of the segment
      whose measurement it is, or none. */
  lemma SegmentsCount(f: Forecast, orders: seq<seq<string>>, name: string)
    requires ValidOrders(f, orders)
    ensures CountNamed(SegmentsPoints(f, orders), name)
      == (if name == SegmentMeasurement(Watts) then EntryCount(SegmentOf(f, Watts)) else 0)
       + (if name == SegmentMeasurement(WattHours) then EntryCount(SegmentOf(f, WattHours)) else 0)
       + (if name == SegmentMeasurement(WattHoursPeriod) then EntryCount(SegmentOf(f, WattHoursPeriod)) else 0)
       + (if name == SegmentMeasurement(WattHoursDay) then EntryCount(SegmentOf(f, WattHoursDay)) else 0)
  {
    var b0 := Block(Watts, SegmentOf(f, Watts), orders[0]);
    var b1 := Block(WattHours, SegmentOf(f, WattHours), orders[1]);
    var b2 := Block(WattHoursPeriod, SegmentOf(f, WattHoursPeriod), orders[2]);
    var b3 := Block(WattHoursDay, SegmentOf(f, WattHoursDay), orders[3]);
    CountNamedAppend(b0, b1, name);
    CountNamedAppend(b0 + b1, b2, name);
    CountNamedAppend(b0 + b1 + b2, b3, name);
    BlockCount(f, orders, Watts, name);
    BlockCount(f, orders, WattHours, name);
    BlockCount(f, orders, WattHoursPeriod, name);
    BlockCount(f, orders, WattHoursDay, name);
  }

  /** A name that is no segment's measurement does not occur in the
      segments' points. */
  lemma SegmentsCountOther(f: Forecast, orders: seq<seq<string>>, name: string)
    requires ValidOrders(f, orders)
    requires name == RequestRemainingName || name == LastUpdatedName
    ensures CountNamed(SegmentsPoints(f, orders), name) == 0
  {
    MeasurementNamesDistinct();
    SegmentsCount(f, orders, name);
  }

  /** Splits the count of one name over the parts of a batch with a result. */
  lemma CountParts(f: Forecast, nowMillis: int, orders: seq<seq<string>>, name: string)
    requires |orders| == |SegmentOrder| && f.result.Some?
    ensures CountNamed(ForecastPoints(f, nowMillis, orders), name)
      == CountNamed(SegmentsPoints(f, orders), name)
       + CountNamed(RemainingPoints(f), name)
       + CountNamed([LastUpdatedPoint(nowMillis)], name)
  {
    var segs := SegmentsPoints(f, orders);
    CountNamedAppend(segs, RemainingPoints(f), name);
    CountNamedAppend(segs + RemainingPoints(f), [LastUpdatedPoint(nowMillis)], name);
  }

  /** One run writes nothing without a result, and otherwise one point per
      segment entry, one for the remaining quota when the message has
      rate-limit counters, and one for the last update. */
  lemma BatchSize(f: Forecast, nowMillis: int, orders: seq<seq<string>>)
    requires ValidOrders(f, orders)
    ensures f.result.None? ==> ForecastPoints(f, nowMillis, orders) == []
    ensures f.result.Some? ==>
      |ForecastPoints(f, nowMillis, orders)|
      == TotalEntries(f) + (if RateLimitOf(f).Some? then 1 else 0) + 1
  {
    BlockContents(Watts, SegmentOf(f, Watts), orders[0]);
    BlockContents(WattHours, SegmentOf(f, WattHours), orders[1]);
    BlockContents(WattHoursPeriod, SegmentOf(f, WattHoursPeriod), orders[2]);
    BlockContents(WattHoursDay, SegmentOf(f, WattHoursDay), orders[3]);
  }

  /** A segment with `n` entries gives exactly `n` points of its
      measurement (none when it is absent). */
  lemma SegmentPointCount(f: Forecast, nowMillis: int, orders: seq<seq<string>>, s: SegmentKey)
    requires ValidOrders(f, orders) && f.result.Some?
    ensures CountNamed(ForecastPoints(f, nowMillis, orders), SegmentMeasurement(s)) == EntryCount(SegmentOf(f, s))
  {
    var name := SegmentMeasurement(s);
    MeasurementNamesDistinct();
    CountParts(f, nowMillis, orders, name);
    SegmentsCount(f, orders, name);
    CountNamedUniform(RemainingPoints(f), RequestRemainingName, name);
    CountNamedUniform([LastUpdatedPoint(nowMillis)], LastUpdatedName, name);
  }

  /** A point of a segment's block is a point of the batch. */
  lemma BlockPointInBatch(f: Forecast, nowMillis: int, orders: seq<seq<string>>, s: SegmentKey, p: Point)
    requires |orders| == |SegmentOrder| && f.result.Some?
    requires p in Block(s, SegmentOf(f, s), orders[SegmentIndex(s)])
    ensures p in ForecastPoints(f, nowMillis, orders)
  {
    var b0 := Block(Watts, SegmentOf(f, Watts), orders[0]);
    var b1 := Block(WattHours, SegmentOf(f, WattHours), orders[1]);
    var b2 := Block(WattHoursPeriod, SegmentOf(f, WattHoursPeriod), orders[2]);
    var b3 := Block(WattHoursDay, SegmentOf(f, WattHoursDay), orders[3]);
    assert p in b0 + b1 + b2 + b3;
    assert p in SegmentsPoints(f, orders);
  }

  /** Every entry of a present segment has its point in the batch. */
  lemma SegmentEntriesWritten(f: Forecast, nowMillis: int, orders: seq<seq<string>>, s: SegmentKey)
    requires ValidOrders(f, orders) && f.result.Some? && SegmentOf(f, s).Some?
    ensures forall k :: k in SegmentOf(f, s).value ==>
      EntryPoint(s, k, SegmentOf(f, s).value[k]) in ForecastPoints(f, nowMillis, orders)
  {
    var seg := SegmentOf(f, s);
    ValidOrderAt(f, orders, s);
    var b := Block(s, seg, orders[SegmentIndex(s)]);
    BlockContents(s, seg, orders[SegmentIndex(s)]);
    forall k | k in seg.value
      ensures EntryPoint(s, k, seg.value[k]) in ForecastPoints(f, nowMillis, orders)
    {
      var i :| 0 <= i < |b| && b[i] == EntryPoint(s, k, seg.value[k]);
      BlockPointInBatch(f, nowMillis, orders, s, b[i]);
    }
  }

  /** With a result, the batch ends in the one and only last-updated point,
      whose value is the run's time in seconds. */
  lemma LastUpdatedOnce(f: Forecast, nowMillis: int, orders: seq<seq<string>>)
    requires ValidOrders(f, orders) && f.result.Some?
    ensures
      var pts := ForecastPoints(f, nowMillis, orders);
      && |pts| > 0
      && pts[|pts| - 1] == Point(LastUpdatedName, nowMillis as real / 1000.0, Implicit)
      && CountNamed(pts, LastUpdatedName) == 1
  {
    MeasurementNamesDistinct();
    CountParts(f, nowMillis, orders, LastUpdatedName);
    SegmentsCountOther(f, orders, LastUpdatedName);
    CountNamedUniform(RemainingPoints(f), RequestRemainingName, LastUpdatedName);
    CountNamedUniform([LastUpdatedPoint(nowMillis)], LastUpdatedName, LastUpdatedName);
  }

  /** With a result, a remaining-quota point is written if and only if the
      message has rate-limit counters, and never more than one. */
  lemma RequestRemainingIff(f: Forecast, nowMillis: int, orders: seq<seq<string>>)
    requires ValidOrders(f, orders) && f.result.Some?
    ensures CountNamed(ForecastPoints(f, nowMillis, orders), RequestRemainingName)
      == if RateLimitOf(f).Some? then 1 else 0
  {
    CountParts(f, nowMillis, orders, RequestRemainingName);
    SegmentsCountOther(f, orders, RequestRemainingName);
    CountNamedUniform(RemainingPoints(f), RequestRemainingName, RequestRemainingName);
    MeasurementNamesDistinct();
    CountNamedUniform([LastUpdatedPoint(nowMillis)], LastUpdatedName, RequestRemainingName);
  }

  /** The remaining-quota point carries the remaining count, has no
      timestamp and comes just before the last-updated point. */
  lemma RequestRemainingPoint(f: Forecast, nowMillis: int, orders: seq<seq<string>>)
    requires |orders| == |SegmentOrder| && f.result.Some? && RateLimitOf(f).Some?
    ensures
      var pts := ForecastPoints(f, nowMillis, orders);
      |pts| >= 2 && pts[|pts| - 2] == Point(RequestRemainingName, RateLimitOf(f).value.remaining, Implicit)
  {
  }

  /** The points of segment `s` all have the rank of `s`. */
  lemma BlockRanked(f: Forecast, orders: seq<seq<string>>, s: SegmentKey)
    requires ValidOrders(f, orders)
    ensures var b := Block(s, SegmentOf(f, s), orders[SegmentIndex(s)]);
      forall i :: 0 <= i < |b| ==> Rank(b[i].measurement) == SegmentIndex(s)
  {
    RankOfNames();
    ValidOrderAt(f, orders, s);
    BlockContents(s, SegmentOf(f, s), orders[SegmentIndex(s)]);
  }

  /** The segment points are sorted by `Rank`, and none ranks above the
      last segment. */
  lemma SegmentsRanked(f: Forecast, orders: seq<seq<string>>)
    requires ValidOrders(f, orders)
    ensures RankedInOrder(SegmentsPoints(f, orders)) && RankedAtMost(SegmentsPoints(f, orders), 3)
  {
    var b0 := Block(Watts, SegmentOf(f, Watts), orders[0]);
    var b1 := Block(WattHours, SegmentOf(f, WattHours), orders[1]);
    var b2 := Block(WattHoursPeriod, SegmentOf(f, WattHoursPeriod), orders[2]);
    var b3 := Block(WattHoursDay, SegmentOf(f, WattHoursDay), orders[3]);
    BlockRanked(f, orders, Watts);
    BlockRanked(f, orders, WattHours);
    BlockRanked(f, orders, WattHoursPeriod);
    BlockRanked(f, orders, WattHoursDay);
    AppendRanked([], b0, 0);
    assert [] + b0 == b0;
    AppendRanked(b0, b1, 1);
    AppendRanked(b0 + b1, b2, 2);
    AppendRanked(b0 + b1 + b2, b3, 3);
  }

  /** The batch is sorted by `Rank`: every point of an earlier segment comes
      before every point of a later one, and the remaining-quota and
      last-updated points come after all segment points. */
  lemma SegmentsInOrder(f: Forecast, nowMillis: int, orders: seq<seq<string>>)
    requires ValidOrders(f, orders)
    ensures RankedInOrder(ForecastPoints(f, nowMillis, orders))
  {
    if f.result.Some? {
      RankOfNames();
      var sp := SegmentsPoints(f, orders);
      var r := RemainingPoints(f);
      SegmentsRanked(f, orders);
      AppendRanked(sp, r, 4);
      AppendRanked(sp + r, [LastUpdatedPoint(nowMillis)], 5);
    }
  }
}
