/** The in-memory storage branch of the database gateway (used whenever the
    PostgreSQL connection is absent), its sample-analytics generator and its
    own hour-of-day congestion table. */
module Database {
  import opened Numeric
  import opened Seqs
  import opened Entities
  import opened OrderedMaps

  /** The database's congestion table; it differs from the generator's. */
  function BaseCongestionForHour(hour: int): (c: real)
    ensures 0.1 <= c <= 0.9
  {
    if 7 <= hour <= 9 then 0.8
    else if 17 <= hour <= 19 then 0.9
    else if 10 <= hour <= 16 then 0.4
    else if hour >= 22 || hour <= 5 then 0.1
    else 0.3
  }

  /** The same table written out hour by hour, midnight first. */
  const HourlyTable: seq<real> := [
    0.1, 0.1, 0.1, 0.1, 0.1, 0.1, 0.3, 0.8, 0.8, 0.8, 0.4, 0.4,
    0.4, 0.4, 0.4, 0.4, 0.4, 0.9, 0.9, 0.9, 0.3, 0.3, 0.1, 0.1]

  /** Within a day the function is the hourly table; any hour past 23 (as a
      "next hour" computed by adding to 23 is) and any negative hour reads 0.1. */
  lemma BaseCongestionMatchesTable(hour: int)
    ensures 0 <= hour < 24 ==> BaseCongestionForHour(hour) == HourlyTable[hour]
    ensures (hour >= 24 || hour < 0) ==> BaseCongestionForHour(hour) == 0.1
  {
  }

  /** A traffic sample as the store keeps it: the record plus the store's
      own timestamp and the running id. */
  datatype StoredTraffic = StoredTraffic(data: TrafficRecord, timestamp: int, id: nat)

  predicate IsActive(i: Incident) { i.status == ActiveStatus }

  /** One step of the latest-per-segment scan: a record replaces the kept one
      only when it is strictly newer. */
  function LatestStep(m: OMap<string, StoredTraffic>, r: StoredTraffic, segmentIds: seq<string>): (m': OMap<string, StoredTraffic>)
    requires m.Valid()
    ensures m'.Valid()
  {
    var k := r.data.segment_id;
    if k in segmentIds && (k !in m.vals || r.timestamp > m.vals[k].timestamp) then Put(m, k, r) else m
  }

  /** The latest-per-segment dictionary after scanning recs in order. */
  function LatestBySegment(recs: seq<StoredTraffic>, segmentIds: seq<string>): (m: OMap<string, StoredTraffic>)
    ensures m.Valid()
  {
    if recs == [] then Empty()
    else LatestStep(LatestBySegment(recs[..|recs| - 1], segmentIds), recs[|recs| - 1], segmentIds)
  }

  /** recs[i] has the largest timestamp among the records of its segment and
      is the earliest record that has it. */
  ghost predicate FirstLatest(recs: seq<StoredTraffic>, i: int)
    requires 0 <= i < |recs|
  {
    var k := recs[i].data.segment_id;
    && (forall j :: 0 <= j < |recs| && recs[j].data.segment_id == k ==> recs[j].timestamp <= recs[i].timestamp)
    && (forall j :: 0 <= j < i && recs[j].data.segment_id == k ==> recs[j].timestamp < recs[i].timestamp)
  }

  /** What the scan keeps: a key for exactly the requested segments that have
      records, and for each the first record with the maximal timestamp. */
  lemma LatestBySegmentSpec(recs: seq<StoredTraffic>, segmentIds: seq<string>, k: string)
    ensures var m := LatestBySegment(recs, segmentIds);
      && (k in m.vals <==> k in segmentIds && exists j :: 0 <= j < |recs| && recs[j].data.segment_id == k)
      && (k in m.vals ==> exists i :: 0 <= i < |recs| && recs[i] == m.vals[k] && recs[i].data.segment_id == k && FirstLatest(recs, i))
  {
    LatestBySegmentKeys(recs, segmentIds, k);
    if k in LatestBySegment(recs, segmentIds).vals {
      LatestBySegmentPick(recs, segmentIds, k);
    }
  }

  lemma {:induction false} LatestBySegmentKeys(recs: seq<StoredTraffic>, segmentIds: seq<string>, k: string)
    ensures k in LatestBySegment(recs, segmentIds).vals <==> k in segmentIds && exists j :: 0 <= j < |recs| && recs[j].data.segment_id == k
  {
    if recs != [] {
      var n := |recs| - 1;
      var init := recs[..n];
      LatestBySegmentKeys(init, segmentIds, k);
      assert forall j :: 0 <= j < n ==> init[j] == recs[j];
      if (exists j :: 0 <= j < |recs| && recs[j].data.segment_id == k) && recs[n].data.segment_id != k {
        var j :| 0 <= j < |recs| && recs[j].data.segment_id == k;
        assert init[j].data.segment_id == k;
      }
    }
  }

  lemma {:induction false} LatestBySegmentPick(recs: seq<StoredTraffic>, segmentIds: seq<string>, k: string)
    requires k in LatestBySegment(recs, segmentIds).vals
    ensures var m := LatestBySegment(recs, segmentIds);
      exists i :: 0 <= i < |recs| && recs[i] == m.vals[k] && recs[i].data.segment_id == k && FirstLatest(recs, i)
  {
    var n := |recs| - 1;
    var init, r := recs[..n], recs[n];
    assert recs == init + [r];
    var m0 := LatestBySegment(init, segmentIds);
    LatestBySegmentKeys(recs, segmentIds, k);
    if r.data.segment_id == k && (k !in m0.vals || r.timestamp > m0.vals[k].timestamp) {
      if k in m0.vals {
        LatestBySegmentPick(init, segmentIds, k);
        var i :| 0 <= i < n && init[i] == m0.vals[k] && init[i].data.segment_id == k && FirstLatest(init, i);
        FirstLatestNewer(init, r, i);
      } else {
        LatestBySegmentKeys(init, segmentIds, k);
        FirstLatestFresh(init, r);
      }
    } else {
      LatestBySegmentPick(init, segmentIds, k);
      var i :| 0 <= i < n && init[i] == m0.vals[k] && init[i].data.segment_id == k && FirstLatest(init, i);
      FirstLatestKept(init, r, i);
      assert recs[i] == init[i];
    }
  }

  /** A strictly newer record of the same segment becomes the first latest. */
  lemma FirstLatestNewer(init: seq<StoredTraffic>, r: StoredTraffic, i: int)
    requires 0 <= i < |init| && FirstLatest(init, i)
    requires r.data.segment_id == init[i].data.segment_id && r.timestamp > init[i].timestamp
    ensures FirstLatest(init + [r], |init|)
  {
    var recs := init + [r];
    assert forall j :: 0 <= j < |init| ==> recs[j] == init[j];
  }

  /** The first record of a segment is its first latest. */
  lemma FirstLatestFresh(init: seq<StoredTraffic>, r: StoredTraffic)
    requires forall j :: 0 <= j < |init| ==> init[j].data.segment_id != r.data.segment_id
    ensures FirstLatest(init + [r], |init|)
  {
    var recs := init + [r];
    assert forall j :: 0 <= j < |init| ==> recs[j] == init[j];
  }

  /** A record that is not strictly newer leaves the first latest in place. */
  lemma FirstLatestKept(init: seq<StoredTraffic>, r: StoredTraffic, i: int)
    requires 0 <= i < |init| && FirstLatest(init, i)
    requires r.data.segment_id == init[i].data.segment_id ==> r.timestamp <= init[i].timestamp
    ensures FirstLatest(init + [r], i)
  {
    var recs := init + [r];
    assert forall j :: 0 <= j < |init| ==> recs[j] == init[j];
  }

  /** The in-memory store. */
  class MemoryStorage {
    var roadSegments: seq<RoadSegment>
    var trafficData: seq<StoredTraffic>
    var trafficIncidents: seq<Incident>

    /** Traffic ids are 1, 2, ... in insertion order. */
    ghost predicate Valid()
      reads this
    {
      forall i :: 0 <= i < |trafficData| ==> trafficData[i].id == i + 1
    }

    /** initializeMemoryStorage: all tables empty. */
    constructor ()
      ensures Valid()
      ensures roadSegments == [] && trafficData == [] && trafficIncidents == []
    {
      roadSegments, trafficData, trafficIncidents := [], [], [];
    }

    /** Appends without removing duplicates (the SQL path ignores a repeated
        segment id instead). The traffic table is untouched, so a valid store
        stays valid; the insert itself asks nothing of it. */
    method InsertRoadSegment(segment: RoadSegment)
      modifies this
      ensures old(Valid()) ==> Valid()
      ensures roadSegments == old(roadSegments) + [segment]
      ensures trafficData == old(trafficData) && trafficIncidents == old(trafficIncidents)
    {
      roadSegments := roadSegments + [segment];
    }

    /** Appends the record stamped with the store's clock and id = length + 1. */
    method InsertTrafficData(data: TrafficRecord, now: int)
      requires Valid()
      modifies this
      ensures Valid()
      ensures trafficData == old(trafficData) + [StoredTraffic(data, now, |old(trafficData)| + 1)]
      ensures roadSegments == old(roadSegments) && trafficIncidents == old(trafficIncidents)
    {
      trafficData := trafficData + [StoredTraffic(data, now, |trafficData| + 1)];
    }

    /** Appends without removing duplicates (the SQL path updates the
        existing incident instead). A valid store stays valid. */
    method InsertTrafficIncident(incident: Incident)
      modifies this
      ensures old(Valid()) ==> Valid()
      ensures trafficIncidents == old(trafficIncidents) + [incident]
      ensures roadSegments == old(roadSegments) && trafficData == old(trafficData)
    {
      trafficIncidents := trafficIncidents + [incident];
    }

    /** The stored incidents whose status is active, in stored order. */
    function GetActiveIncidents(): (r: seq<Incident>)
      reads this
      ensures forall x :: x in r <==> x in trafficIncidents && x.status == ActiveStatus
      ensures Subseq(r, trafficIncidents)
      ensures forall x :: multiset(r)[x] == if x.status == ActiveStatus then multiset(trafficIncidents)[x] else 0
    {
      FilterIsSubseq(trafficIncidents, IsActive);
      FilterCounts(trafficIncidents, IsActive);
      Filter(trafficIncidents, IsActive)
    }

    /** The newest stored record of each requested segment. */
    method GetLatestTrafficData(segmentIds: seq<string>) returns (latest: seq<StoredTraffic>)
      ensures latest == Values(LatestBySegment(trafficData, segmentIds))
      ensures forall i, j :: 0 <= i < j < |latest| ==> latest[i].data.segment_id != latest[j].data.segment_id
      ensures forall x :: x in latest ==> x.data.segment_id in segmentIds
      ensures forall x :: x in latest ==> exists i :: 0 <= i < |trafficData| && trafficData[i] == x && FirstLatest(trafficData, i)
      ensures forall k :: k in segmentIds && (exists j :: 0 <= j < |trafficData| && trafficData[j].data.segment_id == k)
                ==> exists x :: x in latest && x.data.segment_id == k
    {
      var m: OMap<string, StoredTraffic> := Empty();
      var i := 0;
      while i < |trafficData|
        invariant 0 <= i <= |trafficData|
        invariant m == LatestBySegment(trafficData[..i], segmentIds)
      {
        assert trafficData[..i + 1][..i] == trafficData[..i];
        m := LatestStep(m, trafficData[i], segmentIds);
        i := i + 1;
      }
      assert trafficData[..i] == trafficData;
      latest := Values(m);
      forall a, b | 0 <= a < b < |latest|
        ensures latest[a].data.segment_id != latest[b].data.segment_id
      {
        LatestBySegmentSpec(trafficData, segmentIds, m.keys[a]);
        LatestBySegmentSpec(trafficData, segmentIds, m.keys[b]);
      }
      forall x | x in latest
        ensures x.data.segment_id in segmentIds
        ensures exists i :: 0 <= i < |trafficData| && trafficData[i] == x && FirstLatest(trafficData, i)
      {
        var a :| 0 <= a < |latest| && latest[a] == x;
        LatestBySegmentSpec(trafficData, segmentIds, m.keys[a]);
      }
      forall k | k in segmentIds && (exists j :: 0 <= j < |trafficData| && trafficData[j].data.segment_id == k)
        ensures exists x :: x in latest && x.data.segment_id == k
      {
        LatestBySegmentSpec(trafficData, segmentIds, k);
        var a :| 0 <= a < |m.keys| && m.keys[a] == k;
        assert latest[a] == m.vals[k];
      }
    }
  }

  /** A row of the sample analytics; the rows carry no segment id. */
  datatype AnalyticsRow = AnalyticsRow(
    date: int,
    hour: int,
    avg_speed: real,
    avg_congestion: real,
    total_vehicles: int,
    segment_id: Option<string>)

  /** The row for one day and hour, from its two random draws. */
  function SampleRow(day: int, hour: int, variation: Draw, volume: Draw): (row: AnalyticsRow)
  {
    var c := Clamp01(BaseCongestionForHour(hour) + (variation - 0.5) * 0.4);
    AnalyticsRow(day, hour, 60.0 * (1.0 - c), c, Floor(1000.0 + volume * 2000.0), None)
  }

  /** Every sample row has congestion in [0, 1], speed 60 * (1 - congestion)
      in [0, 60] and between 1000 and 2999 vehicles. */
  lemma SampleRowBounds(day: int, hour: int, variation: Draw, volume: Draw)
    ensures var row := SampleRow(day, hour, variation, volume);
      && 0.0 <= row.avg_congestion <= 1.0
      && row.avg_speed == 60.0 * (1.0 - row.avg_congestion)
      && 0.0 <= row.avg_speed <= 60.0
      && 1000 <= row.total_vehicles < 3000
      && row.date == day && row.hour == hour
  {
  }

  /** Number of days from startDay to endDay, both included. */
  function DayCount(startDay: int, endDay: int): nat
  {
    if endDay < startDay then 0 else endDay - startDay + 1
  }

  /** The calendar day (UTC, as toISOString().split('T')[0] gives it) of a
      time in milliseconds. */
  function DayOf(t: int): int { t / MsPerDay }

  lemma DayOfStep(t: int)
    ensures DayOf(t + MsPerDay) == DayOf(t) + 1
  {
  }

  /** The passes of `for (d = start; d <= end; d.setDate(d.getDate() + 1))`
      over two times in milliseconds, a day taken as 24 hours. */
  function SampleDays(start: int, end: int): nat
  {
    if end < start then 0 else (end - start) / MsPerDay + 1
  }

  /** Pass k runs exactly when the start moved on by k days is not past the end. */
  lemma SampleDaysCounts(start: int, end: int, k: nat)
    ensures k < SampleDays(start, end) <==> start + k * MsPerDay <= end
  {
    if start <= end {
      var q, r := (end - start) / MsPerDay, (end - start) % MsPerDay;
      assert end - start == q * MsPerDay + r && 0 <= r < MsPerDay;
      if k <= q {
        assert k * MsPerDay <= q * MsPerDay;
      } else {
        assert k * MsPerDay >= (q + 1) * MsPerDay;
      }
    }
  }

  /** The loop counts calendar days when the start's time of day is not
      later than the end's, and one day less when it is: a start at noon
      does not reach an end at the next midnight a second time. */
  lemma SampleDaysAndCalendarDays(start: int, end: int)
    ensures start % MsPerDay <= end % MsPerDay ==> SampleDays(start, end) == DayCount(DayOf(start), DayOf(end))
    ensures start % MsPerDay > end % MsPerDay && DayOf(start) <= DayOf(end) ==>
      SampleDays(start, end) == DayCount(DayOf(start), DayOf(end)) - 1
  {
    var a, b := DayOf(start), DayOf(end);
    var x, y := start % MsPerDay, end % MsPerDay;
    assert start == a * MsPerDay + x && end == b * MsPerDay + y;
    assert end - start == (b - a) * MsPerDay + (y - x);
    if x <= y {
      if a <= b {
        assert (end - start) / MsPerDay == b - a;
      }
    } else if a < b {
      assert end - start == (b - a - 1) * MsPerDay + (MsPerDay + y - x);
      assert (end - start) / MsPerDay == b - a - 1;
    }
  }

  /** The rows of the sample analytics from start to end (milliseconds):
      24 per pass of the day loop, hours 0..23 in order, dated by the
      calendar day of the pass. */
  function SampleAnalytics(start: int, end: int, variation: (int, int) -> Draw, volume: (int, int) -> Draw): (rows: seq<AnalyticsRow>)
    ensures |rows| == 24 * SampleDays(start, end)
  {
    seq(24 * SampleDays(start, end), i requires 0 <= i < 24 * SampleDays(start, end) =>
      var day, hour := DayOf(start) + i / 24, i % 24;
      SampleRow(day, hour, variation(day, hour), volume(day, hour)))
  }

  /** Every sample row is bounded and dated within the range. */
  lemma SampleAnalyticsBounded(start: int, end: int, variation: (int, int) -> Draw, volume: (int, int) -> Draw, i: nat)
    requires i < |SampleAnalytics(start, end, variation, volume)|
    ensures var row := SampleAnalytics(start, end, variation, volume)[i];
      && 0.0 <= row.avg_congestion <= 1.0 && 0.0 <= row.avg_speed <= 60.0
      && 1000 <= row.total_vehicles < 3000
      && DayOf(start) <= row.date <= DayOf(end) && row.hour == i % 24
  {
    var day, hour := DayOf(start) + i / 24, i % 24;
    SampleRowBounds(day, hour, variation(day, hour), volume(day, hour));
    SampleDaysCounts(start, end, i / 24);
    var t := start + (i / 24) * MsPerDay;
    assert DayOf(start) * MsPerDay <= start;
    assert t / MsPerDay == DayOf(start) + i / 24 by {
      assert t == (DayOf(start) + i / 24) * MsPerDay + start % MsPerDay;
    }
    assert t / MsPerDay <= end / MsPerDay;
  }

  /** generateSampleAnalytics: the day loop and, inside it, the hour loop.
      A date that does not parse (None, an Invalid Date) compares false, so
      no pass runs. */
  method GenerateSampleAnalytics(startDate: Option<int>, endDate: Option<int>, variation: (int, int) -> Draw, volume: (int, int) -> Draw)
    returns (analytics: seq<AnalyticsRow>)
    ensures analytics == if startDate.Some? && endDate.Some? then SampleAnalytics(startDate.value, endDate.value, variation, volume) else []
  {
    analytics := [];
    if startDate.None? || endDate.None? {
      return;
    }
    var start, end := startDate.value, endDate.value;
    ghost var first := DayOf(start);
    var d := start;
    ghost var k: nat := 0;
    SampleDaysCounts(start, end, 0);
    while d <= end
      invariant d == start + k * MsPerDay && DayOf(d) == first + k
      invariant k <= SampleDays(start, end)
      invariant |analytics| == 24 * k
      invariant forall i :: 0 <= i < |analytics| ==>
        var day, hour := first + i / 24, i % 24;
        analytics[i] == SampleRow(day, hour, variation(day, hour), volume(day, hour))
      decreases end - d
    {
      SampleDaysCounts(start, end, k);
      var day := DayOf(d);
      var hour := 0;
      while hour < 24
        invariant 0 <= hour <= 24
        invariant |analytics| == 24 * k + hour
        invariant forall i :: 0 <= i < |analytics| ==>
          var day, h := first + i / 24, i % 24;
          analytics[i] == SampleRow(day, h, variation(day, h), volume(day, h))
      {
        var i := |analytics|;
        assert i / 24 == k && i % 24 == hour;
        analytics := analytics + [SampleRow(day, hour, variation(day, hour), volume(day, hour))];
        hour := hour + 1;
      }
      DayOfStep(d);
      d := d + MsPerDay;
      k := k + 1;
    }
    SampleDaysCounts(start, end, k);
    assert k == SampleDays(start, end);
  }
}
