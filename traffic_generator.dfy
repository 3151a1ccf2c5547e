/** The periodic traffic generator: one record per road segment from the
    hour-of-day congestion table plus a bounded random offset, an occasional
    incident, a summary of the batch, and the start/stop state machine.
    Every Math.random() call, the clock, the local hour and every uuid are
    parameters. */
module TrafficGenerator {
  import opened Numeric
  import opened Seqs
  import opened Entities
  import opened Database

  /** The generator's congestion table. */
  function BaseCongestionForHour(hour: int): (c: real)
    ensures 0.1 <= c <= 0.85
  {
    if 7 <= hour <= 9 then 0.75
    else if 17 <= hour <= 19 then 0.85
    else if 10 <= hour <= 16 then 0.35
    else if hour >= 22 || hour <= 5 then 0.1
    else 0.25
  }

  /** The same table hour by hour, midnight first. */
  const HourlyTable: seq<real> := [
    0.1, 0.1, 0.1, 0.1, 0.1, 0.1, 0.25, 0.75, 0.75, 0.75, 0.35, 0.35,
    0.35, 0.35, 0.35, 0.35, 0.35, 0.85, 0.85, 0.85, 0.25, 0.25, 0.1, 0.1]

  lemma BaseCongestionMatchesTable(hour: Hour)
    ensures BaseCongestionForHour(hour) == HourlyTable[hour]
  {
  }

  /** initializeRoadSegments: the sixteen fixed segments. */
  function RoadSegments(): (segs: seq<RoadSegment>)
    ensures |segs| == 16 && AllValid(segs)
  {
    [ RoadSegment("hwy_101_north", "Highway 101 North", "highway", 12.5, 100, [Point(37.7749, -122.4194), Point(37.8044, -122.2711)]),
      RoadSegment("hwy_101_south", "Highway 101 South", "highway", 12.5, 100, [Point(37.8044, -122.2711), Point(37.7749, -122.4194)]),
      RoadSegment("hwy_280_north", "Highway 280 North", "highway", 15.2, 110, [Point(37.7749, -122.4194), Point(37.8044, -122.2711)]),
      RoadSegment("hwy_280_south", "Highway 280 South", "highway", 15.2, 110, [Point(37.8044, -122.2711), Point(37.7749, -122.4194)]),
      RoadSegment("market_st", "Market Street", "arterial", 3.2, 50, [Point(37.7849, -122.4094), Point(37.7749, -122.4194)]),
      RoadSegment("van_ness Ave", "Van Ness Avenue", "arterial", 4.1, 45, [Point(37.8044, -122.4211), Point(37.7749, -122.4194)]),
      RoadSegment("geary_blvd", "Geary Boulevard", "arterial", 8.5, 40, [Point(37.7849, -122.4094), Point(37.7749, -122.4594)]),
      RoadSegment("lombard_st", "Lombard Street", "arterial", 2.8, 35, [Point(37.8044, -122.4211), Point(37.7944, -122.4311)]),
      RoadSegment("fillmore_st", "Fillmore Street", "residential", 2.1, 30, [Point(37.7849, -122.4294), Point(37.7749, -122.4194)]),
      RoadSegment("haight_st", "Haight Street", "residential", 1.8, 25, [Point(37.7749, -122.4294), Point(37.7649, -122.4394)]),
      RoadSegment("castro_st", "Castro Street", "residential", 1.5, 25, [Point(37.7649, -122.4394), Point(37.7549, -122.4494)]),
      RoadSegment("mission_st", "Mission Street", "arterial", 5.2, 35, [Point(37.7849, -122.4094), Point(37.7649, -122.4194)]),
      RoadSegment("bay_bridge_east", "Bay Bridge East Approach", "highway", 4.8, 80, [Point(37.8044, -122.4211), Point(37.8244, -122.4011)]),
      RoadSegment("bay_bridge_west", "Bay Bridge West Approach", "highway", 4.8, 80, [Point(37.8244, -122.4011), Point(37.8044, -122.4211)]),
      RoadSegment("golden_gate_north", "Golden Gate Bridge North", "highway", 2.7, 70, [Point(37.8044, -122.4711), Point(37.8344, -122.4811)]),
      RoadSegment("golden_gate_south", "Golden Gate Bridge South", "highway", 2.7, 70, [Point(37.8344, -122.4811), Point(37.8044, -122.4711)]) ]
  }

  function SegmentIds(segs: seq<RoadSegment>): (ids: seq<string>)
    ensures |ids| == |segs| && forall i :: 0 <= i < |segs| ==> ids[i] == segs[i].segment_id
  {
    seq(|segs|, i requires 0 <= i < |segs| => segs[i].segment_id)
  }

  /** No two fixed segments share an id, and no speed limit exceeds 110. */
  lemma RoadSegmentsWellFormed()
    ensures forall i, j :: 0 <= i < j < |RoadSegments()| ==> RoadSegments()[i].segment_id != RoadSegments()[j].segment_id
    ensures forall i :: 0 <= i < |RoadSegments()| ==> RoadSegments()[i].speed_limit <= 110
  {
  }

  /** A property key that JavaScript objects order as an array index, ahead
      of every other key: a non-empty run of decimal digits (this takes in
      every canonical index and a few more). */
  predicate DigitsOnly(key: string)
  {
    |key| > 0 && forall j :: 0 <= j < |key| ==> '0' <= key[j] <= '9'
  }

  /** No segment id is an array index, so an object keyed by segment ids
      lists its values in the order the keys were first set. */
  lemma SegmentIdsAreNotIndices()
    ensures forall i :: 0 <= i < |RoadSegments()| ==> !DigitsOnly(RoadSegments()[i].segment_id)
  {
    var segs := RoadSegments();
    forall i | 0 <= i < |segs| ensures !DigitsOnly(segs[i].segment_id) {
      assert 'a' <= segs[i].segment_id[0] <= 'z';
    }
  }

  /** The congestion level before rounding: within 0.15 of the table value,
      clamped to [0, 1], and never 1 because the table stays at or below 0.85. */
  function CongestionSample(hour: Hour, variation: Draw): (c: real)
    ensures 0.0 <= c < 1.0
    ensures BaseCongestionForHour(hour) - 0.15 <= c <= BaseCongestionForHour(hour) + 0.15
  {
    Clamp01(BaseCongestionForHour(hour) + (variation - 0.5) * 0.3)
  }

  /** Minutes to cover a length at a positive speed. */
  function TripMinutes(length_km: real, speed: real): (m: real)
    requires 0.0 < speed
    ensures 0.0 <= length_km ==> 0.0 <= m
  {
    assert 0.0 <= length_km ==> 0.0 <= length_km / speed * 60.0 by {
      if 0.0 <= length_km { MulNonNeg(length_km / speed, 60.0); }
    }
    length_km / speed * 60.0
  }

  /** A slower speed never shortens a trip. */
  lemma TripMinutesAntitone(length_km: real, slow: real, fast: real)
    requires 0.0 <= length_km && 0.0 < slow <= fast
    ensures TripMinutes(length_km, fast) <= TripMinutes(length_km, slow)
  {
    DivAntitone(length_km, slow, fast);
  }

  /** The record of a segment at congestion c (before rounding). The
      travel-time division has no guard; the speed it divides by is positive
      because c < 1. Congestion only slows traffic down: the travel time is
      never below the free-flow time at the speed limit. */
  function RecordAt(seg: RoadSegment, c: real): (r: TrafficRecord)
    requires seg.speed_limit > 0 && 0.0 <= c < 1.0
    ensures r.segment_id == seg.segment_id && r.free_flow_speed == seg.speed_limit
    ensures 0.0 <= r.congestion_level <= 1.0
    ensures 0 <= r.current_speed <= seg.speed_limit
    ensures 0.0 <= seg.length_km ==> 0.0 <= r.travel_time_minutes
    ensures 0.0 <= seg.length_km ==> r.travel_time_minutes >= Round1(TripMinutes(seg.length_km, seg.speed_limit as real))
  {
    var limit := seg.speed_limit as real;
    var speed := limit * (1.0 - c);
    ScaleWithin(limit, 1.0 - c);
    Round2Unit(c);
    RoundWithin(speed, seg.speed_limit);
    var minutes := TripMinutes(seg.length_km, speed);
    assert 0.0 <= seg.length_km ==> 0.0 <= Round1(minutes) && Round1(TripMinutes(seg.length_km, limit)) <= Round1(minutes) by {
      if 0.0 <= seg.length_km {
        Round1NonNegative(minutes);
        TripMinutesAntitone(seg.length_km, speed, limit);
        Round1Monotonic(TripMinutes(seg.length_km, limit), minutes);
      }
    }
    TrafficRecord(seg.segment_id, Round(speed), seg.speed_limit, Round2(c), Round1(minutes))
  }

  /** generateTrafficRecord: the record at the hour's sampled congestion. */
  function GenerateTrafficRecord(seg: RoadSegment, hour: Hour, variation: Draw): (r: TrafficRecord)
    requires seg.speed_limit > 0
    ensures r.segment_id == seg.segment_id && r.free_flow_speed == seg.speed_limit
    ensures 0.0 <= r.congestion_level <= 1.0
    ensures 0 <= r.current_speed <= seg.speed_limit
    ensures 0.0 <= seg.length_km ==> 0.0 <= r.travel_time_minutes
  {
    RecordAt(seg, CongestionSample(hour, variation))
  }

  /** In the evening rush hour every record is in the heavy band. */
  lemma EveningRushIsHeavy(seg: RoadSegment, hour: Hour, variation: Draw)
    requires seg.speed_limit > 0 && 17 <= hour <= 19
    ensures BandOf(GenerateTrafficRecord(seg, hour, variation).congestion_level) == Heavy
  {
    var c := CongestionSample(hour, variation);
    Round2Monotonic(0.7, c);
    assert Round(70.0) == 70;
  }

  /** At night every record is in the free or the light band. */
  lemma NightIsFreeOrLight(seg: RoadSegment, hour: Hour, variation: Draw)
    requires seg.speed_limit > 0 && (hour >= 22 || hour <= 5)
    ensures BandOf(GenerateTrafficRecord(seg, hour, variation).congestion_level) in {Free, Light}
  {
    var c := CongestionSample(hour, variation);
    Round2Monotonic(c, 0.25);
    assert Round(25.0) == 25;
  }

  const IncidentTypes: seq<string> := ["accident", "construction", "closure", "weather", "event"]
  const SeverityLevels: seq<int> := [1, 2, 3, 4, 5]

  /** Each incident type's own phrase list. */
  const DescriptionTable: map<string, seq<string>> := map[
    "accident" := ["Multi-vehicle collision", "Rear-end collision", "Sideswipe accident", "Single vehicle crash"],
    "construction" := ["Lane closure for maintenance", "Road construction ahead", "Bridge repair work", "Utility work"],
    "closure" := ["Road closure due to event", "Emergency road closure", "Police activity", "Special event closure"],
    "weather" := ["Heavy rain conditions", "Fog advisory", "High winds", "Flooding"],
    "event" := ["Sporting event traffic", "Concert venue traffic", "Festival traffic", "Parade route"]]

  lemma TypesHaveDescriptions()
    ensures forall t :: t in IncidentTypes ==> t in DescriptionTable && |DescriptionTable[t]| == 4
  {
  }

  /** The draws generateIncident makes, in order, and the uuid. */
  datatype IncidentDraws = IncidentDraws(kind: Draw, severity: Draw, description: Draw, position: Draw, duration: Draw, id: string)

  predicate Between(a: real, b: real, x: real)
  {
    (a <= x <= b) || (b <= x <= a)
  }

  /** The offset (b - a) * f, within [0, b - a] or [b - a, 0]. */
  function Offset(a: real, b: real, f: Draw): (d: real)
    ensures Between(a, b, a + d)
  {
    Scale(b - a, f)
  }

  /** [lat, lng] a fraction f of the way from start to end. */
  function Interpolate(start: Point, end: Point, f: Draw): (loc: seq<real>)
    ensures |loc| == 2
    ensures Between(start.lat, end.lat, loc[0]) && Between(start.lng, end.lng, loc[1])
  {
    [start.lat + Offset(start.lat, end.lat, f), start.lng + Offset(start.lng, end.lng, f)]
  }

  /** incidentTypes[Math.floor(Math.random() * incidentTypes.length)] */
  function PickKind(draw: Draw): (kind: string)
    ensures kind in IncidentTypes
  {
    PickInRange(draw, |IncidentTypes|);
    IncidentTypes[Floor(draw * |IncidentTypes| as real)]
  }

  /** severityLevels[Math.floor(Math.random() * severityLevels.length)] */
  function PickSeverity(draw: Draw): (severity: int)
    ensures 1 <= severity <= 5
  {
    PickInRange(draw, |SeverityLevels|);
    SeverityLevels[Floor(draw * |SeverityLevels| as real)]
  }

  /** A phrase drawn from the type's own list. */
  function PickDescription(kind: string, draw: Draw): (description: string)
    requires kind in IncidentTypes
    ensures kind in DescriptionTable && description in DescriptionTable[kind]
  {
    TypesHaveDescriptions();
    var phrases := DescriptionTable[kind];
    PickInRange(draw, |phrases|);
    phrases[Floor(draw * |phrases| as real)]
  }

  /** generateIncident: a typed, graded, described incident at a point
      between the segment's first two coordinates, lasting 30 to 150 minutes. */
  function GenerateIncident(seg: RoadSegment, timestamp: int, d: IncidentDraws): (inc: Incident)
    requires |seg.coordinates| >= 2
    ensures inc.kind in IncidentTypes
    ensures 1 <= inc.severity <= 5
    ensures inc.kind in DescriptionTable && inc.description in DescriptionTable[inc.kind]
    ensures inc.incident_id == d.id && inc.segment_id == Some(seg.segment_id)
    ensures inc.start_time == timestamp && inc.status == ActiveStatus
    ensures |inc.location| == 2
    ensures Between(seg.coordinates[0].lat, seg.coordinates[1].lat, inc.location[0])
    ensures Between(seg.coordinates[0].lng, seg.coordinates[1].lng, inc.location[1])
  {
    var kind := PickKind(d.kind);
    Incident(d.id, Some(seg.segment_id), kind, PickSeverity(d.severity), PickDescription(kind, d.description),
      Interpolate(seg.coordinates[0], seg.coordinates[1], d.position),
      timestamp, Trunc(timestamp as real + (30.0 + d.duration * 120.0) * MsPerMinute as real), ActiveStatus)
  }

  /** For a clock at or after the epoch an incident lasts at least 30 and
      less than 150 minutes. */
  lemma IncidentDuration(seg: RoadSegment, timestamp: int, d: IncidentDraws)
    requires |seg.coordinates| >= 2 && timestamp >= 0
    ensures var inc := GenerateIncident(seg, timestamp, d);
      30 * MsPerMinute <= inc.end_time - inc.start_time < 150 * MsPerMinute
  {
    var x := timestamp as real + (30.0 + d.duration * 120.0) * MsPerMinute as real;
    assert timestamp as real + 1800000.0 <= x < timestamp as real + 9000000.0;
  }

  /** The draws of one segment in generateTrafficData. */
  datatype SegmentDraws = SegmentDraws(variation: Draw, incidentRoll: Draw, incident: IncidentDraws)

  /** Each fixed segment qualifies for both generators. */
  predicate AllValid(segs: seq<RoadSegment>)
  {
    forall i :: 0 <= i < |segs| ==> ValidSegment(segs[i])
  }

  /** One record per segment, in segment order. */
  function BatchRecords(segs: seq<RoadSegment>, hour: Hour, draws: nat -> SegmentDraws): (rs: seq<TrafficRecord>)
    requires AllValid(segs)
    ensures |rs| == |segs|
    ensures forall i :: 0 <= i < |segs| ==> rs[i] == GenerateTrafficRecord(segs[i], hour, draws(i).variation)
    ensures forall i :: 0 <= i < |segs| ==> rs[i].segment_id == segs[i].segment_id
  {
    seq(|segs|, i requires 0 <= i < |segs| => GenerateTrafficRecord(segs[i], hour, draws(i).variation))
  }

  /** The incidents of the first n segments, in segment order. */
  function IncidentsUpTo(segs: seq<RoadSegment>, n: nat, timestamp: int, draws: nat -> SegmentDraws): (incs: seq<Incident>)
    requires AllValid(segs) && n <= |segs|
    ensures |incs| <= n
  {
    if n == 0 then []
    else
      IncidentsUpTo(segs, n - 1, timestamp, draws)
        + (if draws(n - 1).incidentRoll < 0.05 then [GenerateIncident(segs[n - 1], timestamp, draws(n - 1).incident)] else [])
  }

  /** At most one incident per segment. */
  function BatchIncidents(segs: seq<RoadSegment>, timestamp: int, draws: nat -> SegmentDraws): (incs: seq<Incident>)
    requires AllValid(segs)
    ensures |incs| <= |segs|
  {
    IncidentsUpTo(segs, |segs|, timestamp, draws)
  }

  /** An incident is among the first n segments' incidents exactly when it
      was drawn for one of those segments whose roll was below 0.05. */
  lemma {:induction false} IncidentsUpToMembers(segs: seq<RoadSegment>, n: nat, timestamp: int, draws: nat -> SegmentDraws)
    requires AllValid(segs) && n <= |segs|
    ensures forall x :: x in IncidentsUpTo(segs, n, timestamp, draws) <==>
      exists i :: 0 <= i < n && draws(i).incidentRoll < 0.05 && x == GenerateIncident(segs[i], timestamp, draws(i).incident)
  {
    if n > 0 {
      IncidentsUpToMembers(segs, n - 1, timestamp, draws);
    }
  }

  /** Every incident of a batch was drawn for a segment whose roll was
      below 0.05, and every such segment contributes its incident. */
  lemma BatchIncidentsMembers(segs: seq<RoadSegment>, timestamp: int, draws: nat -> SegmentDraws)
    requires AllValid(segs)
    ensures forall x :: x in BatchIncidents(segs, timestamp, draws) <==>
      exists i :: 0 <= i < |segs| && draws(i).incidentRoll < 0.05 && x == GenerateIncident(segs[i], timestamp, draws(i).incident)
  {
    IncidentsUpToMembers(segs, |segs|, timestamp, draws);
  }

  /** The records of the first n segments, in segment order. */
  function RecordsUpTo(segs: seq<RoadSegment>, n: nat, hour: Hour, draws: nat -> SegmentDraws): (rs: seq<TrafficRecord>)
    requires AllValid(segs) && n <= |segs|
    ensures |rs| == n
    ensures forall j :: 0 <= j < n ==> rs[j] == GenerateTrafficRecord(segs[j], hour, draws(j).variation)
  {
    if n == 0 then []
    else RecordsUpTo(segs, n - 1, hour, draws) + [GenerateTrafficRecord(segs[n - 1], hour, draws(n - 1).variation)]
  }

  /** The loop of generateTrafficData, before anything is stored. */
  method GenerateBatch(segs: seq<RoadSegment>, timestamp: int, hour: Hour, draws: nat -> SegmentDraws)
    returns (trafficData: seq<TrafficRecord>, incidents: seq<Incident>)
    requires AllValid(segs)
    ensures trafficData == BatchRecords(segs, hour, draws)
    ensures incidents == BatchIncidents(segs, timestamp, draws)
  {
    trafficData, incidents := [], [];
    var i := 0;
    while i < |segs|
      invariant 0 <= i <= |segs|
      invariant trafficData == RecordsUpTo(segs, i, hour, draws)
      invariant incidents == IncidentsUpTo(segs, i, timestamp, draws)
    {
      trafficData := trafficData + [GenerateTrafficRecord(segs[i], hour, draws(i).variation)];
      if draws(i).incidentRoll < 0.05 {
        incidents := incidents + [GenerateIncident(segs[i], timestamp, draws(i).incident)];
      }
      i := i + 1;
    }
    RecordsUpToAll(segs, hour, draws);
  }

  lemma RecordsUpToAll(segs: seq<RoadSegment>, hour: Hour, draws: nat -> SegmentDraws)
    requires AllValid(segs)
    ensures RecordsUpTo(segs, |segs|, hour, draws) == BatchRecords(segs, hour, draws)
  {
  }

  /** generateSummary; an average over an empty batch is NaN (0 / 0). */
  function GenerateSummary(batch: seq<TrafficRecord>): (s: Summary)
    ensures s.total_segments == |batch|
    ensures s.average_congestion.NaN? <==> batch == []
    ensures s.average_speed.NaN? <==> batch == []
  {
    var n := |batch| as real;
    Summary(
      |batch|,
      if batch == [] then NaN else Num(Round2(Sum(batch, Congestion) / n)),
      if batch == [] then NaN else Num(Round(Sum(batch, Speed) / n) as real),
      |Filter(batch, IsFree)|, |Filter(batch, IsLight)|, |Filter(batch, IsModerate)|, |Filter(batch, IsHeavy)|)
  }

  /** The four band counts partition the batch. */
  lemma SummaryBandsPartition(batch: seq<TrafficRecord>)
    ensures var s := GenerateSummary(batch);
      s.free + s.light + s.moderate + s.heavy == s.total_segments
  {
    BandsPartition(batch);
  }

  /** The averages of a non-empty batch stay within the records' bounds. */
  lemma SummaryAveragesBounded(batch: seq<TrafficRecord>, maxSpeed: int)
    requires batch != []
    requires forall i :: 0 <= i < |batch| ==> 0.0 <= batch[i].congestion_level <= 1.0
    requires forall i :: 0 <= i < |batch| ==> 0 <= batch[i].current_speed <= maxSpeed
    ensures var s := GenerateSummary(batch);
      && 0.0 <= s.average_congestion.value <= 1.0
      && 0.0 <= s.average_speed.value <= maxSpeed as real
  {
    var n := |batch| as real;
    MeanBounds(batch, Congestion, 0.0, 1.0);
    Round2Unit(Sum(batch, Congestion) / n);
    MeanBounds(batch, Speed, 0.0, maxSpeed as real);
    RoundWithin(Sum(batch, Speed) / n, maxSpeed);
  }

  /** A tick over the fixed segments summarises sixteen records whose
      average congestion is in [0, 1] and average speed in [0, 110]. */
  lemma TickSummaryBounded(hour: Hour, draws: nat -> SegmentDraws)
    ensures var s := GenerateSummary(BatchRecords(RoadSegments(), hour, draws));
      && s.total_segments == 16
      && 0.0 <= s.average_congestion.value <= 1.0
      && 0.0 <= s.average_speed.value <= 110.0
  {
    RoadSegmentsWellFormed();
    var segs := RoadSegments();
    var batch := BatchRecords(segs, hour, draws);
    forall i | 0 <= i < |batch| ensures 0 <= batch[i].current_speed <= 110 {
      assert batch[i] == GenerateTrafficRecord(segs[i], hour, draws(i).variation);
    }
    SummaryAveragesBounded(batch, 110);
  }

  /** What the callback receives; the ISO timestamp is the clock value. */
  datatype TickPayload = TickPayload(timestamp: int, traffic_data: seq<TrafficRecord>, incidents: seq<Incident>, summary: Summary)

  /** The batch a tick generates over the given segments. */
  function Tick(segs: seq<RoadSegment>, timestamp: int, hour: Hour, draws: nat -> SegmentDraws): (p: TickPayload)
    requires AllValid(segs)
    ensures p.timestamp == timestamp
    ensures |p.traffic_data| == |segs| && |p.incidents| <= |segs|
    ensures p.summary.total_segments == |segs|
  {
    var recs := BatchRecords(segs, hour, draws);
    TickPayload(timestamp, recs, BatchIncidents(segs, timestamp, draws), GenerateSummary(recs))
  }

  function Stamped(recs: seq<TrafficRecord>, at: int, firstId: nat): (s: seq<StoredTraffic>)
    ensures |s| == |recs|
    ensures forall i :: 0 <= i < |recs| ==> s[i] == StoredTraffic(recs[i], at, firstId + i)
  {
    seq(|recs|, i requires 0 <= i < |recs| => StoredTraffic(recs[i], at, firstId + i))
  }

  class Generator {
    const roadSegments: seq<RoadSegment>
    var isRunning: bool
    /** The setInterval handle, null while stopped. */
    var interval: Option<nat>
    /** Whether a callback was passed to start (its truthiness). */
    var callback: bool

    ghost predicate Valid()
      reads this
    {
      AllValid(roadSegments) && (isRunning <==> interval.Some?)
    }

    constructor ()
      ensures Valid() && roadSegments == RoadSegments()
      ensures !isRunning && interval == None && !callback
    {
      roadSegments := RoadSegments();
      isRunning, interval, callback := false, None, false;
    }

    /** generateTrafficData: stores the batch (records stamped by the
        store's clock) and hands the payload to the callback, if any. A
        store not yet initialised (null: `memoryStorage` is still undefined)
        makes every insert reject, so nothing is stored, while the payload
        is delivered all the same. */
    method GenerateTrafficData(db: MemoryStorage?, timestamp: int, hour: Hour, draws: nat -> SegmentDraws, storedAt: int)
      returns (payload: Option<TickPayload>)
      requires AllValid(roadSegments) && (db != null ==> db.Valid())
      modifies db
      ensures db != null ==> var tick := Tick(roadSegments, timestamp, hour, draws);
        && db.Valid()
        && db.trafficData == old(db.trafficData) + Stamped(tick.traffic_data, storedAt, |old(db.trafficData)| + 1)
        && db.trafficIncidents == old(db.trafficIncidents) + tick.incidents
        && db.roadSegments == old(db.roadSegments)
      ensures payload == (if callback then Some(Tick(roadSegments, timestamp, hour, draws)) else None)
    {
      var trafficData, incidents := GenerateBatch(roadSegments, timestamp, hour, draws);
      if db != null {
        StoreRecords(db, trafficData, storedAt);
        StoreIncidents(db, incidents);
      }
      if callback {
        payload := Some(Tick(roadSegments, timestamp, hour, draws));
      } else {
        payload := None;
      }
    }

    /** The forEach of generateTrafficData that inserts the records. */
    static method StoreRecords(db: MemoryStorage, trafficData: seq<TrafficRecord>, storedAt: int)
      requires db.Valid()
      modifies db
      ensures db.Valid()
      ensures db.trafficData == old(db.trafficData) + Stamped(trafficData, storedAt, |old(db.trafficData)| + 1)
      ensures db.roadSegments == old(db.roadSegments) && db.trafficIncidents == old(db.trafficIncidents)
    {
      ghost var before := db.trafficData;
      var i := 0;
      while i < |trafficData|
        invariant 0 <= i <= |trafficData|
        invariant db.Valid()
        invariant db.trafficData == before + Stamped(trafficData[..i], storedAt, |before| + 1)
        invariant db.roadSegments == old(db.roadSegments) && db.trafficIncidents == old(db.trafficIncidents)
      {
        db.InsertTrafficData(trafficData[i], storedAt);
        assert Stamped(trafficData[..i + 1], storedAt, |before| + 1)
            == Stamped(trafficData[..i], storedAt, |before| + 1) + [StoredTraffic(trafficData[i], storedAt, |before| + 1 + i)];
        i := i + 1;
      }
      assert trafficData[..i] == trafficData;
    }

    /** The forEach of generateTrafficData that inserts the incidents. */
    static method StoreIncidents(db: MemoryStorage, incidents: seq<Incident>)
      requires db.Valid()
      modifies db
      ensures db.Valid()
      ensures db.trafficIncidents == old(db.trafficIncidents) + incidents
      ensures db.roadSegments == old(db.roadSegments) && db.trafficData == old(db.trafficData)
    {
      var k := 0;
      while k < |incidents|
        invariant 0 <= k <= |incidents|
        invariant db.Valid()
        invariant db.trafficIncidents == old(db.trafficIncidents) + incidents[..k]
        invariant db.roadSegments == old(db.roadSegments) && db.trafficData == old(db.trafficData)
      {
        db.InsertTrafficIncident(incidents[k]);
        assert incidents[..k + 1] == incidents[..k] + [incidents[k]];
        k := k + 1;
      }
      assert incidents[..k] == incidents;
    }

    /** The forEach of start that inserts every segment. */
    method StoreSegments(db: MemoryStorage)
      modifies db
      ensures db.roadSegments == old(db.roadSegments) + roadSegments
      ensures db.trafficData == old(db.trafficData) && db.trafficIncidents == old(db.trafficIncidents)
    {
      var i := 0;
      while i < |roadSegments|
        invariant 0 <= i <= |roadSegments|
        invariant db.roadSegments == old(db.roadSegments) + roadSegments[..i]
        invariant db.trafficData == old(db.trafficData) && db.trafficIncidents == old(db.trafficIncidents)
      {
        db.InsertRoadSegment(roadSegments[i]);
        assert roadSegments[..i + 1] == roadSegments[..i] + [roadSegments[i]];
        i := i + 1;
      }
      assert roadSegments[..i] == roadSegments;
    }

    /** start: a no-op while running; otherwise stores the segments (again,
        without deduplication), runs one generation at once and keeps the
        timer handle. With the store not yet initialised (null) nothing is
        stored and only the payload remains. */
    method Start(cb: bool, db: MemoryStorage?, timestamp: int, hour: Hour, draws: nat -> SegmentDraws, storedAt: int, timer: nat)
      returns (payload: Option<TickPayload>)
      requires Valid() && (db != null ==> db.Valid())
      modifies this, db
      ensures Valid()
      ensures old(isRunning) ==>
        && payload == None && isRunning && interval == old(interval) && callback == old(callback)
        && (db != null ==> db.roadSegments == old(db.roadSegments) && db.trafficData == old(db.trafficData)
                           && db.trafficIncidents == old(db.trafficIncidents))
      ensures !old(isRunning) ==>
        && isRunning && interval == Some(timer) && callback == cb
        && payload == (if cb then Some(Tick(roadSegments, timestamp, hour, draws)) else None)
      ensures !old(isRunning) && db != null ==> Seeded(db, old(db.roadSegments), old(db.trafficData), old(db.trafficIncidents), timestamp, hour, draws, storedAt)
      ensures db != null ==> db.Valid()
    {
      if isRunning {
        return None;
      }
      payload := Launch(cb, db, timestamp, hour, draws, storedAt, timer);
    }

    /** What the store holds after start's inserts succeed: the segments
        appended, then the first batch and its incidents. */
    ghost predicate Seeded(db: MemoryStorage, segs0: seq<RoadSegment>, data0: seq<StoredTraffic>, incidents0: seq<Incident>,
                           timestamp: int, hour: Hour, draws: nat -> SegmentDraws, storedAt: int)
      requires AllValid(roadSegments)
      reads this, db
    {
      var tick := Tick(roadSegments, timestamp, hour, draws);
      && db.roadSegments == segs0 + roadSegments
      && db.trafficData == data0 + Stamped(tick.traffic_data, storedAt, |data0| + 1)
      && db.trafficIncidents == incidents0 + tick.incidents
    }

    /** The part of start that runs while stopped. */
    method Launch(cb: bool, db: MemoryStorage?, timestamp: int, hour: Hour, draws: nat -> SegmentDraws, storedAt: int, timer: nat)
      returns (payload: Option<TickPayload>)
      requires Valid() && (db != null ==> db.Valid()) && !isRunning
      modifies this, db
      ensures Valid()
      ensures isRunning && interval == Some(timer) && callback == cb
      ensures payload == (if cb then Some(Tick(roadSegments, timestamp, hour, draws)) else None)
      ensures db != null ==> db.Valid() && Seeded(db, old(db.roadSegments), old(db.trafficData), old(db.trafficIncidents), timestamp, hour, draws, storedAt)
    {
      isRunning, callback, interval := true, cb, Some(timer);
      payload := SeedAndGenerate(db, timestamp, hour, draws, storedAt);
    }

    /** The store calls of start: the segments, then the first batch; both
        reject when the store is not yet initialised (null). */
    method SeedAndGenerate(db: MemoryStorage?, timestamp: int, hour: Hour, draws: nat -> SegmentDraws, storedAt: int)
      returns (payload: Option<TickPayload>)
      requires AllValid(roadSegments) && (db != null ==> db.Valid())
      modifies db
      ensures payload == (if callback then Some(Tick(roadSegments, timestamp, hour, draws)) else None)
      ensures db != null ==> db.Valid() && Seeded(db, old(db.roadSegments), old(db.trafficData), old(db.trafficIncidents), timestamp, hour, draws, storedAt)
    {
      if db != null {
        StoreSegments(db);
      }
      payload := GenerateTrafficData(db, timestamp, hour, draws, storedAt);
    }

    /** stop: a no-op while stopped; otherwise not running and no timer. */
    method Stop()
      requires Valid()
      modifies this
      ensures Valid()
      ensures !isRunning && interval == None && callback == old(callback)
    {
      if !isRunning {
        return;
      }
      isRunning := false;
      if interval.Some? {
        interval := None;
      }
    }
  }
}
