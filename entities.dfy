/** The records the services exchange: road segments, traffic samples,
    incidents and the summary of a batch, with the congestion bands
    (free < 0.2 <= light < 0.4 <= moderate < 0.7 <= heavy) that every
    summary and the map client share. */
module Entities {
  import opened Numeric
  import opened Seqs

  datatype Point = Point(lat: real, lng: real)

  /** A road segment. The source's `type` field is called `kind` here. */
  datatype RoadSegment = RoadSegment(
    segment_id: string,
    name: string,
    kind: string,
    length_km: real,
    speed_limit: int,
    coordinates: seq<Point>)

  /** What the segments table promises: positive length and speed limit,
      and a first and a second coordinate to interpolate between. */
  predicate ValidSegment(s: RoadSegment)
  {
    s.length_km > 0.0 && s.speed_limit > 0 && |s.coordinates| >= 2
  }

  /** A traffic sample of one segment. */
  datatype TrafficRecord = TrafficRecord(
    segment_id: string,
    current_speed: int,
    free_flow_speed: int,
    congestion_level: real,
    travel_time_minutes: real)

  /** A traffic incident; times are milliseconds since the epoch and a
      missing (null) segment is None. */
  datatype Incident = Incident(
    incident_id: string,
    segment_id: Option<string>,
    kind: string,
    severity: int,
    description: string,
    location: seq<real>,
    start_time: int,
    end_time: int,
    status: string)

  const ActiveStatus: string := "active"

  function SegmentKey(r: TrafficRecord): string { r.segment_id }
  function IncidentKey(i: Incident): string { i.incident_id }

  /** The summary object; an average over an empty batch is NaN. */
  datatype Summary = Summary(
    total_segments: nat,
    average_congestion: Number,
    average_speed: Number,
    free: nat,
    light: nat,
    moderate: nat,
    heavy: nat)

  /** The four filters of the summaries, written as the sources write them. */
  predicate IsFree(r: TrafficRecord) { r.congestion_level < 0.2 }
  predicate IsLight(r: TrafficRecord) { r.congestion_level >= 0.2 && r.congestion_level < 0.4 }
  predicate IsModerate(r: TrafficRecord) { r.congestion_level >= 0.4 && r.congestion_level < 0.7 }
  predicate IsHeavy(r: TrafficRecord) { r.congestion_level >= 0.7 }

  function Congestion(r: TrafficRecord): real { r.congestion_level }
  function Speed(r: TrafficRecord): real { r.current_speed as real }

  /** The congestion band a level falls in. */
  datatype Band = Free | Light | Moderate | Heavy

  function BandOf(c: real): (b: Band)
    ensures b == Free <==> c < 0.2
    ensures b == Light <==> 0.2 <= c < 0.4
    ensures b == Moderate <==> 0.4 <= c < 0.7
    ensures b == Heavy <==> 0.7 <= c
  {
    if c < 0.2 then Free else if c < 0.4 then Light else if c < 0.7 then Moderate else Heavy
  }

  /** Each record passes exactly one of the four filters: the one of its band. */
  lemma FiltersAreBands(r: TrafficRecord)
    ensures IsFree(r) <==> BandOf(r.congestion_level) == Free
    ensures IsLight(r) <==> BandOf(r.congestion_level) == Light
    ensures IsModerate(r) <==> BandOf(r.congestion_level) == Moderate
    ensures IsHeavy(r) <==> BandOf(r.congestion_level) == Heavy
  {
  }

  /** The four band counts partition the batch. */
  lemma {:induction false} BandsPartition(s: seq<TrafficRecord>)
    ensures |Filter(s, IsFree)| + |Filter(s, IsLight)| + |Filter(s, IsModerate)| + |Filter(s, IsHeavy)| == |s|
  {
    if s != [] {
      BandsPartition(s[1..]);
    }
  }
}
