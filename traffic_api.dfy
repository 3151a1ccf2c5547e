/** The /api/traffic endpoints over the in-memory store: filter chains and
    maps over what the store returns, the summary without an empty-input
    guard, and the incident report that validates and stores. */
module TrafficApi {
  import opened Numeric
  import opened Seqs
  import opened Entities
  import opened OrderedMaps
  import opened Http
  import opened Database
  import TG = TrafficGenerator

  /** The query of GET /incidents. A severity given but not a number
      parses to NaN, written Some(None), which equals no severity. */
  datatype IncidentQuery = IncidentQuery(active: Option<string>, kind: Option<string>, severity: Option<Option<int>>)

  predicate KindOk(q: IncidentQuery, i: Incident) { !Present(q.kind) || i.kind == q.kind.value }
  predicate SeverityOk(q: IncidentQuery, i: Incident) { q.severity.None? || q.severity.value == Some(i.severity) }
  predicate ActiveOk(q: IncidentQuery, i: Incident) { q.active != Some("true") || i.status == ActiveStatus }

  /** The incidents filter chain: each filter applies only when its
      parameter is given. */
  function FilterIncidents(incidents: seq<Incident>, q: IncidentQuery): (r: seq<Incident>)
    ensures |r| <= |incidents|
    ensures !Present(q.kind) && q.severity.None? && q.active != Some("true") ==> r == incidents
  {
    var byKind := if Present(q.kind) then Filter(incidents, (i: Incident) => i.kind == q.kind.value) else incidents;
    var bySeverity := if q.severity.Some? then Filter(byKind, (i: Incident) => q.severity.value == Some(i.severity)) else byKind;
    if q.active == Some("true") then Filter(bySeverity, (i: Incident) => i.status == ActiveStatus) else bySeverity
  }

  /** The result keeps exactly the incidents matching every given filter,
      every copy of each, in their order. */
  lemma FilterIncidentsSelects(incidents: seq<Incident>, q: IncidentQuery)
    ensures Subseq(FilterIncidents(incidents, q), incidents)
    ensures forall x :: x in FilterIncidents(incidents, q) <==>
      x in incidents && KindOk(q, x) && SeverityOk(q, x) && ActiveOk(q, x)
    ensures forall x :: multiset(FilterIncidents(incidents, q))[x]
                     == if KindOk(q, x) && SeverityOk(q, x) && ActiveOk(q, x) then multiset(incidents)[x] else 0
  {
    var byKind := if Present(q.kind) then Filter(incidents, (i: Incident) => i.kind == q.kind.value) else incidents;
    var bySeverity := if q.severity.Some? then Filter(byKind, (i: Incident) => q.severity.value == Some(i.severity)) else byKind;
    var r := FilterIncidents(incidents, q);
    if Present(q.kind) {
      FilterIsSubseq(incidents, (i: Incident) => i.kind == q.kind.value);
    } else {
      SubseqRefl(incidents);
    }
    if q.severity.Some? {
      FilterIsSubseq(byKind, (i: Incident) => q.severity.value == Some(i.severity));
      SubseqTransitive(bySeverity, byKind, incidents);
    }
    if q.active == Some("true") {
      FilterIsSubseq(bySeverity, (i: Incident) => i.status == ActiveStatus);
      SubseqTransitive(r, bySeverity, incidents);
    }
    FilterIncidentsCounts(incidents, q);
  }

  lemma FilterIncidentsCounts(incidents: seq<Incident>, q: IncidentQuery)
    ensures forall x :: multiset(FilterIncidents(incidents, q))[x]
                     == if KindOk(q, x) && SeverityOk(q, x) && ActiveOk(q, x) then multiset(incidents)[x] else 0
  {
    var byKind := if Present(q.kind) then Filter(incidents, (i: Incident) => i.kind == q.kind.value) else incidents;
    var bySeverity := if q.severity.Some? then Filter(byKind, (i: Incident) => q.severity.value == Some(i.severity)) else byKind;
    if Present(q.kind) {
      FilterCounts(incidents, (i: Incident) => i.kind == q.kind.value);
    }
    assert forall x :: multiset(byKind)[x] == if KindOk(q, x) then multiset(incidents)[x] else 0;
    if q.severity.Some? {
      FilterCounts(byKind, (i: Incident) => q.severity.value == Some(i.severity));
    }
    assert forall x :: multiset(bySeverity)[x] == if KindOk(q, x) && SeverityOk(q, x) then multiset(incidents)[x] else 0;
    if q.active == Some("true") {
      FilterCounts(bySeverity, (i: Incident) => i.status == ActiveStatus);
    }
  }

  /** The input is the store's active incidents, so `active=true` changes
      nothing: filtering on it is idempotent. */
  lemma ActiveFilterIdempotent(db: MemoryStorage, q: IncidentQuery)
    ensures FilterIncidents(db.GetActiveIncidents(), q)
         == FilterIncidents(db.GetActiveIncidents(), IncidentQuery(None, q.kind, q.severity))
  {
    var active := db.GetActiveIncidents();
    var rest := FilterIncidents(active, IncidentQuery(None, q.kind, q.severity));
    FilterIncidentsSelects(active, IncidentQuery(None, q.kind, q.severity));
    FilterAllKept(rest, (i: Incident) => i.status == ActiveStatus);
  }

  /** GET /segments: the `type` filter, order and duplicates preserved. */
  function FilterSegments(segs: seq<RoadSegment>, kind: Option<string>): (r: seq<RoadSegment>)
    ensures Subseq(r, segs)
    ensures forall s :: s in r <==> s in segs && (!Present(kind) || s.kind == kind.value)
    ensures forall s :: multiset(r)[s] == if !Present(kind) || s.kind == kind.value then multiset(segs)[s] else 0
  {
    if Present(kind) then
      FilterIsSubseq(segs, (s: RoadSegment) => s.kind == kind.value);
      FilterCounts(segs, (s: RoadSegment) => s.kind == kind.value);
      Filter(segs, (s: RoadSegment) => s.kind == kind.value)
    else
      SubseqRefl(segs);
      segs
  }

  /** GET /summary: the generator's summary without the rounding and, as
      there, with no guard against an empty store. */
  function TrafficSummary(records: seq<TrafficRecord>): (s: Summary)
    ensures s.total_segments == |records|
    ensures s.free + s.light + s.moderate + s.heavy == |records|
    ensures s.free == |Filter(records, IsFree)| && s.light == |Filter(records, IsLight)|
    ensures s.moderate == |Filter(records, IsModerate)| && s.heavy == |Filter(records, IsHeavy)|
    ensures s.average_congestion.NaN? <==> records == []
    ensures s.average_speed.NaN? <==> records == []
  {
    BandsPartition(records);
    var n := |records| as real;
    Summary(|records|,
      if records == [] then NaN else Num(Sum(records, Congestion) / n),
      if records == [] then NaN else Num(Sum(records, Speed) / n),
      |Filter(records, IsFree)|, |Filter(records, IsLight)|, |Filter(records, IsModerate)|, |Filter(records, IsHeavy)|)
  }

  /** The generator's summary is this one with the averages rounded. */
  lemma SummaryIsUnroundedGeneratorSummary(records: seq<TrafficRecord>)
    requires records != []
    ensures var s, g := TrafficSummary(records), TG.GenerateSummary(records);
      && g.average_congestion == Num(Round2(s.average_congestion.value))
      && g.average_speed == Num(Round(s.average_speed.value) as real)
      && g.free == s.free && g.light == s.light && g.moderate == s.moderate && g.heavy == s.heavy
  {
  }

  datatype HeatPoint = HeatPoint(
    segment_id: string, name: string, coordinates: seq<Point>,
    congestion_level: real, current_speed: int, free_flow_speed: int, intensity: real)

  /** The first segment with the id, as `segments.find` returns it. */
  predicate FirstWithId(segs: seq<RoadSegment>, id: string, k: int)
  {
    0 <= k < |segs| && segs[k].segment_id == id && forall j :: 0 <= j < k ==> segs[j].segment_id != id
  }

  function SegmentOf(segs: seq<RoadSegment>, id: string): (r: Option<RoadSegment>)
    ensures r.Some? ==> exists k :: FirstWithId(segs, id, k) && segs[k] == r.value
    ensures r.None? ==> forall s :: s in segs ==> s.segment_id != id
  {
    Find(segs, (s: RoadSegment) => s.segment_id == id)
  }

  function HeatPointOf(segs: seq<RoadSegment>, r: TrafficRecord): HeatPoint
  {
    match SegmentOf(segs, r.segment_id)
    case Some(s) => HeatPoint(r.segment_id, s.name, s.coordinates, r.congestion_level, r.current_speed, r.free_flow_speed, r.congestion_level)
    case None => HeatPoint(r.segment_id, r.segment_id, [], r.congestion_level, r.current_speed, r.free_flow_speed, r.congestion_level)
  }

  /** GET /heatmap: one point per record, in record order, intensity equal
      to congestion, and a missing segment's name and coordinates falling
      back to the id and []. */
  function Heatmap(segs: seq<RoadSegment>, records: seq<TrafficRecord>): (pts: seq<HeatPoint>)
    ensures |pts| == |records|
    ensures forall i :: 0 <= i < |records| ==>
      && pts[i].segment_id == records[i].segment_id
      && pts[i].intensity == records[i].congestion_level == pts[i].congestion_level
      && pts[i].current_speed == records[i].current_speed && pts[i].free_flow_speed == records[i].free_flow_speed
      && ((exists s :: s in segs && s.segment_id == records[i].segment_id) ==>
             exists k :: FirstWithId(segs, records[i].segment_id, k) && pts[i].name == segs[k].name && pts[i].coordinates == segs[k].coordinates)
      && ((forall s :: s in segs ==> s.segment_id != records[i].segment_id) ==>
             pts[i].name == records[i].segment_id && pts[i].coordinates == [])
  {
    seq(|records|, i requires 0 <= i < |records| => HeatPointOf(segs, records[i]))
  }

  function Records(stored: seq<StoredTraffic>): (r: seq<TrafficRecord>)
    ensures |r| == |stored| && forall i :: 0 <= i < |stored| ==> r[i] == stored[i].data
  {
    seq(|stored|, i requires 0 <= i < |stored| => stored[i].data)
  }

  /** GET /realtime: the latest record of each requested segment, or of every
      stored segment when none is requested (`segments` absent or empty).
      `requested` is `segments.split(',')` when the query is a non-empty
      string, so `Some([])` does not occur; the model accepts it anyway and
      then finds nothing. */
  method Realtime(db: MemoryStorage, requested: Option<seq<string>>) returns (data: seq<StoredTraffic>)
    ensures var ids := if requested.Some? then requested.value else TG.SegmentIds(db.roadSegments);
      && data == Values(LatestBySegment(db.trafficData, ids))
      && forall x :: x in data ==> x.data.segment_id in ids
  {
    var segmentIds := if requested.Some? then requested.value else TG.SegmentIds(db.roadSegments);
    data := db.GetLatestTrafficData(segmentIds);
  }

  /** GET /summary over the latest record of every stored segment. */
  method SummaryEndpoint(db: MemoryStorage) returns (s: Summary)
    ensures s == TrafficSummary(Records(Values(LatestBySegment(db.trafficData, TG.SegmentIds(db.roadSegments)))))
    ensures s.total_segments == |Values(LatestBySegment(db.trafficData, TG.SegmentIds(db.roadSegments)))|
    ensures s.total_segments == 0 ==> s.average_congestion.NaN? && s.average_speed.NaN?
    ensures s.free + s.light + s.moderate + s.heavy == s.total_segments
  {
    var latest := db.GetLatestTrafficData(TG.SegmentIds(db.roadSegments));
    s := TrafficSummary(Records(latest));
  }

  /** GET /heatmap over the latest record of every stored segment. */
  method HeatmapEndpoint(db: MemoryStorage) returns (pts: seq<HeatPoint>)
    ensures pts == Heatmap(db.roadSegments, Records(Values(LatestBySegment(db.trafficData, TG.SegmentIds(db.roadSegments)))))
    ensures |pts| == |Values(LatestBySegment(db.trafficData, TG.SegmentIds(db.roadSegments)))|
  {
    var latest := db.GetLatestTrafficData(TG.SegmentIds(db.roadSegments));
    pts := Heatmap(db.roadSegments, Records(latest));
  }

  /** GET /historical: both dates are required; in memory mode the rows are
      the sample analytics from the start date to the end date, each as
      `new Date` parses it (`parse`, in milliseconds, None for an Invalid
      Date), and the requested segments play no part. */
  method Historical(startDate: Option<string>, endDate: Option<string>, aggregation: Option<string>, parse: string -> Option<int>,
                    variation: (int, int) -> Draw, volume: (int, int) -> Draw)
    returns (r: Reply<(seq<AnalyticsRow>, string)>)
    ensures r.BadRequest? <==> !Present(startDate) || !Present(endDate)
    ensures r.BadRequest? ==> r.error == "start_date and end_date are required"
    ensures r.Ok? ==>
      var start, end := parse(startDate.value), parse(endDate.value);
      && r.body.0 == (if start.Some? && end.Some? then SampleAnalytics(start.value, end.value, variation, volume) else [])
      && |r.body.0| == (if start.Some? && end.Some? then 24 * SampleDays(start.value, end.value) else 0)
      && r.body.1 == if Present(aggregation) then aggregation.value else "hourly"
  {
    if !Present(startDate) || !Present(endDate) {
      r := BadRequest("start_date and end_date are required");
    } else {
      var rows := GenerateSampleAnalytics(parse(startDate.value), parse(endDate.value), variation, volume);
      r := Ok((rows, if Present(aggregation) then aggregation.value else "hourly"));
    }
  }

  /** The body of POST /incidents. A severity of 0 or none is falsy; a
      location array is truthy even when empty. */
  datatype IncidentReport = IncidentReport(
    kind: Option<string>, severity: Option<int>, description: Option<string>,
    location: Option<seq<real>>, segment_id: Option<string>)

  predicate Complete(b: IncidentReport)
  {
    Present(b.kind) && b.severity.Some? && b.severity.value != 0 && Present(b.description) && b.location.Some?
  }

  /** Two hours, as 2 * 60 * 60 * 1000. */
  const ReportDuration: int := 7200000

  /** The incident a complete report becomes at time `now`, under the new id. */
  function ReportedIncident(b: IncidentReport, id: string, now: int): (inc: Incident)
    requires Complete(b)
    ensures inc.status == ActiveStatus && inc.end_time == inc.start_time + 2 * MsPerHour
    ensures inc.segment_id == if Present(b.segment_id) then b.segment_id else None
  {
    Incident(id, if Present(b.segment_id) then b.segment_id else None, b.kind.value, b.severity.value,
      b.description.value, b.location.value, now, now + ReportDuration, ActiveStatus)
  }

  /** POST /incidents: an incomplete report is refused and nothing stored;
      a complete one is appended to the store as an active incident. */
  method ReportIncident(db: MemoryStorage, b: IncidentReport, id: string, now: int) returns (r: Reply<Incident>)
    requires db.Valid()
    modifies db
    ensures db.Valid()
    ensures r.BadRequest? <==> !Complete(b)
    ensures r.BadRequest? ==> r.error == "Missing required fields" && db.trafficIncidents == old(db.trafficIncidents)
    ensures r.Ok? ==>
      && Complete(b) && r.body == ReportedIncident(b, id, now)
      && db.trafficIncidents == old(db.trafficIncidents) + [r.body]
    ensures db.roadSegments == old(db.roadSegments) && db.trafficData == old(db.trafficData)
  {
    if !Complete(b) {
      r := BadRequest("Missing required fields");
    } else {
      var incident := ReportedIncident(b, id, now);
      db.InsertTrafficIncident(incident);
      r := Ok(incident);
    }
  }

  /** A reported incident is among the active incidents afterwards. */
  lemma ReportedIncidentIsActive(b: IncidentReport, id: string, now: int, stored: seq<Incident>)
    requires Complete(b)
    ensures ReportedIncident(b, id, now) in Filter(stored + [ReportedIncident(b, id, now)], IsActive)
  {
    var inc := ReportedIncident(b, id, now);
    assert inc in stored + [inc];
  }
}
