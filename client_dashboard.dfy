/** The browser dashboard: it keeps the latest record of every segment and
    every incident it has heard of in two Maps, counts the live traffic
    updates since the last refresh, and colours each segment by the same
    congestion bands the server's summaries use. */
module ClientDashboard {
  import opened Numeric
  import opened Seqs
  import opened Entities
  import opened OrderedMaps

  /** The `{ class, label }` pair shown for a congestion level. */
  datatype Status = Status(cls: string, caption: string)

  /** getCongestionStatus: < 0.2 free, < 0.4 light, < 0.7 moderate, else heavy. */
  function GetCongestionStatus(c: real): (s: Status)
    ensures s.cls == "free" <==> c < 0.2
    ensures s.cls == "light" <==> 0.2 <= c < 0.4
    ensures s.cls == "moderate" <==> 0.4 <= c < 0.7
    ensures s.cls == "heavy" <==> 0.7 <= c
    ensures s.cls == "free" <==> s.caption == "Free Flow"
    ensures s.cls == "heavy" <==> s.caption == "Heavy"
  {
    if c < 0.2 then Status("free", "Free Flow")
    else if c < 0.4 then Status("light", "Light")
    else if c < 0.7 then Status("moderate", "Moderate")
    else Status("heavy", "Heavy")
  }

  /** getCongestionColor: green, amber, red or purple, by the same thresholds. */
  function GetCongestionColor(c: real): (colour: string)
    ensures colour == "#10b981" <==> c < 0.2
    ensures colour == "#f59e0b" <==> 0.2 <= c < 0.4
    ensures colour == "#ef4444" <==> 0.4 <= c < 0.7
    ensures colour == "#8b5cf6" <==> 0.7 <= c
  {
    if c < 0.2 then "#10b981"
    else if c < 0.4 then "#f59e0b"
    else if c < 0.7 then "#ef4444"
    else "#8b5cf6"
  }

  /** The status a record is shown with is the band the server's summary
      counts it in. */
  lemma StatusMatchesSummaryBands(r: TrafficRecord)
    ensures GetCongestionStatus(r.congestion_level).cls == "free" <==> IsFree(r)
    ensures GetCongestionStatus(r.congestion_level).cls == "light" <==> IsLight(r)
    ensures GetCongestionStatus(r.congestion_level).cls == "moderate" <==> IsModerate(r)
    ensures GetCongestionStatus(r.congestion_level).cls == "heavy" <==> IsHeavy(r)
  {
  }

  /** Two levels get the same colour exactly when they get the same status. */
  lemma ColourFollowsStatus(c1: real, c2: real)
    ensures GetCongestionColor(c1) == GetCongestionColor(c2) <==> GetCongestionStatus(c1) == GetCongestionStatus(c2)
  {
    var b1, b2 := BandOf(c1), BandOf(c2);
    assert GetCongestionColor(c1) == GetCongestionColor(c2) <==> b1 == b2;
    assert GetCongestionStatus(c1) == GetCongestionStatus(c2) <==> b1 == b2;
  }

  /** The polyline weight, Math.max(3, Math.min(8, c * 10)). */
  function LayerWeight(c: real): (w: real)
    ensures 3.0 <= w <= 8.0
    ensures 0.3 <= c <= 0.8 ==> w == c * 10.0
    ensures c < 0.3 ==> w == 3.0
    ensures c > 0.8 ==> w == 8.0
  {
    var capped := if 8.0 < c * 10.0 then 8.0 else c * 10.0;
    if 3.0 < capped then capped else 3.0
  }

  /** A more congested segment is drawn at least as thick. */
  lemma LayerWeightMonotonic(c1: real, c2: real)
    requires c1 <= c2
    ensures LayerWeight(c1) <= LayerWeight(c2)
  {
    assert c1 * 10.0 <= c2 * 10.0;
  }

  /** The three averages the bottom panel writes when it has traffic. */
  datatype PanelAverages = PanelAverages(total_segments: nat, congestion_percent: int, speed_kmh: int)

  /** What updateBottomPanel writes: the averages only over a non-empty
      traffic map (otherwise those fields keep their old text), and always
      the incident count and the update counter. */
  datatype BottomPanel = BottomPanel(averages: Option<PanelAverages>, active_incidents: nat, data_updates: nat)

  function UpdateBottomPanel(traffic: OMap<string, TrafficRecord>, incidents: OMap<string, Incident>, count: nat): (p: BottomPanel)
    requires traffic.Valid() && incidents.Valid()
    ensures p.averages.Some? <==> traffic.Size() > 0
    ensures p.averages.Some? ==> p.averages.value.total_segments == traffic.Size()
    ensures p.active_incidents == incidents.Size() && p.data_updates == count
  {
    var records := Values(traffic);
    if |records| > 0 then
      var n := |records| as real;
      var avgCongestion := Sum(records, Congestion) / n;
      var avgSpeed := Sum(records, Speed) / n;
      BottomPanel(Some(PanelAverages(|records|, Round(avgCongestion * 100.0), Round(avgSpeed))), incidents.Size(), count)
    else
      BottomPanel(None, incidents.Size(), count)
  }

  /** With every shown congestion level in [0, 1] and every speed between 0
      and a limit, the panel shows a percentage in [0, 100] and an average
      speed between 0 and that limit. */
  lemma PanelAveragesBounded(traffic: OMap<string, TrafficRecord>, incidents: OMap<string, Incident>, count: nat, maxSpeed: nat)
    requires traffic.Valid() && incidents.Valid()
    requires forall k :: k in traffic.vals ==> 0.0 <= traffic.vals[k].congestion_level <= 1.0
    requires forall k :: k in traffic.vals ==> 0 <= traffic.vals[k].current_speed <= maxSpeed
    ensures var p := UpdateBottomPanel(traffic, incidents, count);
      p.averages.Some? ==>
        && 0 <= p.averages.value.congestion_percent <= 100
        && 0 <= p.averages.value.speed_kmh <= maxSpeed
  {
    var records := Values(traffic);
    if |records| > 0 {
      forall i | 0 <= i < |records|
        ensures 0.0 <= Congestion(records[i]) <= 1.0
        ensures 0.0 <= Speed(records[i]) <= maxSpeed as real
      {
        assert traffic.keys[i] in traffic.vals;
      }
      MeanBounds(records, Congestion, 0.0, 1.0);
      MeanBounds(records, Speed, 0.0, maxSpeed as real);
      var n := |records| as real;
      RoundWithin(Sum(records, Congestion) / n * 100.0, 100);
      RoundWithin(Sum(records, Speed) / n, maxSpeed);
    }
  }

  /** An upsert never drops a key nor moves an old one, so the maps of the
      dashboard only grow. */
  lemma UpdatesNeverShrink<V>(m: OMap<string, V>, batch: seq<V>, key: V -> string)
    requires m.Valid()
    ensures m.vals.Keys <= Upsert(m, batch, key).vals.Keys
    ensures m.keys <= Upsert(m, batch, key).keys
    ensures m.Size() <= Upsert(m, batch, key).Size()
  {
    UpsertKeySet(m, batch, key);
    if batch != [] {
      var k := key(batch[0]);
      UpsertContents(m, batch, key, k);
    } else {
      assert Upsert(m, batch, key) == m;
    }
  }

  /** updateTrafficData keeps, for a segment, the last record of the batch
      carrying its id, and leaves a segment the batch does not mention as it
      was. */
  lemma LastRecordWins(m: OMap<string, TrafficRecord>, batch: seq<TrafficRecord>, k: string, i: nat)
    requires m.Valid() && i < |batch| && batch[i].segment_id == k
    requires forall j :: i < j < |batch| ==> batch[j].segment_id != k
    ensures k in Upsert(m, batch, SegmentKey).vals && Upsert(m, batch, SegmentKey).vals[k] == batch[i]
  {
    UpsertContents(m, batch, SegmentKey, k);
    var last := LastWithKey(batch, SegmentKey, k);
    var j :| 0 <= j < |batch| && batch[j] == last.value && SegmentKey(batch[j]) == k
             && forall l :: j < l < |batch| ==> SegmentKey(batch[l]) != k;
    assert j == i;
  }

  lemma UntouchedSegmentKept(m: OMap<string, TrafficRecord>, batch: seq<TrafficRecord>, k: string)
    requires m.Valid() && k in m.vals
    requires forall j :: 0 <= j < |batch| ==> batch[j].segment_id != k
    ensures k in Upsert(m, batch, SegmentKey).vals && Upsert(m, batch, SegmentKey).vals[k] == m.vals[k]
  {
    UpsertContents(m, batch, SegmentKey, k);
  }

  /** The key of the client's segments Map, built as
      `new Map(data.map(s => [s.segment_id, s]))`. */
  function RoadSegmentKey(s: RoadSegment): string { s.segment_id }

  /** The name renderTrafficList shows for a record once the segments Map
      exists: the segment's name when the Map knows the id, the id itself
      otherwise. */
  function NameShown(segments: OMap<string, RoadSegment>, rec: TrafficRecord): string
  {
    if rec.segment_id in segments.vals then segments.vals[rec.segment_id].name else rec.segment_id
  }

  /** renderTrafficList over the map's records, reduced to the names it
      shows. An empty traffic map returns before any lookup; with records
      but the segments Map still undefined, the first lookup throws (None). */
  function TrafficListNames(segments: Option<OMap<string, RoadSegment>>, records: seq<TrafficRecord>): (r: Option<seq<string>>)
    ensures r.None? <==> segments.None? && records != []
    ensures r.Some? ==> |r.value| == |records|
    ensures r.Some? && segments.Some? ==>
      forall i :: 0 <= i < |records| ==> r.value[i] == NameShown(segments.value, records[i])
  {
    if records == [] then Some([])
    else if segments.None? then None
    else Some(seq(|records|, i requires 0 <= i < |records| => NameShown(segments.value, records[i])))
  }

  /** renderTrafficList with its lookup guarded: a segments Map that is not
      there yet is treated like a Map that does not know the segment, so the
      record is shown under its own id. It never throws, and it shows what
      the unguarded list shows wherever that one does not throw. */
  function GuardedTrafficListNames(segments: Option<OMap<string, RoadSegment>>, records: seq<TrafficRecord>): (r: seq<string>)
    ensures |r| == |records|
    ensures TrafficListNames(segments, records).Some? ==> r == TrafficListNames(segments, records).value
    ensures segments.None? ==> forall i :: 0 <= i < |records| ==> r[i] == records[i].segment_id
  {
    seq(|records|, i requires 0 <= i < |records| =>
      if segments.Some? then NameShown(segments.value, records[i]) else records[i].segment_id)
  }

  /** What a handler that runs renderTrafficList and then updateBottomPanel
      leaves on the panel: nothing when the render throws, which happens
      exactly when there are records but no segments Map; the new panel
      otherwise. */
  function Redraw(segments: Option<OMap<string, RoadSegment>>, traffic: OMap<string, TrafficRecord>,
                  incidents: OMap<string, Incident>, count: nat): (p: Option<BottomPanel>)
    requires traffic.Valid() && incidents.Valid()
    ensures p.None? <==> segments.None? && traffic.Size() > 0
    ensures p.Some? ==> p.value == UpdateBottomPanel(traffic, incidents, count)
  {
    if TrafficListNames(segments, Values(traffic)).None? then None
    else Some(UpdateBottomPanel(traffic, incidents, count))
  }

  /** The dashboard object. Each socket handler and each step of the initial
      load runs to completion as one turn of the browser's event loop; the
      three steps of a load are separate turns, so socket events can run
      between them. */
  class TrafficMonitoringSystem {
    var trafficData: OMap<string, TrafficRecord>
    var incidents: OMap<string, Incident>
    var dataUpdateCount: nat
    /** this.roadSegments: undefined (None) until /api/traffic/segments
        answers successfully; the constructor does not set it. */
    var roadSegments: Option<OMap<string, RoadSegment>>

    ghost predicate Valid()
      reads this
    {
      trafficData.Valid() && incidents.Valid() && (roadSegments.Some? ==> roadSegments.value.Valid())
    }

    constructor ()
      ensures Valid()
      ensures trafficData == Empty() && incidents == Empty() && dataUpdateCount == 0 && roadSegments.None?
    {
      trafficData, incidents := Empty(), Empty();
      dataUpdateCount := 0;
      roadSegments := None;
    }

    /** updateTrafficData: set each record under its segment id, in order. */
    method UpdateTrafficData(batch: seq<TrafficRecord>)
      requires Valid()
      modifies this
      ensures Valid()
      ensures trafficData == Upsert(old(trafficData), batch, SegmentKey)
      ensures incidents == old(incidents) && dataUpdateCount == old(dataUpdateCount) && roadSegments == old(roadSegments)
    {
      var i := 0;
      while i < |batch|
        invariant 0 <= i <= |batch|
        invariant Valid()
        invariant trafficData == Upsert(old(trafficData), batch[..i], SegmentKey)
        invariant incidents == old(incidents) && dataUpdateCount == old(dataUpdateCount) && roadSegments == old(roadSegments)
      {
        assert batch[..i + 1][..i] == batch[..i];
        trafficData := Put(trafficData, batch[i].segment_id, batch[i]);
        i := i + 1;
      }
      assert batch[..i] == batch;
    }

    /** updateIncidents: set each incident under its id, in order. */
    method UpdateIncidents(batch: seq<Incident>)
      requires Valid()
      modifies this
      ensures Valid()
      ensures incidents == Upsert(old(incidents), batch, IncidentKey)
      ensures trafficData == old(trafficData) && dataUpdateCount == old(dataUpdateCount) && roadSegments == old(roadSegments)
    {
      var i := 0;
      while i < |batch|
        invariant 0 <= i <= |batch|
        invariant Valid()
        invariant incidents == Upsert(old(incidents), batch[..i], IncidentKey)
        invariant trafficData == old(trafficData) && dataUpdateCount == old(dataUpdateCount) && roadSegments == old(roadSegments)
      {
        assert batch[..i + 1][..i] == batch[..i];
        incidents := Put(incidents, batch[i].incident_id, batch[i]);
        i := i + 1;
      }
      assert batch[..i] == batch;
    }

    /** The 'traffic-update' handler: count the update, fold the records in,
        then render. With records but no segments Map yet, renderTrafficList
        throws out of the handler (None): the counter and the records are
        already updated, but the panel is not redrawn. */
    method HandleTrafficUpdate(batch: seq<TrafficRecord>) returns (panel: Option<BottomPanel>)
      requires Valid()
      modifies this
      ensures Valid()
      ensures dataUpdateCount == old(dataUpdateCount) + 1
      ensures trafficData == Upsert(old(trafficData), batch, SegmentKey)
      ensures incidents == old(incidents) && roadSegments == old(roadSegments)
      ensures panel == Redraw(roadSegments, trafficData, incidents, dataUpdateCount)
    {
      dataUpdateCount := dataUpdateCount + 1;
      UpdateTrafficData(batch);
      panel := Redraw(roadSegments, trafficData, incidents, dataUpdateCount);
    }

    /** The 'incident-update' handler: renderIncidentsList does no lookup,
        so the panel is always redrawn. */
    method HandleIncidentUpdate(batch: seq<Incident>) returns (panel: BottomPanel)
      requires Valid()
      modifies this
      ensures Valid()
      ensures dataUpdateCount == old(dataUpdateCount)
      ensures incidents == Upsert(old(incidents), batch, IncidentKey)
      ensures trafficData == old(trafficData) && roadSegments == old(roadSegments)
      ensures panel == UpdateBottomPanel(trafficData, incidents, dataUpdateCount)
    {
      UpdateIncidents(batch);
      panel := UpdateBottomPanel(trafficData, incidents, dataUpdateCount);
    }

    /** The 'initial-traffic-data' handler: like a live update, but not
        counted, and throwing in the same case. */
    method HandleInitialTrafficData(batch: seq<TrafficRecord>) returns (panel: Option<BottomPanel>)
      requires Valid()
      modifies this
      ensures Valid()
      ensures dataUpdateCount == old(dataUpdateCount)
      ensures trafficData == Upsert(old(trafficData), batch, SegmentKey)
      ensures incidents == old(incidents) && roadSegments == old(roadSegments)
      ensures panel == Redraw(roadSegments, trafficData, incidents, dataUpdateCount)
    {
      UpdateTrafficData(batch);
      panel := Redraw(roadSegments, trafficData, incidents, dataUpdateCount);
    }

    /** The 'initial-incident-data' handler. */
    method HandleInitialIncidentData(batch: seq<Incident>) returns (panel: BottomPanel)
      requires Valid()
      modifies this
      ensures Valid()
      ensures dataUpdateCount == old(dataUpdateCount)
      ensures incidents == Upsert(old(incidents), batch, IncidentKey)
      ensures trafficData == old(trafficData) && roadSegments == old(roadSegments)
      ensures panel == UpdateBottomPanel(trafficData, incidents, dataUpdateCount)
    {
      UpdateIncidents(batch);
      panel := UpdateBottomPanel(trafficData, incidents, dataUpdateCount);
    }

    /** The first step of loadInitialData, once /api/traffic/segments has
        answered: a successful response (Some) replaces the segments Map; a
        failed one leaves it as it was, undefined on the first load. */
    method ReceiveSegments(segments: Option<seq<RoadSegment>>)
      requires Valid()
      modifies this
      ensures Valid()
      ensures segments.Some? ==> roadSegments == Some(Upsert(Empty(), segments.value, RoadSegmentKey))
      ensures segments.None? ==> roadSegments == old(roadSegments)
      ensures trafficData == old(trafficData) && incidents == old(incidents) && dataUpdateCount == old(dataUpdateCount)
    {
      if segments.Some? {
        roadSegments := Some(Upsert(Empty(), segments.value, RoadSegmentKey));
      }
    }

    /** The second step, once /api/traffic/realtime has answered: a
        successful response is folded into the traffic map. */
    method ReceiveRealtime(traffic: Option<seq<TrafficRecord>>)
      requires Valid()
      modifies this
      ensures Valid()
      ensures traffic.Some? ==> trafficData == Upsert(old(trafficData), traffic.value, SegmentKey)
      ensures traffic.None? ==> trafficData == old(trafficData)
      ensures incidents == old(incidents) && dataUpdateCount == old(dataUpdateCount) && roadSegments == old(roadSegments)
    {
      if traffic.Some? {
        UpdateTrafficData(traffic.value);
      }
    }

    /** The last step, once /api/traffic/incidents has answered: a successful
        response is folded in, then both lists are rendered and the panel
        redrawn. A throwing renderTrafficList is caught by loadInitialData
        and the panel is not redrawn (None). */
    method ReceiveIncidents(incidentList: Option<seq<Incident>>) returns (panel: Option<BottomPanel>)
      requires Valid()
      modifies this
      ensures Valid()
      ensures incidentList.Some? ==> incidents == Upsert(old(incidents), incidentList.value, IncidentKey)
      ensures incidentList.None? ==> incidents == old(incidents)
      ensures trafficData == old(trafficData) && dataUpdateCount == old(dataUpdateCount) && roadSegments == old(roadSegments)
      ensures panel == Redraw(roadSegments, trafficData, incidents, dataUpdateCount)
    {
      if incidentList.Some? {
        UpdateIncidents(incidentList.value);
      }
      panel := Redraw(roadSegments, trafficData, incidents, dataUpdateCount);
    }

    /** loadInitialData when no socket event runs between its three steps. */
    method LoadInitialData(segments: Option<seq<RoadSegment>>, traffic: Option<seq<TrafficRecord>>,
                           incidentList: Option<seq<Incident>>) returns (panel: Option<BottomPanel>)
      requires Valid()
      modifies this
      ensures Valid()
      ensures dataUpdateCount == old(dataUpdateCount)
      ensures segments.Some? ==> roadSegments == Some(Upsert(Empty(), segments.value, RoadSegmentKey))
      ensures segments.None? ==> roadSegments == old(roadSegments)
      ensures traffic.Some? ==> trafficData == Upsert(old(trafficData), traffic.value, SegmentKey)
      ensures traffic.None? ==> trafficData == old(trafficData)
      ensures incidentList.Some? ==> incidents == Upsert(old(incidents), incidentList.value, IncidentKey)
      ensures incidentList.None? ==> incidents == old(incidents)
      ensures panel == Redraw(roadSegments, trafficData, incidents, dataUpdateCount)
    {
      ReceiveSegments(segments);
      ReceiveRealtime(traffic);
      panel := ReceiveIncidents(incidentList);
    }

    /** refreshData: reset the counter and start a reload without awaiting
        it. Nothing else changes now; the reload's steps (ReceiveSegments,
        ReceiveRealtime, ReceiveIncidents) run later, and socket updates
        that arrive in between raise the counter and fold in their records
        first. The maps are never cleared. */
    method RefreshData()
      requires Valid()
      modifies this
      ensures Valid()
      ensures dataUpdateCount == 0
      ensures trafficData == old(trafficData) && incidents == old(incidents) && roadSegments == old(roadSegments)
    {
      dataUpdateCount := 0;
    }
  }

  /** init awaits the socket's set-up before it fetches the segments, and on
      connection the server replays a non-empty cache at once. A replay that
      lands before /api/traffic/segments has answered finds the segments Map
      undefined: the records are kept, but renderTrafficList throws and the
      panel is not redrawn. */
  method ReplayBeforeSegments(batch: seq<TrafficRecord>) returns (sys: TrafficMonitoringSystem, panel: Option<BottomPanel>)
    requires batch != []
    ensures sys.Valid() && sys.roadSegments.None? && sys.dataUpdateCount == 0
    ensures sys.trafficData == Upsert(Empty(), batch, SegmentKey)
    ensures panel.None?
  {
    sys := new TrafficMonitoringSystem();
    panel := sys.HandleInitialTrafficData(batch);
    UpsertKeySet(Empty<string, TrafficRecord>(), batch, SegmentKey);
    assert batch[0] in batch;
    assert batch[0].segment_id in sys.trafficData.vals.Keys;
    assert batch[0].segment_id in sys.trafficData.keys;
  }
}
