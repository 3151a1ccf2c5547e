/** The websocket broadcaster: last-write-wins caches of traffic records
    (by segment) and incidents (by incident id), the set of connected
    clients, the replay of the caches to a newly connected client, and the
    analytics derived from each traffic update. Emitting is returned as a
    list of emissions; the socket library's delivery and rooms are not
    modelled. */
module WebSocketHandler {
  import opened Numeric
  import opened Seqs
  import opened Entities
  import opened OrderedMaps

  /** A connected socket, by identity. */
  type Socket = nat

  /** The object the generator's callback hands over; an absent incident
      list is None. */
  datatype Update = Update(timestamp: int, traffic_data: seq<TrafficRecord>, incidents: Option<seq<Incident>>, summary: Summary)

  datatype Recommendation = Recommendation(kind: string, priority: string, message: string, actions: seq<string>)

  const CongestionAlert: Recommendation := Recommendation("congestion_alert", "high",
    "High congestion detected. Consider alternative routes.", ["route_alternatives", "departure_delay"])
  const IncidentAlert: Recommendation := Recommendation("incident_alert", "critical",
    "Multiple heavy congestion areas detected.", ["incident_avoidance", "real_time_updates"])
  const Optimization: Recommendation := Recommendation("optimization", "medium",
    "Monitor traffic patterns for optimal route planning.", ["pattern_analysis", "predictive_routing"])

  datatype TypicalPatterns = TypicalPatterns(weekday_pattern: string, weekend_pattern: string, seasonal_variation: real)

  /** The object emitted to analytics subscribers. */
  datatype Analytics = Analytics(
    timestamp: int,
    real_time: Summary,
    hour: Hour,
    peak_congestion: real,
    typical_patterns: TypicalPatterns,
    next_hour_congestion: Number,
    recommendations: seq<Recommendation>)

  datatype Emission =
    | InitialTrafficData(timestamp: int, traffic_data: seq<TrafficRecord>, summary: Summary)
    | InitialIncidentData(timestamp: int, incidents: seq<Incident>)
    | TrafficUpdate(room: string, update: Update)
    | AnalyticsUpdate(room: string, analytics: Analytics)
    | IncidentUpdate(room: string, incidents: seq<Incident>)

  /** The handler's congestion table; it differs from the generator's and
      the database's. */
  function GetPeakCongestion(hour: int): (c: real)
    ensures 0.1 <= c <= 0.85
  {
    if 7 <= hour <= 9 then 0.8
    else if 17 <= hour <= 19 then 0.85
    else if 10 <= hour <= 16 then 0.4
    else if hour >= 22 || hour <= 5 then 0.1
    else 0.3
  }

  const PeakTable: seq<real> := [
    0.1, 0.1, 0.1, 0.1, 0.1, 0.1, 0.3, 0.8, 0.8, 0.8, 0.4, 0.4,
    0.4, 0.4, 0.4, 0.4, 0.4, 0.85, 0.85, 0.85, 0.3, 0.3, 0.1, 0.1]

  /** The table hour by hour; hour 24 (23 + 1, as the prediction asks for)
      takes the night value. */
  lemma PeakCongestionMatchesTable(hour: Hour)
    ensures GetPeakCongestion(hour) == PeakTable[hour]
    ensures GetPeakCongestion(hour + 1) == if hour == 23 then 0.1 else PeakTable[hour + 1]
  {
  }

  /** getTypicalPatterns, with its Math.random() as a parameter. */
  function GetTypicalPatterns(hour: Hour, seasonal: Draw): (p: TypicalPatterns)
    ensures p.weekday_pattern == "high" <==> (7 <= hour <= 9 || 17 <= hour <= 19)
    ensures p.weekday_pattern in {"high", "normal"}
    ensures p.weekend_pattern == "moderate" <==> 12 <= hour <= 20
    ensures p.weekend_pattern in {"moderate", "low"}
    ensures 0.0 <= p.seasonal_variation < 0.3
  {
    TypicalPatterns(
      if (7 <= hour <= 9) || (17 <= hour <= 19) then "high" else "normal",
      if 12 <= hour <= 20 then "moderate" else "low",
      seasonal * 0.3)
  }

  /** predictNextHourCongestion: halfway towards the next hour's table value
      plus noise in [-0.05, 0.05), clamped. NaN in, NaN out. */
  function PredictNextHourCongestion(current: Number, hour: Hour, noise: Draw): (r: Number)
    ensures r.NaN? <==> current.NaN?
    ensures r.Num? ==> 0.0 <= r.value <= 1.0
  {
    match current
    case NaN => NaN
    case Num(c) =>
      var base := GetPeakCongestion(hour + 1);
      Num(Clamp01(c + (base - c) * 0.5 + (noise - 0.5) * 0.1))
  }

  /** The prediction is the midpoint between the current level and the next
      hour's table value, moved by at most 0.05 and clamped to [0, 1]. */
  lemma PredictionNearMidpoint(c: real, hour: Hour, noise: Draw)
    ensures var mid := (c + GetPeakCongestion(hour + 1)) / 2.0;
      Clamp01(mid - 0.05) <= PredictNextHourCongestion(Num(c), hour, noise).value <= Clamp01(mid + 0.05)
  {
    var mid := (c + GetPeakCongestion(hour + 1)) / 2.0;
    var x := c + (GetPeakCongestion(hour + 1) - c) * 0.5 + (noise - 0.5) * 0.1;
    assert mid - 0.05 <= x < mid + 0.05;
  }

  /** generateRecommendations: the optimisation item always comes last, the
      two alerts come first and only when their thresholds are passed. A NaN
      average passes no threshold. */
  function GenerateRecommendations(s: Summary): (recs: seq<Recommendation>)
    ensures 1 <= |recs| <= 3
    ensures recs[|recs| - 1] == Optimization
    ensures CongestionAlert in recs <==> s.average_congestion.Num? && s.average_congestion.value > 0.7
    ensures IncidentAlert in recs <==> s.heavy as real > s.total_segments as real * 0.3
    ensures forall i :: 0 <= i < |recs| - 1 ==> recs[i] in {CongestionAlert, IncidentAlert}
  {
    (if s.average_congestion.Num? && s.average_congestion.value > 0.7 then [CongestionAlert] else [])
      + (if s.heavy as real > s.total_segments as real * 0.3 then [IncidentAlert] else [])
      + [Optimization]
  }

  /** generateSummary; an empty or missing batch gives all zeros. */
  function GenerateSummary(trafficData: Option<seq<TrafficRecord>>): (s: Summary)
    ensures trafficData.None? || trafficData.value == [] ==> s == Summary(0, Num(0.0), Num(0.0), 0, 0, 0, 0)
    ensures trafficData.Some? ==> s.total_segments == |trafficData.value|
    ensures s.free + s.light + s.moderate + s.heavy == s.total_segments
    ensures s.average_congestion.Num? && s.average_speed.Num?
  {
    match trafficData
    case None => Summary(0, Num(0.0), Num(0.0), 0, 0, 0, 0)
    case Some(batch) =>
      if batch == [] then Summary(0, Num(0.0), Num(0.0), 0, 0, 0, 0)
      else
        BandsPartition(batch);
        var n := |batch| as real;
        Summary(|batch|, Num(Round2(Sum(batch, Congestion) / n)), Num(Round(Sum(batch, Speed) / n) as real),
          |Filter(batch, IsFree)|, |Filter(batch, IsLight)|, |Filter(batch, IsModerate)|, |Filter(batch, IsHeavy)|)
  }

  /** The band counts are the records of each band, and the averages stay
      within the records' bounds. */
  lemma SummaryCountsAndBounds(batch: seq<TrafficRecord>, maxSpeed: int)
    requires forall i :: 0 <= i < |batch| ==> 0.0 <= batch[i].congestion_level <= 1.0
    requires forall i :: 0 <= i < |batch| ==> 0 <= batch[i].current_speed <= maxSpeed
    ensures var s := GenerateSummary(Some(batch));
      && s.free == |Filter(batch, IsFree)| && s.light == |Filter(batch, IsLight)|
      && s.moderate == |Filter(batch, IsModerate)| && s.heavy == |Filter(batch, IsHeavy)|
      && 0.0 <= s.average_congestion.value <= 1.0
      && 0.0 <= s.average_speed.value <= if batch == [] then 0.0 else maxSpeed as real
  {
    if batch != [] {
      var n := |batch| as real;
      MeanBounds(batch, Congestion, 0.0, 1.0);
      Round2Unit(Sum(batch, Congestion) / n);
      MeanBounds(batch, Speed, 0.0, maxSpeed as real);
      RoundWithin(Sum(batch, Speed) / n, maxSpeed);
    }
  }

  /** transformForAnalytics, with the local hour and its two Math.random()
      calls as parameters. */
  function TransformForAnalytics(u: Update, hour: Hour, seasonal: Draw, noise: Draw): (a: Analytics)
    ensures a.timestamp == u.timestamp && a.real_time == u.summary && a.hour == hour
    ensures a.peak_congestion == GetPeakCongestion(hour)
    ensures a.next_hour_congestion.NaN? <==> u.summary.average_congestion.NaN?
    ensures a.next_hour_congestion.Num? ==> 0.0 <= a.next_hour_congestion.value <= 1.0
    ensures a.recommendations == GenerateRecommendations(u.summary)
  {
    Analytics(u.timestamp, u.summary, hour, GetPeakCongestion(hour), GetTypicalPatterns(hour, seasonal),
      PredictNextHourCongestion(u.summary.average_congestion, hour, noise), GenerateRecommendations(u.summary))
  }

  predicate IsInitialTraffic(e: Emission) { e.InitialTrafficData? }
  predicate IsInitialIncidents(e: Emission) { e.InitialIncidentData? }

  /** sendInitialData: one emission per non-empty cache, each carrying the
      cache's full contents in insertion order. */
  function InitialData(traffic: OMap<string, TrafficRecord>, incidents: OMap<string, Incident>, now: int): (es: seq<Emission>)
    requires traffic.Valid() && incidents.Valid()
    ensures Any(es, IsInitialTraffic) <==> traffic.Size() > 0
    ensures Any(es, IsInitialIncidents) <==> incidents.Size() > 0
    ensures forall e :: e in es && e.InitialTrafficData? ==>
      e.traffic_data == Values(traffic) && e.summary == GenerateSummary(Some(Values(traffic))) && e.timestamp == now
    ensures forall e :: e in es && e.InitialIncidentData? ==> e.incidents == Values(incidents) && e.timestamp == now
    ensures forall e :: e in es ==> e.InitialTrafficData? || e.InitialIncidentData?
  {
    var trafficData := Values(traffic);
    (if traffic.Size() > 0 then [InitialTrafficData(now, trafficData, GenerateSummary(Some(trafficData)))] else [])
      + (if incidents.Size() > 0 then [InitialIncidentData(now, Values(incidents))] else [])
  }

  /** Every cached record and every cached incident reaches the new client. */
  lemma InitialDataReplaysCaches(traffic: OMap<string, TrafficRecord>, incidents: OMap<string, Incident>, now: int)
    requires traffic.Valid() && incidents.Valid()
    ensures forall k :: k in traffic.vals ==> exists e :: e in InitialData(traffic, incidents, now) && e.InitialTrafficData? && traffic.vals[k] in e.traffic_data
    ensures forall k :: k in incidents.vals ==> exists e :: e in InitialData(traffic, incidents, now) && e.InitialIncidentData? && incidents.vals[k] in e.incidents
  {
    ValuesAreContents(traffic);
    ValuesAreContents(incidents);
    var es := InitialData(traffic, incidents, now);
    forall k | k in traffic.vals
      ensures exists e :: e in es && e.InitialTrafficData? && traffic.vals[k] in e.traffic_data
    {
      SizeIsCardinality(traffic);
      assert es[0].InitialTrafficData?;
    }
    forall k | k in incidents.vals
      ensures exists e :: e in es && e.InitialIncidentData? && incidents.vals[k] in e.incidents
    {
      SizeIsCardinality(incidents);
      assert es[|es| - 1].InitialIncidentData?;
    }
  }

  class Handler {
    var connectedClients: set<Socket>
    var trafficDataCache: OMap<string, TrafficRecord>
    var incidentDataCache: OMap<string, Incident>

    ghost predicate Valid()
      reads this
    {
      trafficDataCache.Valid() && incidentDataCache.Valid()
    }

    constructor ()
      ensures Valid()
      ensures connectedClients == {} && trafficDataCache == Empty() && incidentDataCache == Empty()
    {
      connectedClients := {};
      trafficDataCache, incidentDataCache := Empty(), Empty();
    }

    /** The connection handler: register the socket and replay the caches to it. */
    method Connect(socket: Socket, now: int) returns (emitted: seq<Emission>)
      requires Valid()
      modifies this
      ensures Valid()
      ensures connectedClients == old(connectedClients) + {socket}
      ensures trafficDataCache == old(trafficDataCache) && incidentDataCache == old(incidentDataCache)
      ensures emitted == InitialData(trafficDataCache, incidentDataCache, now)
    {
      connectedClients := connectedClients + {socket};
      emitted := InitialData(trafficDataCache, incidentDataCache, now);
    }

    /** The disconnect handler. */
    method Disconnect(socket: Socket)
      requires Valid()
      modifies this
      ensures Valid()
      ensures connectedClients == old(connectedClients) - {socket}
      ensures trafficDataCache == old(trafficDataCache) && incidentDataCache == old(incidentDataCache)
    {
      connectedClients := connectedClients - {socket};
    }

    /** The incidents forEach shared by both broadcasts. */
    method CacheIncidents(incidents: seq<Incident>)
      requires Valid()
      modifies this
      ensures Valid()
      ensures incidentDataCache == Upsert(old(incidentDataCache), incidents, IncidentKey)
      ensures trafficDataCache == old(trafficDataCache) && connectedClients == old(connectedClients)
    {
      var i := 0;
      while i < |incidents|
        invariant 0 <= i <= |incidents|
        invariant Valid()
        invariant incidentDataCache == Upsert(old(incidentDataCache), incidents[..i], IncidentKey)
        invariant trafficDataCache == old(trafficDataCache) && connectedClients == old(connectedClients)
      {
        assert incidents[..i + 1][..i] == incidents[..i];
        incidentDataCache := Put(incidentDataCache, incidents[i].incident_id, incidents[i]);
        i := i + 1;
      }
      assert incidents[..i] == incidents;
    }

    /** The trafficData forEach of broadcastTrafficUpdate. */
    method CacheTraffic(batch: seq<TrafficRecord>)
      requires Valid()
      modifies this
      ensures Valid()
      ensures trafficDataCache == Upsert(old(trafficDataCache), batch, SegmentKey)
      ensures incidentDataCache == old(incidentDataCache) && connectedClients == old(connectedClients)
    {
      var i := 0;
      while i < |batch|
        invariant 0 <= i <= |batch|
        invariant Valid()
        invariant trafficDataCache == Upsert(old(trafficDataCache), batch[..i], SegmentKey)
        invariant incidentDataCache == old(incidentDataCache) && connectedClients == old(connectedClients)
      {
        assert batch[..i + 1][..i] == batch[..i];
        trafficDataCache := Put(trafficDataCache, batch[i].segment_id, batch[i]);
        i := i + 1;
      }
      assert batch[..i] == batch;
    }

    /** broadcastTrafficUpdate: fold the records into the traffic cache, the
        incidents (when present) into the incident cache, then emit the
        update and its analytics. */
    method BroadcastTrafficUpdate(u: Update, hour: Hour, seasonal: Draw, noise: Draw) returns (emitted: seq<Emission>)
      requires Valid()
      modifies this
      ensures Valid()
      ensures trafficDataCache == Upsert(old(trafficDataCache), u.traffic_data, SegmentKey)
      ensures incidentDataCache == if u.incidents.Some? then Upsert(old(incidentDataCache), u.incidents.value, IncidentKey)
                                   else old(incidentDataCache)
      ensures connectedClients == old(connectedClients)
      ensures emitted == [TrafficUpdate("traffic-updates", u), AnalyticsUpdate("analytics-updates", TransformForAnalytics(u, hour, seasonal, noise))]
    {
      CacheTraffic(u.traffic_data);
      if u.incidents.Some? {
        CacheIncidents(u.incidents.value);
      }
      emitted := [TrafficUpdate("traffic-updates", u), AnalyticsUpdate("analytics-updates", TransformForAnalytics(u, hour, seasonal, noise))];
    }

    /** broadcastIncidentUpdate. */
    method BroadcastIncidentUpdate(incidents: seq<Incident>) returns (emitted: seq<Emission>)
      requires Valid()
      modifies this
      ensures Valid()
      ensures incidentDataCache == Upsert(old(incidentDataCache), incidents, IncidentKey)
      ensures trafficDataCache == old(trafficDataCache) && connectedClients == old(connectedClients)
      ensures emitted == [IncidentUpdate("incident-updates", incidents)]
    {
      CacheIncidents(incidents);
      emitted := [IncidentUpdate("incident-updates", incidents)];
    }
  }
}
