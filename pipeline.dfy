/** The composition made by the server: the generator is started with a
    callback that hands every payload to the websocket handler's
    broadcastTrafficUpdate. */
module Pipeline {
  import opened Numeric
  import opened Entities
  import opened OrderedMaps
  import opened Database
  import TG = TrafficGenerator
  import WS = WebSocketHandler
  import TrafficApi

  /** The payload as the handler reads it: the incident list is always present. */
  function ToUpdate(p: TG.TickPayload): (u: WS.Update)
    ensures u.traffic_data == p.traffic_data && u.incidents == Some(p.incidents)
    ensures u.timestamp == p.timestamp && u.summary == p.summary
  {
    WS.Update(p.timestamp, p.traffic_data, Some(p.incidents), p.summary)
  }

  /** What the handler reads from its own clock and Math.random() while
      transforming an update for analytics. */
  datatype HandlerDraws = HandlerDraws(hour: Hour, seasonal: Draw, noise: Draw)

  /** The callback: broadcast the payload, if the generator produced one. */
  method Deliver(handler: WS.Handler, payload: Option<TG.TickPayload>, hd: HandlerDraws) returns (emitted: seq<WS.Emission>)
    requires handler.Valid()
    modifies handler
    ensures handler.Valid()
    ensures payload.None? ==>
      && emitted == []
      && handler.trafficDataCache == old(handler.trafficDataCache)
      && handler.incidentDataCache == old(handler.incidentDataCache)
    ensures payload.Some? ==>
      && handler.trafficDataCache == Upsert(old(handler.trafficDataCache), payload.value.traffic_data, SegmentKey)
      && handler.incidentDataCache == Upsert(old(handler.incidentDataCache), payload.value.incidents, IncidentKey)
      && |emitted| == 2
    ensures handler.connectedClients == old(handler.connectedClients)
  {
    if payload.Some? {
      emitted := handler.BroadcastTrafficUpdate(ToUpdate(payload.value), hd.hour, hd.seasonal, hd.noise);
    } else {
      emitted := [];
    }
  }

  /** trafficGenerator.start(payload => websocketHandler.broadcastTrafficUpdate(payload)),
      as the server runs it: synchronously while the database is still
      connecting, so the in-memory store does not exist yet (null) and
      every insert of start rejects. Only the caches receive the first batch. */
  method Boot(gen: TG.Generator, handler: WS.Handler, timestamp: int, hour: Hour,
              draws: nat -> TG.SegmentDraws, storedAt: int, timer: nat, hd: HandlerDraws)
    returns (emitted: seq<WS.Emission>)
    requires gen.Valid() && !gen.isRunning && handler.Valid()
    modifies gen, handler
    ensures gen.Valid() && gen.isRunning && gen.callback && handler.Valid()
    ensures var tick := TG.Tick(gen.roadSegments, timestamp, hour, draws);
      && handler.trafficDataCache == Upsert(old(handler.trafficDataCache), tick.traffic_data, SegmentKey)
      && handler.incidentDataCache == Upsert(old(handler.incidentDataCache), tick.incidents, IncidentKey)
      && |emitted| == 2
  {
    var payload := gen.Start(true, null, timestamp, hour, draws, storedAt, timer);
    emitted := Deliver(handler, payload, hd);
  }

  /** The boot the server evidently intends: start runs once the store
      exists, so the segments and the first batch are stored as well as
      broadcast. */
  method BootSeeded(gen: TG.Generator, handler: WS.Handler, db: MemoryStorage, timestamp: int, hour: Hour,
                    draws: nat -> TG.SegmentDraws, storedAt: int, timer: nat, hd: HandlerDraws)
    returns (emitted: seq<WS.Emission>)
    requires gen.Valid() && !gen.isRunning && handler.Valid() && db.Valid()
    modifies gen, handler, db
    ensures gen.Valid() && gen.isRunning && gen.callback && handler.Valid() && db.Valid()
    ensures var tick := TG.Tick(gen.roadSegments, timestamp, hour, draws);
      && handler.trafficDataCache == Upsert(old(handler.trafficDataCache), tick.traffic_data, SegmentKey)
      && handler.incidentDataCache == Upsert(old(handler.incidentDataCache), tick.incidents, IncidentKey)
      && db.roadSegments == old(db.roadSegments) + gen.roadSegments
      && db.trafficData == old(db.trafficData) + TG.Stamped(tick.traffic_data, storedAt, |old(db.trafficData)| + 1)
      && db.trafficIncidents == old(db.trafficIncidents) + tick.incidents
  {
    var payload := gen.Start(true, db, timestamp, hour, draws, storedAt, timer);
    emitted := Deliver(handler, payload, hd);
  }

  /** One firing of the interval timer while the generator is running; by
      then the store exists, and the segment table is left as it is. */
  method TimerTick(gen: TG.Generator, handler: WS.Handler, db: MemoryStorage, timestamp: int, hour: Hour,
                   draws: nat -> TG.SegmentDraws, storedAt: int, hd: HandlerDraws)
    returns (emitted: seq<WS.Emission>)
    requires gen.Valid() && gen.isRunning && gen.callback && handler.Valid() && db.Valid()
    modifies handler, db
    ensures handler.Valid() && db.Valid()
    ensures var tick := TG.Tick(gen.roadSegments, timestamp, hour, draws);
      && handler.trafficDataCache == Upsert(old(handler.trafficDataCache), tick.traffic_data, SegmentKey)
      && handler.incidentDataCache == Upsert(old(handler.incidentDataCache), tick.incidents, IncidentKey)
      && db.trafficData == old(db.trafficData) + TG.Stamped(tick.traffic_data, storedAt, |old(db.trafficData)| + 1)
      && db.trafficIncidents == old(db.trafficIncidents) + tick.incidents
      && db.roadSegments == old(db.roadSegments)
      && |emitted| == 2
  {
    var payload := gen.GenerateTrafficData(db, timestamp, hour, draws, storedAt);
    emitted := Deliver(handler, payload, hd);
  }

  /** As the server boots, the store comes up with an empty segment table
      and no tick adds to it, so a latest-per-segment lookup over the stored
      segments finds nothing whatever traffic has been stored: GET /realtime
      without a segment list answers [], and GET /summary counts no
      segment, with NaN averages. */
  lemma UnseededStoreServesNoSegment(data: seq<StoredTraffic>)
    ensures Values(LatestBySegment(data, TG.SegmentIds([]))) == []
    ensures var s := TrafficApi.TrafficSummary(TrafficApi.Records(Values(LatestBySegment(data, TG.SegmentIds([])))));
      s.total_segments == 0 && s.average_congestion.NaN? && s.average_speed.NaN?
  {
    var m := LatestBySegment(data, TG.SegmentIds([]));
    if m.keys != [] {
      LatestBySegmentKeys(data, TG.SegmentIds([]), m.keys[0]);
      assert false;
    }
  }

  /** With the intended boot on a fresh store, the same lookup finds the
      first record of each of the sixteen segments. */
  lemma SeededStoreServesEverySegment(hour: Hour, draws: nat -> TG.SegmentDraws, storedAt: int)
    ensures var segs := TG.RoadSegments();
      var m := LatestBySegment(TG.Stamped(TG.BatchRecords(segs, hour, draws), storedAt, 1), TG.SegmentIds(segs));
      && m.Size() == 16
      && forall i :: 0 <= i < 16 ==> segs[i].segment_id in m.vals && m.vals[segs[i].segment_id].data == TG.BatchRecords(segs, hour, draws)[i]
  {
    var segs := TG.RoadSegments();
    var batch := TG.BatchRecords(segs, hour, draws);
    var data := TG.Stamped(batch, storedAt, 1);
    var ids := TG.SegmentIds(segs);
    var m := LatestBySegment(data, ids);
    TG.RoadSegmentsWellFormed();
    forall k ensures k in m.vals <==> k in IdSet(segs) {
      LatestBySegmentKeys(data, ids, k);
      if k in IdSet(segs) {
        var i :| 0 <= i < |segs| && segs[i].segment_id == k;
        assert ids[i] == k && data[i].data.segment_id == k;
      }
      if k in ids {
        var i :| 0 <= i < |ids| && ids[i] == k;
        assert k == segs[i].segment_id;
      }
    }
    assert m.vals.Keys == IdSet(segs);
    SizeIsCardinality(m);
    DistinctIdsCard(segs);
    forall i | 0 <= i < 16
      ensures segs[i].segment_id in m.vals && m.vals[segs[i].segment_id].data == batch[i]
    {
      var k := segs[i].segment_id;
      assert k in IdSet(segs);
      LatestBySegmentSpec(data, ids, k);
      var j :| 0 <= j < |data| && data[j] == m.vals[k] && data[j].data.segment_id == k && FirstLatest(data, j);
      assert segs[j].segment_id == k;
      assert j == i;
    }
  }

  predicate DistinctIds(segs: seq<RoadSegment>)
  {
    forall i, j :: 0 <= i < j < |segs| ==> segs[i].segment_id != segs[j].segment_id
  }

  function IdSet(segs: seq<RoadSegment>): set<string>
  {
    set i | 0 <= i < |segs| :: segs[i].segment_id
  }

  lemma BatchKeysAreIds(segs: seq<RoadSegment>, batch: seq<TrafficRecord>)
    requires |batch| == |segs|
    requires forall i :: 0 <= i < |segs| ==> batch[i].segment_id == segs[i].segment_id
    ensures (set x | x in batch :: SegmentKey(x)) == IdSet(segs)
  {
    forall x | x in batch ensures SegmentKey(x) in IdSet(segs) {
      var i :| 0 <= i < |batch| && batch[i] == x;
      assert SegmentKey(x) == segs[i].segment_id;
    }
    forall i | 0 <= i < |segs| ensures segs[i].segment_id in set x | x in batch :: SegmentKey(x) {
      assert batch[i] in batch;
    }
  }

  /** A batch carrying the segments' ids, in order, adds exactly those ids
      to the cache's keys and, when the ids are distinct, stores each record
      under its segment's id. */
  lemma RefreshByIds(cache: OMap<string, TrafficRecord>, segs: seq<RoadSegment>, batch: seq<TrafficRecord>)
    requires cache.Valid() && |batch| == |segs|
    requires forall i :: 0 <= i < |segs| ==> batch[i].segment_id == segs[i].segment_id
    ensures Upsert(cache, batch, SegmentKey).vals.Keys == cache.vals.Keys + IdSet(segs)
    ensures DistinctIds(segs) ==> forall i :: 0 <= i < |segs| ==>
      segs[i].segment_id in Upsert(cache, batch, SegmentKey).vals
      && Upsert(cache, batch, SegmentKey).vals[segs[i].segment_id] == batch[i]
  {
    UpsertKeySet(cache, batch, SegmentKey);
    BatchKeysAreIds(segs, batch);
    if DistinctIds(segs) {
      forall i | 0 <= i < |segs|
        ensures segs[i].segment_id in Upsert(cache, batch, SegmentKey).vals
        ensures Upsert(cache, batch, SegmentKey).vals[segs[i].segment_id] == batch[i]
      {
        UpsertDistinctKeys(cache, batch, SegmentKey, i);
      }
    }
  }

  /** After a batch over segments with distinct ids the traffic cache holds,
      for every segment, exactly the record generated for it in that batch,
      and its key set has grown by exactly the segments' ids. */
  lemma BatchRefreshesEverySegment(cache: OMap<string, TrafficRecord>, segs: seq<RoadSegment>, hour: Hour, draws: nat -> TG.SegmentDraws)
    requires cache.Valid() && TG.AllValid(segs) && DistinctIds(segs)
    ensures var after := Upsert(cache, TG.BatchRecords(segs, hour, draws), SegmentKey);
      && after.vals.Keys == cache.vals.Keys + IdSet(segs)
      && forall i :: 0 <= i < |segs| ==>
           segs[i].segment_id in after.vals
           && after.vals[segs[i].segment_id] == TG.GenerateTrafficRecord(segs[i], hour, draws(i).variation)
  {
    RefreshByIds(cache, segs, TG.BatchRecords(segs, hour, draws));
  }

  /** Starting from an empty cache, the first tick leaves exactly the
      sixteen segment ids as keys, each holding that segment's new record. */
  lemma FirstTickCachesSixteenSegments(hour: Hour, draws: nat -> TG.SegmentDraws)
    ensures var segs := TG.RoadSegments();
      var after := Upsert(Empty<string, TrafficRecord>(), TG.BatchRecords(segs, hour, draws), SegmentKey);
      && after.Size() == 16 && after.vals.Keys == IdSet(segs)
      && forall i :: 0 <= i < 16 ==> after.vals[segs[i].segment_id] == TG.GenerateTrafficRecord(segs[i], hour, draws(i).variation)
  {
    TG.RoadSegmentsWellFormed();
    FirstBatchFillsCache(TG.RoadSegments(), hour, draws);
  }

  /** From an empty cache, one batch over distinct segments leaves one key
      per segment. */
  lemma FirstBatchFillsCache(segs: seq<RoadSegment>, hour: Hour, draws: nat -> TG.SegmentDraws)
    requires TG.AllValid(segs) && DistinctIds(segs)
    ensures var after := Upsert(Empty<string, TrafficRecord>(), TG.BatchRecords(segs, hour, draws), SegmentKey);
      && after.Size() == |segs| && after.vals.Keys == IdSet(segs)
      && forall i :: 0 <= i < |segs| ==> after.vals[segs[i].segment_id] == TG.GenerateTrafficRecord(segs[i], hour, draws(i).variation)
  {
    var after := Upsert(Empty<string, TrafficRecord>(), TG.BatchRecords(segs, hour, draws), SegmentKey);
    BatchRefreshesEverySegment(Empty(), segs, hour, draws);
    SizeIsCardinality(after);
    DistinctIdsCard(segs);
  }

  lemma DistinctIdsCard(segs: seq<RoadSegment>)
    requires DistinctIds(segs)
    ensures |IdSet(segs)| == |segs|
  {
    var ids := TG.SegmentIds(segs);
    DistinctSeqCard(ids);
    assert IdSet(segs) == set k | k in ids;
  }

  /** On a non-empty batch the handler's summary agrees with the
      generator's; on an empty one the generator reports NaN averages where
      the handler reports zeros. */
  lemma SummariesAgree(batch: seq<TrafficRecord>)
    ensures batch != [] ==> WS.GenerateSummary(Some(batch)) == TG.GenerateSummary(batch)
    ensures batch == [] ==>
      && TG.GenerateSummary(batch).average_congestion.NaN?
      && WS.GenerateSummary(Some(batch)).average_congestion == Num(0.0)
  {
  }
}
