# Road traffic monitoring — a Dafny model of the tick pipeline

This project models the core of a road-traffic monitoring server and its
browser dashboard.

- **Generator.** Every 30 seconds it derives one traffic record per road
  segment from an hour-of-day congestion table plus a bounded random offset,
  and with 5 % probability per segment an incident.
- **Storage.** The records and incidents are appended to the in-memory store.
- **Broadcast.** The WebSocket handler folds each batch into two
  last-write-wins caches and replays those caches to every newly connected
  client.
- **Dashboard.** It keeps its own last-write-wins maps and counts the live
  updates it receives.

Around this pipeline sit the REST endpoints:

- `/api/traffic`: filters, summary, heatmap, incident reports and historical
  rows;
- `/api/routes`: route options, instructions, alternatives, history and time
  estimates;
- `/api/analytics`: dashboard metrics, charts, predictions and patterns.

They are written as functions over what the store returns.

The system's three congestion tables differ, so they are modelled
separately and never unified:

- the generator's (`TrafficGenerator.BaseCongestionForHour`);
- the database's (`Database.BaseCongestionForHour`);
- the WebSocket handler's (`WebSocketHandler.GetPeakCongestion`).

Modelling conventions:

- `Math.random()` is a `Draw` (a real in [0, 1)), or a function from loop
  position to draws.
- The clock is an integer number of milliseconds, with the local hour given
  separately.
- uuids are string parameters.
- `Number` (`Num(x)` or `NaN`) stands for a JavaScript number where a
  division by zero can make NaN.
- `toFixed` is an abstract `fmt: real -> string`.
- JavaScript `Map`s are `OMap`s: a map plus its insertion-ordered key list.

**Travel time.** The generator's travel-time division
(services/traffic-generator.js:120) has no guard against a zero speed. The
model proves that a zero speed cannot happen: the table never exceeds 0.85
and the random offset stays below 0.15, so the congestion is always below
1 and the speed always positive.

Mutable objects are classes whose methods state their whole new state:

- the generator (`Generator`);
- the memory store (`MemoryStorage`);
- the WebSocket handler (`Handler`);
- the dashboard (`TrafficMonitoringSystem`).

The loops of the source are methods with loop invariants, each proved
against a specification function. Examples: the latest-record scan, the
sample analytics, the instruction builder, alternatives and history with
their sorts, the hourly, daily and monthly patterns, and the generator's
batch loop.

## Model

| member | source | states |
|---|---|---|
| TrafficGenerator.BaseCongestionMatchesTable | services/traffic-generator.js:166-173 | hour by hour the generator's table is 0.75 for 7–9, 0.85 for 17–19, 0.35 for 10–16, 0.1 for 22–23 and 0–5, 0.25 otherwise |
| TrafficGenerator.BaseCongestionForHour | services/traffic-generator.js:166-173 | every hour's base congestion lies in [0.1, 0.85] |
| TrafficGenerator.RoadSegments | services/traffic-generator.js:14-40 | there are sixteen fixed segments, each with a positive length and speed limit and at least two coordinates |
| TrafficGenerator.RoadSegmentsWellFormed | services/traffic-generator.js:14-40 | no two fixed segments share an id, and no speed limit exceeds 110 |
| TrafficGenerator.SegmentIdsAreNotIndices | services/traffic-generator.js:17-38 | no segment id is a run of digits, so an object keyed by segment ids, as in database.js:187-196, lists its values in first-set order |
| TrafficGenerator.CongestionSample | services/traffic-generator.js:114-117 | the clamped congestion is within 0.15 of the hour's table value, in [0, 1], and never reaches 1 |
| TrafficGenerator.TripMinutesAntitone | services/traffic-generator.js:119-120 | a lower speed never gives a shorter trip |
| TrafficGenerator.RecordAt | services/traffic-generator.js:119-128 | the record carries the segment id and the limit as free-flow speed; congestion is in [0, 1], speed in [0, limit]; the travel time is non-negative and never below the free-flow time |
| TrafficGenerator.GenerateTrafficRecord | services/traffic-generator.js:113-129 | the rounded congestion_level is in [0, 1], current_speed in [0, speed_limit], free_flow_speed equals the speed limit, and the travel time is non-negative |
| TrafficGenerator.EveningRushIsHeavy | services/traffic-generator.js:169 | between 17:00 and 19:59 every record falls in the heavy band |
| TrafficGenerator.NightIsFreeOrLight | services/traffic-generator.js:171 | at night (22–5) every record falls in the free or light band |
| TrafficGenerator.TypesHaveDescriptions | services/traffic-generator.js:135-141 | each of the five incident types has its own list of four phrases |
| TrafficGenerator.Offset | services/traffic-generator.js:150-151 | start + (end − start)·f lies between start and end |
| TrafficGenerator.Interpolate | services/traffic-generator.js:146-151 | the incident location is a [lat, lng] pair, each coordinate between the segment's first two points |
| TrafficGenerator.PickKind | services/traffic-generator.js:132 | the drawn type is one of the five incident types |
| TrafficGenerator.PickSeverity | services/traffic-generator.js:133 | the drawn severity is in 1..5 |
| TrafficGenerator.PickDescription | services/traffic-generator.js:143 | the description comes from the drawn type's own phrase list |
| TrafficGenerator.GenerateIncident | services/traffic-generator.js:131-164 | the incident has a known type, severity 1..5, a description of its type, a location between the segment's points, the segment's id, and status active; it starts at the tick's time |
| TrafficGenerator.IncidentDuration | services/traffic-generator.js:161 | end_time − start_time is at least 30 and less than 150 minutes |
| TrafficGenerator.BatchRecords | services/traffic-generator.js:82-84 | there is exactly one record per segment, in segment order |
| TrafficGenerator.BatchIncidents | services/traffic-generator.js:86-90 | a batch has at most one incident per segment |
| TrafficGenerator.IncidentsUpToMembers | services/traffic-generator.js:86-90 | among the first n segments, an incident is present exactly when it was drawn for a segment whose roll was below 0.05 |
| TrafficGenerator.BatchIncidentsMembers | services/traffic-generator.js:86-90 | the batch's incidents are exactly those of segments whose roll was below 0.05 |
| TrafficGenerator.RecordsUpTo | services/traffic-generator.js:82-84 | after n rounds the loop holds the records of the first n segments |
| TrafficGenerator.GenerateBatch | services/traffic-generator.js:81-91 | the forEach loop builds exactly the batch records and the batch incidents |
| TrafficGenerator.RecordsUpToAll | services/traffic-generator.js:82-91 | after all rounds the loop's records are the whole batch |
| TrafficGenerator.GenerateSummary | services/traffic-generator.js:175-194 | total_segments is the batch length, and the averages are NaN (0 / 0) exactly on an empty batch |
| TrafficGenerator.SummaryBandsPartition | services/traffic-generator.js:180-185 | free + light + moderate + heavy = total_segments |
| TrafficGenerator.SummaryAveragesBounded | services/traffic-generator.js:177-190 | on a non-empty batch the rounded averages stay within the records' congestion and speed bounds |
| TrafficGenerator.TickSummaryBounded | services/traffic-generator.js:103-109 | a tick over the fixed segments summarises 16 records, with average congestion in [0, 1] and average speed in [0, 110] |
| TrafficGenerator.Tick | services/traffic-generator.js:103-110 | the payload carries the tick's timestamp, one record per segment, at most one incident per segment, and a summary of all segments |
| TrafficGenerator.Stamped | services/traffic-generator.js:94-96 | each stored record has the store's clock reading and consecutive ids |
| TrafficGenerator.Generator.constructor | services/traffic-generator.js:5-12 | the generator starts not running, with no timer and no callback, over the sixteen fixed segments |
| TrafficGenerator.Generator.GenerateTrafficData | services/traffic-generator.js:76-111 | with a store present, the batch records are appended, stamped with ids continuing from the old length, the batch incidents are appended and the segment table is unchanged; with the store not yet initialised nothing is stored; either way the payload is delivered exactly when a callback was registered |
| TrafficGenerator.Generator.StoreRecords | services/traffic-generator.js:94-96 | each record is appended in order with ids continuing from the old length; nothing else changes |
| TrafficGenerator.Generator.StoreIncidents | services/traffic-generator.js:98-100 | the incidents are appended in order; nothing else changes |
| TrafficGenerator.Generator.StoreSegments | services/traffic-generator.js:49-51 | every fixed segment is appended again, without deduplication; the other tables are unchanged |
| TrafficGenerator.Generator.Start | services/traffic-generator.js:42-62 | while running, start changes nothing and returns no payload; otherwise it sets running, the timer and the callback and returns the first payload; the segments and the first batch are stored only when the store is present |
| TrafficGenerator.Generator.Launch | services/traffic-generator.js:45-59 | the stopped branch of start: it sets running, the timer and the callback and returns the first payload; a present store receives the segments and the first batch |
| TrafficGenerator.Generator.SeedAndGenerate | services/traffic-generator.js:49-54 | a present store receives the segments, then the first batch; a store not yet initialised receives nothing; the payload is the first tick |
| TrafficGenerator.Generator.Stop | services/traffic-generator.js:64-74 | afterwards the generator is not running and has no timer, whether or not it was running before |
| Database.BaseCongestionMatchesTable | database.js:291-298 | the database's table is 0.8 for 7–9, 0.9 for 17–19, 0.4 for 10–16, 0.1 at night, 0.3 otherwise; any hour past 23 or below 0 reads 0.1 |
| Database.BaseCongestionForHour | database.js:291-298 | every hour's value lies in [0.1, 0.9] |
| Database.LatestBySegmentSpec | database.js:187-196 | the scan keeps a key for exactly the requested segments that have records, and for each the record with the largest timestamp, the earliest one on ties |
| Database.LatestBySegmentKeys | database.js:189 | a segment is kept exactly when it is requested and has a record |
| Database.LatestBySegmentPick | database.js:190-192 | the kept record of a segment is the first one with the maximal timestamp |
| Database.FirstLatestNewer | database.js:191-192 | a strictly newer record replaces the kept one |
| Database.FirstLatestFresh | database.js:190 | the first record of a segment is kept |
| Database.FirstLatestKept | database.js:191 | a record that is not strictly newer leaves the kept one in place |
| Database.MemoryStorage.constructor | database.js:101-109 | the tables start empty |
| Database.MemoryStorage.InsertRoadSegment | database.js:129 | the segment is appended, duplicates included; the other tables are unchanged |
| Database.MemoryStorage.InsertTrafficData | database.js:167-171 | the record is appended with the store's time and id = old length + 1, so ids stay 1..n in insertion order; existing records are unchanged |
| Database.MemoryStorage.InsertTrafficIncident | database.js:221 | the incident is appended, duplicates included |
| Database.MemoryStorage.GetActiveIncidents | database.js:239 | the result is exactly the stored incidents with status active, in stored order, every copy of each |
| Database.MemoryStorage.GetLatestTrafficData | database.js:186-196 | at most one record per segment, only requested segments, each the first record with its segment's maximal timestamp, and one for every requested segment that has records |
| Database.SampleRowBounds | database.js:274-283 | a sample row has congestion in [0, 1], speed 60·(1 − c) in [0, 60], 1000 to 2999 vehicles, and its day and hour |
| Database.GenerateSampleAnalytics | database.js:267-289 | the rows are the sample analytics from the start time to the end time; an unparsable date gives no rows |
| Database.SampleAnalytics | database.js:267-289 | there are 24 rows per pass of the day loop, hours 0..23 in order, dated by the pass's calendar day |
| Database.SampleDaysCounts | database.js:271 | pass k runs exactly when the start moved on by k days is not after the end |
| Database.SampleDaysAndCalendarDays | database.js:271 | the loop visits every calendar day of the range when the start's time of day is not later than the end's, and one day fewer when it is |
| Database.SampleAnalyticsBounded | database.js:271-285 | every sample row is bounded, dated between the start day and the end day, and carries its hour |
| WebSocketHandler.PeakCongestionMatchesTable | services/websocket-handler.js:182-189 | the handler's table is 0.8 for 7–9, 0.85 for 17–19, 0.4 for 10–16, 0.1 at night, 0.3 otherwise; hour 24 (23 + 1) reads 0.1 |
| WebSocketHandler.GetPeakCongestion | services/websocket-handler.js:182-189 | every hour's value lies in [0.1, 0.85] |
| WebSocketHandler.GetTypicalPatterns | services/websocket-handler.js:191-197 | the weekday pattern is high exactly in the rush hours; the weekend pattern is moderate exactly from 12 to 20; the seasonal variation is in [0, 0.3) |
| WebSocketHandler.PredictNextHourCongestion | services/websocket-handler.js:199-204 | the prediction is in [0, 1], and NaN exactly when the current level is NaN |
| WebSocketHandler.PredictionNearMidpoint | services/websocket-handler.js:201-203 | the prediction is the clamped midpoint of the current level and the next hour's table value, within ±0.05 |
| WebSocketHandler.GenerateRecommendations | services/websocket-handler.js:206-235 | there are 1 to 3 items, the optimisation item last; the congestion alert is present iff the average exceeds 0.7, and the incident alert iff heavy > 0.3·total |
| WebSocketHandler.GenerateSummary | services/websocket-handler.js:321-348 | a missing or empty batch gives all zeros; otherwise total_segments is the batch length and the band counts sum to it |
| WebSocketHandler.SummaryCountsAndBounds | services/websocket-handler.js:331-346 | each band count is the number of records in that band, and the averages stay within the records' bounds |
| WebSocketHandler.TransformForAnalytics | services/websocket-handler.js:138-160 | the analytics keep the update's timestamp and summary; they add the hour's peak, a prediction in [0, 1] (NaN iff the average is NaN) and the summary's recommendations |
| WebSocketHandler.InitialData | services/websocket-handler.js:56-74 | initial-traffic-data is emitted iff the traffic cache is non-empty, and initial-incident-data iff the incident cache is; each carries its cache's full contents |
| WebSocketHandler.InitialDataReplaysCaches | services/websocket-handler.js:56-74 | every cached record and every cached incident reaches a newly connected client |
| WebSocketHandler.Handler.constructor | services/websocket-handler.js:2-7 | no clients are connected and both caches start empty |
| WebSocketHandler.Handler.Connect | services/websocket-handler.js:10-15 | the socket joins the client set (a repeated add changes nothing); the caches are unchanged and replayed to it |
| WebSocketHandler.Handler.Disconnect | services/websocket-handler.js:34-37 | the socket leaves the client set; the caches are unchanged |
| WebSocketHandler.Handler.CacheTraffic | services/websocket-handler.js:78-80 | each record is set under its segment id |
| WebSocketHandler.Handler.CacheIncidents | services/websocket-handler.js:101-103 | each incident is set under its incident id |
| WebSocketHandler.Handler.BroadcastTrafficUpdate | services/websocket-handler.js:76-97 | the records are upserted by segment id, and the incidents by id only when present; the client set is unchanged; the update and its analytics are emitted |
| WebSocketHandler.Handler.BroadcastIncidentUpdate | services/websocket-handler.js:99-108 | the incidents are upserted by id and the update is emitted; the traffic cache is unchanged |
| OrderedMaps.UpsertContents | services/websocket-handler.js:78-80 | after a batch has been set into a Map, each batch key holds the last batch element with that key; other keys keep their value; no key is lost or reordered |
| OrderedMaps.UpsertKeySet | services/websocket-handler.js:84-86 | after a batch has been set into a Map, the key set is the old key set plus the batch's keys |
| OrderedMaps.Put | public/js/main.js:218 | Map.set replaces the value of a known key in place and appends a new key last |
| OrderedMaps.ValuesAreContents | services/websocket-handler.js:59 | Array.from(map.values()) lists exactly the stored values |
| Pipeline.ToUpdate | server.js:39-41 | the handler receives the generator's payload unchanged, with its incident list always present |
| Pipeline.Deliver | server.js:39-41 | the callback folds the payload's records and incidents into the caches and emits two messages; with no payload nothing changes |
| Pipeline.Boot | server.js:38-41 | as the server runs it, start finds no store yet: the generator is running with the callback set and the first tick reaches the caches, while nothing is stored (see Findings) |
| Pipeline.BootSeeded | server.js:38-41 | started once the store exists, the segments, the first batch and its incidents are stored and the batch reaches the caches |
| Pipeline.UnseededStoreServesNoSegment | database.js:101-109 | with the segment table left empty, a lookup over the stored segments finds no record whatever traffic is stored, so /realtime answers [] and /summary counts no segment, with NaN averages |
| Pipeline.SeededStoreServesEverySegment | server.js:38-41 | after the intended boot on a fresh store, the same lookup finds each of the sixteen segments' first records |
| Pipeline.TimerTick | services/traffic-generator.js:57-59 | each timer firing appends the new batch and its incidents to the store, leaves the segment table unchanged, folds the batch into both caches and emits two messages |
| Pipeline.RefreshByIds | services/websocket-handler.js:78-80 | a batch carrying the segments' ids adds exactly those ids as keys and, when the ids are distinct, stores each record under its segment |
| Pipeline.BatchRefreshesEverySegment | services/traffic-generator.js:82-84 | after a tick the traffic cache holds each segment's freshly generated record |
| Pipeline.FirstTickCachesSixteenSegments | server.js:38-41 | from an empty cache the first tick leaves exactly the sixteen segment ids, each with its new record |
| Pipeline.FirstBatchFillsCache | services/websocket-handler.js:78-80 | from an empty cache one batch over distinct segments leaves one key per segment |
| Pipeline.SummariesAgree | services/websocket-handler.js:321-348 | on a non-empty batch the handler's summary equals the generator's, apart from the generator's timestamp, which is not modelled; on an empty one the generator gives NaN where the handler gives 0 |
| RoutesApi.RecordFor | api/routes.js:326 | find returns the first record of the segment, or none exactly when no record has its id |
| RoutesApi.SelectionSize | api/routes.js:323 | the slice length is in 3..7 |
| RoutesApi.SelectOptimalSegments | api/routes.js:321-334 | the result is the first min(n, k) segments in order; each takes its first traffic record's speed, congestion and time, or else the speed limit, 0 and the free-flow time |
| RoutesApi.SelectedRouteCoversPrefix | api/routes.js:321-334 | the selected distance is that of a prefix of the segment list; with no traffic, times are free-flow and the average congestion is 0 |
| RoutesApi.Mean | api/routes.js:270 | the average congestion is NaN exactly on an empty route |
| RoutesApi.Instructions | api/routes.js:336-355 | there is one step per segment, then the arrival line |
| RoutesApi.StepSuffix | api/routes.js:346-350 | a step ends in the heavy suffix iff congestion > 0.7, and in the moderate suffix iff it is in (0.4, 0.7] |
| RoutesApi.StepPrefix | api/routes.js:340-344 | the first step begins "Head " and every other step "Continue on " |
| RoutesApi.InstructionsShape | api/routes.js:336-355 | n segments give n + 1 lines: "Head" first, "Continue on" after, the arrival line last, each with the suffix its congestion calls for |
| RoutesApi.GenerateRouteInstructions | api/routes.js:336-355 | the loop that pushes a step and then extends the last element builds exactly the instruction list |
| RoutesApi.BuildRoute | api/routes.js:263-272 | the route keeps its id and segments, has one instruction more than segments, and has an average congestion exactly when it has segments |
| RoutesApi.RouteAggregatesBounded | api/routes.js:268-270 | distance and time are non-negative; congestion is NaN exactly on an empty route, otherwise in [0, 1] |
| RoutesApi.RouteOver | api/routes.js:259-303 | the fastest, shortest and efficient routes carry their own id and are well shaped |
| RoutesApi.CalculateScenicRoute | api/routes.js:305-319 | the scenic route uses only non-highway segments from the list |
| RoutesApi.OptionRoute | api/routes.js:239-254 | each option carries its criterion's id, and the scenic one avoids highways |
| RoutesApi.OfferedCriteria | api/routes.js:242-254 | the options are fastest, shortest, efficient, then scenic unless preferences.scenic is literally false |
| RoutesApi.CalculateRouteOptions | api/routes.js:239-257 | there are 3 routes when scenic is declined and 4 otherwise, all well shaped; the null filter removes nothing |
| RoutesApi.RouteOptionIds | api/routes.js:239-257 | the route ids come out as fastest, shortest, efficient, scenic |
| RoutesApi.ScenicOptionAvoidsHighways | api/routes.js:252-254 | when offered, the scenic option uses no highway |
| RoutesApi.CalculateEndpoint | api/routes.js:6-41 | a missing origin or destination gives 400 with its message; otherwise the body is the route options |
| RoutesApi.AlternativeAt | api/routes.js:361-373 | alternative i is named "alternative_i" and "Alternative Route i+1"; highways is set iff some segment is a highway, reliability is in [0.7, 1), tolls iff the draw is below 0.3 |
| RoutesApi.Alternatives | api/routes.js:360-374 | round i builds alternative i |
| RoutesApi.Rounds | api/routes.js:360 | a parseInt limit runs that many rounds; NaN or a non-positive limit runs none |
| RoutesApi.LimitParam | api/routes.js:46 | an absent limit takes the default; a given one is parseInt's result |
| RoutesApi.GenerateRouteAlternatives | api/routes.js:357-377 | exactly limit alternatives, sorted by ascending estimated time, a permutation of the generated ones |
| RoutesApi.AlternativesEndpoint | api/routes.js:44-85 | a missing origin or destination gives 400 with its message; otherwise the alternatives are sorted by estimated time and are a permutation of the ones generated for the limit, 3 when it is absent |
| RoutesApi.HistoryEntryAt | api/routes.js:389-405 | each entry has a known route name, a date 0–29 whole days back, durations in [15, 60), speed in [25, 60), distance in [5, 30), congestion in [0, 1) and coordinates within ±0.05° of their centres |
| RoutesApi.HistoryEntries | api/routes.js:389-406 | round i builds entry i |
| RoutesApi.GenerateSampleRouteHistory | api/routes.js:379-409 | exactly limit entries, newest travel date first, a permutation of the generated ones |
| RoutesApi.HistoryEndpoint | api/routes.js:88-108 | the limit defaults to 10; the history is newest first and a permutation of the generated entries |
| RoutesApi.Multiplier | api/routes.js:413 | 1 + base / 2 lies in [1.05, 1.45] |
| RoutesApi.GenerateTimeEstimates | api/routes.js:411-443 | the departure time is kept and there are three estimates with their conditions, optimistic first |
| RoutesApi.TimeEstimatesOrdered | api/routes.js:411-443 | optimistic ≤ realistic ≤ pessimistic in duration (16..60 minutes) and arrival; all arrivals after departure; a delay of 10–14 minutes and an earlier recommended departure; the congestion is the database table's |
| RoutesApi.TimeEstimatesEndpoint | api/routes.js:199-236 | a missing origin or destination gives 400; otherwise the estimates at the departure time |
| RoutesApi.SaveFavoriteEndpoint | api/routes.js:111-150 | a missing name, origin or destination gives 400 with its message; otherwise the route is echoed with a new id, the time, usage_count 0, and its waypoints and preferences, which default to [] and {} |
| Sorting.SortBy | api/routes.js:376 | a sort with a numeric comparator returns a permutation ordered by key |
| AnalyticsApi.WindowStart | api/analytics.js:17-32 | '1h' goes back one hour, '7d' and '30d' that many days, '24h' or any other value one day |
| AnalyticsApi.WindowDays | api/analytics.js:17-35 | the window covers 8 days for '7d', 31 for '30d', 2 by default, and for '1h' 2 exactly when the time is before 01:00 UTC, otherwise 1 |
| AnalyticsApi.MeanOrZero | api/analytics.js:45 | `sum / length \|\| 0` is 0 on no rows |
| AnalyticsApi.MeanOrZeroBounds | api/analytics.js:45-46 | the averages of sample rows lie in [0, 1] and [0, 60] |
| AnalyticsApi.PeakOf | api/analytics.js:47 | Math.max over the rows is −Infinity exactly on no rows, and otherwise the largest congestion of some row |
| AnalyticsApi.GetKeyMetrics | api/analytics.js:44-49 | no rows give zero averages, no vehicles and a peak of -Infinity, and only no rows give that peak |
| AnalyticsApi.KeyMetricsBounded | api/analytics.js:44-49 | the averages are in bounds and never above the peak; the vehicle total is 1000 to 2999 per row |
| AnalyticsApi.CongestionChart | api/analytics.js:245-257 | there is one point per row, in row order, with the row's date, hour and congestion |
| AnalyticsApi.GenerateSpeedDistribution | api/analytics.js:259-276 | there are four bins in key order, each counting its speed range |
| AnalyticsApi.SpeedBinsPartition | api/analytics.js:262-265 | the four bin counts sum to the row count |
| AnalyticsApi.GenerateHourlyPatterns | api/analytics.js:278-300 | there are exactly 24 points, for hours 0..23 in order, each the mean congestion of its hour |
| AnalyticsApi.HourlyPointsWellFormed | api/analytics.js:284-293 | the labels `h:00` are distinct, an hour without rows reads 0, and every value is in [0, 1] |
| AnalyticsApi.GenerateSegmentPerformance | api/analytics.js:302-312 | there is one entry per segment, in order, with its name, its rows' averages and a reliability in [0.8, 1) |
| AnalyticsApi.SegmentsWithoutRowsReadZero | api/analytics.js:307-308 | a segment without rows gets 0 averages |
| AnalyticsApi.LookAhead | api/analytics.js:317 | the look-ahead is 2 for '2h', 6 for '6h' and 1 otherwise |
| AnalyticsApi.PredictCongestion | api/analytics.js:315-321 | the prediction is in [0, 1] and within ±0.05 of the clamped midpoint of the base and the look-ahead hour's table value |
| AnalyticsApi.LookAheadPastMidnight | api/analytics.js:317-318 | an unwrapped look-ahead hour past 23 reads the same table value as its wrapped hour |
| AnalyticsApi.GeneratePredictiveRecommendations | api/analytics.js:323-338 | there are exactly two messages: the high tier iff > 0.7, the medium tier iff in (0.4, 0.7], the low tier otherwise |
| AnalyticsApi.PredictionsEndpoint | api/analytics.js:124-165 | succeeds, with no predictions, exactly when the segment table is empty; otherwise the first `this.predictCongestion` throws and the answer is the 500 "Failed to fetch predictions" |
| AnalyticsApi.GenerateDailyPattern | api/analytics.js:341-352 | there are 24 entries for hours 0..23 with speed 60·(1 − base), noise ±0.05 on the base, and volume in [500, 2500) |
| AnalyticsApi.WeeklyEntryAt | api/analytics.js:356-361 | a day's congestion is in [0, 0.8), its peak hour in 8..11 and its volume in [1000, 4000) |
| AnalyticsApi.GenerateWeeklyPattern | api/analytics.js:354-362 | there are the seven days in order, each within those bounds |
| AnalyticsApi.SeasonsOfMonths | api/analytics.js:370 | winter is months 1, 2, 11, 12; spring 3–5; summer 6–8; fall 9–10 |
| AnalyticsApi.GenerateMonthlyPattern | api/analytics.js:364-375 | there are months 1..12 in order, each with its season, congestion in [0.2, 0.8) and volume in [1500, 3500) |
| AnalyticsApi.SeasonalEntryAt | api/analytics.js:379-384 | winter has weather impact 0.3 and summer 0.1; the others have 0.2 |
| AnalyticsApi.GenerateSeasonalPattern | api/analytics.js:377-385 | the four seasons in order, with their bounds and weather impacts |
| AnalyticsApi.HeatmapAnalytics | api/analytics.js:80-111 | there is one cell per segment, in order, with intensity equal to congestion in [0, 0.8); a cell is high iff above 0.7, and the high count is taken over the cells |
| AnalyticsApi.Dashboard | api/analytics.js:6-61 | overview, key metrics and all four charts are computed from the same sample rows of the window, and the trends from their draws; 48 rows by default, 192 for '7d', 744 for '30d', 24 or 48 for '1h'; the averages are bounded and at most the peak; the speed bins add up to the rows; the hourly values are congestion levels |
| AnalyticsApi.DashboardRowCount | api/analytics.js:34-35 | the window's two dates are whole days, so the rows are 24 per calendar day of the window |
| TrafficApi.FilterIncidentsSelects | api/traffic.js:42-53 | the result is an order-preserving subsequence holding every copy of each incident that matches every given filter, and no other incident |
| TrafficApi.FilterIncidents | api/traffic.js:45-53 | no filter given leaves the incidents as they are, and a filter never lengthens them |
| TrafficApi.ActiveFilterIdempotent | api/traffic.js:51-53 | over the store's active incidents, `active=true` changes nothing |
| TrafficApi.FilterSegments | api/traffic.js:76-80 | the result is an order-preserving subsequence holding every copy of each segment of the requested type, and no other segment |
| TrafficApi.TrafficSummary | api/traffic.js:139-149 | the bands partition the records, total_segments is the record count, and the averages are NaN on no records (no guard) |
| TrafficApi.SummaryIsUnroundedGeneratorSummary | api/traffic.js:139-149 | this is the generator's summary without its rounding |
| TrafficApi.SegmentOf | api/traffic.js:177 | find returns the first segment with the id, or none exactly when there is no such segment |
| TrafficApi.Heatmap | api/traffic.js:176-187 | there is one point per record, in order, with intensity equal to congestion; the name and coordinates are those of the first segment with the id, falling back to the id and [] |
| TrafficApi.Realtime | api/traffic.js:6-26 | the latest record of each requested segment, or of every stored segment when none is requested |
| TrafficApi.SummaryEndpoint | api/traffic.js:133-149 | the summary is that of the latest record of every stored segment; the bands add up to the total, and with no such record the averages are NaN |
| TrafficApi.HeatmapEndpoint | api/traffic.js:167-187 | the points are the heatmap of the latest record of every stored segment, one per record |
| TrafficApi.Historical | api/traffic.js:99-121 | a missing start or end date gives 400 with its message; otherwise the sample analytics between the two parsed times, 24 rows per pass of the day loop, and the aggregation defaulting to hourly |
| TrafficApi.ReportedIncident | api/traffic.js:217-227 | the incident is active, ends two hours after it starts (one clock reading), and has segment_id defaulting to null |
| TrafficApi.ReportIncident | api/traffic.js:206-229 | if type, severity, description or location is missing the answer is 400 and nothing is stored; otherwise the incident is appended to the store |
| TrafficApi.ReportedIncidentIsActive | api/traffic.js:229 | a reported incident is among the active incidents afterwards |
| Entities.BandOf | services/traffic-generator.js:181-184 | the bands are < 0.2, [0.2, 0.4), [0.4, 0.7) and ≥ 0.7 |
| Entities.FiltersAreBands | services/traffic-generator.js:181-184 | each summary filter selects exactly its band |
| Entities.BandsPartition | services/traffic-generator.js:180-185 | the four filters' counts sum to the batch length |
| ClientDashboard.GetCongestionStatus | public/js/main.js:409-414 | < 0.2 is free (Free Flow), < 0.4 light, < 0.7 moderate, anything else heavy |
| ClientDashboard.GetCongestionColor | public/js/main.js:416-421 | one of four colours by the same thresholds |
| ClientDashboard.StatusMatchesSummaryBands | public/js/main.js:409-414 | the status shown is the band the server summary counts the record in |
| ClientDashboard.ColourFollowsStatus | public/js/main.js:416-421 | two levels get the same colour exactly when they get the same status |
| ClientDashboard.LayerWeight | public/js/main.js:339 | the weight is clamp(c·10, 3, 8) |
| ClientDashboard.LayerWeightMonotonic | public/js/main.js:339 | a more congested segment is drawn at least as thick |
| ClientDashboard.UpdateBottomPanel | public/js/main.js:309-324 | the averages are written only over a non-empty traffic map; the incident count and the update counter are always written |
| ClientDashboard.PanelAveragesBounded | public/js/main.js:314-319 | the panel shows a percentage in [0, 100] and a speed within the records' limit |
| ClientDashboard.UpdatesNeverShrink | public/js/main.js:222-226 | an update never drops or reorders a key |
| ClientDashboard.LastRecordWins | public/js/main.js:216-220 | a segment holds the last record of the batch with its id |
| ClientDashboard.UntouchedSegmentKept | public/js/main.js:216-220 | a segment the batch does not mention keeps its record |
| ClientDashboard.TrafficMonitoringSystem.constructor | public/js/main.js:2-9 | both maps start empty, the counter at 0, and the segments Map undefined |
| ClientDashboard.TrafficMonitoringSystem.UpdateTrafficData | public/js/main.js:216-220 | the records are upserted by segment id; the incidents, the counter and the segments Map are unchanged |
| ClientDashboard.TrafficMonitoringSystem.UpdateIncidents | public/js/main.js:222-226 | the incidents are upserted by incident id; the traffic map, the counter and the segments Map are unchanged |
| ClientDashboard.TrafficMonitoringSystem.HandleTrafficUpdate | public/js/main.js:180-191 | dataUpdateCount rises by exactly 1 and the records are folded in; the panel is redrawn unless there are records but no segments Map, in which case renderTrafficList throws first |
| ClientDashboard.TrafficMonitoringSystem.HandleIncidentUpdate | public/js/main.js:193-199 | the incidents are folded in; the counter is unchanged |
| ClientDashboard.TrafficMonitoringSystem.HandleInitialTrafficData | public/js/main.js:201-207 | the records are folded in without counting an update; the panel is redrawn under the same condition as for a live update |
| ClientDashboard.TrafficMonitoringSystem.HandleInitialIncidentData | public/js/main.js:209-214 | the incidents are folded in; the counter is unchanged |
| ClientDashboard.TrafficMonitoringSystem.LoadInitialData | public/js/main.js:96-132 | with no socket event between its steps: the segments Map is replaced, and the records and incidents folded in, from whichever responses succeeded; the panel is redrawn unless rendering throws, which the catch swallows |
| ClientDashboard.TrafficMonitoringSystem.RefreshData | public/js/main.js:524-526 | the counter is reset to 0 and nothing else changes at once: the reload is not awaited and its steps run later, and the maps are never cleared |
| ClientDashboard.TrafficMonitoringSystem.ReceiveSegments | public/js/main.js:99-105 | a successful /segments response replaces the segments Map with one keyed by segment id; a failed one leaves it as it was |
| ClientDashboard.TrafficMonitoringSystem.ReceiveRealtime | public/js/main.js:108-114 | a successful /realtime response is folded into the traffic map; nothing else changes |
| ClientDashboard.TrafficMonitoringSystem.ReceiveIncidents | public/js/main.js:117-131 | a successful /incidents response is folded in, then the panel is redrawn unless renderTrafficList throws |
| ClientDashboard.TrafficListNames | public/js/main.js:228-244 | an empty map shows no rows; otherwise the lookup throws exactly when the segments Map is undefined, and each record shows its segment's name, or its id when the Map does not know it |
| ClientDashboard.GuardedTrafficListNames | public/js/main.js:238-244 | with the lookup guarded, the list never throws, shows the id for every record while the Map is undefined, and agrees with the unguarded list wherever that does not throw |
| ClientDashboard.Redraw | public/js/main.js:184-186 | the panel a render-then-update handler leaves: none exactly when there are records but no segments Map, UpdateBottomPanel otherwise |
| ClientDashboard.ReplayBeforeSegments | public/js/main.js:14-18 | a non-empty replay reaching a fresh dashboard before /segments answers is stored but leaves the panel undrawn |

## Left out

**Infrastructure**

- Sockets, rooms and subscriptions are library calls. The model returns emissions as a list of (room, payload) and makes no claim about join or delivery.
- `setInterval` / `clearInterval` are not modelled. The timer is a handle in the generator's state, and each firing is the explicit `Pipeline.TimerTick`.
- The PostgreSQL branch of database.js is not modelled: queries, PostGIS geometry, `connect` and `initializeTables`. Only the memory-storage branch is.
- The store has two states in the model: absent (`null`) while the connection attempt is pending, as at boot, and present from the first timer tick on. A timer firing before the attempt has failed is not modelled, nor is a REST request arriving before then (it would answer 500).
- The inserts rejected at boot are unhandled promise rejections. Whether they end the process depends on the Node.js version and its `--unhandled-rejections` mode. The model lets the process go on, as Node.js before version 15 does.
- `getRoadSegments` in memory mode is not modelled separately. It returns the stored segment list, which the endpoints take as a parameter.
- Express request and response plumbing is reduced to functions from the request fields to `Reply` (400 with a message, or the body).
- 500 error paths are not modelled.
- IEEE-754 floating point is not modelled. Congestion, speeds and times are exact reals, and `Math.round` rounds half up on them.
- `Math.random`, `new Date()`, `getHours()` and `uuid` are parameters. Dates are integer milliseconds with a day taken as 24 hours, in one time zone, with no daylight-saving shifts.
- `toISOString` and `toFixed` formatting are abstract. An Invalid Date is modelled only where /historical parses its two dates.
- The store's own `new Date()` per inserted record is one clock reading per batch (`storedAt`).
- TrafficApi.ReportedIncident: POST /incidents reads the clock twice, `new Date()` for start_time and `Date.now()` for end_time (api/traffic.js:224-225). The model uses one reading `now`, so end_time is exactly start_time plus two hours, where the source only guarantees at least two hours.
- Database.MemoryStorage.GetLatestTrafficData, TrafficApi.Realtime: `Object.values(latestData)` (database.js:196) lists array-index keys first, in ascending order, and the other keys in first-set order. The model's ordered map always uses first-set order. The two agree on the generator's segment ids, none of which is a run of digits (`TrafficGenerator.SegmentIdsAreNotIndices`); the model does not cover segment ids that are.

**WebSocket handler**

- sendTrafficDataForBounds, sendIncidentData and sendAnalyticsData are not modelled.
- generateAnalyticsData and its helpers (congestion trends, speed analysis, incident frequency, route performance, peak hours, hotspots, improvement recommendations) are not modelled. They are random or constant data.
- The subscribe and request handlers are not modelled.

**Analytics API**

- The /predictions and /patterns handlers call their helpers as `this.…` from module-level arrow functions, where `this` is the module's original `exports` object, which has none of them (api/analytics.js:387 replaces `module.exports` with the router). /patterns calls `this.generateDailyPattern` first thing (api/analytics.js:222), so it always answers 500; it is not modelled beyond this line. /predictions calls its helpers only inside `segments.forEach` (api/analytics.js:131-149), so it answers 500 once any segment is stored and success with `[]` on an empty segment table (`AnalyticsApi.PredictionsEndpoint`). The helpers are modelled as their bodies are written, as if they were reachable.
- /comparative returns random and constant data and is not modelled.
- The constant `monitored_area` and `uptime_percentage` of /dashboard, and the reply's `timestamp` and `time_range`, are not modelled.
- In memory mode, /dashboard and /historical ignore the requested segments, and the model does the same.

**Routes API**

- GET /favorites returns constant demo data and is not modelled.
- The routes ignore origin and destination, and the `criteria` argument of selectOptimalSegments is unused. The model takes neither.
- POST /calculate and the other endpoints take the segments and latest records as inputs. The stored segments need positive speed limits (`RoutesApi.PositiveLimits`): a zero limit would make the fallback travel time Infinity, which the model does not represent.
- RoutesApi.SaveFavoriteEndpoint: `preferences` is modelled as a map from strings to strings, where the source echoes any JSON value. A `null` waypoints or preferences, which the source echoes as null, is not modelled: a field is either absent, taking its default, or given.
- RoutesApi.SelectOptimalSegments: `{...segment}` spreading is modelled as a record holding the segment beside the three live fields.

**Client dashboard**

- The DOM, Leaflet and anime.js rendering are not modelled. Of renderTrafficList the model keeps only the names it shows and whether it throws; the segments Map is kept for that lookup alone.
- HandleTrafficUpdate, HandleInitialTrafficData: when renderTrafficList throws, the exception leaves the socket handler and updateMapLayers and the update animation are skipped too; the model records this only as an undrawn panel (None).
- LoadInitialData: states the load in which no socket event runs between its three awaits. Any other schedule is the three steps ReceiveSegments, ReceiveRealtime and ReceiveIncidents with the handlers called between them; which schedule the browser picks is not modelled.
- RefreshData: the reload it starts is not awaited, so the method covers only the counter reset; the reload is the three Receive steps, run later.
- A `fetch` or `.json()` that rejects (a network failure) sends loadInitialData to its catch and skips its remaining steps. The model's steps take a response that either reported success or did not.
- filterTrafficData, filterByRoadType, filterByCongestion, formatTime, locateUser, fullscreen and updateConnectionStatus are not modelled.

**Truthiness and parsing**

- JavaScript truthiness is modelled for optional strings only: absent or empty is falsy.
- A POST /incidents severity of 0 is falsy and refused. A location array is truthy even when empty.
- A `severity` query that parses to NaN equals no incident's severity.

**Weakened contracts**

- TrafficGenerator.Tick: its contract states sizes, the timestamp and the summary's total. The records and incidents are tied to the batch functions by `TrafficGenerator.GenerateBatch`, `BatchRecords` and `BatchIncidentsMembers`. The band partition is in `TrafficGenerator.SummaryBandsPartition`.
- TrafficGenerator.GenerateSummary: its band counts are stated in `SummaryBandsPartition` and `Entities.FiltersAreBands` rather than in its own ensures.
- TrafficGenerator.GenerateSummary: the summary's `timestamp: new Date().toISOString()` (services/traffic-generator.js:192) is a clock reading of its own and is not carried; `Entities.Summary` has no timestamp field.
- Pipeline.SummariesAgree: the equality holds apart from the generator's summary timestamp, which the model does not carry.
- Database.MemoryStorage.InsertRoadSegment: appends without deduplication, as the memory branch does. The SQL branch ignores a repeated segment id, and that branch is not modelled.
- Database.MemoryStorage.InsertTrafficIncident: appends without deduplication. The SQL branch updates the existing incident.
- Sorting.SortBy: stability is not proved. Ties are kept in input order by construction but not stated.

## Findings

| source | as written | input that shows it | evidently intended | confidence | as-written member | corrected member |
|---|---|---|---|---|---|---|
| server.js:38-41 | `trafficGenerator.start` runs while the database's `connect()` is still pending (database.js:14-15), so `memoryStorage` (database.js:101-109) does not exist yet: every insert of start rejects, and the segment table stays empty for good, because start runs once | boot without PostgreSQL, then GET /api/traffic/realtime with no `segments`: it answers [] however many ticks have been stored, and GET /summary reports 0 segments with NaN averages | the sixteen segments and the first batch stored, so that /realtime answers one record per segment | not executed | Pipeline.Boot, Pipeline.UnseededStoreServesNoSegment | Pipeline.BootSeeded, Pipeline.SeededStoreServesEverySegment |
| public/js/main.js:238 | renderTrafficList calls `this.roadSegments.get`, but `this.roadSegments` is set only when /api/traffic/segments answers successfully (main.js:102-104) and the constructor never sets it | `init` awaits the socket's set-up before fetching the segments (main.js:16-18); a server with a non-empty cache replays it on connection, and if that replay arrives first, the handler throws a TypeError: the records are stored but the list, the panel and the map layers are not redrawn. Every traffic update after a failed /segments throws the same way | an undefined Map treated like a Map that does not know the segment, each record shown under its own id, as line 244 already does for a single unknown segment | not executed | ClientDashboard.ReplayBeforeSegments, ClientDashboard.TrafficListNames | ClientDashboard.GuardedTrafficListNames |

## Where the design description and the code disagree

The model follows the code in each case.

- **Congestion tables.** One time-of-day table is described as shared by the generator and every estimate. The code has three different tables: 0.75/0.85/0.35/0.1/0.25 in the generator, 0.8/0.9/0.4/0.1/0.3 in the database, and 0.8/0.85/0.4/0.1/0.3 in the handler.
- **Travel-time guard.** A floor of 1 km/h on the speed is described for the travel-time division. The code has no guard. The model adds none either; instead it proves that the generator's own table keeps congestion below 1, so the speed is positive (`TrafficGenerator.CongestionSample`, `TrafficGenerator.RecordAt`).
- **Incident location.** The incident location is described as interpolated between the segment's first and last points. The code uses the first and second coordinates (services/traffic-generator.js:146-147). The fixed segments have exactly two, so the two readings agree on them.
- **Incident topic.** A separate incident-updates publication is described for each tick that has incidents. The code's tick emits only the traffic update, with the incidents inside it, and the analytics update (`WebSocketHandler.Handler.BroadcastTrafficUpdate`).
- **Snapshot timing.** The snapshot is described as scoped to the topics a client subscribes to. The code replays both caches once, at connection, before any subscription (`WebSocketHandler.Handler.Connect`).
- **Cache size.** "K entries after N ticks" holds in the code when the segment ids are distinct (`Pipeline.BatchRefreshesEverySegment`, `Pipeline.FirstTickCachesSixteenSegments`).
- **Empty-batch summary.** The generator's summary divides by the batch length without a guard, so on an empty batch its averages are NaN. The handler's summary gives zeros. On a non-empty batch the two agree apart from the generator's own timestamp (`Pipeline.SummariesAgree`).
