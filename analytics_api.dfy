/** The analytics endpoints and their chart helpers over analytics rows
    (in memory mode, the database's sample rows). An average written
    `sum / length || 0` is 0 on an empty input; Math.random(), the clock
    and the local hour are parameters. */
module AnalyticsApi {
  import opened Numeric
  import opened Seqs
  import opened Entities
  import opened Database

  /** `sum / rows.length || 0`: NaN, the only falsy quotient besides 0, becomes 0. */
  function MeanOrZero(rows: seq<AnalyticsRow>, f: AnalyticsRow -> real): (m: real)
    ensures rows == [] ==> m == 0.0
  {
    if rows == [] then 0.0 else Sum(rows, f) / |rows| as real
  }

  function RowCongestion(d: AnalyticsRow): real { d.avg_congestion }
  function RowSpeed(d: AnalyticsRow): real { d.avg_speed }

  /** Rows as the sample generator makes them: congestion in [0, 1], speed in [0, 60]. */
  predicate SampleBounded(rows: seq<AnalyticsRow>)
  {
    forall i :: 0 <= i < |rows| ==> 0.0 <= rows[i].avg_congestion <= 1.0 && 0.0 <= rows[i].avg_speed <= 60.0
  }

  /** An average of bounded rows is bounded the same way. */
  lemma MeanOrZeroBounds(rows: seq<AnalyticsRow>)
    requires SampleBounded(rows)
    ensures 0.0 <= MeanOrZero(rows, RowCongestion) <= 1.0
    ensures 0.0 <= MeanOrZero(rows, RowSpeed) <= 60.0
  {
    if rows != [] {
      MeanBounds(rows, RowCongestion, 0.0, 1.0);
      MeanBounds(rows, RowSpeed, 0.0, 60.0);
    }
  }

  /** Filtering keeps the sample bounds. */
  lemma FilterBounded(rows: seq<AnalyticsRow>, p: AnalyticsRow -> bool)
    requires SampleBounded(rows)
    ensures SampleBounded(Filter(rows, p))
  {
    var f := Filter(rows, p);
    forall i | 0 <= i < |f| ensures 0.0 <= f[i].avg_congestion <= 1.0 && 0.0 <= f[i].avg_speed <= 60.0 {
      assert f[i] in f;
      var j :| 0 <= j < |rows| && rows[j] == f[i];
    }
  }

  /** The dashboard's start date: '1h' one hour back, '7d' and '30d' that
      many days back, '24h' and anything else one day back. A day is
      taken as 24 hours. */
  function WindowStart(timeRange: string, end: int): (start: int)
    ensures timeRange == "1h" ==> start == end - MsPerHour
    ensures timeRange == "7d" ==> start == end - 7 * MsPerDay
    ensures timeRange == "30d" ==> start == end - 30 * MsPerDay
    ensures timeRange !in {"1h", "7d", "30d"} ==> start == end - MsPerDay
  {
    match timeRange
    case "1h" => end - MsPerHour
    case "24h" => end - MsPerDay
    case "7d" => end - 7 * MsPerDay
    case "30d" => end - 30 * MsPerDay
    case _ => end - MsPerDay
  }

  /** The number of sample days the window covers: both end days are
      included, so a window reaching k days back covers k + 1 days, and the
      hour window covers one day or, before 01:00, two. */
  lemma WindowDays(timeRange: string, end: int)
    ensures var n := DayCount(DayOf(WindowStart(timeRange, end)), DayOf(end));
      && (timeRange == "7d" ==> n == 8)
      && (timeRange == "30d" ==> n == 31)
      && (timeRange == "1h" ==> (n == 2 <==> end % MsPerDay < MsPerHour) && (n == 1 || n == 2))
      && (timeRange !in {"1h", "7d", "30d"} ==> n == 2)
  {
    var e := DayOf(end);
    assert end == e * MsPerDay + end % MsPerDay;
    assert (end - 7 * MsPerDay) / MsPerDay == e - 7;
    assert (end - 30 * MsPerDay) / MsPerDay == e - 30;
    assert (end - MsPerDay) / MsPerDay == e - 1;
    if end % MsPerDay < MsPerHour {
      assert end - MsPerHour == (e - 1) * MsPerDay + (MsPerDay + end % MsPerDay - MsPerHour);
      assert (end - MsPerHour) / MsPerDay == e - 1;
    } else {
      assert end - MsPerHour == e * MsPerDay + (end % MsPerDay - MsPerHour);
      assert (end - MsPerHour) / MsPerDay == e;
    }
  }

  /** Math.max(...values): -Infinity on no values. */
  datatype Peak = NegInfinity | Max(value: real)

  function PeakOf(rows: seq<AnalyticsRow>): (p: Peak)
    ensures p.NegInfinity? <==> rows == []
    ensures p.Max? ==> (exists i :: 0 <= i < |rows| && rows[i].avg_congestion == p.value)
                       && forall i :: 0 <= i < |rows| ==> rows[i].avg_congestion <= p.value
  {
    if rows == [] then NegInfinity
    else
      var rest := PeakOf(rows[1..]);
      if rest.NegInfinity? || rows[0].avg_congestion >= rest.value then Max(rows[0].avg_congestion)
      else
        assert forall i :: 1 <= i < |rows| ==> rows[i] == rows[1..][i - 1];
        rest
  }

  function Vehicles(rows: seq<AnalyticsRow>): int
  {
    if rows == [] then 0 else rows[0].total_vehicles + Vehicles(rows[1..])
  }

  datatype KeyMetrics = KeyMetrics(average_congestion: real, average_speed: real, peak_congestion: Peak, total_vehicles: int)

  /** The key metrics: `|| 0` averages, Math.max of the congestions and the
      vehicle sum; all of them zero-like on no rows. */
  function GetKeyMetrics(rows: seq<AnalyticsRow>): (k: KeyMetrics)
    ensures k.peak_congestion.NegInfinity? <==> rows == []
    ensures rows == [] ==> k.average_congestion == 0.0 && k.average_speed == 0.0 && k.total_vehicles == 0
  {
    KeyMetrics(MeanOrZero(rows, RowCongestion), MeanOrZero(rows, RowSpeed), PeakOf(rows), Vehicles(rows))
  }

  /** The averages are within the rows' bounds and never above the peak;
      the vehicle total of sample rows is between 1000 and 2999 per row. */
  lemma {:induction false} KeyMetricsBounded(rows: seq<AnalyticsRow>)
    requires SampleBounded(rows)
    requires forall i :: 0 <= i < |rows| ==> 1000 <= rows[i].total_vehicles < 3000
    ensures var k := GetKeyMetrics(rows);
      && 0.0 <= k.average_congestion <= 1.0 && 0.0 <= k.average_speed <= 60.0
      && (k.peak_congestion.Max? ==> k.average_congestion <= k.peak_congestion.value)
      && 1000 * |rows| <= k.total_vehicles <= 2999 * |rows|
  {
    MeanOrZeroBounds(rows);
    var p := PeakOf(rows);
    if p.Max? {
      MeanBounds(rows, RowCongestion, 0.0, p.value);
    }
    if rows != [] {
      var t := rows[1..];
      assert forall i :: 0 <= i < |t| ==> t[i] == rows[i + 1];
      KeyMetricsBounded(t);
    }
  }

  datatype ChartPoint = ChartPoint(date: int, hour: int, y: real)

  /** generateCongestionChart: one point per row, in row order; the label
      `${date} ${hour}:00` is kept as its two parts. */
  function CongestionChart(rows: seq<AnalyticsRow>): (pts: seq<ChartPoint>)
    ensures |pts| == |rows|
    ensures forall i :: 0 <= i < |rows| ==>
      pts[i].date == rows[i].date && pts[i].hour == rows[i].hour && pts[i].y == rows[i].avg_congestion
  {
    seq(|rows|, i requires 0 <= i < |rows| => ChartPoint(rows[i].date, rows[i].hour, rows[i].avg_congestion))
  }

  predicate Below20(d: AnalyticsRow) { d.avg_speed < 20.0 }
  predicate From20To40(d: AnalyticsRow) { 20.0 <= d.avg_speed < 40.0 }
  predicate From40To60(d: AnalyticsRow) { 40.0 <= d.avg_speed < 60.0 }
  predicate From60(d: AnalyticsRow) { d.avg_speed >= 60.0 }

  datatype Slice = Slice(caption: string, value: nat)

  /** generateSpeedDistribution: the four bins in the object's key order; a
      bin's `label` is called `caption` here. */
  function GenerateSpeedDistribution(rows: seq<AnalyticsRow>): (bins: seq<Slice>)
    ensures |bins| == 4
    ensures bins[0] == Slice("0-20 mph", |Filter(rows, Below20)|)
    ensures bins[1] == Slice("20-40 mph", |Filter(rows, From20To40)|)
    ensures bins[2] == Slice("40-60 mph", |Filter(rows, From40To60)|)
    ensures bins[3] == Slice("60+ mph", |Filter(rows, From60)|)
  {
    [Slice("0-20 mph", |Filter(rows, Below20)|), Slice("20-40 mph", |Filter(rows, From20To40)|),
     Slice("40-60 mph", |Filter(rows, From40To60)|), Slice("60+ mph", |Filter(rows, From60)|)]
  }

  /** Every row lands in exactly one bin, so the counts add up to the rows. */
  lemma {:induction false} SpeedBinsPartition(rows: seq<AnalyticsRow>)
    ensures var b := GenerateSpeedDistribution(rows);
      b[0].value + b[1].value + b[2].value + b[3].value == |rows|
  {
    if rows != [] {
      SpeedBinsPartition(rows[1..]);
    }
  }

  function AtHour(rows: seq<AnalyticsRow>, hour: int): seq<AnalyticsRow>
  {
    Filter(rows, (d: AnalyticsRow) => d.hour == hour)
  }

  datatype HourPoint = HourPoint(x: string, y: real)

  /** The point of one hour: its label and the mean congestion of its rows. */
  function HourlyPoint(rows: seq<AnalyticsRow>, hour: nat): HourPoint
  {
    HourPoint(NatToString(hour) + ":00", MeanOrZero(AtHour(rows, hour), RowCongestion))
  }

  /** generateHourlyPatterns: fill the per-hour object for hours 0..23, then
      read it back in key order (ascending, the keys being integers). */
  method GenerateHourlyPatterns(rows: seq<AnalyticsRow>) returns (points: seq<HourPoint>)
    ensures |points| == 24
    ensures forall h :: 0 <= h < 24 ==> points[h] == HourlyPoint(rows, h)
  {
    var hourlyCongestion: seq<real> := [];
    var hour := 0;
    while hour < 24
      invariant 0 <= hour <= 24 && |hourlyCongestion| == hour
      invariant forall h :: 0 <= h < hour ==> hourlyCongestion[h] == MeanOrZero(AtHour(rows, h), RowCongestion)
    {
      var hourData := AtHour(rows, hour);
      hourlyCongestion := hourlyCongestion + [MeanOrZero(hourData, RowCongestion)];
      hour := hour + 1;
    }
    points := [];
    var h := 0;
    while h < 24
      invariant 0 <= h <= 24 && |points| == h
      invariant forall j :: 0 <= j < h ==> points[j] == HourlyPoint(rows, j)
    {
      points := points + [HourPoint(NatToString(h) + ":00", hourlyCongestion[h])];
      h := h + 1;
    }
  }

  /** The 24 labels are distinct, an hour without rows reads 0, and every
      value of sample rows is a congestion level. */
  lemma HourlyPointsWellFormed(rows: seq<AnalyticsRow>, h: nat, k: nat)
    requires SampleBounded(rows)
    ensures h != k ==> HourlyPoint(rows, h).x != HourlyPoint(rows, k).x
    ensures (forall i :: 0 <= i < |rows| ==> rows[i].hour != h) ==> HourlyPoint(rows, h).y == 0.0
    ensures 0.0 <= HourlyPoint(rows, h).y <= 1.0
  {
    if h != k {
      NatToStringInjective(h, k);
      var a, b := NatToString(h), NatToString(k);
      var la, lb := a + ":00", b + ":00";
      assert la[..|a|] == a && lb[..|b|] == b;
    }
    if forall i :: 0 <= i < |rows| ==> rows[i].hour != h {
      FilterNone(rows, (d: AnalyticsRow) => d.hour == h);
    }
    FilterBounded(rows, (d: AnalyticsRow) => d.hour == h);
    MeanOrZeroBounds(AtHour(rows, h));
  }

  datatype SegmentStats = SegmentStats(name: string, avg_congestion: real, avg_speed: real, reliability: real)

  function OfSegment(rows: seq<AnalyticsRow>, id: string): seq<AnalyticsRow>
  {
    Filter(rows, (d: AnalyticsRow) => d.segment_id == Some(id))
  }

  /** generateSegmentPerformance: one entry per segment, in segment order. */
  function GenerateSegmentPerformance(segs: seq<RoadSegment>, rows: seq<AnalyticsRow>, reliability: nat -> Draw): (perf: seq<SegmentStats>)
    ensures |perf| == |segs|
    ensures forall i :: 0 <= i < |segs| ==>
      && perf[i].name == segs[i].name
      && perf[i].avg_congestion == MeanOrZero(OfSegment(rows, segs[i].segment_id), RowCongestion)
      && perf[i].avg_speed == MeanOrZero(OfSegment(rows, segs[i].segment_id), RowSpeed)
      && 0.8 <= perf[i].reliability < 1.0
  {
    seq(|segs|, i requires 0 <= i < |segs| =>
      var segmentData := OfSegment(rows, segs[i].segment_id);
      SegmentStats(segs[i].name, MeanOrZero(segmentData, RowCongestion), MeanOrZero(segmentData, RowSpeed),
        0.8 + reliability(i) * 0.2))
  }

  /** A segment without rows gets 0 averages; the sample rows carry no
      segment id, so on them every segment does. */
  lemma SegmentsWithoutRowsReadZero(segs: seq<RoadSegment>, rows: seq<AnalyticsRow>, reliability: nat -> Draw, i: nat)
    requires i < |segs|
    requires forall j :: 0 <= j < |rows| ==> rows[j].segment_id != Some(segs[i].segment_id)
    ensures var p := GenerateSegmentPerformance(segs, rows, reliability)[i];
      p.avg_congestion == 0.0 && p.avg_speed == 0.0
  {
    FilterNone(rows, (d: AnalyticsRow) => d.segment_id == Some(segs[i].segment_id));
  }

  /** predictCongestion's look-ahead: 1, 2 or 6 hours, 1 for any other timeframe. */
  function LookAhead(timeframe: string): (n: nat)
    ensures n in {1, 2, 6}
    ensures n == 2 <==> timeframe == "2h"
    ensures n == 6 <==> timeframe == "6h"
  {
    if timeframe == "1h" then 1 else if timeframe == "2h" then 2 else if timeframe == "6h" then 6 else 1
  }

  /** predictCongestion at the local hour `hour`, with its Math.random(). */
  function PredictCongestion(base: real, timeframe: string, hour: Hour, noise: Draw): (p: real)
    ensures 0.0 <= p <= 1.0
    ensures var mid := (base + BaseCongestionForHour(hour + LookAhead(timeframe))) / 2.0;
      Clamp01(mid - 0.05) <= p <= Clamp01(mid + 0.05)
  {
    var basePrediction := BaseCongestionForHour(hour + LookAhead(timeframe));
    var x := base + (basePrediction - base) * 0.5 + (noise - 0.5) * 0.1;
    var mid := (base + basePrediction) / 2.0;
    assert mid - 0.05 <= x < mid + 0.05;
    Clamp01(x)
  }

  /** The look-ahead hour is not wrapped to the next day, but every hour it
      can reach past 23 (24..29) reads the night value 0.1, as its wrapped
      hour (0..5) does: the prediction is the same as with wrapping. */
  lemma LookAheadPastMidnight(hour: Hour, timeframe: string)
    ensures BaseCongestionForHour(hour + LookAhead(timeframe)) == BaseCongestionForHour((hour + LookAhead(timeframe)) % 24)
  {
  }

  const HighTier: seq<string> := ["Consider alternative routes due to high predicted congestion", "Leave earlier to account for delays"]
  const MediumTier: seq<string> := ["Monitor traffic conditions for changes", "Have backup routes ready"]
  const LowTier: seq<string> := ["Good traffic conditions expected", "Optimal time for travel"]

  /** generatePredictiveRecommendations: two messages of the tier the
      congestion falls in. */
  function GeneratePredictiveRecommendations(congestion: real): (recs: seq<string>)
    ensures |recs| == 2
    ensures recs == HighTier <==> congestion > 0.7
    ensures recs == MediumTier <==> 0.4 < congestion <= 0.7
    ensures recs == LowTier <==> congestion <= 0.4
  {
    if congestion > 0.7 then HighTier else if congestion > 0.4 then MediumTier else LowTier
  }

  /** What a handler whose `try` may throw answers: a 500 with its error
      string, or success with its data. */
  datatype Served<T> = ServerError(error: string) | Success(data: T)

  /** One entry of the /predictions reply. */
  datatype Prediction = Prediction(segment_id: string, name: string, current_congestion: real,
                                   predicted_congestion: real, confidence: real, recommendations: seq<string>)

  /** GET /predictions. The handler is a module-level arrow function, so its
      `this` is the module's original `exports` object, which never gets a
      predictCongestion (the module later replaces `module.exports` with the
      router). The call on the first segment the forEach visits throws and
      the catch answers 500; only an empty segment table gets through, with
      no predictions. */
  function PredictionsEndpoint(segs: seq<RoadSegment>): (r: Served<seq<Prediction>>)
    ensures r.Success? <==> segs == []
    ensures r.Success? ==> r.data == []
    ensures r.ServerError? ==> r.error == "Failed to fetch predictions"
  {
    if segs == [] then Success([]) else ServerError("Failed to fetch predictions")
  }

  datatype DailyEntry = DailyEntry(hour: nat, congestion: real, volume: int, speed: real)

  /** generateDailyPattern: one entry per hour, with noise in [-0.05, 0.05)
      on the table value, a volume in [500, 2500) and the speed the table
      value gives. */
  method GenerateDailyPattern(noise: nat -> Draw, volume: nat -> Draw) returns (pattern: seq<DailyEntry>)
    ensures |pattern| == 24
    ensures forall h :: 0 <= h < 24 ==>
      && pattern[h].hour == h
      && pattern[h].speed == 60.0 * (1.0 - BaseCongestionForHour(h))
      && 0.0 <= pattern[h].speed <= 54.0
      && BaseCongestionForHour(h) - 0.05 <= pattern[h].congestion < BaseCongestionForHour(h) + 0.05
      && 500 <= pattern[h].volume < 2500
  {
    pattern := [];
    var hour := 0;
    while hour < 24
      invariant 0 <= hour <= 24 && |pattern| == hour
      invariant forall h :: 0 <= h < hour ==>
        && pattern[h].hour == h
        && pattern[h].speed == 60.0 * (1.0 - BaseCongestionForHour(h))
        && 0.0 <= pattern[h].speed <= 54.0
        && BaseCongestionForHour(h) - 0.05 <= pattern[h].congestion < BaseCongestionForHour(h) + 0.05
        && 500 <= pattern[h].volume < 2500
    {
      var base := BaseCongestionForHour(hour);
      var entry := DailyEntry(hour, base + (noise(hour) - 0.5) * 0.1, Floor(500.0 + volume(hour) * 2000.0),
        60.0 * (1.0 - base));
      pattern := pattern + [entry];
      hour := hour + 1;
    }
  }

  datatype WeeklyEntry = WeeklyEntry(day: string, avg_congestion: real, peak_hour: int, avg_volume: int)

  const Days: seq<string> := ["Monday", "Tuesday", "Wednesday", "Thursday", "Friday", "Saturday", "Sunday"]

  /** The three Math.random() calls per entry of the weekly and seasonal patterns. */
  datatype PatternDraws = PatternDraws(congestion: Draw, first: Draw, second: Draw)

  function WeeklyEntryAt(day: string, d: PatternDraws): (e: WeeklyEntry)
    ensures e.day == day && 0.0 <= e.avg_congestion < 0.8
    ensures 8 <= e.peak_hour <= 11 && 1000 <= e.avg_volume < 4000
  {
    PickInRange(d.first, 4);
    WeeklyEntry(day, d.congestion * 0.8, 8 + Floor(d.first * 4.0), Floor(1000.0 + d.second * 3000.0))
  }

  /** generateWeeklyPattern: the seven days in order, the peak between 8 and 11. */
  function GenerateWeeklyPattern(draws: nat -> PatternDraws): (week: seq<WeeklyEntry>)
    ensures |week| == 7
    ensures forall i :: 0 <= i < 7 ==>
      && week[i].day == Days[i]
      && 0.0 <= week[i].avg_congestion < 0.8
      && 8 <= week[i].peak_hour <= 11
      && 1000 <= week[i].avg_volume < 4000
  {
    var week := seq(7, i requires 0 <= i < 7 => WeeklyEntryAt(Days[i], draws(i)));
    assert forall i :: 0 <= i < 7 ==> week[i] == WeeklyEntryAt(Days[i], draws(i));
    week
  }

  /** The season generateMonthlyPattern gives a month. */
  function Season(month: int): (s: string)
    ensures s in {"winter", "spring", "summer", "fall"}
  {
    if month <= 2 || month >= 11 then "winter" else if month <= 5 then "spring" else if month <= 8 then "summer" else "fall"
  }

  /** Winter is Nov–Feb, spring Mar–May, summer Jun–Aug and fall Sep–Oct. */
  lemma SeasonsOfMonths(month: int)
    requires 1 <= month <= 12
    ensures Season(month) == "winter" <==> month in {1, 2, 11, 12}
    ensures Season(month) == "spring" <==> month in {3, 4, 5}
    ensures Season(month) == "summer" <==> month in {6, 7, 8}
    ensures Season(month) == "fall" <==> month in {9, 10}
  {
  }

  datatype MonthlyEntry = MonthlyEntry(month: nat, avg_congestion: real, seasonal_factor: string, avg_volume: int)

  /** generateMonthlyPattern: months 1..12 in order with their season. */
  method GenerateMonthlyPattern(congestion: nat -> Draw, volume: nat -> Draw) returns (pattern: seq<MonthlyEntry>)
    ensures |pattern| == 12
    ensures forall i :: 0 <= i < 12 ==>
      && pattern[i].month == i + 1
      && pattern[i].seasonal_factor == Season(i + 1)
      && 0.2 <= pattern[i].avg_congestion < 0.8
      && 1500 <= pattern[i].avg_volume < 3500
  {
    pattern := [];
    var month := 1;
    while month <= 12
      invariant 1 <= month <= 13 && |pattern| == month - 1
      invariant forall i :: 0 <= i < month - 1 ==>
        && pattern[i].month == i + 1
        && pattern[i].seasonal_factor == Season(i + 1)
        && 0.2 <= pattern[i].avg_congestion < 0.8
        && 1500 <= pattern[i].avg_volume < 3500
    {
      pattern := pattern + [MonthlyEntry(month, congestion(month) * 0.6 + 0.2, Season(month),
        Floor(1500.0 + volume(month) * 2000.0))];
      month := month + 1;
    }
  }

  datatype SeasonalEntry = SeasonalEntry(season: string, avg_congestion: real, weather_impact: real, avg_volume: int)

  const Seasons: seq<string> := ["Spring", "Summer", "Fall", "Winter"]

  /** generateSeasonalPattern: winter has the largest weather impact (0.3),
      summer the smallest (0.1). */
  function SeasonalEntryAt(season: string, d: PatternDraws): (e: SeasonalEntry)
    ensures e.season == season && 0.2 <= e.avg_congestion < 0.7 && 1200 <= e.avg_volume < 3700
    ensures 0.1 <= e.weather_impact <= 0.3
    ensures e.weather_impact == 0.3 <==> season == "Winter"
    ensures e.weather_impact == 0.1 <==> season == "Summer"
  {
    SeasonalEntry(season, d.congestion * 0.5 + 0.2,
      if season == "Winter" then 0.3 else if season == "Summer" then 0.1 else 0.2,
      Floor(1200.0 + d.first * 2500.0))
  }

  function GenerateSeasonalPattern(draws: nat -> PatternDraws): (year: seq<SeasonalEntry>)
    ensures |year| == 4
    ensures forall i :: 0 <= i < 4 ==>
      && year[i].season == Seasons[i]
      && 0.2 <= year[i].avg_congestion < 0.7
      && 1200 <= year[i].avg_volume < 3700
      && 0.1 <= year[i].weather_impact <= 0.3
      && (year[i].weather_impact == 0.3 <==> Seasons[i] == "Winter")
      && (year[i].weather_impact == 0.1 <==> Seasons[i] == "Summer")
  {
    var year := seq(4, i requires 0 <= i < 4 => SeasonalEntryAt(Seasons[i], draws(i)));
    assert forall i :: 0 <= i < 4 ==> year[i] == SeasonalEntryAt(Seasons[i], draws(i));
    year
  }

  datatype HeatCell = HeatCell(segment_id: string, name: string, coordinates: seq<Point>,
                               congestion_level: real, intensity: real, frequency: real, severity: string)

  function SeverityOf(c: real): string
  {
    if c > 0.7 then "high" else if c > 0.4 then "medium" else "low"
  }

  predicate IsHigh(c: HeatCell) { c.severity == "high" }

  /** GET /heatmap-analytics: one random cell per segment, in segment order,
      and the count of high cells. */
  function HeatmapAnalytics(segs: seq<RoadSegment>, level: nat -> Draw, frequency: nat -> Draw): (r: (seq<HeatCell>, nat))
    ensures |r.0| == |segs| && r.1 == |Filter(r.0, IsHigh)|
    ensures forall i :: 0 <= i < |segs| ==>
      && r.0[i].segment_id == segs[i].segment_id && r.0[i].name == segs[i].name
      && 0.0 <= r.0[i].congestion_level < 0.8 && r.0[i].intensity == r.0[i].congestion_level
      && (IsHigh(r.0[i]) <==> r.0[i].congestion_level > 0.7)
  {
    var cells := seq(|segs|, i requires 0 <= i < |segs| =>
      var c := level(i) * 0.8;
      HeatCell(segs[i].segment_id, segs[i].name, segs[i].coordinates, c, c, frequency(i), SeverityOf(c)));
    (cells, |Filter(cells, IsHigh)|)
  }

  datatype Overview = Overview(total_segments: nat, data_points: nat)

  /** The Math.random() calls of the trends, in call order. */
  datatype TrendDraws = TrendDraws(congestion: Draw, speed: Draw, incidents: Draw)

  datatype Trends = Trends(congestion_change: real, speed_change: real, incidents_change: real)

  datatype Charts = Charts(
    congestion_over_time: seq<ChartPoint>,
    speed_distribution: seq<Slice>,
    hourly_patterns: seq<HourPoint>,
    segment_performance: seq<SegmentStats>)

  /** The `data` of the dashboard reply; the constant monitored area and
      uptime are left out. */
  datatype DashboardData = DashboardData(overview: Overview, key_metrics: KeyMetrics, trends: Trends, charts: Charts)

  /** The rows the dashboard reads in memory mode: the sample analytics
      between the window's two dates, each parsed back as a UTC midnight. */
  function DashboardRows(timeRange: string, now: int, variation: (int, int) -> Draw, volume: (int, int) -> Draw): seq<AnalyticsRow>
  {
    SampleAnalytics(DayOf(WindowStart(timeRange, now)) * MsPerDay, DayOf(now) * MsPerDay, variation, volume)
  }

  /** A window of whole days has one pass per calendar day. */
  lemma DashboardRowCount(timeRange: string, now: int, variation: (int, int) -> Draw, volume: (int, int) -> Draw)
    ensures |DashboardRows(timeRange, now, variation, volume)| == 24 * DayCount(DayOf(WindowStart(timeRange, now)), DayOf(now))
  {
    var a, b := DayOf(WindowStart(timeRange, now)), DayOf(now);
    assert DayOf(a * MsPerDay) == a && (a * MsPerDay) % MsPerDay == 0;
    assert DayOf(b * MsPerDay) == b && (b * MsPerDay) % MsPerDay == 0;
    SampleDaysAndCalendarDays(a * MsPerDay, b * MsPerDay);
  }

  /** GET /dashboard in memory mode: every part of the reply is computed
      from the same sample rows of the window's days. */
  method Dashboard(segs: seq<RoadSegment>, timeRange: string, now: int,
                   variation: (int, int) -> Draw, volume: (int, int) -> Draw, trend: TrendDraws, reliability: nat -> Draw)
    returns (data: DashboardData)
    ensures var rows := DashboardRows(timeRange, now, variation, volume);
      && data.overview == Overview(|segs|, |rows|)
      && data.key_metrics == GetKeyMetrics(rows)
      && data.charts.congestion_over_time == CongestionChart(rows)
      && data.charts.speed_distribution == GenerateSpeedDistribution(rows)
      && |data.charts.hourly_patterns| == 24
      && (forall h :: 0 <= h < 24 ==> data.charts.hourly_patterns[h] == HourlyPoint(rows, h))
      && data.charts.segment_performance == GenerateSegmentPerformance(segs, rows, reliability)
    ensures data.trends == Trends(trend.congestion * 0.2 - 0.1, trend.speed * 0.15 - 0.075, trend.incidents * 0.3 - 0.15)
    ensures timeRange == "7d" ==> data.overview.data_points == 192
    ensures timeRange == "30d" ==> data.overview.data_points == 744
    ensures timeRange == "1h" ==> data.overview.data_points == (if now % MsPerDay < MsPerHour then 48 else 24)
    ensures timeRange !in {"1h", "7d", "30d"} ==> data.overview.data_points == 48
    ensures var k := data.key_metrics;
      && 0.0 <= k.average_congestion <= 1.0 && 0.0 <= k.average_speed <= 60.0
      && k.peak_congestion.Max? && k.average_congestion <= k.peak_congestion.value
      && 1000 * data.overview.data_points <= k.total_vehicles <= 2999 * data.overview.data_points
    ensures var b := data.charts.speed_distribution;
      b[0].value + b[1].value + b[2].value + b[3].value == data.overview.data_points
    ensures forall h :: 0 <= h < 24 ==> 0.0 <= data.charts.hourly_patterns[h].y <= 1.0
  {
    var startDay, endDay := DayOf(WindowStart(timeRange, now)), DayOf(now);
    var rows := GenerateSampleAnalytics(Some(startDay * MsPerDay), Some(endDay * MsPerDay), variation, volume);
    WindowDays(timeRange, now);
    DashboardRowCount(timeRange, now, variation, volume);
    forall i | 0 <= i < |rows|
      ensures 0.0 <= rows[i].avg_congestion <= 1.0 && 0.0 <= rows[i].avg_speed <= 60.0
      ensures 1000 <= rows[i].total_vehicles < 3000
    {
      SampleAnalyticsBounded(startDay * MsPerDay, endDay * MsPerDay, variation, volume, i);
    }
    KeyMetricsBounded(rows);
    SpeedBinsPartition(rows);
    var hourly := GenerateHourlyPatterns(rows);
    forall h | 0 <= h < 24 ensures 0.0 <= hourly[h].y <= 1.0 {
      HourlyPointsWellFormed(rows, h, h);
    }
    data := DashboardData(
      Overview(|segs|, |rows|),
      GetKeyMetrics(rows),
      Trends(trend.congestion * 0.2 - 0.1, trend.speed * 0.15 - 0.075, trend.incidents * 0.3 - 0.15),
      Charts(CongestionChart(rows), GenerateSpeedDistribution(rows), hourly, GenerateSegmentPerformance(segs, rows, reliability)));
  }
}
