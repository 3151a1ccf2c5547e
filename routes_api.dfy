/** The route endpoints: a route is a prefix of the stored segments, each
    enriched with its latest traffic record, with summed distance and time,
    mean congestion and turn-by-turn text. The origin and destination are
    only checked for presence; no route depends on them. Math.random(),
    the clock and number formatting are parameters. */
module RoutesApi {
  import opened Numeric
  import opened Seqs
  import opened Sorting
  import opened Entities
  import opened Http
  import Database

  /** A selected segment: the stored segment with the live fields that
      `{ ...segment, current_speed, congestion_level, travel_time_minutes }`
      overrides. */
  datatype RouteSegment = RouteSegment(segment: RoadSegment, current_speed: int, congestion_level: real, travel_time_minutes: real)

  /** The fallback travel time divides by the speed limit. */
  predicate PositiveLimits(segs: seq<RoadSegment>)
  {
    forall i :: 0 <= i < |segs| ==> segs[i].speed_limit > 0
  }

  function FreeFlowMinutes(s: RoadSegment): real
    requires s.speed_limit > 0
  {
    s.length_km / s.speed_limit as real * 60.0
  }

  /** trafficData.find(t => t.segment_id === id): the first record of the segment. */
  function RecordFor(traffic: seq<TrafficRecord>, id: string): (r: Option<TrafficRecord>)
    ensures r.None? <==> forall j :: 0 <= j < |traffic| ==> traffic[j].segment_id != id
    ensures r.Some? ==> exists j :: 0 <= j < |traffic| && traffic[j] == r.value && traffic[j].segment_id == id
                                  && forall l :: 0 <= l < j ==> traffic[l].segment_id != id
  {
    var j := FindIndex(traffic, (t: TrafficRecord) => t.segment_id == id);
    if j < 0 then None else Some(traffic[j])
  }

  /** The live fields of one segment, or the limit, 0 and the free-flow time. */
  function Enrich(s: RoadSegment, traffic: seq<TrafficRecord>): RouteSegment
    requires s.speed_limit > 0
  {
    match RecordFor(traffic, s.segment_id)
    case Some(t) => RouteSegment(s, t.current_speed, t.congestion_level, t.travel_time_minutes)
    case None => RouteSegment(s, s.speed_limit, 0.0, FreeFlowMinutes(s))
  }

  /** Math.floor(Math.random() * 5) + 3. */
  function SelectionSize(d: Draw): (k: nat)
    ensures 3 <= k <= 7
  {
    PickInRange(d, 5);
    Floor(d * 5.0) + 3
  }

  /** selectOptimalSegments: the first min(n, k) segments, k in 3..7, each
      with its first traffic record's fields or the fallbacks. */
  function SelectOptimalSegments(segs: seq<RoadSegment>, traffic: seq<TrafficRecord>, d: Draw): (rs: seq<RouteSegment>)
    requires PositiveLimits(segs)
    ensures |rs| == if |segs| < SelectionSize(d) then |segs| else SelectionSize(d)
    ensures forall i :: 0 <= i < |rs| ==> rs[i].segment == segs[i]
    ensures forall i :: 0 <= i < |rs| ==>
      match RecordFor(traffic, segs[i].segment_id)
      case Some(t) =>
        rs[i].current_speed == t.current_speed && rs[i].congestion_level == t.congestion_level
        && rs[i].travel_time_minutes == t.travel_time_minutes
      case None =>
        rs[i].current_speed == segs[i].speed_limit && rs[i].congestion_level == 0.0
        && rs[i].travel_time_minutes == FreeFlowMinutes(segs[i])
  {
    var k := SelectionSize(d);
    var n := if |segs| < k then |segs| else k;
    seq(n, i requires 0 <= i < n => Enrich(segs[i], traffic))
  }

  function Length(s: RouteSegment): real { s.segment.length_km }
  function Minutes(s: RouteSegment): real { s.travel_time_minutes }
  function Level(s: RouteSegment): real { s.congestion_level }
  function StoredLength(s: RoadSegment): real { s.length_km }

  /** sum / length: NaN on an empty route. */
  function Mean(rs: seq<RouteSegment>, f: RouteSegment -> real): (m: Number)
    ensures m.NaN? <==> rs == []
  {
    if rs == [] then NaN else Num(Sum(rs, f) / |rs| as real)
  }

  const HeavySuffix: string := " (Heavy traffic expected)"
  const ModerateSuffix: string := " (Moderate traffic)"
  const Arrival: string := "You have arrived at your destination"

  function Suffix(c: real): string
  {
    if c > 0.7 then HeavySuffix else if c > 0.4 then ModerateSuffix else ""
  }

  /** The text for the segment at a position before its congestion suffix;
      `fmt` stands for toFixed(1). */
  function StepText(index: nat, s: RouteSegment, fmt: real -> string): string
  {
    (if index == 0 then "Head " else "Continue on ") + s.segment.name + " for " + fmt(s.segment.length_km) + " km"
  }

  function Step(index: nat, s: RouteSegment, fmt: real -> string): string
  {
    StepText(index, s, fmt) + Suffix(s.congestion_level)
  }

  /** The instruction list: one step per segment, then the arrival line. */
  function Instructions(rs: seq<RouteSegment>, fmt: real -> string): (ins: seq<string>)
    ensures |ins| == |rs| + 1 && ins[|rs|] == Arrival
    ensures forall i :: 0 <= i < |rs| ==> ins[i] == Step(i, rs[i], fmt)
  {
    seq(|rs|, i requires 0 <= i < |rs| => Step(i, rs[i], fmt)) + [Arrival]
  }

  predicate StartsWith(s: string, t: string) { |t| <= |s| && s[..|t|] == t }
  predicate EndsWith(s: string, t: string) { |t| <= |s| && s[|s| - |t|..] == t }

  /** The step of a segment ends in the heavy suffix exactly when its
      congestion is above 0.7, and in the moderate one exactly when it is
      in (0.4, 0.7]. */
  lemma StepSuffix(index: nat, s: RouteSegment, fmt: real -> string)
    ensures var line := Step(index, s, fmt);
      && (EndsWith(line, HeavySuffix) <==> s.congestion_level > 0.7)
      && (EndsWith(line, ModerateSuffix) <==> 0.4 < s.congestion_level <= 0.7)
  {
    var text := StepText(index, s, fmt);
    var line := Step(index, s, fmt);
    assert text[|text| - 1] == 'm';
    var c := s.congestion_level;
    if c > 0.7 {
      assert line == text + HeavySuffix;
      assert line[|line| - 2] == 'd';
      assert !EndsWith(line, ModerateSuffix);
    } else if c > 0.4 {
      assert line == text + ModerateSuffix;
      assert line[|line| - 2] == 'c';
      assert !EndsWith(line, HeavySuffix);
    } else {
      assert line == text;
      assert line[|line| - 1] == 'm';
      assert !EndsWith(line, HeavySuffix);
      assert !EndsWith(line, ModerateSuffix);
    }
  }

  lemma StepPrefix(index: nat, s: RouteSegment, fmt: real -> string)
    ensures StartsWith(Step(index, s, fmt), if index == 0 then "Head " else "Continue on ")
  {
    var head := if index == 0 then "Head " else "Continue on ";
    assert Step(index, s, fmt) == head + (s.segment.name + " for " + fmt(s.segment.length_km) + " km" + Suffix(s.congestion_level));
  }

  /** n segments give n + 1 lines: "Head …" first, "Continue on …" after,
      the arrival line last, and a congestion suffix by the thresholds. */
  lemma InstructionsShape(rs: seq<RouteSegment>, fmt: real -> string)
    ensures var ins := Instructions(rs, fmt);
      && |ins| == |rs| + 1 && ins[|rs|] == Arrival
      && (|rs| > 0 ==> StartsWith(ins[0], "Head "))
      && (forall i :: 0 < i < |rs| ==> StartsWith(ins[i], "Continue on "))
      && (forall i :: 0 <= i < |rs| ==> (EndsWith(ins[i], HeavySuffix) <==> rs[i].congestion_level > 0.7))
      && (forall i :: 0 <= i < |rs| ==> (EndsWith(ins[i], ModerateSuffix) <==> 0.4 < rs[i].congestion_level <= 0.7))
  {
    var ins := Instructions(rs, fmt);
    forall i | 0 <= i < |rs|
      ensures StartsWith(ins[i], if i == 0 then "Head " else "Continue on ")
      ensures EndsWith(ins[i], HeavySuffix) <==> rs[i].congestion_level > 0.7
      ensures EndsWith(ins[i], ModerateSuffix) <==> 0.4 < rs[i].congestion_level <= 0.7
    {
      StepPrefix(i, rs[i], fmt);
      StepSuffix(i, rs[i], fmt);
    }
  }

  /** generateRouteInstructions: push the step text, then append the
      congestion suffix to the last element. */
  method GenerateRouteInstructions(segments: seq<RouteSegment>, fmt: real -> string) returns (instructions: seq<string>)
    ensures instructions == Instructions(segments, fmt)
  {
    instructions := [];
    var index := 0;
    while index < |segments|
      invariant 0 <= index <= |segments|
      invariant |instructions| == index
      invariant forall j :: 0 <= j < index ==> instructions[j] == Step(j, segments[j], fmt)
    {
      var segment := segments[index];
      if index == 0 {
        instructions := instructions + ["Head " + segment.segment.name + " for " + fmt(segment.segment.length_km) + " km"];
      } else {
        instructions := instructions + ["Continue on " + segment.segment.name + " for " + fmt(segment.segment.length_km) + " km"];
      }
      var last := |instructions| - 1;
      if segment.congestion_level > 0.7 {
        instructions := instructions[..last] + [instructions[last] + HeavySuffix];
      } else if segment.congestion_level > 0.4 {
        instructions := instructions[..last] + [instructions[last] + ModerateSuffix];
      }
      index := index + 1;
    }
    instructions := instructions + [Arrival];
  }

  datatype Route = Route(
    id: string,
    name: string,
    description: string,
    segments: seq<RouteSegment>,
    distance: real,
    estimated_time: real,
    congestion_level: Number,
    instructions: seq<string>)

  /** The object each calculate*Route builds around its selected segments. */
  function BuildRoute(id: string, name: string, description: string, rs: seq<RouteSegment>, fmt: real -> string): (r: Route)
    ensures r.id == id && r.segments == rs && |r.instructions| == |rs| + 1
    ensures r.congestion_level.Num? <==> rs != []
  {
    Route(id, name, description, rs, Sum(rs, Length), Sum(rs, Minutes), Mean(rs, Level), Instructions(rs, fmt))
  }

  /** Lengths are positive and times and congestion are as the stored
      records give them: distance and time are then non-negative and the
      congestion is NaN exactly on an empty route, otherwise in [0, 1]. */
  lemma RouteAggregatesBounded(id: string, name: string, description: string, rs: seq<RouteSegment>, fmt: real -> string)
    requires forall i :: 0 <= i < |rs| ==> 0.0 <= rs[i].segment.length_km && 0.0 <= rs[i].travel_time_minutes
    requires forall i :: 0 <= i < |rs| ==> 0.0 <= rs[i].congestion_level <= 1.0
    ensures var r := BuildRoute(id, name, description, rs, fmt);
      && 0.0 <= r.distance && 0.0 <= r.estimated_time
      && (r.congestion_level.NaN? <==> rs == [])
      && (r.congestion_level.Num? ==> 0.0 <= r.congestion_level.value <= 1.0)
  {
    SumNonNeg(rs, Length);
    SumNonNeg(rs, Minutes);
    if rs != [] {
      MeanBounds(rs, Level, 0.0, 1.0);
    }
  }

  /** A sum of non-negative terms is non-negative. */
  lemma {:induction false} SumNonNeg(rs: seq<RouteSegment>, f: RouteSegment -> real)
    requires forall j :: 0 <= j < |rs| ==> 0.0 <= f(rs[j])
    ensures 0.0 <= Sum(rs, f)
  {
    if rs != [] {
      var t := rs[1..];
      assert forall j :: 0 <= j < |t| ==> t[j] == rs[j + 1];
      SumNonNeg(t, f);
    }
  }

  /** A selected route covers exactly the length of the first segments of
      the list; with no traffic records its time is their free-flow time
      and its congestion 0. */
  lemma SelectedRouteCoversPrefix(segs: seq<RoadSegment>, traffic: seq<TrafficRecord>, d: Draw)
    requires PositiveLimits(segs)
    ensures var rs := SelectOptimalSegments(segs, traffic, d);
      Sum(rs, Length) == Sum(segs[..|rs|], StoredLength)
    ensures var rs := SelectOptimalSegments(segs, traffic, d);
      traffic == [] ==>
        && (forall i :: 0 <= i < |rs| ==> rs[i].travel_time_minutes == FreeFlowMinutes(segs[i]) && rs[i].congestion_level == 0.0)
        && (rs != [] ==> Mean(rs, Level) == Num(0.0))
  {
    var rs := SelectOptimalSegments(segs, traffic, d);
    SumCongruent(rs, Length, segs[..|rs|], StoredLength);
    if traffic == [] && rs != [] {
      forall i | 0 <= i < |rs| ensures Level(rs[i]) == 0.0 {
        assert RecordFor(traffic, segs[i].segment_id).None?;
      }
      SumBounds(rs, Level, 0.0, 0.0);
    }
  }

  /** One instruction per segment plus the arrival, and an average
      congestion exactly when the route has segments. */
  predicate Shaped(r: Route)
  {
    |r.instructions| == |r.segments| + 1 && (r.congestion_level.Num? <==> r.segments != [])
  }

  predicate IsHighway(s: RoadSegment) { s.kind == "highway" }
  predicate NotHighway(s: RoadSegment) { s.kind != "highway" }

  /** The four route options and their labels. */
  datatype Criterion = Fastest | Shortest | Efficient | Scenic
  {
    function Id(): string
    {
      match this
      case Fastest => "fastest"
      case Shortest => "shortest"
      case Efficient => "efficient"
      case Scenic => "scenic"
    }

    function Name(): string
    {
      match this
      case Fastest => "Fastest Route"
      case Shortest => "Shortest Route"
      case Efficient => "Most Efficient"
      case Scenic => "Scenic Route"
    }

    function Description(): string
    {
      match this
      case Fastest => "Optimal route based on current traffic conditions"
      case Shortest => "Route with minimum distance"
      case Efficient => "Balanced route considering time and distance"
      case Scenic => "Avoids highways, more scenic drive"
    }
  }

  /** calculateFastestRoute, calculateShortestRoute and
      calculateEfficientRoute differ only in their labels: the criteria
      argument is unused. */
  function RouteOver(c: Criterion, segs: seq<RoadSegment>,
                     traffic: seq<TrafficRecord>, d: Draw, fmt: real -> string): (r: Route)
    requires PositiveLimits(segs)
    ensures r.id == c.Id() && Shaped(r)
  {
    BuildRoute(c.Id(), c.Name(), c.Description(), SelectOptimalSegments(segs, traffic, d), fmt)
  }

  /** calculateScenicRoute: selection over the non-highway segments only. */
  function CalculateScenicRoute(segs: seq<RoadSegment>, traffic: seq<TrafficRecord>, d: Draw, fmt: real -> string): (r: Route)
    requires PositiveLimits(segs)
    ensures r.id == Scenic.Id() && Shaped(r)
    ensures forall i :: 0 <= i < |r.segments| ==> r.segments[i].segment.kind != "highway" && r.segments[i].segment in segs
  {
    var scenic := Filter(segs, NotHighway);
    assert PositiveLimits(scenic) by {
      forall i | 0 <= i < |scenic| ensures scenic[i].speed_limit > 0 {
        assert scenic[i] in scenic;
      }
    }
    var rs := SelectOptimalSegments(scenic, traffic, d);
    assert forall i :: 0 <= i < |rs| ==> rs[i].segment in scenic;
    RouteOver(Scenic, scenic, traffic, d, fmt)
  }

  /** The `scenic` preference; the scenic route is left out only when it is
      literally false. */
  datatype Preferences = Preferences(scenic: Option<bool>)

  /** The Math.random() of each route's selection, in call order. */
  datatype OptionDraws = OptionDraws(fastest: Draw, shortest: Draw, efficient: Draw, scenic: Draw)

  /** The route of one option, drawn with that option's Math.random(). */
  function OptionRoute(c: Criterion, segs: seq<RoadSegment>, traffic: seq<TrafficRecord>,
                       d: OptionDraws, fmt: real -> string): (r: Route)
    requires PositiveLimits(segs)
    ensures r.id == c.Id() && Shaped(r)
    ensures c == Scenic ==> forall i :: 0 <= i < |r.segments| ==> r.segments[i].segment.kind != "highway"
  {
    match c
    case Fastest => RouteOver(Fastest, segs, traffic, d.fastest, fmt)
    case Shortest => RouteOver(Shortest, segs, traffic, d.shortest, fmt)
    case Efficient => RouteOver(Efficient, segs, traffic, d.efficient, fmt)
    case Scenic => CalculateScenicRoute(segs, traffic, d.scenic, fmt)
  }

  /** The options offered: the scenic one is left out only when the
      preference is literally false. */
  function OfferedCriteria(prefs: Preferences): (cs: seq<Criterion>)
    ensures |cs| == if prefs.scenic == Some(false) then 3 else 4
    ensures cs[0] == Fastest && cs[1] == Shortest && cs[2] == Efficient
    ensures |cs| == 4 ==> cs[3] == Scenic
  {
    if prefs.scenic == Some(false) then [Fastest, Shortest, Efficient]
    else [Fastest, Shortest, Efficient, Scenic]
  }

  /** calculateRouteOptions: fastest, shortest, efficient and, unless
      declined, scenic, in that order. No route is ever null, so the final
      filter keeps them all. */
  function CalculateRouteOptions(segs: seq<RoadSegment>, traffic: seq<TrafficRecord>, prefs: Preferences,
                                 d: OptionDraws, fmt: real -> string): (routes: seq<Route>)
    requires PositiveLimits(segs)
    ensures |routes| == if prefs.scenic == Some(false) then 3 else 4
    ensures forall i :: 0 <= i < |routes| ==> Shaped(routes[i])
  {
    var cs := OfferedCriteria(prefs);
    seq(|cs|, i requires 0 <= i < |cs| => OptionRoute(cs[i], segs, traffic, d, fmt))
  }

  /** The options come out as fastest, shortest, efficient, then scenic. */
  lemma RouteOptionIds(segs: seq<RoadSegment>, traffic: seq<TrafficRecord>, prefs: Preferences,
                       d: OptionDraws, fmt: real -> string)
    requires PositiveLimits(segs)
    ensures var routes := CalculateRouteOptions(segs, traffic, prefs, d, fmt);
      && routes[0].id == "fastest" && routes[1].id == "shortest" && routes[2].id == "efficient"
      && (|routes| == 4 ==> routes[3].id == "scenic")
  {
    var routes := CalculateRouteOptions(segs, traffic, prefs, d, fmt);
    assert routes[0] == OptionRoute(Fastest, segs, traffic, d, fmt);
    assert routes[1] == OptionRoute(Shortest, segs, traffic, d, fmt);
    assert routes[2] == OptionRoute(Efficient, segs, traffic, d, fmt);
    if |routes| == 4 {
      assert routes[3] == OptionRoute(Scenic, segs, traffic, d, fmt);
    }
  }

  /** The scenic option, when offered, uses no highway. */
  lemma ScenicOptionAvoidsHighways(segs: seq<RoadSegment>, traffic: seq<TrafficRecord>, prefs: Preferences,
                                   d: OptionDraws, fmt: real -> string)
    requires PositiveLimits(segs) && prefs.scenic != Some(false)
    ensures var routes := CalculateRouteOptions(segs, traffic, prefs, d, fmt);
      |routes| == 4 && forall i :: 0 <= i < |routes[3].segments| ==> routes[3].segments[i].segment.kind != "highway"
  {
    var routes := CalculateRouteOptions(segs, traffic, prefs, d, fmt);
    assert routes[3] == OptionRoute(Scenic, segs, traffic, d, fmt);
  }

  /** POST /calculate. */
  function CalculateEndpoint(origin: Option<string>, destination: Option<string>, segs: seq<RoadSegment>,
                             traffic: seq<TrafficRecord>, prefs: Preferences, d: OptionDraws, fmt: real -> string): (r: Reply<seq<Route>>)
    requires PositiveLimits(segs)
    ensures r.BadRequest? <==> !Present(origin) || !Present(destination)
    ensures r.BadRequest? ==> r.error == "Origin and destination are required"
    ensures r.Ok? ==> r.body == CalculateRouteOptions(segs, traffic, prefs, d, fmt)
  {
    if !Present(origin) || !Present(destination) then BadRequest("Origin and destination are required")
    else Ok(CalculateRouteOptions(segs, traffic, prefs, d, fmt))
  }

  /** The three Math.random() calls of one alternative, in call order. */
  datatype AltDraws = AltDraws(select: Draw, reliability: Draw, tolls: Draw)

  datatype Alternative = Alternative(
    id: string,
    name: string,
    segments: seq<RouteSegment>,
    distance: real,
    estimated_time: real,
    congestion_level: Number,
    reliability: real,
    tolls: bool,
    highways: bool)

  function HasHighway(s: RouteSegment): bool { IsHighway(s.segment) }

  /** The alternative built in round i. */
  function AlternativeAt(i: nat, segs: seq<RoadSegment>, traffic: seq<TrafficRecord>, d: AltDraws): (a: Alternative)
    requires PositiveLimits(segs)
    ensures a.id == "alternative_" + NatToString(i) && a.name == "Alternative Route " + NatToString(i + 1)
    ensures a.segments == SelectOptimalSegments(segs, traffic, d.select)
    ensures a.highways <==> exists j :: 0 <= j < |a.segments| && a.segments[j].segment.kind == "highway"
    ensures 0.7 <= a.reliability < 1.0
    ensures a.tolls <==> d.tolls < 0.3
  {
    var rs := SelectOptimalSegments(segs, traffic, d.select);
    var highways := Any(rs, HasHighway);
    assert highways ==> exists j :: 0 <= j < |rs| && rs[j].segment.kind == "highway";
    assert (exists j :: 0 <= j < |rs| && rs[j].segment.kind == "highway") ==> highways by {
      if exists j :: 0 <= j < |rs| && rs[j].segment.kind == "highway" {
        var j :| 0 <= j < |rs| && rs[j].segment.kind == "highway";
        assert rs[j] in rs && HasHighway(rs[j]);
      }
    }
    Alternative("alternative_" + NatToString(i), "Alternative Route " + NatToString(i + 1), rs,
      Sum(rs, Length), Sum(rs, Minutes), Mean(rs, Level), 0.7 + d.reliability * 0.3, d.tolls < 0.3, highways)
  }

  /** The alternatives in the order the loop builds them. */
  function Alternatives(n: nat, segs: seq<RoadSegment>, traffic: seq<TrafficRecord>, draws: nat -> AltDraws): (alts: seq<Alternative>)
    requires PositiveLimits(segs)
    ensures |alts| == n
    ensures forall i :: 0 <= i < n ==> alts[i] == AlternativeAt(i, segs, traffic, draws(i))
  {
    seq(n, i requires 0 <= i < n => AlternativeAt(i, segs, traffic, draws(i)))
  }

  /** `for (let i = 0; i < limit; i++)` with limit = parseInt(…): a NaN
      (None) or non-positive limit runs no round. */
  function Rounds(limit: Option<int>): (n: nat)
    ensures limit.Some? && limit.value > 0 ==> n == limit.value
    ensures limit.None? || limit.value <= 0 ==> n == 0
  {
    if limit.Some? && limit.value > 0 then limit.value else 0
  }

  /** A `limit` query parameter with a numeric default: absent (None) takes
      the default; a given one is parseInt's result, None for NaN. */
  function LimitParam(limit: Option<Option<int>>, default: nat): (l: Option<int>)
    ensures limit.None? ==> l == Some(default)
    ensures limit.Some? ==> l == limit.value
  {
    if limit.None? then Some(default) else limit.value
  }

  function EstimatedTime(a: Alternative): real { a.estimated_time }

  /** generateRouteAlternatives: one alternative per round, then sorted by
      ascending estimated time. */
  method GenerateRouteAlternatives(segs: seq<RoadSegment>, traffic: seq<TrafficRecord>, limit: Option<int>, draws: nat -> AltDraws)
    returns (alternatives: seq<Alternative>)
    requires PositiveLimits(segs)
    ensures |alternatives| == Rounds(limit)
    ensures SortedBy(alternatives, EstimatedTime)
    ensures multiset(alternatives) == multiset(Alternatives(Rounds(limit), segs, traffic, draws))
  {
    var built: seq<Alternative> := [];
    var i := 0;
    var n := Rounds(limit);
    while i < n
      invariant 0 <= i <= n
      invariant |built| == i
      invariant forall j :: 0 <= j < i ==> built[j] == AlternativeAt(j, segs, traffic, draws(j))
    {
      built := built + [AlternativeAt(i, segs, traffic, draws(i))];
      i := i + 1;
    }
    assert built == Alternatives(n, segs, traffic, draws);
    alternatives := SortBy(built, EstimatedTime);
  }

  /** GET /alternatives: `limit` defaults to 3. */
  method AlternativesEndpoint(origin: Option<string>, destination: Option<string>, segs: seq<RoadSegment>,
                              traffic: seq<TrafficRecord>, limit: Option<Option<int>>, draws: nat -> AltDraws)
    returns (r: Reply<seq<Alternative>>)
    requires PositiveLimits(segs)
    ensures r.BadRequest? <==> !Present(origin) || !Present(destination)
    ensures r.BadRequest? ==> r.error == "Origin and destination are required"
    ensures r.Ok? ==>
      var n := Rounds(LimitParam(limit, 3));
      && |r.body| == n && SortedBy(r.body, EstimatedTime)
      && multiset(r.body) == multiset(Alternatives(n, segs, traffic, draws))
    ensures r.Ok? && limit.None? ==> |r.body| == 3
  {
    if !Present(origin) || !Present(destination) {
      r := BadRequest("Origin and destination are required");
    } else {
      var alternatives := GenerateRouteAlternatives(segs, traffic, LimitParam(limit, 3), draws);
      r := Ok(alternatives);
    }
  }

  const RouteNames: seq<string> := ["Home to Work", "Work to Gym", "Gym to Home", "Home to Shopping", "Home to Airport"]

  /** The Math.random() calls of one history entry, in call order. */
  datatype HistoryDraws = HistoryDraws(
    route: Draw, daysBack: Draw,
    originLat: Draw, originLng: Draw, destinationLat: Draw, destinationLng: Draw,
    actual: Draw, estimated: Draw, speed: Draw, distance: Draw, congestion: Draw)

  /** A history entry; the travel date is in milliseconds. */
  datatype HistoryEntry = HistoryEntry(
    id: string,
    route_name: string,
    origin: Point,
    destination: Point,
    travel_date: int,
    actual_duration: int,
    estimated_duration: int,
    average_speed: int,
    distance: int,
    congestion_level: real)

  /** The entry of round i; `now` is the `new Date()` of that round and a
      day is taken as 24 hours. */
  function HistoryEntryAt(i: nat, now: int, d: HistoryDraws): (e: HistoryEntry)
    ensures e.id == "history_" + NatToString(i)
    ensures e.route_name in RouteNames
    ensures now - 29 * MsPerDay <= e.travel_date <= now && (now - e.travel_date) % MsPerDay == 0
    ensures 15 <= e.actual_duration < 60 && 15 <= e.estimated_duration < 60
    ensures 25 <= e.average_speed < 60 && 5 <= e.distance < 30
    ensures 0.0 <= e.congestion_level < 1.0
    ensures 37.7249 <= e.origin.lat < 37.8249 && -122.4694 <= e.origin.lng < -122.3694
    ensures 37.7544 <= e.destination.lat < 37.8544 && -122.3211 <= e.destination.lng < -122.2211
  {
    PickInRange(d.route, 5);
    PickInRange(d.daysBack, 30);
    HistoryEntry(
      "history_" + NatToString(i),
      RouteNames[Floor(d.route * 5.0)],
      Point(37.7749 + (d.originLat - 0.5) * 0.1, -122.4194 + (d.originLng - 0.5) * 0.1),
      Point(37.8044 + (d.destinationLat - 0.5) * 0.1, -122.2711 + (d.destinationLng - 0.5) * 0.1),
      now - Floor(d.daysBack * 30.0) * MsPerDay,
      Floor(15.0 + d.actual * 45.0),
      Floor(15.0 + d.estimated * 45.0),
      Floor(25.0 + d.speed * 35.0),
      Floor(5.0 + d.distance * 25.0),
      d.congestion)
  }

  function HistoryEntries(n: nat, clock: nat -> int, draws: nat -> HistoryDraws): (h: seq<HistoryEntry>)
    ensures |h| == n
    ensures forall i :: 0 <= i < n ==> h[i] == HistoryEntryAt(i, clock(i), draws(i))
  {
    seq(n, i requires 0 <= i < n => HistoryEntryAt(i, clock(i), draws(i)))
  }

  /** The comparator `new Date(b) - new Date(a)`: newest first. */
  function Age(e: HistoryEntry): real { -(e.travel_date as real) }

  /** generateSampleRouteHistory: one entry per round, newest first. */
  method GenerateSampleRouteHistory(limit: Option<int>, clock: nat -> int, draws: nat -> HistoryDraws)
    returns (history: seq<HistoryEntry>)
    ensures |history| == Rounds(limit)
    ensures forall i, j :: 0 <= i < j < |history| ==> history[j].travel_date <= history[i].travel_date
    ensures multiset(history) == multiset(HistoryEntries(Rounds(limit), clock, draws))
  {
    var built: seq<HistoryEntry> := [];
    var i := 0;
    var n := Rounds(limit);
    while i < n
      invariant 0 <= i <= n
      invariant built == HistoryEntries(i, clock, draws)
    {
      built := built + [HistoryEntryAt(i, clock(i), draws(i))];
      i := i + 1;
    }
    history := SortBy(built, Age);
    forall i, j | 0 <= i < j < |history| ensures history[j].travel_date <= history[i].travel_date {
      assert Age(history[i]) <= Age(history[j]);
    }
  }

  /** GET /history: `limit` defaults to 10; the user id plays no part. */
  method HistoryEndpoint(limit: Option<Option<int>>, clock: nat -> int, draws: nat -> HistoryDraws)
    returns (history: seq<HistoryEntry>)
    ensures |history| == Rounds(LimitParam(limit, 10))
    ensures limit.None? ==> |history| == 10
    ensures forall i, j :: 0 <= i < j < |history| ==> history[j].travel_date <= history[i].travel_date
    ensures multiset(history) == multiset(HistoryEntries(Rounds(LimitParam(limit, 10)), clock, draws))
  {
    history := GenerateSampleRouteHistory(LimitParam(limit, 10), clock, draws);
  }

  datatype Estimate = Estimate(kind: string, duration_minutes: int, arrival_time: int, conditions: string)

  datatype TimeEstimates = TimeEstimates(
    departure_time: int,
    estimates: seq<Estimate>,
    delay_minutes: int,
    congestion_level: real,
    recommended_departure: int)

  /** 1 + base * 0.5 with the database's hourly table. */
  function Multiplier(hour: int): (m: real)
    ensures 1.05 <= m <= 1.45
  {
    1.0 + Database.BaseCongestionForHour(hour) * 0.5
  }

  /** generateTimeEstimates at a departure time (milliseconds) whose local
      hour is `hour`. */
  function GenerateTimeEstimates(departure: int, hour: Hour): (t: TimeEstimates)
    ensures t.departure_time == departure && |t.estimates| == 3
    ensures t.estimates[0].conditions == "Light traffic, ideal conditions"
    ensures t.estimates[1].conditions == "Current traffic conditions"
    ensures t.estimates[2].conditions == "Heavy traffic, potential delays"
  {
    var m := Multiplier(hour);
    TimeEstimates(
      departure,
      [Estimate("optimistic", Floor(20.0 * m * 0.8), Trunc(departure as real + 20.0 * m * 0.8 * 60000.0), "Light traffic, ideal conditions"),
       Estimate("realistic", Floor(25.0 * m), Trunc(departure as real + 25.0 * m * 60000.0), "Current traffic conditions"),
       Estimate("pessimistic", Floor(35.0 * m * 1.2), Trunc(departure as real + 35.0 * m * 1.2 * 60000.0), "Heavy traffic, potential delays")],
      Floor(m * 10.0),
      Database.BaseCongestionForHour(hour),
      Trunc(departure as real - m * 10.0 * 60000.0))
  }

  /** Optimistic ≤ realistic ≤ pessimistic, in duration and arrival, all
      arrivals after the departure, and a recommended departure 10 to 14
      minutes earlier. */
  lemma TimeEstimatesOrdered(departure: int, hour: Hour)
    ensures var t := GenerateTimeEstimates(departure, hour);
      && |t.estimates| == 3
      && t.estimates[0].kind == "optimistic" && t.estimates[1].kind == "realistic" && t.estimates[2].kind == "pessimistic"
      && 16 <= t.estimates[0].duration_minutes <= t.estimates[1].duration_minutes <= t.estimates[2].duration_minutes <= 60
      && departure < t.estimates[0].arrival_time <= t.estimates[1].arrival_time <= t.estimates[2].arrival_time
      && 10 <= t.delay_minutes <= 14
      && t.recommended_departure < departure
      && t.congestion_level == Database.BaseCongestionForHour(hour)
  {
    var m := Multiplier(hour);
    var d := departure as real;
    assert 20.0 * m * 0.8 == 16.0 * m && 35.0 * m * 1.2 == 42.0 * m;
    assert 16.0 <= 16.0 * m <= 25.0 * m <= 42.0 * m <= 60.9;
    TruncMonotonic(d + 16.0 * m * 60000.0, d + 25.0 * m * 60000.0);
    TruncMonotonic(d + 25.0 * m * 60000.0, d + 42.0 * m * 60000.0);
    TruncMonotonic(d + 60000.0, d + 16.0 * m * 60000.0);
    assert Trunc(d + 60000.0) == departure + 60000;
    TruncMonotonic(d - m * 10.0 * 60000.0, d - 60000.0);
    assert Trunc(d - 60000.0) == departure - 60000;
  }

  /** GET /time-estimates. */
  function TimeEstimatesEndpoint(origin: Option<string>, destination: Option<string>, departure: int, hour: Hour): (r: Reply<TimeEstimates>)
    ensures r.BadRequest? <==> !Present(origin) || !Present(destination)
    ensures r.Ok? ==> r.body == GenerateTimeEstimates(departure, hour)
  {
    if !Present(origin) || !Present(destination) then BadRequest("Origin and destination are required")
    else Ok(GenerateTimeEstimates(departure, hour))
  }

  /** The `preferences` object of a favourite, its values taken as strings. */
  type FavoritePreferences = map<string, string>

  datatype FavoriteRoute = FavoriteRoute(
    id: string, name: string, origin: string, destination: string,
    waypoints: seq<Point>, preferences: FavoritePreferences, created_at: int, usage_count: nat)

  /** POST /favorites: echoed back, nothing is stored; absent waypoints
      default to [] and absent preferences to {}. */
  function SaveFavoriteEndpoint(name: Option<string>, origin: Option<string>, destination: Option<string>,
                                waypoints: Option<seq<Point>>, preferences: Option<FavoritePreferences>, id: string, now: int): (r: Reply<FavoriteRoute>)
    ensures r.BadRequest? <==> !Present(name) || !Present(origin) || !Present(destination)
    ensures r.BadRequest? ==> r.error == "Name, origin, and destination are required"
    ensures r.Ok? ==>
      && r.body.usage_count == 0 && r.body.id == id && r.body.created_at == now
      && r.body.name == name.value && r.body.origin == origin.value && r.body.destination == destination.value
      && r.body.waypoints == (if waypoints.Some? then waypoints.value else [])
      && r.body.preferences == (if preferences.Some? then preferences.value else map[])
  {
    if !Present(name) || !Present(origin) || !Present(destination) then BadRequest("Name, origin, and destination are required")
    else Ok(FavoriteRoute(id, name.value, origin.value, destination.value,
                          if waypoints.Some? then waypoints.value else [],
                          if preferences.Some? then preferences.value else map[], now, 0))
  }
}
