/** planner_tools.py: the travel planner's tools.  Float parsing
    (`float()`), the geocoding request, the route service, the web search
    API and `datetime.fromisoformat` are parameters; the weather
    aggregation and the formatting of numbers are not part of this model. */
module PlannerTools {
  import opened Text
  import Brave

  // ---------------------------------------------------------------------
  // Coordinates

  /** `float(text)`: `None` when the text is not a number.  NaN and the
      infinities, which `float` accepts, fail every range check below and
      so behave like `None`. */
  type ToFloat = string -> Option<real>

  /** A position, latitude first, as the helpers return it. */
  datatype LatLon = LatLon(lat: real, lon: real)

  predicate IsLat(v: real) { -90.0 <= v <= 90.0 }
  predicate IsLon(v: real) { -180.0 <= v <= 180.0 }

  /** How many times `c` occurs in `s`. */
  function Count(s: string, c: char): nat
    decreases |s|
  {
    if s == [] then 0 else (if s[0] == c then 1 else 0) + Count(s[1..], c)
  }

  lemma {:induction false} CountPositive(s: string, c: char)
    ensures c in s <==> Count(s, c) > 0
    decreases |s|
  {
    if s != [] {
      CountPositive(s[1..], c);
      assert c in s <==> s[0] == c || c in s[1..];
    }
  }

  /** `s.split(c)` */
  function Split(s: string, c: char): (r: seq<string>)
    ensures |r| >= 1
    ensures forall i :: 0 <= i < |r| ==> c !in r[i]
    decreases |s|
  {
    if s == [] then [[]]
    else
      var rest := Split(s[1..], c);
      if s[0] == c then [[]] + rest else [[s[0]] + rest[0]] + rest[1..]
  }

  /** One more part than separators. */
  lemma {:induction false} SplitCount(s: string, c: char)
    ensures |Split(s, c)| == Count(s, c) + 1
    decreases |s|
  {
    if s != [] {
      SplitCount(s[1..], c);
    }
  }

  /** Joining the parts with the separator gives the string back. */
  lemma {:induction false} SplitJoin(s: string, c: char)
    ensures Join(Split(s, c), [c]) == s
    decreases |s|
  {
    if s != [] {
      var rest := Split(s[1..], c);
      SplitJoin(s[1..], c);
      if s[0] == c {
        assert Split(s, c) == [[]] + rest;
        JoinEmptyFirst(rest, [c]);
      } else {
        assert Split(s, c) == [[s[0]] + rest[0]] + rest[1..];
        JoinExtendFirst(s[0], rest, [c]);
      }
      assert s == [s[0]] + s[1..];
    }
  }

  /** An empty first part contributes just the separator. */
  lemma {:induction false} JoinEmptyFirst(parts: seq<string>, sep: string)
    requires parts != []
    ensures Join([[]] + parts, sep) == sep + Join(parts, sep)
  {
    assert ([[]] + parts)[1..] == parts;
  }

  /** A character put in front of the first part comes first in the join. */
  lemma {:induction false} JoinExtendFirst(x: char, parts: seq<string>, sep: string)
    requires parts != []
    ensures Join([[x] + parts[0]] + parts[1..], sep) == [x] + Join(parts, sep)
  {
    var r := [[x] + parts[0]] + parts[1..];
    if |parts| > 1 {
      assert r[1..] == parts[1..];
      var tail := Join(parts[1..], sep);
      assert ([x] + parts[0]) + sep + tail == [x] + (parts[0] + sep + tail);
    }
  }

  /** The two values in the order the ranges suggest: latitude first when
      that fits, otherwise longitude first, otherwise nothing. */
  function Ordered(v1: real, v2: real): (r: Option<LatLon>)
    ensures r.Some? ==> IsLat(r.value.lat) && IsLon(r.value.lon)
    ensures r.Some? ==> (r.value == LatLon(v1, v2) || r.value == LatLon(v2, v1))
  {
    if IsLat(v1) && IsLon(v2) then Some(LatLon(v1, v2))
    else if IsLon(v1) && IsLat(v2) then Some(LatLon(v2, v1))
    else None
  }

  /** `_parse_coordinates_from_string`, with its "ambiguous" branch. */
  function ParseCoordinates(s: string, toFloat: ToFloat): (r: Option<LatLon>)
    ensures r.Some? ==> IsLat(r.value.lat) && IsLon(r.value.lon)
  {
    if ',' !in s then None
    else
      var parts := Split(s, ',');
      if |parts| != 2 then None
      else match (toFloat(Strip(parts[0])), toFloat(Strip(parts[1])))
        case (Some(v1), Some(v2)) =>
          if IsLat(v1) && IsLon(v2) then Some(LatLon(v1, v2))
          else if IsLon(v1) && IsLat(v2) then Some(LatLon(v2, v1))
          else if IsLat(v1) && IsLat(v2) && IsLon(v1) && IsLon(v2) then Some(LatLon(v1, v2))
          else None
        case _ => None
  }

  /** A string parses exactly when it holds one comma, both sides are
      numbers and one of the two orders is in range; the "ambiguous"
      branch adds nothing, since a pair that fits both orders already
      fits the first. */
  lemma {:induction false} ParseCoordinatesShape(s: string, toFloat: ToFloat)
    ensures ParseCoordinates(s, toFloat).Some? ==> Count(s, ',') == 1
    ensures Count(s, ',') == 1 ==> |Split(s, ',')| == 2
    ensures |Split(s, ',')| == 2 ==>
      var parts := Split(s, ',');
      match (toFloat(Strip(parts[0])), toFloat(Strip(parts[1])))
        case (Some(v1), Some(v2)) => ParseCoordinates(s, toFloat) == Ordered(v1, v2)
        case _ => ParseCoordinates(s, toFloat).None?
  {
    SplitCount(s, ',');
    CountPositive(s, ',');
  }

  /** `_get_coordinates_owm`: a blank input is refused; a coordinate
      string is used as it is; anything else is geocoded, which needs the
      key. */
  function Resolve(location: string, keySet: bool, toFloat: ToFloat, geocode: string -> Option<LatLon>): (r: Option<LatLon>)
    ensures Strip(location) == [] ==> r.None?
    ensures Strip(location) != [] && ParseCoordinates(location, toFloat).Some? ==> r == ParseCoordinates(location, toFloat)
    ensures Strip(location) != [] && ParseCoordinates(location, toFloat).None? ==>
      r == (if keySet then geocode(Strip(location)) else None)
  {
    if Strip(location) == [] then None
    else
      var parsed := ParseCoordinates(location, toFloat);
      if parsed.Some? then parsed
      else if !keySet then None
      else geocode(Strip(location))
  }

  /** A coordinate string needs neither the key nor the geocoder. */
  lemma {:induction false} CoordinatesNeedNoGeocoding(location: string, toFloat: ToFloat, k1: bool, k2: bool,
                                   g1: string -> Option<LatLon>, g2: string -> Option<LatLon>)
    requires Strip(location) != [] && ParseCoordinates(location, toFloat).Some?
    ensures Resolve(location, k1, toFloat, g1) == Resolve(location, k2, toFloat, g2)
    ensures IsLat(Resolve(location, k1, toFloat, g1).value.lat) && IsLon(Resolve(location, k1, toFloat, g1).value.lon)
  {
  }

  // ---------------------------------------------------------------------
  // Weather

  const WeatherKeyMissing: string := "Error: OpenWeatherMap API Key is not configured. Cannot provide weather forecast."
  const NoCoordinatesStart: string := "Error: Could not retrieve coordinates for the city '"
  const NoCoordinatesEnd: string := "'. Please ensure it's a valid city name or format like 'lat,lon'."

  /** The number of forecast days used: `min(max(1, days), 5)`. */
  function ForecastDays(days: int): (d: int)
    ensures 1 <= d <= 5
    ensures 1 <= days <= 5 ==> d == days
    ensures days < 1 ==> d == 1
    ensures days > 5 ==> d == 5
  {
    var atLeastOne := if days > 1 then days else 1;
    if atLeastOne < 5 then atLeastOne else 5
  }

  /** What `get_weather_forecast_daily` does before its request: an error
      text, or the position and day count of the forecast asked for. */
  datatype WeatherStart = WeatherError(message: string) | Forecast(at: LatLon, days: int)

  function WeatherRequest(city: string, days: int, keySet: bool, toFloat: ToFloat, geocode: string -> Option<LatLon>): (r: WeatherStart)
    ensures !keySet ==> r == WeatherError(WeatherKeyMissing)
    ensures keySet && Resolve(city, keySet, toFloat, geocode).None? ==>
      r == WeatherError(NoCoordinatesStart + city + NoCoordinatesEnd)
    ensures r.Forecast? ==> 1 <= r.days <= 5 && Some(r.at) == Resolve(city, keySet, toFloat, geocode)
  {
    if !keySet then WeatherError(WeatherKeyMissing)
    else match Resolve(city, keySet, toFloat, geocode)
      case None => WeatherError(NoCoordinatesStart + city + NoCoordinatesEnd)
      case Some(at) => Forecast(at, ForecastDays(days))
  }

  // ---------------------------------------------------------------------
  // Routes

  const OrsKeyMissing: string := "Error: OpenRouteService API Key is not configured. Cannot plan route."
  const TooFewLocations: string := "Error: At least two locations (as a list of strings) are required to plan a route."
  const UnresolvableStart: string := "Error: Could not resolve location '"
  const UnresolvableEnd: string := ") to coordinates. Cannot plan the full route."
  const FewResolved: string := "Error: Less than two locations were successfully resolved to coordinates. Cannot plan route."
  const NoSegments: string := "Error: Could not calculate any route segments. Please check locations and API services."

  function Unresolvable(location: string, index: nat): string {
    UnresolvableStart + location + "' (index " + NatToString(index) + UnresolvableEnd
  }

  /** The route service's profiles, in the order they are asked. */
  datatype Profile = Car | Cycling | Walking

  const Profiles: seq<Profile> := [Car, Cycling, Walking]

  /** The profile's name in the service's URL. */
  function ProfileKey(p: Profile): string {
    match p
      case Car => "driving-car"
      case Cycling => "cycling-regular"
      case Walking => "foot-walking"
  }

  /** A position as the route service takes it: longitude first. */
  datatype Point = Point(lon: real, lat: real)

  /** The reply to one route request: the first route's summary (metres
      and seconds, 0 when missing), no route, a failed request, or any
      other error.  A failed request carries the status the code reports,
      which it reads only when `e_req.response` is truthy; a `Response`
      with an error status is falsy, so an HTTP error reports `None`
      (shown as `N/A`). */
  datatype OrsReply = RouteSummary(distance: real, duration: real) | NoRoute | HttpFailure(status: Option<nat>) | OtherFailure

  /** One mode of a segment: a usable distance and duration, or the reason
      there is none. */
  datatype Mode = Measured(km: real, minutes: real) | ZeroRoute | NotFound | ApiFailure(status: Option<nat>) | CalculationError

  function ModeOf(reply: OrsReply): (m: Mode)
    ensures m.Measured? ==> reply.RouteSummary? && (m.km > 0.0 || m.minutes > 0.0)
    ensures reply.RouteSummary? && (reply.distance > 0.0 || reply.duration > 0.0) ==>
      m == Measured(reply.distance / 1000.0, reply.duration / 60.0)
  {
    match reply
      case RouteSummary(distance, duration) =>
        var km := distance / 1000.0;
        var minutes := duration / 60.0;
        if km > 0.0 || minutes > 0.0 then Measured(km, minutes) else ZeroRoute
      case NoRoute => NotFound
      case HttpFailure(status) => ApiFailure(status)
      case OtherFailure => CalculationError
  }

  /** `min(valid_modes, key=duration)`: the first mode, in profile order,
      with the shortest duration among those measured. */
  function Recommended(modes: seq<Mode>): (r: Option<nat>)
    ensures r.Some? ==> r.value < |modes| && modes[r.value].Measured?
    ensures r.Some? ==> forall j :: 0 <= j < |modes| && modes[j].Measured? ==> modes[r.value].minutes <= modes[j].minutes
    ensures r.Some? ==> forall j :: 0 <= j < r.value && modes[j].Measured? ==> modes[j].minutes > modes[r.value].minutes
    ensures r.None? <==> forall j :: 0 <= j < |modes| ==> !modes[j].Measured?
  {
    if modes == [] then None
    else
      var init := modes[..|modes| - 1];
      var last := modes[|modes| - 1];
      var best := Recommended(init);
      assert forall j :: 0 <= j < |init| ==> init[j] == modes[j];
      if last.Measured? && (best.None? || last.minutes < init[best.value].minutes) then Some(|modes| - 1)
      else best
  }

  /** One leg of the route. */
  datatype Segment = Segment(origin: string, destination: string, modes: seq<Mode>, recommended: Option<nat>)

  function ModesFor(start: Point, end: Point, ors: (Profile, Point, Point) -> OrsReply): (r: seq<Mode>)
    ensures |r| == |Profiles|
    ensures forall k :: 0 <= k < |r| ==> r[k] == ModeOf(ors(Profiles[k], start, end))
  {
    [ModeOf(ors(Car, start, end)), ModeOf(ors(Cycling, start, end)), ModeOf(ors(Walking, start, end))]
  }

  function SegmentAt(locations: seq<string>, points: seq<Point>, i: nat, ors: (Profile, Point, Point) -> OrsReply): Segment
    requires i + 1 < |locations| && |points| == |locations|
  {
    var modes := ModesFor(points[i], points[i + 1], ors);
    Segment(locations[i], locations[i + 1], modes, Recommended(modes))
  }

  /** The legs between consecutive locations. */
  function Segments(locations: seq<string>, points: seq<Point>, ors: (Profile, Point, Point) -> OrsReply): (r: seq<Segment>)
    requires 2 <= |locations| && |points| == |locations|
    ensures |r| == |locations| - 1
    ensures forall i :: 0 <= i < |r| ==> r[i].origin == locations[i] && r[i].destination == locations[i + 1]
    ensures forall i :: 0 <= i < |r| ==> r[i].recommended == Recommended(r[i].modes)
  {
    seq(|locations| - 1, i requires 0 <= i < |locations| - 1 => SegmentAt(locations, points, i, ors))
  }

  /** The recommended mode's distance and duration, 0 without one. */
  function RecommendedKm(s: Segment): real {
    if s.recommended.Some? && s.recommended.value < |s.modes| && s.modes[s.recommended.value].Measured?
    then s.modes[s.recommended.value].km else 0.0
  }

  function RecommendedMinutes(s: Segment): real {
    if s.recommended.Some? && s.recommended.value < |s.modes| && s.modes[s.recommended.value].Measured?
    then s.modes[s.recommended.value].minutes else 0.0
  }

  /** The totals: the recommended modes' sums, other modes left out. */
  function TotalKm(segments: seq<Segment>): real {
    if segments == [] then 0.0 else TotalKm(segments[..|segments| - 1]) + RecommendedKm(segments[|segments| - 1])
  }

  function TotalMinutes(segments: seq<Segment>): real {
    if segments == [] then 0.0 else TotalMinutes(segments[..|segments| - 1]) + RecommendedMinutes(segments[|segments| - 1])
  }

  /** Each location resolved, in ORS order, or the first that was not. */
  datatype Resolution = Unresolved(index: nat) | Resolved(points: seq<Point>)

  /** The `i`-th location is the first that does not resolve. */
  predicate FirstUnresolved(locations: seq<string>, i: int, keySet: bool, toFloat: ToFloat, geocode: string -> Option<LatLon>) {
    0 <= i < |locations| && Resolve(locations[i], keySet, toFloat, geocode).None? &&
    forall j :: 0 <= j < i ==> Resolve(locations[j], keySet, toFloat, geocode).Some?
  }

  function ResolveAll(locations: seq<string>, keySet: bool, toFloat: ToFloat, geocode: string -> Option<LatLon>): (r: Resolution)
    ensures r.Resolved? ==> |r.points| == |locations|
    ensures r.Resolved? ==> forall i :: 0 <= i < |locations| ==>
      (Resolve(locations[i], keySet, toFloat, geocode).Some? &&
       r.points[i] == Point(Resolve(locations[i], keySet, toFloat, geocode).value.lon, Resolve(locations[i], keySet, toFloat, geocode).value.lat))
    ensures r.Unresolved? ==> FirstUnresolved(locations, r.index, keySet, toFloat, geocode)
  {
    if locations == [] then Resolved([])
    else
      var init := locations[..|locations| - 1];
      assert forall j :: 0 <= j < |init| ==> init[j] == locations[j];
      match ResolveAll(init, keySet, toFloat, geocode)
        case Unresolved(i) => Unresolved(i)
        case Resolved(points) =>
          match Resolve(locations[|locations| - 1], keySet, toFloat, geocode)
            case None => Unresolved(|locations| - 1)
            case Some(c) => Resolved(points + [Point(c.lon, c.lat)])
  }

  /** What `plan_route_ors` answers: an error text, or the legs, the
      totals and whether the totals are shown. */
  datatype RoutePlan = RouteError(message: string) | Plan(segments: seq<Segment>, totalKm: real, totalMinutes: real, showTotals: bool)

  function PlanRoute(orsKeySet: bool, owmKeySet: bool, locations: seq<string>, toFloat: ToFloat,
                     geocode: string -> Option<LatLon>, ors: (Profile, Point, Point) -> OrsReply): (r: RoutePlan)
    ensures !orsKeySet ==> r == RouteError(OrsKeyMissing)
    ensures orsKeySet && |locations| < 2 ==> r == RouteError(TooFewLocations)
  {
    if !orsKeySet then RouteError(OrsKeyMissing)
    else if |locations| < 2 then RouteError(TooFewLocations)
    else match ResolveAll(locations, owmKeySet, toFloat, geocode)
      case Unresolved(i) => RouteError(Unresolvable(locations[i], i))
      case Resolved(points) =>
        if |points| < 2 then RouteError(FewResolved)
        else
          var segments := Segments(locations, points, ors);
          var km := TotalKm(segments);
          var minutes := TotalMinutes(segments);
          if km > 0.0 || minutes > 0.0 then Plan(segments, km, minutes, true)
          else if segments == [] then RouteError(NoSegments)
          else Plan(segments, km, minutes, false)
  }

  /** Once every location resolves there is a plan: the two checks after
      the resolving loop never fire.  A plan has one leg per consecutive
      pair of locations, totals that sum the recommended modes, and shows
      the totals when they are positive. */
  lemma {:induction false} PlanShape(orsKeySet: bool, owmKeySet: bool, locations: seq<string>, toFloat: ToFloat,
                  geocode: string -> Option<LatLon>, ors: (Profile, Point, Point) -> OrsReply)
    ensures orsKeySet && 2 <= |locations| && ResolveAll(locations, owmKeySet, toFloat, geocode).Resolved? ==>
      PlanRoute(orsKeySet, owmKeySet, locations, toFloat, geocode, ors).Plan?
    ensures var r := PlanRoute(orsKeySet, owmKeySet, locations, toFloat, geocode, ors);
      r.Plan? ==> 2 <= |locations| && |r.segments| == |locations| - 1
    ensures var r := PlanRoute(orsKeySet, owmKeySet, locations, toFloat, geocode, ors);
      r.Plan? ==> forall i :: 0 <= i < |r.segments| ==>
        (r.segments[i].origin == locations[i] && r.segments[i].destination == locations[i + 1])
    ensures var r := PlanRoute(orsKeySet, owmKeySet, locations, toFloat, geocode, ors);
      r.Plan? ==> r.totalKm == TotalKm(r.segments) && r.totalMinutes == TotalMinutes(r.segments)
    ensures var r := PlanRoute(orsKeySet, owmKeySet, locations, toFloat, geocode, ors);
      r.Plan? ==> (r.showTotals <==> r.totalKm > 0.0 || r.totalMinutes > 0.0)
  {
  }

  /** A location that cannot be resolved stops the planning, and the
      error names the first such location and its index. */
  lemma {:induction false} UnresolvedStopsPlanning(orsKeySet: bool, owmKeySet: bool, locations: seq<string>, toFloat: ToFloat,
                                geocode: string -> Option<LatLon>, ors: (Profile, Point, Point) -> OrsReply, i: nat)
    requires orsKeySet && |locations| >= 2 && FirstUnresolved(locations, i, owmKeySet, toFloat, geocode)
    ensures PlanRoute(orsKeySet, owmKeySet, locations, toFloat, geocode, ors) == RouteError(Unresolvable(locations[i], i))
  {
    match ResolveAll(locations, owmKeySet, toFloat, geocode)
      case Resolved(_) =>
      case Unresolved(j) =>
        assert FirstUnresolved(locations, j, owmKeySet, toFloat, geocode);
        assert !(j < i) && !(i < j);
  }

  /** Each leg asks every profile for the route between the two
      positions, longitude first, and recommends the fastest measured. */
  lemma {:induction false} SegmentAsksLonLat(locations: seq<string>, toFloat: ToFloat, owmKeySet: bool,
                          geocode: string -> Option<LatLon>, ors: (Profile, Point, Point) -> OrsReply, i: nat, k: nat)
    requires 2 <= |locations| && ResolveAll(locations, owmKeySet, toFloat, geocode).Resolved?
    requires i + 1 < |locations| && k < |Profiles|
    ensures var points := ResolveAll(locations, owmKeySet, toFloat, geocode).points;
      var a := Resolve(locations[i], owmKeySet, toFloat, geocode).value;
      var b := Resolve(locations[i + 1], owmKeySet, toFloat, geocode).value;
      Segments(locations, points, ors)[i].modes[k] == ModeOf(ors(Profiles[k], Point(a.lon, a.lat), Point(b.lon, b.lat)))
  {
  }

  /** The inner loop over the profiles, in order. */
  method AskProfiles(start: Point, end: Point, ors: (Profile, Point, Point) -> OrsReply) returns (modes: seq<Mode>)
    ensures modes == ModesFor(start, end, ors)
  {
    modes := [];
    for j := 0 to |Profiles|
      invariant |modes| == j
      invariant forall k :: 0 <= k < j ==> modes[k] == ModeOf(ors(Profiles[k], start, end))
    {
      modes := modes + [ModeOf(ors(Profiles[j], start, end))];
    }
  }

  lemma {:induction false} TotalsSnoc(segments: seq<Segment>, s: Segment)
    ensures TotalKm(segments + [s]) == TotalKm(segments) + RecommendedKm(s)
    ensures TotalMinutes(segments + [s]) == TotalMinutes(segments) + RecommendedMinutes(s)
  {
    assert (segments + [s])[..|segments|] == segments;
  }

  /** The legs computed so far, one more appended. */
  lemma {:induction false} LegsSnoc(locations: seq<string>, points: seq<Point>, ors: (Profile, Point, Point) -> OrsReply,
                 segments: seq<Segment>, segment: Segment)
    requires |segments| + 1 < |locations| && |points| == |locations|
    requires forall k :: 0 <= k < |segments| ==> segments[k] == SegmentAt(locations, points, k, ors)
    requires segment == SegmentAt(locations, points, |segments|, ors)
    ensures forall k :: 0 <= k <= |segments| ==> (segments + [segment])[k] == SegmentAt(locations, points, k, ors)
  {
  }

  /** Legs built one by one in order are the legs of the route. */
  lemma {:induction false} LegsAreSegments(locations: seq<string>, points: seq<Point>, ors: (Profile, Point, Point) -> OrsReply,
                        segments: seq<Segment>)
    requires 2 <= |locations| && |points| == |locations| && |segments| == |locations| - 1
    requires forall k :: 0 <= k < |segments| ==> segments[k] == SegmentAt(locations, points, k, ors)
    ensures segments == Segments(locations, points, ors)
  {
    var spec := Segments(locations, points, ors);
    assert forall k :: 0 <= k < |spec| ==> spec[k] == SegmentAt(locations, points, k, ors);
  }

  /** The segment loop of `plan_route_ors`, with its running totals. */
  method SegmentLoop(locations: seq<string>, points: seq<Point>, ors: (Profile, Point, Point) -> OrsReply)
    returns (segments: seq<Segment>, km: real, minutes: real)
    requires 2 <= |locations| && |points| == |locations|
    ensures segments == Segments(locations, points, ors)
    ensures km == TotalKm(segments) && minutes == TotalMinutes(segments)
  {
    segments, km, minutes := [], 0.0, 0.0;
    for i := 0 to |points| - 1
      invariant |segments| == i
      invariant forall k :: 0 <= k < i ==> segments[k] == SegmentAt(locations, points, k, ors)
      invariant km == TotalKm(segments) && minutes == TotalMinutes(segments)
    {
      var modes := AskProfiles(points[i], points[i + 1], ors);
      var recommended := Recommended(modes);
      var segment := Segment(locations[i], locations[i + 1], modes, recommended);
      assert segment == SegmentAt(locations, points, i, ors);
      if recommended.Some? {
        km := km + modes[recommended.value].km;
        minutes := minutes + modes[recommended.value].minutes;
      }
      TotalsSnoc(segments, segment);
      LegsSnoc(locations, points, ors, segments, segment);
      segments := segments + [segment];
    }
    LegsAreSegments(locations, points, ors, segments);
  }

  /** The resolving loop of `plan_route_ors`: positions appended in ORS
      order, stopping at the first location that does not resolve. */
  method ResolveLoop(locations: seq<string>, keySet: bool, toFloat: ToFloat, geocode: string -> Option<LatLon>)
    returns (r: Resolution)
    ensures r == ResolveAll(locations, keySet, toFloat, geocode)
  {
    var points: seq<Point> := [];
    for i := 0 to |locations|
      invariant ResolveAll(locations[..i], keySet, toFloat, geocode) == Resolved(points)
    {
      ResolveStep(locations, i, keySet, toFloat, geocode, points);
      var position := Resolve(locations[i], keySet, toFloat, geocode);
      if position.None? {
        UnresolvedStays(locations, keySet, toFloat, geocode, i + 1);
        return Unresolved(i);
      }
      points := points + [Point(position.value.lon, position.value.lat)];
    }
    assert locations[..|locations|] == locations;
    r := Resolved(points);
  }

  /** One more location either resolves, extending the points, or is the
      first that does not. */
  lemma {:induction false} ResolveStep(locations: seq<string>, i: nat, keySet: bool, toFloat: ToFloat,
                                       geocode: string -> Option<LatLon>, points: seq<Point>)
    requires i < |locations| && ResolveAll(locations[..i], keySet, toFloat, geocode) == Resolved(points)
    ensures ResolveAll(locations[..i + 1], keySet, toFloat, geocode) ==
      match Resolve(locations[i], keySet, toFloat, geocode)
        case None => Unresolved(i)
        case Some(c) => Resolved(points + [Point(c.lon, c.lat)])
  {
    assert locations[..i + 1][..i] == locations[..i];
  }

  lemma {:induction false} UnresolvedStays(locations: seq<string>, keySet: bool, toFloat: ToFloat, geocode: string -> Option<LatLon>, k: nat)
    requires k <= |locations| && ResolveAll(locations[..k], keySet, toFloat, geocode).Unresolved?
    ensures ResolveAll(locations, keySet, toFloat, geocode) == ResolveAll(locations[..k], keySet, toFloat, geocode)
    decreases |locations| - k
  {
    if k < |locations| {
      assert locations[..k + 1][..k] == locations[..k];
      UnresolvedStays(locations, keySet, toFloat, geocode, k + 1);
    } else {
      assert locations[..k] == locations;
    }
  }

  /** `plan_route_ors`. */
  method PlanRouteOrs(orsKeySet: bool, owmKeySet: bool, locations: seq<string>, toFloat: ToFloat,
                      geocode: string -> Option<LatLon>, ors: (Profile, Point, Point) -> OrsReply)
    returns (r: RoutePlan)
    ensures r == PlanRoute(orsKeySet, owmKeySet, locations, toFloat, geocode, ors)
  {
    if !orsKeySet {
      return RouteError(OrsKeyMissing);
    }
    if |locations| < 2 {
      return RouteError(TooFewLocations);
    }
    var resolution := ResolveLoop(locations, owmKeySet, toFloat, geocode);
    if resolution.Unresolved? {
      return RouteError(Unresolvable(locations[resolution.index], resolution.index));
    }
    if |resolution.points| < 2 {
      return RouteError(FewResolved);
    }
    var segments, km, minutes := SegmentLoop(locations, resolution.points, ors);
    if km > 0.0 || minutes > 0.0 {
      return Plan(segments, km, minutes, true);
    }
    if segments == [] {
      return RouteError(NoSegments);
    }
    return Plan(segments, km, minutes, false);
  }

  // ---------------------------------------------------------------------
  // Web search and operational details

  const ErrorTag: string := "Error:"
  const NoResultsTag: string := "No web search results found"
  const SearchUnavailable: string := ErrorTag + " Web search tool is not available (Brave API key missing or client initialization failed)."
  const SearchFailedPrefix: string := ErrorTag + " Web search API request failed: "
  const SearchUnexpectedPrefix: string := ErrorTag + " An unexpected error occurred during web search: "

  /** The module's client: made when the key is set, absent when the key
      is missing or the client refused it. */
  function ModuleClient(braveKey: string): (r: Option<Brave.Client>)
    ensures r.Some? <==> braveKey != []
  {
    if braveKey == [] then None
    else match Brave.NewClient(braveKey, false)
      case Results(client) => Some(client)
      case _ => None
  }

  /** `str()` of a result's value: a missing value prints as `None`. */
  function Shown(v: Option<string>): string {
    if v.Some? then v.value else "None"
  }

  function NoResults(query: string): string {
    NoResultsTag + " for '" + query + "'."
  }

  /** The block of the `i`-th result (counting from 0). */
  function ResultBlock(i: nat, hit: Brave.WebHit): string {
    "\n" + NatToString(i + 1) + ". Title: " + Shown(hit.title) + "\n   URL: " + Shown(hit.url) + "\n   Snippet: " + Shown(hit.description)
  }

  /** The header and one block per result. */
  function ResultLines(query: string, hits: seq<Brave.WebHit>): (r: seq<string>)
    ensures |r| == |hits| + 1
    ensures r[0] == "Web Search Results for '" + query + "':"
    ensures forall i :: 0 <= i < |hits| ==> r[i + 1] == ResultBlock(i, hits[i])
  {
    ["Web Search Results for '" + query + "':"] + seq(|hits|, i requires 0 <= i < |hits| => ResultBlock(i, hits[i]))
  }

  /** `general_web_search`: at most five results are asked for; the
      sanitised results are shown under a header, an empty answer says so,
      and a failed search shows the client's message after its prefix. */
  function WebSearch(client: Option<Brave.Client>, query: string, count: int,
                     api: (string, string, int) -> Brave.Reply<seq<Brave.WebHit>>): (r: string)
    ensures client.None? ==> r == SearchUnavailable
    ensures var reply := api(Brave.BaseWebUrl, query, Brave.Capped(if count < 5 then count else 5));
      client.Some? && reply.Payload? ==>
        r == if Brave.Sanitize(reply.results) == [] then NoResults(query)
             else Join(ResultLines(query, Brave.Sanitize(reply.results)), "\n")
    ensures var reply := api(Brave.BaseWebUrl, query, Brave.Capped(if count < 5 then count else 5));
      client.Some? && !reply.Payload? ==>
        r == SearchFailedPrefix + match reply
          case RequestError(e) => Brave.WebRequestFailed + e
          case BadJson(e) => Brave.WebParseFailed + e
          case OtherError(e) => Brave.WebUnexpected + e
          case Payload(_) => []
  {
    if client.None? then SearchUnavailable
    else match Brave.SearchWeb(client.value, query, if count < 5 then count else 5, api)
      case Results(hits) => if hits == [] then NoResults(query) else Join(ResultLines(query, hits), "\n")
      case ToolException(e) => SearchFailedPrefix + e
      case Raised(e) => SearchUnexpectedPrefix + e
  }

  /** The request never asks for more than five results: two APIs that
      agree on the five-result request give the same text. */
  lemma {:induction false} WebSearchAsksAtMostFive(client: Option<Brave.Client>, query: string, count: int,
                                a: (string, string, int) -> Brave.Reply<seq<Brave.WebHit>>, b: (string, string, int) -> Brave.Reply<seq<Brave.WebHit>>)
    requires count >= 5 && a(Brave.BaseWebUrl, query, 5) == b(Brave.BaseWebUrl, query, 5)
    ensures WebSearch(client, query, count, a) == WebSearch(client, query, count, b)
  {
  }

  /** Every failure of the search reads as an error, and an empty answer
      as "no results". */
  lemma {:induction false} WebSearchFailuresAreMarked(client: Option<Brave.Client>, query: string, count: int,
                                   api: (string, string, int) -> Brave.Reply<seq<Brave.WebHit>>)
    ensures var r := WebSearch(client, query, count, api);
      var reply := api(Brave.BaseWebUrl, query, Brave.Capped(if count < 5 then count else 5));
      (client.None? || !reply.Payload? ==> StartsWith(r, ErrorTag)) &&
      (client.Some? && reply.Payload? && Brave.Sanitize(reply.results) == [] ==> StartsWith(r, NoResultsTag))
  {
  }

  const FoundStart: string := "Found potential details via web search for '"
  const FoundMiddle: string := "' (Please verify these details as they are from a general search and may not be precise):\n"
  const FoundEnd: string := "\n[End of Search Result]"
  const PlaceholderStart: string := "Placeholder/Simulated response for '"
  const PlaceholderEnd: string := "'. Specific operational details (hours, address) could not be reliably fetched via available tools. Please search for this information online or assume standard business hours (e.g., 9 AM - 5 PM weekdays) and verify externally. [User verification required]"

  function Placeholder(place: string, location: string): string {
    PlaceholderStart + place + "' in '" + location + PlaceholderEnd
  }

  function Found(place: string, location: string, result: string): string {
    FoundStart + place + " in " + location + FoundMiddle + result + FoundEnd
  }

  function DetailsQuery(place: string, location: string): string {
    "opening hours and address for " + place + " in " + location
  }

  /** `get_operational_details`: the search text when it holds neither
      marker, otherwise the placeholder. */
  function OperationalDetails(place: string, location: string, client: Option<Brave.Client>,
                              api: (string, string, int) -> Brave.Reply<seq<Brave.WebHit>>): (r: string)
    ensures var result := WebSearch(client, DetailsQuery(place, location), 1, api);
      r == Found(place, location, result) <==>
        client.Some? && !Contains(result, ErrorTag) && !Contains(result, NoResultsTag)
    ensures var result := WebSearch(client, DetailsQuery(place, location), 1, api);
      !(client.Some? && !Contains(result, ErrorTag) && !Contains(result, NoResultsTag)) ==> r == Placeholder(place, location)
  {
    var result := WebSearch(client, DetailsQuery(place, location), 1, api);
    var r := if client.Some? && !Contains(result, ErrorTag) && !Contains(result, NoResultsTag) then Found(place, location, result)
      else Placeholder(place, location);
    FoundIsNotPlaceholder(place, location, result);
    r
  }

  /** The two answers differ in their first character. */
  lemma {:induction false} FoundIsNotPlaceholder(place: string, location: string, result: string)
    ensures Found(place, location, result) != Placeholder(place, location)
  {
    assert Found(place, location, result)[0] == FoundStart[0];
    assert Placeholder(place, location)[0] == PlaceholderStart[0];
  }

  lemma {:induction false} ContainsPrefix(s: string, p: string)
    requires StartsWith(s, p)
    ensures Contains(s, p)
  {
    assert OccursAt(s, p, 0);
  }

  /** A failed or empty search falls back to the placeholder. */
  lemma {:induction false} FailedSearchFallsBack(place: string, location: string, client: Option<Brave.Client>,
                              api: (string, string, int) -> Brave.Reply<seq<Brave.WebHit>>)
    requires var reply := api(Brave.BaseWebUrl, DetailsQuery(place, location), 1);
      !reply.Payload? || Brave.Sanitize(reply.results) == []
    ensures OperationalDetails(place, location, client, api) == Placeholder(place, location)
  {
    var result := WebSearch(client, DetailsQuery(place, location), 1, api);
    WebSearchFailuresAreMarked(client, DetailsQuery(place, location), 1, api);
    if client.Some? {
      if StartsWith(result, ErrorTag) {
        ContainsPrefix(result, ErrorTag);
      } else {
        ContainsPrefix(result, NoResultsTag);
      }
    }
  }

  // ---------------------------------------------------------------------
  // Calendar events

  /** What `datetime.fromisoformat` gives: a point in time, and whether it
      carries a UTC offset. */
  datatype IsoTime = IsoTime(instant: int, aware: bool)

  /** How `add_calendar_event` ends: with its text, or with the
      `TypeError` of comparing a naive and an aware time. */
  datatype CalendarOutcome = Reply(text: string) | TypeError

  const SuccessStart: string := "Success: Simulated adding calendar event:\n- "
  const SimulationNote: string := "\n[Note: This is a simulation. Please add this event to your actual calendar application.]"

  function InvalidStart(start: string): string {
    "Error: Invalid start_datetime format '" + start + "'. Please use valid ISO format like 'YYYY-MM-DD HH:MM:SS' or 'YYYY-MM-DDTHH:MM:SS'."
  }

  function InvalidEnd(end: string): string {
    "Error: Invalid end_datetime format '" + end + "'. Use ISO format."
  }

  function EndBeforeStart(end: string, start: string): string {
    "Error: Optional end_datetime '" + end + "' cannot be before start_datetime '" + start + "'."
  }

  predicate Truthy(v: Option<string>) {
    v.Some? && v.value != []
  }

  /** The text given to the parser: spaces become `T`. */
  function IsoText(s: string): (r: string)
    ensures |r| == |s| && ' ' !in r
  {
    ReplaceChar(s, ' ', 'T')
  }

  /** The confirmed details, in order: event, start, then the end, the
      location and the notes when given. */
  function CalendarDetails(summary: string, start: string, end: Option<string>, location: Option<string>, description: Option<string>): (r: seq<string>)
    ensures |r| == 2 + (if Truthy(end) then 1 else 0) + (if Truthy(location) then 1 else 0) + (if Truthy(description) then 1 else 0)
    ensures r[0] == "Event: " + summary && r[1] == "Starts: " + start
    ensures Truthy(end) ==> r[2] == "Ends: " + end.value
    ensures Truthy(description) ==> r[|r| - 1] == "Notes: " + description.value
    ensures Truthy(location) ==> r[|r| - 1 - (if Truthy(description) then 1 else 0)] == "Location: " + location.value
  {
    ["Event: " + summary, "Starts: " + start]
      + (if Truthy(end) then ["Ends: " + end.value] else [])
      + (if Truthy(location) then ["Location: " + location.value] else [])
      + (if Truthy(description) then ["Notes: " + description.value] else [])
  }

  /** The confirmation text. */
  function Confirmation(details: seq<string>): string {
    SuccessStart + Join(details, "\n- ") + SimulationNote
  }

  /** `add_calendar_event`: an unparsable start or end, and an end before
      the start, are refused with their messages; comparing a naive with
      an aware time raises; otherwise the event is confirmed. */
  function AddCalendarEvent(summary: string, start: string, end: Option<string>, location: Option<string>,
                            description: Option<string>, parse: string -> Option<IsoTime>): (r: CalendarOutcome)
    ensures parse(IsoText(start)).None? ==> r == Reply(InvalidStart(start))
    ensures parse(IsoText(start)).Some? && Truthy(end) && parse(IsoText(end.value)).None? ==> r == Reply(InvalidEnd(end.value))
    ensures r.TypeError? <==>
      (parse(IsoText(start)).Some? && Truthy(end) && parse(IsoText(end.value)).Some? &&
       parse(IsoText(end.value)).value.aware != parse(IsoText(start)).value.aware)
    ensures (parse(IsoText(start)).Some? && Truthy(end) && parse(IsoText(end.value)).Some? &&
             parse(IsoText(end.value)).value.aware == parse(IsoText(start)).value.aware &&
             parse(IsoText(end.value)).value.instant < parse(IsoText(start)).value.instant) ==>
      r == Reply(EndBeforeStart(end.value, start))
    ensures r == Reply(Confirmation(CalendarDetails(summary, start, end, location, description))) <==>
      (parse(IsoText(start)).Some? &&
       (Truthy(end) ==>
          (parse(IsoText(end.value)).Some? &&
           parse(IsoText(end.value)).value.aware == parse(IsoText(start)).value.aware &&
           parse(IsoText(end.value)).value.instant >= parse(IsoText(start)).value.instant)))
  {
    var confirmation := Confirmation(CalendarDetails(summary, start, end, location, description));
    assert SuccessStart[0] == 'S';
    assert confirmation[0] == 'S';
    match parse(IsoText(start))
      case None =>
        assert InvalidStart(start)[0] == 'E';
        Reply(InvalidStart(start))
      case Some(t0) =>
        if !Truthy(end) then Reply(confirmation)
        else match parse(IsoText(end.value))
          case None =>
            assert InvalidEnd(end.value)[0] == 'E';
            Reply(InvalidEnd(end.value))
          case Some(t1) =>
            if t1.aware != t0.aware then TypeError
            else if t1.instant < t0.instant then
              assert EndBeforeStart(end.value, start)[0] == 'E';
              Reply(EndBeforeStart(end.value, start))
            else Reply(confirmation)
  }

  /** A space or a `T` between date and time are read alike. */
  lemma {:induction false} SeparatorsReadAlike(date: string, time: string)
    ensures IsoText(date + " " + time) == IsoText(date + "T" + time)
  {
    var a := date + " " + time;
    var b := date + "T" + time;
    assert forall i :: 0 <= i < |a| ==> (a[i] == ' ' || a[i] == b[i]) && (b[i] == 'T' || b[i] == ' ' || a[i] == b[i]);
    assert forall i :: 0 <= i < |a| ==> IsoText(a)[i] == IsoText(b)[i];
  }
}
