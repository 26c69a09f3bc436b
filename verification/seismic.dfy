/**
 * `check_earthquake_alert`: turns optional region, time window and magnitude
 * arguments into a USGS FDSN event query, sends it, and sorts the answer into
 * one of three reply shapes.
 */
module Seismic {
  import opened Outcomes
  import opened Values
  import opened CivilDate
  import Http

  const DefaultRadiusKm := Int(1000)
  const DefaultMinMagnitude := Int(3)
  const ResultLimit := 10
  /** `timedelta(weeks=1)`, in days. */
  const WeekDays := 7

  const RegionMessage := "Either provide latitude and longitude with radius, or a bounding box (min/max latitude and longitude)."
  const DetectedAlert := "Earthquake detected"
  const NoAlertsMessage := "No earthquake alerts in the given area."
  const FetchFailedMessage := "Failed to fetch data from USGS API."
  /** What Python's OverflowError says when a date passes year 9999. */
  const OverflowMessage := "date value out of range"

  /** The keyword arguments of one call; None is an argument left at its default None. */
  datatype AlertArgs = AlertArgs(
    minLatitude: Option<Number>, maxLatitude: Option<Number>,
    minLongitude: Option<Number>, maxLongitude: Option<Number>,
    latitude: Option<Number>, longitude: Option<Number>,
    startDate: Option<string>, endDate: Option<string>,
    radiusKm: Number, minMagnitude: Number)

  /** A call that passes no argument at all: no region, no dates, and the integer defaults. */
  function Unspecified(): (a: AlertArgs)
    ensures !HasBox(a) && !HasPoint(a) && a.startDate.None? && a.endDate.None?
    ensures a.radiusKm == Int(1000) && a.minMagnitude == Int(3)
  {
    AlertArgs(None, None, None, None, None, None, None, None, DefaultRadiusKm, DefaultMinMagnitude)
  }

  /** The query parameters sent to the event service. */
  type Query = Dict

  const FixedKeys: set<string> := {"format", "minmagnitude", "starttime", "endtime", "limit"}
  const BoxKeys: set<string> := {"minlatitude", "minlongitude", "maxlatitude", "maxlongitude"}
  const PointKeys: set<string> := {"latitude", "longitude", "maxradiuskm"}

  /** All four bounds of a bounding box are given. */
  predicate HasBox(a: AlertArgs) {
    a.minLatitude.Some? && a.minLongitude.Some? && a.maxLatitude.Some? && a.maxLongitude.Some?
  }

  /** Both coordinates of a centre point are given. */
  predicate HasPoint(a: AlertArgs) {
    a.latitude.Some? && a.longitude.Some?
  }

  /** The default end of the window, a week after `today`, cannot be represented. */
  predicate EndOverflows(a: AlertArgs, today: Date)
    requires Valid(today)
  {
    a.endDate.None? && AddDays(today, WeekDays).None?
  }

  datatype BuildError = MissingRegion | DateOverflow

  /**
   * The parameters the call sends, or why it sends none: the end of the
   * window overflowing (raised while the parameters are assembled, before
   * the region is looked at), or no complete region.
   */
  function BuildQuery(a: AlertArgs, today: Date): (r: Result<Query, BuildError>)
    requires Valid(today)
    ensures r == Failure(DateOverflow) <==> EndOverflows(a, today)
    ensures r == Failure(MissingRegion) <==> !EndOverflows(a, today) && !HasBox(a) && !HasPoint(a)
    ensures r.Success? <==> !EndOverflows(a, today) && (HasBox(a) || HasPoint(a))
    // every query carries the fixed parameters
    ensures r.Success? ==>
      && FixedKeys <= r.value.Keys
      && r.value["format"] == Text("geojson")
      && r.value["limit"] == Num(Int(ResultLimit))
      && r.value["minmagnitude"] == Num(a.minMagnitude)
    // dates are passed through unchecked, or default to today and a week later
    ensures r.Success? && a.startDate.Some? ==> r.value["starttime"] == Text(a.startDate.value)
    ensures r.Success? && a.startDate.None? ==> r.value["starttime"] == Text(Format(today))
    ensures r.Success? && a.endDate.Some? ==> r.value["endtime"] == Text(a.endDate.value)
    ensures r.Success? && a.endDate.None? ==>
      AddDays(today, WeekDays).Some? && r.value["endtime"] == Text(Format(AddDays(today, WeekDays).value))
    // a complete box wins, whatever point is also given
    ensures r.Success? && HasBox(a) ==>
      && r.value.Keys == FixedKeys + BoxKeys
      && r.value["minlatitude"] == Num(a.minLatitude.value)
      && r.value["minlongitude"] == Num(a.minLongitude.value)
      && r.value["maxlatitude"] == Num(a.maxLatitude.value)
      && r.value["maxlongitude"] == Num(a.maxLongitude.value)
    // otherwise the point and radius, whatever part of a box is also given
    ensures r.Success? && !HasBox(a) ==>
      && HasPoint(a)
      && r.value.Keys == FixedKeys + PointKeys
      && r.value["latitude"] == Num(a.latitude.value)
      && r.value["longitude"] == Num(a.longitude.value)
      && r.value["maxradiuskm"] == Num(a.radiusKm)
  {
    var end :=
      if a.endDate.Some? then Some(a.endDate.value)
      else match AddDays(today, WeekDays)
        case Some(later) => Some(Format(later))
        case None => None;
    if end.None? then Failure(DateOverflow)
    else
      var start := if a.startDate.Some? then a.startDate.value else Format(today);
      var params := map[
        "format" := Text("geojson"),
        "minmagnitude" := Num(a.minMagnitude),
        "starttime" := Text(start),
        "endtime" := Text(end.value),
        "limit" := Num(Int(ResultLimit))];
      if HasBox(a) then
        Success(params
          ["minlatitude" := Num(a.minLatitude.value)]
          ["minlongitude" := Num(a.minLongitude.value)]
          ["maxlatitude" := Num(a.maxLatitude.value)]
          ["maxlongitude" := Num(a.maxLongitude.value)])
      else if HasPoint(a) then
        Success(params
          ["latitude" := Num(a.latitude.value)]
          ["longitude" := Num(a.longitude.value)]
          ["maxradiuskm" := Num(a.radiusKm)])
      else
        Failure(MissingRegion)
  }

  /** No parameter name belongs to two of the key groups. */
  lemma KeyGroupsDisjoint()
    ensures FixedKeys !! BoxKeys && FixedKeys !! PointKeys && BoxKeys !! PointKeys
  {
  }

  /**
   * A query names one region only: a box query holds none of the point keys,
   * even when a point was also given, and a point query none of the box keys,
   * even when part of a box was given.
   */
  lemma RegionKeysExclusive(a: AlertArgs, today: Date)
    requires Valid(today)
    requires BuildQuery(a, today).Success?
    ensures var q := BuildQuery(a, today).value;
      if HasBox(a) then BoxKeys <= q.Keys && q.Keys !! PointKeys
      else PointKeys <= q.Keys && q.Keys !! BoxKeys
  {
    KeyGroupsDisjoint();
  }

  /**
   * With both dates left out, the window starts on the day the clock reads
   * and ends on the date seven day numbers later, both as `YYYY-MM-DD`.
   */
  lemma DefaultWindow(a: AlertArgs, today: Date)
    requires Valid(today) && !(today.year == MaxYear && today.month == 12 && today.day >= 25)
    requires a.startDate.None? && a.endDate.None?
    requires HasBox(a) || HasPoint(a)
    ensures var q := BuildQuery(a, today);
      && q.Success?
      && q.value["starttime"].Text? && Parse(q.value["starttime"].text) == Some(today)
      && q.value["endtime"].Text? && Parse(q.value["endtime"].text).Some?
      && Ordinal(Parse(q.value["endtime"].text).value) == Ordinal(today) + WeekDays
  {
    WeekOverflow(today);
  }

  /**
   * A point query that leaves radius and magnitude out searches within the
   * integer 1000 km of the point for magnitudes from the integer 3 on.
   */
  lemma PointDefaults(x: Number, y: Number, today: Date)
    requires Valid(today) && !(today.year == MaxYear && today.month == 12 && today.day >= 25)
    ensures var q := BuildQuery(Unspecified().(latitude := Some(x), longitude := Some(y)), today);
      && q.Success?
      && q.value["latitude"] == Num(x) && q.value["longitude"] == Num(y)
      && q.value["maxradiuskm"] == Num(Int(1000))
      && q.value["minmagnitude"] == Num(Int(3))
  {
    WeekOverflow(today);
  }

  /** The default window only overflows in the last week of year 9999. */
  lemma OverflowOnlyAtEnd(a: AlertArgs, today: Date)
    requires Valid(today)
    ensures BuildQuery(a, today) == Failure(DateOverflow) <==>
      a.endDate.None? && today.year == MaxYear && today.month == 12 && today.day >= 25
  {
    WeekOverflow(today);
  }

  /** What the event service answers: a status and the GeoJSON `features` array. */
  datatype CatalogResponse = CatalogResponse(status: Http.StatusCode, features: seq<Feature>)

  /**
   * The reply to a catalog answer: exactly one of three shapes, chosen by the
   * status and whether any event came back; the events are passed on unchanged.
   */
  function Classify(response: CatalogResponse): (r: Dict)
    ensures r.Keys == {"alert", "earthquakes"} <==> response.status == Http.Ok && response.features != []
    ensures r.Keys == {"alert", "earthquakes"} ==>
      r["alert"] == Text(DetectedAlert) && r["earthquakes"] == Events(response.features)
    ensures r == map["alert" := Text(NoAlertsMessage)] <==> response.status == Http.Ok && response.features == []
    ensures r == map["error" := Text(FetchFailedMessage)] <==> response.status != Http.Ok
  {
    if response.status == Http.Ok then
      if response.features != [] then
        map["alert" := Text(DetectedAlert), "earthquakes" := Events(response.features)]
      else
        map["alert" := Text(NoAlertsMessage)]
    else
      map["error" := Text(FetchFailedMessage)]
  }

  /**
   * The tool itself: assembles the parameters step by step, sends exactly the
   * query BuildQuery describes when there is one, and sends nothing otherwise.
   */
  method CheckEarthquakeAlert(a: AlertArgs, today: Date, usgs: Http.Endpoint<Query, CatalogResponse>)
    returns (c: Completion)
    requires Valid(today)
    modifies usgs
    ensures BuildQuery(a, today) == Failure(DateOverflow) ==>
      c == Raised(OverflowMessage) && usgs.requests == old(usgs.requests)
    ensures BuildQuery(a, today) == Failure(MissingRegion) ==>
      c == Returned(map["error" := Text(RegionMessage)]) && usgs.requests == old(usgs.requests)
    ensures BuildQuery(a, today).Success? ==>
      && usgs.requests == old(usgs.requests) + [BuildQuery(a, today).value]
      && c == Returned(Classify(usgs.answer(BuildQuery(a, today).value, |old(usgs.requests)|)))
  {
    var start := if a.startDate.None? then Format(today) else a.startDate.value;
    var end: string;
    if a.endDate.None? {
      var later := AddDays(today, WeekDays);
      if later.None? {
        return Raised(OverflowMessage);
      }
      end := Format(later.value);
    } else {
      end := a.endDate.value;
    }
    var params: Query := map[
      "format" := Text("geojson"),
      "minmagnitude" := Num(a.minMagnitude),
      "starttime" := Text(start),
      "endtime" := Text(end),
      "limit" := Num(Int(ResultLimit))];
    if HasBox(a) {
      params := params["minlatitude" := Num(a.minLatitude.value)];
      params := params["minlongitude" := Num(a.minLongitude.value)];
      params := params["maxlatitude" := Num(a.maxLatitude.value)];
      params := params["maxlongitude" := Num(a.maxLongitude.value)];
    } else if HasPoint(a) {
      params := params["latitude" := Num(a.latitude.value)];
      params := params["longitude" := Num(a.longitude.value)];
      params := params["maxradiuskm" := Num(a.radiusKm)];
    } else {
      return Returned(map["error" := Text(RegionMessage)]);
    }
    assert params == BuildQuery(a, today).value;
    var response := usgs.Get(params);
    c := Returned(Classify(response));
  }

  /** A call with no region at all is refused before anything is sent. */
  method NoRegionScenario(today: Date)
    requires Valid(today)
  {
    var usgs := new Http.Endpoint<Query, CatalogResponse>((q: Query, n: nat) => CatalogResponse(Http.Ok, []));
    var c := CheckEarthquakeAlert(Unspecified().(endDate := Some("2024-01-08")), today, usgs);
    assert c == Returned(map["error" := Text(RegionMessage)]);
    assert usgs.requests == [];
  }

  /** A point query around New Delhi whose answer holds two events. */
  method DelhiScenario(f1: Feature, f2: Feature, today: Date)
    requires Valid(today) && !(today.year == MaxYear && today.month == 12 && today.day >= 25)
  {
    var usgs := new Http.Endpoint<Query, CatalogResponse>((q: Query, n: nat) => CatalogResponse(Http.Ok, [f1, f2]));
    var a := AlertArgs(None, None, None, None, Some(Float(28.6)), Some(Float(77.2)),
                       None, None, Int(500), Int(4));
    WeekOverflow(today);
    ghost var q := BuildQuery(a, today);
    assert q.Success? && !HasBox(a);
    var c := CheckEarthquakeAlert(a, today, usgs);
    assert usgs.requests == [q.value];
    assert q.value["maxradiuskm"] == Num(Int(500)) && q.value["minmagnitude"] == Num(Int(4));
    assert q.value.Keys == FixedKeys + PointKeys;
    assert c.Returned? && c.reply == Classify(CatalogResponse(Http.Ok, [f1, f2]));
    assert c.reply["earthquakes"] == Events([f1, f2]);
  }
}
