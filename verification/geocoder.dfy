/**
 * `get_location_coordinates`: asks the HERE geocoding service for a place
 * name and reads the first candidate's position out of the answer.
 */
module Geocoder {
  import opened Outcomes
  import opened Values
  import opened Digits
  import Http

  const NotFoundMessage := "Location not found."
  const StatusPrefix := "Failed to fetch data. HTTP Status code: "

  /** The query string sent: the place name and the key, dropped when unset. */
  datatype GeocodeRequest = GeocodeRequest(q: string, apiKey: Option<string>)

  datatype Position = Position(lat: Number, lng: Number)

  /** One candidate of the answer's `items` array. */
  datatype Item = Item(position: Position)

  /** A status and the `items` array, None when the body has no `items` (or it is null). */
  datatype GeocodeResponse = GeocodeResponse(status: Http.StatusCode, items: Option<seq<Item>>)

  /** The error text for a failed fetch; the status code reads back out of it. */
  function StatusMessage(status: Http.StatusCode): (m: string)
    ensures |m| > |StatusPrefix| && m[..|StatusPrefix|] == StatusPrefix
    ensures StatusOf(m) == Some(status)
  {
    var m := StatusPrefix + Decimal(status);
    assert m[..|StatusPrefix|] == StatusPrefix;
    assert m[|StatusPrefix|..] == Decimal(status);
    m
  }

  /** The status code a failed-fetch message reports, if it is one. */
  function StatusOf(m: string): (r: Option<Http.StatusCode>) {
    if |m| > |StatusPrefix| && m[..|StatusPrefix|] == StatusPrefix && AllDigits(m[|StatusPrefix|..])
    then Some(ValueOf(m[|StatusPrefix|..]))
    else None
  }

  /**
   * The reply to a geocoding answer: the first candidate's coordinates, or
   * "not found" for a successful answer without candidates, or an error
   * naming the status of any other answer.
   */
  function Coordinates(response: GeocodeResponse): (r: Dict)
    ensures response.status == Http.Ok && response.items.Some? && response.items.value != [] ==>
      r == map["latitude" := Num(response.items.value[0].position.lat),
               "longitude" := Num(response.items.value[0].position.lng)]
    ensures r == map["error" := Text(NotFoundMessage)] <==>
      response.status == Http.Ok && (response.items.None? || response.items.value == [])
    ensures response.status != Http.Ok ==>
      && r == map["error" := Text(StatusMessage(response.status))]
      && StatusOf(r["error"].text) == Some(response.status)
  {
    if response.status == Http.Ok then
      if response.items.Some? && response.items.value != [] then
        var location := response.items.value[0].position;
        var r := map["latitude" := Num(location.lat), "longitude" := Num(location.lng)];
        assert "latitude" in r && |"latitude"| != |"error"|;
        r
      else
        map["error" := Text(NotFoundMessage)]
    else
      var m := StatusMessage(response.status);
      assert |m| > |NotFoundMessage|;
      var r := map["error" := Text(m)];
      assert r["error"] != Text(NotFoundMessage);
      r
  }

  /** The three kinds of reply never share a text: "not found" reports no status. */
  lemma NotFoundIsNoStatus()
    ensures StatusOf(NotFoundMessage) == None
  {
  }

  /** Different failing statuses give different messages. */
  lemma StatusMessageInjective(s: Http.StatusCode, t: Http.StatusCode)
    requires StatusMessage(s) == StatusMessage(t)
    ensures s == t
  {
  }

  /** The tool: one GET with the name and key, then the reply read off the answer. */
  method GetLocationCoordinates(locationName: string, apiKey: Option<string>,
                                here: Http.Endpoint<GeocodeRequest, GeocodeResponse>)
    returns (reply: Dict)
    modifies here
    ensures here.requests == old(here.requests) + [GeocodeRequest(locationName, apiKey)]
    ensures reply == Coordinates(here.answer(GeocodeRequest(locationName, apiKey), |old(here.requests)|))
  {
    var response := here.Get(GeocodeRequest(locationName, apiKey));
    reply := Coordinates(response);
  }

  /** A place the service knows nothing of. */
  method AtlantisScenario(apiKey: Option<string>) {
    var here := new Http.Endpoint<GeocodeRequest, GeocodeResponse>(
      (r: GeocodeRequest, n: nat) => GeocodeResponse(Http.Ok, Some([])));
    var reply := GetLocationCoordinates("Atlantis", apiKey, here);
    assert reply == map["error" := Text(NotFoundMessage)];
  }
}
