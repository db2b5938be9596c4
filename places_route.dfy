/** `GET /api/places?lat=...&lng=...`: the id of the place at a point, found by
    one nearby search of radius 100 metres asking for at most one result.

    The search (a POST to the nearby-search endpoint and `.json()` of its
    reply) becomes the parameter `search`; its status is never looked at. The
    coordinates stay the query strings they arrive as. */
module PlacesRoute {
  import opened Upstream
  import opened PlacesApi

  const CoordinatesRequired := "Latitude and longitude are required"
  const NoPlaceFound := "No place found at this location"
  const FindFailed := "Failed to find place"

  /** The circle radius in metres and `maxResultCount` of the one search. */
  const SearchRadius: nat := 100
  const SearchMaxResults: nat := 1

  /** The upstream call the handler makes. */
  datatype Call = NearbySearchCall(latitude: string, longitude: string, radius: nat, maxResultCount: nat)

  /** The body of a fetch whose status is not checked: a non-OK reply is read
      like an OK one. */
  function Body<T>(f: Outcome<Reply<T>>): Outcome<T>
  {
    match f
    case Threw => Threw
    case Done(reply) => reply.json
  }

  /** The handler: its response (`{ placeId }` on success) and the upstream
      calls it makes, for the query parameters `lat` and `lng`. */
  function Get(lat: Option<string>, lng: Option<string>,
               search: (string, string) -> Outcome<Reply<NearbyResult>>): (r: Run<Response<string>, Call>)
    ensures |r.calls| <= 1
    ensures r.calls == [] <==> r.result == Error(400, CoordinatesRequired)
    ensures r.result.Error? ==> r.result.status in {400, 404, 500}
  {
    if !Truthy(lat) || !Truthy(lng) then Run(Error(400, CoordinatesRequired), [])
    else
      var calls := [NearbySearchCall(lat.value, lng.value, SearchRadius, SearchMaxResults)];
      match Body(search(lat.value, lng.value))
      case Threw => Run(Error(500, FindFailed), calls)
      case Done(data) =>
        var places := PlacesOrEmpty(data);
        if places == [] then Run(Error(404, NoPlaceFound), calls)
        else Run(Ok(places[0].id), calls)
  }

  /** The handler's outcomes: a missing or empty coordinate is a 400 with no
      upstream call; otherwise exactly one search centred on the given point;
      a reply without places (absent or empty) is a 404, a failing fetch or
      body a 500, and a success carries the id of the first place found. */
  lemma GetOutcomes(lat: Option<string>, lng: Option<string>,
                    search: (string, string) -> Outcome<Reply<NearbyResult>>)
    ensures var run := Get(lat, lng, search);
            && (run.result == Error(400, CoordinatesRequired) <==> !Truthy(lat) || !Truthy(lng))
            && (run.calls == [] <==> !Truthy(lat) || !Truthy(lng))
            && (Truthy(lat) && Truthy(lng) ==>
                  run.calls == [NearbySearchCall(lat.value, lng.value, SearchRadius, SearchMaxResults)])
            && (run.result == Error(500, FindFailed) <==>
                  Truthy(lat) && Truthy(lng) && Body(search(lat.value, lng.value)).Threw?)
            && (run.result == Error(404, NoPlaceFound) <==>
                  && Truthy(lat) && Truthy(lng)
                  && Body(search(lat.value, lng.value)).Done?
                  && PlacesOrEmpty(Body(search(lat.value, lng.value)).value) == [])
            && (run.result.Ok? ==>
                  && Truthy(lat) && Truthy(lng)
                  && Body(search(lat.value, lng.value)).Done?
                  && var places := PlacesOrEmpty(Body(search(lat.value, lng.value)).value);
                     places != [] && run.result.body == places[0].id)
            && (&& Truthy(lat) && Truthy(lng)
                && Body(search(lat.value, lng.value)).Done?
                && PlacesOrEmpty(Body(search(lat.value, lng.value)).value) != [] ==>
                  run.result == Ok(PlacesOrEmpty(Body(search(lat.value, lng.value)).value)[0].id))
  {
  }

  /** The reply's status is not checked: two searches that deliver the same
      bodies give the same response, whatever their `ok` flags. */
  lemma StatusNotChecked(lat: Option<string>, lng: Option<string>,
                         search: (string, string) -> Outcome<Reply<NearbyResult>>,
                         other: (string, string) -> Outcome<Reply<NearbyResult>>)
    requires Truthy(lat) && Truthy(lng)
    requires Body(search(lat.value, lng.value)) == Body(other(lat.value, lng.value))
    requires search(lat.value, lng.value).Done? && search(lat.value, lng.value).value.ok
    requires other(lat.value, lng.value).Done? && !other(lat.value, lng.value).value.ok
    ensures Get(lat, lng, search) == Get(lat, lng, other)
  {
  }
}
