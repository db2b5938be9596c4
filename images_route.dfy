/** `GET /api/images?placeId=...`: resolve a displayable photo URL for a place.
    The place's own first photo wins; failing that, nearby places are searched
    within the radii 200, 500 and 1000 metres, in that order, and the first
    other place (in radius order, then result order) that has a photo supplies
    it, labelled with that place's display name.

    The two upstream helpers become parameters: `details` is `getPlacePhotos`
    (fetch of the place-details endpoint and `.json()`, the status unchecked)
    and `nearby` is the fetch and `.json()` of the nearby-search endpoint for
    a centre and a radius. The API key is a parameter too. */
module ImagesRoute {
  import opened Upstream
  import opened PlacesApi

  /** The search radii in metres, smallest first. */
  const SearchRadii: seq<nat> := [200, 500, 1000]

  /** `maxResultCount` of every nearby search. */
  const MaxResultCount: nat := 10

  const PlaceIdRequired := "Place ID is required"
  const NoPhotoOrLocation := "No photos or location data found for this place"
  const NoPhotosInArea := "No photos found in this area"
  const FetchFailed := "Failed to fetch place photo"

  /** The successful response: `{ photoUrl }` for the place's own photo, or
      `{ photoUrl, sourcePlaceName }` for a photo of a nearby place. */
  datatype ResolvedPhoto = ResolvedPhoto(photoUrl: string, sourcePlaceName: Option<string>)

  /** An upstream call the handler makes. */
  datatype Call =
    | DetailsCall(placeId: string)
    | NearbyCall(center: Location, radius: nat, maxResultCount: nat)

  /** How a (partial) candidate search ended. */
  datatype Search = Found(photo: ResolvedPhoto) | Exhausted | Failed

  const PhotoUrlPrefix := "https://places.googleapis.com/v1/"

  function PhotoUrlSuffix(key: string): string
  {
    "/media?key=" + key + "&maxHeightPx=1080&maxWidthPx=1920"
  }

  /** The media URL of a photo, at most 1080 pixels high and 1920 wide. The
      photo name can be read back from it, between the fixed prefix and the
      key-dependent suffix. */
  function PhotoUrl(photoName: string, key: string): (url: string)
    ensures |url| == |PhotoUrlPrefix| + |photoName| + |PhotoUrlSuffix(key)|
    ensures url[..|PhotoUrlPrefix|] == PhotoUrlPrefix
    ensures url[|PhotoUrlPrefix|..|url| - |PhotoUrlSuffix(key)|] == photoName
    ensures url[|url| - |PhotoUrlSuffix(key)|..] == PhotoUrlSuffix(key)
  {
    PhotoUrlPrefix + photoName + PhotoUrlSuffix(key)
  }

  /** `url` has the shape of a photo media URL for `key`. */
  predicate IsPhotoUrl(url: string, key: string)
  {
    && |url| >= |PhotoUrlPrefix| + |PhotoUrlSuffix(key)|
    && url[..|PhotoUrlPrefix|] == PhotoUrlPrefix
    && url[|url| - |PhotoUrlSuffix(key)|..] == PhotoUrlSuffix(key)
  }

  /** The URL of the first photo of a place that has photos. */
  function FirstPhotoUrl(d: PlaceDetails, key: string): string
    requires HasPhotos(d)
  {
    PhotoUrl(d.photos.value[0].name, key)
  }

  /** The inner loop: walk `places` in order, skipping the target, looking up
      each other place and stopping at the first one with a photo or at the
      first failing lookup. */
  function ScanPlaces(target: string, key: string, details: string -> Outcome<PlaceDetails>,
                      places: seq<NearbyPlace>): (r: Run<Search, Call>)
    ensures |r.calls| <= |places|
    ensures r.result.Found? ==> r.result.photo.sourcePlaceName.Some?
    ensures r.result.Failed? ==>
              r.calls != [] && r.calls[|r.calls| - 1].DetailsCall? &&
              details(r.calls[|r.calls| - 1].placeId).Threw?
    decreases |places|
  {
    if places == [] then Run(Exhausted, [])
    else if places[0].id == target then ScanPlaces(target, key, details, places[1..])
    else
      var call := DetailsCall(places[0].id);
      match details(places[0].id)
      case Threw => Run(Failed, [call])
      case Done(d) =>
        if HasPhotos(d) then
          Run(Found(ResolvedPhoto(FirstPhotoUrl(d, key), Some(places[0].displayName))), [call])
        else
          Then([call], ScanPlaces(target, key, details, places[1..]))
  }

  /** A scan of one radius's places, followed by `rest` (the search of the
      remaining radii) only when that scan was exhausted. */
  function After(scan: Run<Search, Call>, rest: Run<Search, Call>): Run<Search, Call>
  {
    if scan.result.Exhausted? then Then(scan.calls, rest) else scan
  }

  lemma AfterThen(before: seq<Call>, scan: Run<Search, Call>, rest: Run<Search, Call>)
    ensures After(Then(before, scan), rest) == Then(before, After(scan, rest))
  {
    if scan.result.Exhausted? {
      ThenThen(before, scan.calls, rest);
    }
  }

  /** The outer loop: for each radius in turn, one nearby search centred on
      the target's location, then the scan of its places. */
  function ScanRadii(target: string, key: string, center: Location,
                     details: string -> Outcome<PlaceDetails>,
                     nearby: (Location, nat) -> Outcome<NearbyResult>,
                     radii: seq<nat>): (r: Run<Search, Call>)
    ensures radii != [] ==> r.calls != [] && r.calls[0] == NearbyCall(center, radii[0], MaxResultCount)
    ensures r.result.Found? ==> r.result.photo.sourcePlaceName.Some?
    ensures r.result.Failed? ==> r.calls != []
    decreases |radii|
  {
    if radii == [] then Run(Exhausted, [])
    else
      var call := NearbyCall(center, radii[0], MaxResultCount);
      match nearby(center, radii[0])
      case Threw => Run(Failed, [call])
      case Done(found) =>
        Then([call], After(ScanPlaces(target, key, details, PlacesOrEmpty(found)),
                           ScanRadii(target, key, center, details, nearby, radii[1..])))
  }

  /** The response a finished candidate search turns into. */
  function Conclude(s: Search): Response<ResolvedPhoto>
  {
    match s
    case Found(p) => Ok(p)
    case Exhausted => Error(404, NoPhotosInArea)
    case Failed => Error(500, FetchFailed)
  }

  /** The handler's specification: its response and the upstream calls it
      makes, for the query parameter `placeId` (absent, or a string). */
  function Resolve(placeId: Option<string>, key: string,
                   details: string -> Outcome<PlaceDetails>,
                   nearby: (Location, nat) -> Outcome<NearbyResult>): (r: Run<Response<ResolvedPhoto>, Call>)
    ensures r.result == Error(400, PlaceIdRequired) <==> r.calls == []
    ensures Truthy(placeId) ==> r.calls != [] && r.calls[0] == DetailsCall(placeId.value)
    ensures r.result.Ok? ==> (r.result.body.sourcePlaceName.None? <==> |r.calls| == 1)
  {
    if !Truthy(placeId) then Run(Error(400, PlaceIdRequired), [])
    else
      var target := placeId.value;
      var first := DetailsCall(target);
      match details(target)
      case Threw => Run(Error(500, FetchFailed), [first])
      case Done(d) =>
        if HasPhotos(d) then Run(Ok(ResolvedPhoto(FirstPhotoUrl(d, key), None)), [first])
        else if d.location.None? then Run(Error(404, NoPhotoOrLocation), [first])
        else
          var scan := ScanRadii(target, key, d.location.value, details, nearby, SearchRadii);
          Run(Conclude(scan.result), [first] + scan.calls)
  }

  /** The handler, with its two nested loops and early returns, computes
      exactly what Resolve specifies, calls included. */
  method Get(placeId: Option<string>, key: string,
             details: string -> Outcome<PlaceDetails>,
             nearby: (Location, nat) -> Outcome<NearbyResult>)
    returns (response: Response<ResolvedPhoto>, calls: seq<Call>)
    ensures Run(response, calls) == Resolve(placeId, key, details, nearby)
  {
    if placeId.None? || placeId.value == "" {
      return Error(400, PlaceIdRequired), [];
    }
    var target := placeId.value;
    calls := [DetailsCall(target)];
    var own := details(target);
    if own.Threw? {
      return Error(500, FetchFailed), calls;
    }
    var photos := own.value.photos;
    if photos.Some? && |photos.value| > 0 {
      var photoUrl := PhotoUrl(photos.value[0].name, key);
      return Ok(ResolvedPhoto(photoUrl, None)), calls;
    }
    var location := own.value.location;
    if location.None? {
      return Error(404, NoPhotoOrLocation), calls;
    }
    var center := location.value;
    var search, searchCalls := SearchNearby(target, key, center, details, nearby);
    return Conclude(search), calls + searchCalls;
  }

  /** The outer loop of the handler: the radii in order, one nearby search
      centred on the target's location for each, then the inner loop over its
      places; it stops at the first photo or the first failing call. */
  method SearchNearby(target: string, key: string, center: Location,
                      details: string -> Outcome<PlaceDetails>,
                      nearby: (Location, nat) -> Outcome<NearbyResult>)
    returns (search: Search, calls: seq<Call>)
    ensures Run(search, calls) == ScanRadii(target, key, center, details, nearby, SearchRadii)
  {
    calls := [];
    ghost var total := ScanRadii(target, key, center, details, nearby, SearchRadii);
    assert SearchRadii[0..] == SearchRadii;
    var i := 0;
    while i < |SearchRadii|
      invariant i <= |SearchRadii|
      invariant total == Then(calls, ScanRadii(target, key, center, details, nearby, SearchRadii[i..]))
    {
      var radius := SearchRadii[i];
      var call := NearbyCall(center, radius, MaxResultCount);
      var searched := nearby(center, radius);
      if searched.Threw? {
        return Failed, calls + [call];
      }
      assert SearchRadii[i..][1..] == SearchRadii[i + 1..];
      ghost var rest := ScanRadii(target, key, center, details, nearby, SearchRadii[i + 1..]);
      var found, foundCalls := ScanCandidates(target, key, details, PlacesOrEmpty(searched.value));
      ThenThen(calls, [call], After(Run(found, foundCalls), rest));
      if !found.Exhausted? {
        ThenThen(calls, [call], Run(found, foundCalls));
        return found, calls + [call] + foundCalls;
      }
      ThenThen(calls + [call], foundCalls, ScanRadii(target, key, center, details, nearby, SearchRadii[i + 1..]));
      calls := calls + [call] + foundCalls;
      i := i + 1;
    }
    return Exhausted, calls;
  }

  /** The inner loop of the handler: the nearby places in result order,
      skipping the target, looking each one up until one has a photo or a
      lookup fails. */
  method ScanCandidates(target: string, key: string, details: string -> Outcome<PlaceDetails>,
                        places: seq<NearbyPlace>)
    returns (search: Search, calls: seq<Call>)
    ensures Run(search, calls) == ScanPlaces(target, key, details, places)
  {
    calls := [];
    ghost var total := ScanPlaces(target, key, details, places);
    assert places[0..] == places;
    var j := 0;
    while j < |places|
      invariant j <= |places|
      invariant total == Then(calls, ScanPlaces(target, key, details, places[j..]))
    {
      var place := places[j];
      assert places[j..][0] == place && places[j..][1..] == places[j + 1..];
      if place.id != target {
        var call := DetailsCall(place.id);
        var candidate := details(place.id);
        if candidate.Threw? {
          return Failed, calls + [call];
        }
        var placePhotos := candidate.value.photos;
        if placePhotos.Some? && |placePhotos.value| > 0 {
          var photoUrl := PhotoUrl(placePhotos.value[0].name, key);
          return Found(ResolvedPhoto(photoUrl, Some(place.displayName))), calls + [call];
        }
        ThenThen(calls, [call], ScanPlaces(target, key, details, places[j + 1..]));
        calls := calls + [call];
      }
      j := j + 1;
    }
    return Exhausted, calls;
  }
}
