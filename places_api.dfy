/** The parts of the Google Places directory's JSON replies that the handlers
    read: place details (photos and location) and nearby-search results (ids
    and display names). */
module PlacesApi {
  import opened Upstream

  /** A place's coordinates in degrees (copied, never computed with). */
  datatype Location = Location(latitude: real, longitude: real)

  /** A photo reference; `name` is the opaque resource name of the photo. */
  datatype Photo = Photo(name: string)

  /** The details reply with field mask `photos,location`; either field may be
      absent. */
  datatype PlaceDetails = PlaceDetails(photos: Option<seq<Photo>>, location: Option<Location>)

  /** One entry of a nearby-search reply with field mask
      `places.id,places.displayName`; `displayName` is `displayName.text`. */
  datatype NearbyPlace = NearbyPlace(id: string, displayName: string)

  /** A nearby-search reply; `places` is absent when nothing was found. */
  datatype NearbyResult = NearbyResult(places: Option<seq<NearbyPlace>>)

  /** `photos?.length` is truthy. */
  predicate HasPhotos(d: PlaceDetails)
  {
    d.photos.Some? && |d.photos.value| > 0
  }

  /** `data.places || []`: a missing list reads as the empty one. */
  function PlacesOrEmpty(r: NearbyResult): seq<NearbyPlace>
  {
    match r.places
    case None => []
    case Some(ps) => ps
  }
}
