/** The client page: its React state, the greeting generator, the weather
    and photo fetchers, the geolocation effect run on mount and the map click
    handler.

    Every `fetch` the page makes becomes a parameter holding what it resolved
    to: `Threw` when the request or its `.json()` rejected, otherwise the
    route's response (status OK exactly for `Ok`). The chat endpoint is a
    function from the request body to its reply. State setters run in the
    order the page calls them; the 150 ms transition timer is collapsed, so a
    greeting from the chat endpoint is shown as soon as it arrives. */
module HomePage {
  import opened Upstream
  import PlacesApi
  import PlacesRoute
  import ImagesRoute
  import ImagesProperties
  import opened WeatherRoute

  const WeatherFailed := "Failed to fetch weather data"
  const LocationDenied := "Please enable location access to see weather information"
  const GeolocationUnsupported := "Geolocation is not supported by your browser"

  /** The body POSTed to the chat endpoint. */
  datatype ChatRequest = ChatRequest(name: string, weather: WeatherInfo, location: LocationInfo)

  /** The chat endpoint's answer: `{ message }` with an OK status, or a
      failure (non-OK status, or the request or its body threw). */
  datatype ChatReply = Message(text: string) | ChatFailed

  /** What `navigator.geolocation` gives: no API at all, a refused or failed
      position request, or a position. */
  datatype Geolocation = Unsupported | Denied | Located(latitude: real, longitude: real)

  // ---------------------------------------------------------------------
  // `String.prototype.trim`.

  /** The characters ECMAScript's `trim` removes: WhiteSpace (tab, vertical
      tab, form feed, space, no-break space, byte order mark and the other
      space separators) and LineTerminator (line feed, carriage return, line
      and paragraph separators). */
  predicate IsWhitespace(c: char)
  {
    || c == '\t' || c == '\n' || c == '\U{000B}' || c == '\U{000C}' || c == '\r' || c == ' '
    || c == '\U{00A0}' || c == '\U{1680}' || ('\U{2000}' <= c <= '\U{200A}')
    || c == '\U{2028}' || c == '\U{2029}' || c == '\U{202F}' || c == '\U{205F}'
    || c == '\U{3000}' || c == '\U{FEFF}'
  }

  /** `s` without its leading whitespace: a suffix of `s` that starts with a
      non-whitespace character unless empty, every dropped character being
      whitespace. */
  function TrimStart(s: string): (r: string)
    ensures |r| <= |s| && r == s[|s| - |r|..]
    ensures r != [] ==> !IsWhitespace(r[0])
    ensures forall i :: 0 <= i < |s| - |r| ==> IsWhitespace(s[i])
    decreases |s|
  {
    if s != [] && IsWhitespace(s[0]) then
      var r := TrimStart(s[1..]);
      assert forall i :: 1 <= i < |s| - |r| ==> s[i] == s[1..][i - 1];
      r
    else s
  }

  /** `s` without its trailing whitespace: a prefix of `s` that ends with a
      non-whitespace character unless empty, every dropped character being
      whitespace. */
  function TrimEnd(s: string): (r: string)
    ensures |r| <= |s| && r == s[..|r|]
    ensures r != [] ==> !IsWhitespace(r[|r| - 1])
    ensures forall i :: |r| <= i < |s| ==> IsWhitespace(s[i])
    decreases |s|
  {
    if s != [] && IsWhitespace(s[|s| - 1]) then
      var r := TrimEnd(s[..|s| - 1]);
      assert forall i :: 0 <= i < |s| - 1 ==> s[..|s| - 1][i] == s[i];
      r
    else s
  }

  function Trim(s: string): string
  {
    TrimEnd(TrimStart(s))
  }

  /** `name.trim()` is falsy exactly when the name is whitespace only (or
      empty); otherwise the trimmed name is a slice of the name that starts
      and ends with a non-whitespace character. */
  lemma {:induction false} TrimEmpty(s: string)
    ensures Trim(s) == "" <==> forall i :: 0 <= i < |s| ==> IsWhitespace(s[i])
    ensures Trim(s) != "" ==>
              && !IsWhitespace(Trim(s)[0]) && !IsWhitespace(Trim(s)[|Trim(s)| - 1])
              && exists i, j :: 0 <= i <= j <= |s| && Trim(s) == s[i..j]
  {
    var t := TrimStart(s);
    var r := TrimEnd(t);
    if r == "" {
      assert |t| == 0;
      assert forall i :: 0 <= i < |s| ==> IsWhitespace(s[i]);
    } else {
      assert !IsWhitespace(s[|s| - |t|]) by {
        assert r[0] == t[0] && t[0] == s[|s| - |t|];
      }
      assert r == s[|s| - |t|..|s| - |t| + |r|];
    }
  }

  // ---------------------------------------------------------------------
  // Pure parts of the handlers.

  /** The greeting shown when the chat endpoint fails. It names the city,
      the user and the temperature, in that order, and each can be read back
      from it at a fixed offset. */
  function FallbackGreeting(city: string, name: string, temperature: string): (g: string)
    ensures |g| == |city| + |name| + |temperature| + 29
    ensures g[..11] == "Welcome to "
    ensures g[11..11 + |city|] == city
    ensures g[11 + |city|..13 + |city|] == ", "
    ensures g[13 + |city|..13 + |city| + |name|] == name
    ensures g[13 + |city| + |name|..20 + |city| + |name|] == "! It's "
    ensures g[20 + |city| + |name|..20 + |city| + |name| + |temperature|] == temperature
    ensures g[|g| - 9..] == " outside."
  {
    "Welcome to " + city + ", " + name + "! It's " + temperature + " outside."
  }

  /** The greeting that replaces the old one when a chat request ends: the
      endpoint's message, or the fallback built from the city and the
      temperature the request was made with. */
  function GreetingAfter(request: ChatRequest, reply: ChatReply): string
  {
    match reply
    case Message(text) => text
    case ChatFailed => FallbackGreeting(request.location.city, request.name, request.weather.temperature)
  }

  /** The background `fetchPlacePhoto` settles on, given what the places
      request and (for a found place id) the images request resolved to. A
      background is set only through both routes: an OK places response with
      a non-empty id and an OK images response for exactly that id, whose URL
      it is; every other case, a thrown request included, leaves the
      gradient (""). */
  function BackgroundFor(places: Outcome<Response<string>>,
                         images: string -> Outcome<Response<ImagesRoute.ResolvedPhoto>>): (b: string)
    ensures b != "" ==>
              && places.Done? && places.value.Ok? && places.value.body != ""
              && images(places.value.body).Done? && images(places.value.body).value.Ok?
              && b == images(places.value.body).value.body.photoUrl
    ensures places.Threw? || places.value.Error? || (places.value.Ok? && places.value.body == "") ==>
              b == ""
    ensures places.Done? && places.value.Ok? && places.value.body != "" &&
            images(places.value.body).Done? && images(places.value.body).value.Ok? ==>
              b == images(places.value.body).value.body.photoUrl
  {
    match places
    case Threw => ""
    case Done(Error(_, _)) => ""
    case Done(Ok(placeId)) =>
      if placeId == "" then ""
      else
        match images(placeId)
        case Done(Ok(photo)) => photo.photoUrl
        case _ => ""
  }

  /** Against the two route handlers themselves: the background is either the
      gradient or a photo media URL for the server's key, and it is a URL
      exactly when the place found at the point resolves to a photo. */
  lemma {:induction false} BackgroundFromRoutes(
    lat: string, lng: string, key: string,
    search: (string, string) -> Outcome<Reply<PlacesApi.NearbyResult>>,
    details: string -> Outcome<PlacesApi.PlaceDetails>,
    nearby: (PlacesApi.Location, nat) -> Outcome<PlacesApi.NearbyResult>)
    ensures var places := Done(PlacesRoute.Get(Some(lat), Some(lng), search).result);
            var images := (id: string) => Done(ImagesRoute.Resolve(Some(id), key, details, nearby).result);
            var b := BackgroundFor(places, images);
            && (b == "" || ImagesRoute.IsPhotoUrl(b, key))
            && (b != "" <==>
                  && places.value.Ok? && places.value.body != ""
                  && ImagesRoute.Resolve(Some(places.value.body), key, details, nearby).result.Ok?)
  {
    var places := PlacesRoute.Get(Some(lat), Some(lng), search).result;
    if places.Ok? && places.body != "" {
      ImagesProperties.ResolveOutcomes(Some(places.body), key, details, nearby);
      var run := ImagesRoute.Resolve(Some(places.body), key, details, nearby);
      if run.result.Ok? {
        assert ImagesRoute.IsPhotoUrl(run.result.body.photoUrl, key);
        assert run.result.body.photoUrl != "";
      }
    }
  }

  // ---------------------------------------------------------------------
  // The page's state and handlers.

  /** The page component with its `useState` cells. */
  class Home {
    var name: string
    var greeting: string
    var isTransitioning: bool
    var isLoading: bool
    var locationData: Option<LocationInfo>
    var weatherData: Option<WeatherInfo>
    var locationError: string
    var backgroundImage: string

    /** Location and weather arrive together from one weather response; a
        background photo is only ever fetched for a known location; and the
        greeting only fades while a chat request is in flight. */
    ghost predicate Valid()
      reads this
    {
      && (locationData.Some? <==> weatherData.Some?)
      && (backgroundImage != "" ==> locationData.Some?)
      && (isTransitioning ==> isLoading)
    }

    /** The initial state: everything empty, nothing loading. */
    constructor ()
      ensures Valid()
      ensures name == "" && greeting == "" && !isTransitioning && !isLoading
      ensures locationData == None && weatherData == None
      ensures locationError == "" && backgroundImage == ""
    {
      name := "";
      greeting := "";
      isTransitioning := false;
      isLoading := false;
      locationData := None;
      weatherData := None;
      locationError := "";
      backgroundImage := "";
    }

    /** The name input's change handler. */
    method SetName(value: string)
      requires Valid()
      modifies this
      ensures Valid()
      ensures name == value
      ensures greeting == old(greeting) && isTransitioning == old(isTransitioning) && isLoading == old(isLoading)
      ensures locationData == old(locationData) && weatherData == old(weatherData)
      ensures locationError == old(locationError) && backgroundImage == old(backgroundImage)
    {
      name := value;
    }

    /** Weather, location and a name that is not blank are all present. */
    predicate ReadyToGreet()
      reads this
    {
      weatherData.Some? && locationData.Some? && Trim(name) != ""
    }

    /** The synchronous head of `generateGreeting`: it gives up without a
        trace unless weather, location and a non-blank name are all there, or
        when a debounced call finds a request already loading (a manual call
        is never blocked); otherwise it marks a request as loading and the
        greeting as fading, and yields the body it POSTs, built from the
        current state. */
    method BeginGreeting(shouldDebounce: bool) returns (request: Option<ChatRequest>)
      requires Valid()
      modifies this
      ensures Valid()
      ensures request.None? <==> !old(ReadyToGreet()) || (shouldDebounce && old(isLoading))
      ensures request.None? ==>
                isLoading == old(isLoading) && isTransitioning == old(isTransitioning)
      ensures request.Some? ==>
                && isLoading && isTransitioning
                && weatherData.Some? && locationData.Some?
                && request.value == ChatRequest(name, weatherData.value, locationData.value)
      ensures name == old(name) && greeting == old(greeting)
      ensures locationData == old(locationData) && weatherData == old(weatherData)
      ensures locationError == old(locationError) && backgroundImage == old(backgroundImage)
    {
      if weatherData.None? || locationData.None? || Trim(name) == "" {
        return None;
      }
      if shouldDebounce && isLoading {
        return None;
      }
      isLoading := true;
      isTransitioning := true;
      return Some(ChatRequest(name, weatherData.value, locationData.value));
    }

    /** The tail of `generateGreeting` once the chat request has settled: the
        endpoint's message, or on any failure the fallback greeting built from
        the values the request was made with; either way the fade ends and,
        in the `finally`, loading stops. */
    method FinishGreeting(request: ChatRequest, reply: ChatReply)
      requires Valid()
      modifies this
      ensures Valid()
      ensures greeting == GreetingAfter(request, reply)
      ensures !isTransitioning && !isLoading
      ensures name == old(name)
      ensures locationData == old(locationData) && weatherData == old(weatherData)
      ensures locationError == old(locationError) && backgroundImage == old(backgroundImage)
    {
      match reply {
        case Message(text) =>
          isTransitioning := true;
          greeting := text;
          isTransitioning := false;
        case ChatFailed =>
          greeting := FallbackGreeting(request.location.city, request.name, request.weather.temperature);
          isTransitioning := false;
      }
      isLoading := false;
    }

    /** `generateGreeting(shouldDebounce)` with the chat endpoint answering
        `chat`: a call the guards reject changes nothing; any other call
        replaces the greeting with the endpoint's message, or with the
        fallback for the current city, name and temperature, and leaves the
        page neither loading nor fading. */
    method GenerateGreeting(shouldDebounce: bool, chat: ChatRequest -> ChatReply)
      requires Valid()
      modifies this
      ensures Valid()
      ensures !old(ReadyToGreet()) || (shouldDebounce && old(isLoading)) ==>
                && greeting == old(greeting)
                && isLoading == old(isLoading) && isTransitioning == old(isTransitioning)
      ensures old(ReadyToGreet()) && !(shouldDebounce && old(isLoading)) ==>
                && (var request := ChatRequest(old(name), old(weatherData).value, old(locationData).value);
                    greeting == GreetingAfter(request, chat(request)))
                && !isLoading && !isTransitioning
      ensures name == old(name)
      ensures locationData == old(locationData) && weatherData == old(weatherData)
      ensures locationError == old(locationError) && backgroundImage == old(backgroundImage)
    {
      var request := BeginGreeting(shouldDebounce);
      if request.Some? {
        FinishGreeting(request.value, chat(request.value));
      }
    }

    /** `fetchPlacePhoto` for the current location: the background becomes
        what BackgroundFor says, and nothing else changes. */
    method FetchPlacePhoto(places: Outcome<Response<string>>,
                           images: string -> Outcome<Response<ImagesRoute.ResolvedPhoto>>)
      requires Valid() && locationData.Some?
      modifies this
      ensures Valid()
      ensures backgroundImage == BackgroundFor(places, images)
      ensures name == old(name) && greeting == old(greeting)
      ensures isTransitioning == old(isTransitioning) && isLoading == old(isLoading)
      ensures locationData == old(locationData) && weatherData == old(weatherData)
      ensures locationError == old(locationError)
    {
      if places.Threw? {
        backgroundImage := "";
        return;
      }
      var placesData := places.value;
      if placesData.Ok? && placesData.body != "" {
        var response := images(placesData.body);
        if response.Done? && response.value.Ok? {
          backgroundImage := response.value.body.photoUrl;
        } else {
          backgroundImage := "";
        }
      } else {
        backgroundImage := "";
      }
    }

    /** `fetchWeatherData`: on an OK weather response the location and
        weather are replaced, the error is cleared, and the photo for the
        point is fetched; on any failure only the error message is set and
        location, weather and background stay as they were. */
    method FetchWeatherData(weather: Outcome<Response<Report>>,
                            places: Outcome<Response<string>>,
                            images: string -> Outcome<Response<ImagesRoute.ResolvedPhoto>>)
      requires Valid()
      modifies this
      ensures Valid()
      ensures weather.Done? && weather.value.Ok? ==>
                && locationData == Some(weather.value.body.location)
                && weatherData == Some(weather.value.body.weather)
                && locationError == ""
                && backgroundImage == BackgroundFor(places, images)
      ensures !(weather.Done? && weather.value.Ok?) ==>
                && locationError == WeatherFailed
                && locationData == old(locationData) && weatherData == old(weatherData)
                && backgroundImage == old(backgroundImage)
      ensures name == old(name) && greeting == old(greeting)
      ensures isTransitioning == old(isTransitioning) && isLoading == old(isLoading)
    {
      if weather.Threw? || weather.value.Error? {
        locationError := WeatherFailed;
        return;
      }
      var data := weather.value.body;
      locationData := Some(data.location);
      weatherData := Some(data.weather);
      locationError := "";
      FetchPlacePhoto(places, images);
    }

    /** The effect run on mount: without a geolocation API, or when the
        position is refused, an explanatory error is shown and the background
        cleared; with a position, the weather for it is fetched. */
    method OnMount(geolocation: Geolocation,
                   weather: Outcome<Response<Report>>,
                   places: Outcome<Response<string>>,
                   images: string -> Outcome<Response<ImagesRoute.ResolvedPhoto>>)
      requires Valid()
      modifies this
      ensures Valid()
      ensures geolocation.Unsupported? ==>
                locationError == GeolocationUnsupported && backgroundImage == ""
      ensures geolocation.Denied? ==>
                locationError == LocationDenied && backgroundImage == ""
      ensures !geolocation.Located? ==>
                locationData == old(locationData) && weatherData == old(weatherData)
      ensures geolocation.Located? && weather.Done? && weather.value.Ok? ==>
                && locationData == Some(weather.value.body.location)
                && weatherData == Some(weather.value.body.weather)
                && locationError == ""
                && backgroundImage == BackgroundFor(places, images)
      ensures geolocation.Located? && !(weather.Done? && weather.value.Ok?) ==>
                && locationError == WeatherFailed
                && locationData == old(locationData) && weatherData == old(weatherData)
                && backgroundImage == old(backgroundImage)
      ensures name == old(name) && greeting == old(greeting)
      ensures isTransitioning == old(isTransitioning) && isLoading == old(isLoading)
    {
      match geolocation {
        case Unsupported =>
          locationError := GeolocationUnsupported;
          backgroundImage := "";
        case Denied =>
          locationError := LocationDenied;
          backgroundImage := "";
        case Located(_, _) =>
          FetchWeatherData(weather, places, images);
      }
    }

    /** A click on the map fetches the weather for the clicked point. */
    method MapClick(weather: Outcome<Response<Report>>,
                    places: Outcome<Response<string>>,
                    images: string -> Outcome<Response<ImagesRoute.ResolvedPhoto>>)
      requires Valid()
      modifies this
      ensures Valid()
      ensures weather.Done? && weather.value.Ok? ==>
                && locationData == Some(weather.value.body.location)
                && weatherData == Some(weather.value.body.weather)
                && locationError == ""
                && backgroundImage == BackgroundFor(places, images)
      ensures !(weather.Done? && weather.value.Ok?) ==>
                && locationError == WeatherFailed
                && locationData == old(locationData) && weatherData == old(weatherData)
                && backgroundImage == old(backgroundImage)
      ensures name == old(name) && greeting == old(greeting)
      ensures isTransitioning == old(isTransitioning) && isLoading == old(isLoading)
    {
      FetchWeatherData(weather, places, images);
    }
  }
}
