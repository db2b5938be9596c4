# Hello-world weather greeter, modelled in Dafny

The application is a Next.js page that locates the user (or takes a point
clicked on a map), shows the current weather and place name for that point,
greets the user by name through a chat endpoint, and puts a photo of a
nearby place behind it all. Three server routes do the upstream work:

- `GET /api/weather?lat&lon` asks the Open-Meteo forecast service for the
  current conditions, then the Nominatim reverse geocoder for the address,
  and answers with a formatted report (city name by fallback chain,
  temperature rounded to whole degrees Celsius, wind speed and humidity with
  units).
- `GET /api/places?lat&lng` runs one nearby search of radius 100 m for at
  most one place and answers with that place's id.
- `GET /api/images?placeId` answers with a photo media URL: the place's own
  first photo if it has one, otherwise the first photo of another place found
  by nearby searches of radius 200, 500 and then 1000 m around it.

The model keeps each route's branches, messages, status codes and the order
of its upstream calls. Every upstream request is a parameter. For the
images route the two helpers `getPlacePhotos` and `searchNearbyPlaces` become
functions from their arguments to `Done(json)` or `Threw`. For the places
and weather routes the fetch gives `Done(Reply(ok, json))` or `Threw`, so
the model shows which route checks the `ok` flag and which does not. Each
route returns a `Run`: its response together with the ordered log of the
upstream calls it made. The images route's nested loops are imperative
methods proved equal to recursive specification functions. The client page
is a class whose fields are the page's `useState` cells, with one method per
handler.

Files: `upstream.dfy` (shared shapes), `places_api.dfy` (the Places
directory's replies), `images_route.dfy` and `images_properties.dfy` (the
images route and what it promises), `weather_route.dfy`, `places_route.dfy`,
`home_page.dfy` (the page).

## Model

| member | source | states |
|---|---|---|
| `ImagesRoute.PhotoUrl` | hello-world/src/app/api/images/route.ts:58-59 | The media URL is the fixed prefix, the photo name and the key suffix asking for at most 1080x1920 pixels; the photo name can be read back from between prefix and suffix. |
| `ImagesRoute.Get` | hello-world/src/app/api/images/route.ts:43-101 | The handler, with its early returns and nested loops, gives exactly the response and upstream-call log of the specification `Resolve`. |
| `ImagesRoute.SearchNearby` | hello-world/src/app/api/images/route.ts:72-92 | The outer loop over the radii 200, 500, 1000 gives exactly the result and calls of `ScanRadii`: one nearby search per radius, each followed by the inner loop, stopping at the first photo or failure. |
| `ImagesRoute.ScanPlaces` | hello-world/src/app/api/images/route.ts:78-91 | The inner loop's specification makes at most one call per place; a found photo is labelled with a place name; a failed scan ends with the details lookup that threw. |
| `ImagesRoute.ScanRadii` | hello-world/src/app/api/images/route.ts:72-92 | The outer loop's specification starts each non-empty run of radii with a nearby search of the first radius for at most ten places around the centre; a found photo is labelled with a place name; a failure follows at least one call. |
| `ImagesRoute.Resolve` | hello-world/src/app/api/images/route.ts:43-101 | The handler's specification makes no upstream call exactly when it answers the 400; otherwise its first call looks up the requested place; a successful photo is unlabelled exactly when the one lookup of the requested place was the only call. |
| `ImagesRoute.ScanCandidates` | hello-world/src/app/api/images/route.ts:78-91 | The inner loop over one radius's places gives exactly the result and calls of `ScanPlaces`: skip the target, look each other place up, stop at the first photo or the first thrown lookup. |
| `ImagesProperties.Candidates` | hello-world/src/app/api/images/route.ts:78-79 | The places the inner loop considers are exactly the places of the nearby list other than the requested place: none is the requested place, and every other place of the list is among them. |
| `ImagesProperties.CandidatesAppend` | hello-world/src/app/api/images/route.ts:78-79 | Skipping the requested place keeps list order: the candidates of two lists one after the other are those of the first followed by those of the second. |
| `ImagesProperties.ScanPlacesLookups` | hello-world/src/app/api/images/route.ts:78-91 | One radius's scan looks up a prefix of the candidates, in list order, each once; when nothing is found it has looked up all of them. |
| `ImagesProperties.ScanPlacesOrder` | hello-world/src/app/api/images/route.ts:79-81 | Every call of one radius's scan is a details lookup, and the requested place is never looked up again. |
| `ImagesProperties.ScanPlacesFirstMatch` | hello-world/src/app/api/images/route.ts:78-91 | The inner loop returns the first photo of the first place that is not the target and has photos, labelled with its display name; it finds nothing exactly when every place is the target or has no photos. |
| `ImagesProperties.ScanPlacesAppend` | hello-world/src/app/api/images/route.ts:74-92 | Scanning two lists one after the other, the second only when the first finds nothing, is the same as scanning their concatenation. |
| `ImagesProperties.ScanRadiiIsFlatScan` | hello-world/src/app/api/images/route.ts:72-92 | When every nearby search succeeds, the nested search finds what one scan of all radii's places, in radius-then-position order, finds, with the same lookups in the same order. |
| `ImagesProperties.ScanRadiiCalls` | hello-world/src/app/api/images/route.ts:35-81 | Every nearby search is centred on the requested place's location and asks for at most ten places, and no lookup is of the requested place. |
| `ImagesProperties.RadiiInOrder` | hello-world/src/app/api/images/route.ts:72-76 | The nearby searches use the radii in increasing order 200, 500, 1000, each at most once. |
| `ImagesProperties.RadiiExhaustedBefore` | hello-world/src/app/api/images/route.ts:74-92 | A larger radius is searched only after every candidate of each smaller radius was looked up without finding a photo. |
| `ImagesProperties.ScanPlacesFailure` | hello-world/src/app/api/images/route.ts:81 | The inner loop fails exactly when its last lookup threw and none before it did; otherwise no lookup threw. |
| `ImagesProperties.ScanRadiiFailure` | hello-world/src/app/api/images/route.ts:76-81 | The outer loop fails exactly when its last call threw and none before it did; otherwise no call threw. |
| `ImagesProperties.ResolveOutcomes` | hello-world/src/app/api/images/route.ts:43-101 | A missing or empty placeId is a 400 with no upstream call, and only then; otherwise the first call looks up the place and no later call does; the only errors are the 400, the two 404s and the 500; every photo URL is a media URL for the key; a photo is unlabelled exactly when it is the place's own. |
| `ImagesProperties.FoundIsLabelled` | hello-world/src/app/api/images/route.ts:74-92 | Whatever the nearby searches return, a photo found through them is the photo of the first place, in radius-then-position order over the lists searched, that is not the requested place and has photos; it is a media URL for the key and carries that place's display name. |
| `ImagesProperties.ResolveFailure` | hello-world/src/app/api/images/route.ts:53-100 | The handler answers 500 exactly when an upstream step threw: that step is its last call and every earlier call succeeded. |
| `ImagesProperties.ResolveShortCuts` | hello-world/src/app/api/images/route.ts:55-67 | A place with photos gets its own first photo, unlabelled, after one lookup; a place with neither photos nor location is a 404 after that same single lookup. |
| `ImagesProperties.ResolveIsFirstMatch` | hello-world/src/app/api/images/route.ts:64-95 | For a place without photos but with a location, and with all nearby searches succeeding, the answer is the photo of the first other place with photos in radius-then-position order, and a 404 exactly when there is none. |
| `ImagesProperties.ScanRadiiBudget` | hello-world/src/app/api/images/route.ts:72-92 | When each nearby search returns at most `maxResultCount` places, the outer loop makes at most one search plus ten lookups per radius. |
| `ImagesProperties.ResolveBudget` | hello-world/src/app/api/images/route.ts:35-92 | Under the same condition one request costs at most 34 upstream calls. |
| `WeatherRoute.Round` | hello-world/src/app/api/weather/route.ts:56 | `Math.round` gives the integer nearest the reading, halves rounded up. |
| `WeatherRoute.NatToString` | hello-world/src/app/api/weather/route.ts:56 | A whole number prints as decimal digits with no leading zero: a numeral starting with '0' is "0" itself, the print of zero. |
| `WeatherRoute.IntToString` | hello-world/src/app/api/weather/route.ts:56 | An integer prints canonically: a leading minus sign exactly for negatives, followed by a non-zero digit; a numeral starting with '0' is "0" itself, so never "-0" or "022". |
| `WeatherRoute.NatToStringReadsBack` | hello-world/src/app/api/weather/route.ts:56 | The printed digits of a whole number have that number as their value. |
| `WeatherRoute.IntToStringReadsBack` | hello-world/src/app/api/weather/route.ts:56 | A printed integer, minus sign included, parses back to the integer. |
| `WeatherRoute.TemperatureReadsBack` | hello-world/src/app/api/weather/route.ts:56 | The temperature text ends in the degree-Celsius sign and parses back to the rounded reading. |
| `WeatherRoute.TemperatureExample` | hello-world/src/app/api/weather/route.ts:56 | A reading of 21.6 is reported as "22°C". |
| `WeatherRoute.CityName` | hello-world/src/app/api/weather/route.ts:40-44 | The city is the first non-empty of city, town, village and suburb, else "Unknown Location"; it is never empty. |
| `WeatherRoute.Get` | hello-world/src/app/api/weather/route.ts:3-71 | The handler's specification makes at most two upstream calls, none exactly when it answers the 400, and both whenever it succeeds. |
| `WeatherRoute.GetOutcomes` | hello-world/src/app/api/weather/route.ts:3-71 | A missing or empty coordinate is a 400 with no upstream call, and only then; the calls are exactly the forecast, then the geocoder only after an OK forecast body; every other failure is the one 500; success needs both replies OK and a `current` block, and its body is the report formatted from exactly those two bodies. |
| `WeatherRoute.Format` | hello-world/src/app/api/weather/route.ts:46-61 | The report copies the coordinates, display name and timestamp, has as city the fallback-chain `CityName` of the address, never empty, gives back the wind speed and humidity text under their " m/s" and "%" suffixes, and a temperature text that is the canonical print of the rounded reading followed by "°C", which parses back to that reading. |
| `PlacesRoute.Get` | hello-world/src/app/api/places/route.ts:5-56 | The handler's specification makes at most one upstream call, none exactly when it answers the 400, and its only error statuses are 400, 404 and 500. |
| `PlacesRoute.GetOutcomes` | hello-world/src/app/api/places/route.ts:5-56 | A missing or empty coordinate is a 400 with no upstream call, and only then; otherwise exactly one nearby search of radius 100 for one result at the given point; a reply without places is a 404, a thrown fetch or body a 500, and a reply with places is a success carrying the first place's id, and only then. |
| `PlacesRoute.StatusNotChecked` | hello-world/src/app/api/places/route.ts:39-50 | The reply's status is never read: an OK and a non-OK reply with the same body give the same response. |
| `HomePage.TrimStart` | hello-world/src/app/page.tsx:121 | Leading trim drops exactly the leading ECMAScript whitespace: the result is a suffix that starts with a non-whitespace character unless empty. |
| `HomePage.TrimEnd` | hello-world/src/app/page.tsx:121 | Trailing trim drops exactly the trailing whitespace: the result is a prefix that ends with a non-whitespace character unless empty. |
| `HomePage.TrimEmpty` | hello-world/src/app/page.tsx:121 | `name.trim()` is empty exactly when the name is all whitespace; otherwise it is a slice of the name that starts and ends with a non-whitespace character. |
| `HomePage.FallbackGreeting` | hello-world/src/app/page.tsx:158 | The fallback greeting is exactly "Welcome to ", the city, ", ", the name, "! It's ", the temperature and " outside.": its length and every segment, fixed words and fields alike, are stated at their offsets. |
| `HomePage.BackgroundFor` | hello-world/src/app/page.tsx:41-70 | The background is the photo URL exactly when the places response is OK with a non-empty id and the images response for that id is OK, and then it is that response's URL; a thrown request, an error response or an empty id leave the gradient. |
| `HomePage.BackgroundFromRoutes` | hello-world/src/app/page.tsx:45-56 | Against the places and images routes themselves, the background is either the gradient or a media URL for the server's key, and it is a URL exactly when the place found at the point resolves to a photo. |
| `HomePage.Home.constructor` | hello-world/src/app/page.tsx:33-40 | The page starts with an empty name, greeting, error and background, no location or weather, and nothing loading. |
| `HomePage.Home.SetName` | hello-world/src/app/page.tsx:273 | Typing replaces the name and nothing else. |
| `HomePage.Home.BeginGreeting` | hello-world/src/app/page.tsx:121-127 | Without weather, location or a non-blank name, or when a debounced call finds a request loading, nothing changes; a manual call is never blocked by loading; otherwise loading and fading start and the request carries the current name, weather and location. |
| `HomePage.Home.FinishGreeting` | hello-world/src/app/page.tsx:129-163 | When the chat request settles the greeting becomes the message or the fallback, the fade ends and loading stops, whatever the outcome. |
| `HomePage.Home.GenerateGreeting` | hello-world/src/app/page.tsx:119-166 | A call the guards reject changes nothing; any other call leaves the greeting from the chat reply or the fallback for the current city, name and temperature, with nothing loading or fading; location, weather, error and background are untouched. |
| `HomePage.Home.FetchPlacePhoto` | hello-world/src/app/page.tsx:41-70 | The background becomes the photo URL exactly under the rule of `BackgroundFor`, and nothing else changes. |
| `HomePage.Home.FetchWeatherData` | hello-world/src/app/page.tsx:72-92 | An OK weather response replaces location and weather, clears the error and then sets the background from the photo fetch; any failure only sets "Failed to fetch weather data". |
| `HomePage.Home.OnMount` | hello-world/src/app/page.tsx:94-113 | Without geolocation, or with the position refused, the matching error is shown and the background cleared; with a position the weather fetch runs. The position's coordinates do not reach the model: the responses the routes give for that point are the parameters. |
| `HomePage.Home.MapClick` | hello-world/src/app/page.tsx:115-117 | A map click runs the weather fetch, with the same outcomes as `FetchWeatherData`. The clicked point is not a parameter: the responses the routes give for it are. |

Every method of `Home` keeps the invariant `Valid`: location and weather are
present together, a background photo implies a known location, and the
greeting only fades while a request is loading. The last conjunct holds in
the model only because the 150 ms transition is collapsed (see below).

## Left out

- HTTP, JSON parsing, `NextResponse`, URL building and the request headers: upstream calls are parameters and their JSON bodies are datatypes holding only the fields the code reads.
- The API key is read from the environment in the source; here it is a parameter of the images route.
- `parseFloat` of the query coordinates and the numbers the client puts into its URLs: coordinates stay the query strings they arrive as, and the client page's fetch results are parameters.
- WeatherRoute.NatToString: prints every decimal digit, which matches JavaScript's printing of the rounded temperature only for magnitudes below 2^53; above that JavaScript prints rounded digits, and from 10^21 on exponent form.
- Number formatting of wind speed and humidity: these are the upstream text; only `Math.round` and the printing of the rounded integer are modelled, for finite readings of magnitude below 2^53.
- `displayName.text` of a nearby place is assumed present (the field mask requests it); a missing one would throw and end in the 500.
- The places route's `places[0].id` is assumed present; a missing id would give a response with no `placeId`.
- The chat endpoint's reply is `{ message }` or a failure; a reply without `message` is not modelled.
- The page's `fetch` URLs do not URL-encode the place id or coordinates; the model passes them through unchanged.
- Timing: the 150 ms greeting transition is collapsed, so a chat message is shown as soon as it arrives; in the page `isLoading` is cleared in the `finally` block (page.tsx lines 161-163) while `isTransitioning` is cleared by the timer (lines 149-153), so for those 150 ms the greeting fades with nothing loading, which `Home.Valid` does not allow; the 500 ms debounce effect (page.tsx lines 169-177) is not modelled, and `shouldDebounce` stands for a call from it.
- Concurrency: requests in flight at the same time, and `fetchPlacePhoto` not being awaited, are not modelled; each handler runs to completion before the next starts.
- The JSX markup, including the disabled states of the buttons, the map component, the tailwind configuration, the `/api/chat` route and all console logging.
