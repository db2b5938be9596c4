/** `GET /api/weather?lat=...&lon=...`: current weather and the place name for
    a pair of coordinates. The forecast upstream is called first and must
    answer with an OK status; then the reverse geocoder, which must too. The
    city is the first non-empty of the address's city, town, village and
    suburb, else "Unknown Location"; the temperature is rounded to whole
    degrees and suffixed with the degree-Celsius sign.

    The two upstream fetches become parameters, each giving the reply's `ok`
    flag and its parsed body for the coordinates as the request gave them. */
module WeatherRoute {
  import opened Upstream

  const ParametersRequired := "Latitude and longitude parameters are required"
  const FetchFailed := "Failed to fetch weather data"
  const UnknownLocation := "Unknown Location"
  const DegreesCelsius := "\U{B0}C"

  /** The `current` block of the forecast reply. Wind speed and humidity are
      kept as the text the numbers print as. */
  datatype Current = Current(temperature: real, windSpeed: string, humidity: string, time: string)

  /** The forecast reply; `current` may be absent. */
  datatype Forecast = Forecast(current: Option<Current>)

  /** The reverse geocoder's address; any field may be absent. */
  datatype Address = Address(city: Option<string>, town: Option<string>,
                             village: Option<string>, suburb: Option<string>)

  /** The reverse geocoder's reply. */
  datatype Geocode = Geocode(address: Option<Address>, displayName: Option<string>)

  /** The coordinates as the query gave them. */
  datatype Coordinates = Coordinates(latitude: string, longitude: string)

  datatype LocationInfo = LocationInfo(coordinates: Coordinates, city: string, displayName: Option<string>)

  datatype WeatherInfo = WeatherInfo(temperature: string, windSpeed: string, humidity: string)

  /** The handler's successful response. */
  datatype Report = Report(location: LocationInfo, weather: WeatherInfo, timestamp: string)

  datatype Call = ForecastCall(latitude: string, longitude: string)
                | ReverseGeocodeCall(latitude: string, longitude: string)

  // ---------------------------------------------------------------------
  // Rounding and printing the temperature.

  /** `Math.round` on a finite number: the nearest integer, halves rounded
      up. */
  function Round(t: real): (r: int)
    ensures r as real - 0.5 <= t < r as real + 0.5
  {
    (t + 0.5).Floor
  }

  function Digit(d: nat): (c: char)
    requires d < 10
    ensures '0' <= c <= '9'
  {
    ('0' as int + d) as char
  }

  /** The decimal numeral of `n`, without leading zeros. */
  function NatToString(n: nat): (s: string)
    ensures |s| >= 1
    ensures forall i :: 0 <= i < |s| ==> '0' <= s[i] <= '9'
    ensures s[0] == '0' ==> n == 0 && s == "0"
    decreases n
  {
    if n < 10 then [Digit(n)] else NatToString(n / 10) + [Digit(n % 10)]
  }

  /** How an integer prints: a minus sign for negatives, then the numeral.
      The text is canonical: no leading zero, and never "-0". */
  function IntToString(n: int): (s: string)
    ensures |s| >= 1
    ensures s[0] == '-' <==> n < 0
    ensures s[0] == '0' ==> s == "0"
    ensures s[0] == '-' ==> |s| >= 2 && '1' <= s[1] <= '9'
  {
    if n < 0 then "-" + NatToString(-n) else NatToString(n)
  }

  predicate IsNumeral(s: string)
  {
    |s| >= 1 && forall i :: 0 <= i < |s| ==> '0' <= s[i] <= '9'
  }

  predicate IsIntegerText(s: string)
  {
    IsNumeral(s) || (|s| >= 2 && s[0] == '-' && IsNumeral(s[1..]))
  }

  /** The value of a string of decimal digits. */
  function NumeralValue(s: string): nat
    requires forall i :: 0 <= i < |s| ==> '0' <= s[i] <= '9'
  {
    if s == [] then 0
    else NumeralValue(s[..|s| - 1]) * 10 + (s[|s| - 1] as int - '0' as int)
  }

  function ParseInt(s: string): int
    requires IsIntegerText(s)
  {
    if s[0] == '-' then -(NumeralValue(s[1..]) as int) else NumeralValue(s)
  }

  lemma {:induction false} NatToStringReadsBack(n: nat)
    ensures NumeralValue(NatToString(n)) == n
    decreases n
  {
    if n >= 10 {
      NatToStringReadsBack(n / 10);
      var s := NatToString(n);
      assert s[..|s| - 1] == NatToString(n / 10);
    }
  }

  /** Printing an integer loses nothing: the text parses back to it. */
  lemma IntToStringReadsBack(n: int)
    ensures IsIntegerText(IntToString(n)) && ParseInt(IntToString(n)) == n
  {
    var s := IntToString(n);
    if n < 0 {
      var digits := NatToString(-n);
      NatToStringReadsBack(-n);
      assert s == "-" + digits;
      assert s[1..] == digits;
      assert IsNumeral(digits);
    } else {
      NatToStringReadsBack(n);
      assert s == NatToString(n);
      assert '0' <= s[0] <= '9';
      assert IsNumeral(s);
    }
  }

  function FormatTemperature(t: real): string
  {
    IntToString(Round(t)) + DegreesCelsius
  }

  /** `s` with `suffix` removed, when `s` ends with it. */
  function Unsuffix(s: string, suffix: string): Option<string>
  {
    if |suffix| <= |s| && s[|s| - |suffix|..] == suffix then Some(s[..|s| - |suffix|]) else None
  }

  /** The whole degrees a temperature text stands for. */
  function ParseTemperature(s: string): Option<int>
  {
    match Unsuffix(s, DegreesCelsius)
    case Some(number) => if IsIntegerText(number) then Some(ParseInt(number)) else None
    case None => None
  }

  /** The printed temperature ends in the degree-Celsius sign and gives back
      the rounded value, the integer nearest the reading (halves up). */
  lemma TemperatureReadsBack(t: real)
    ensures ParseTemperature(FormatTemperature(t)) == Some(Round(t))
    ensures Round(t) as real - 0.5 <= t < Round(t) as real + 0.5
  {
    var s := FormatTemperature(t);
    IntToStringReadsBack(Round(t));
    assert s[..|s| - |DegreesCelsius|] == IntToString(Round(t));
  }

  /** A reading of 21.6 degrees is reported as "22°C". */
  lemma TemperatureExample()
    ensures FormatTemperature(21.6) == "22" + DegreesCelsius
  {
    assert Round(21.6) == 22;
    assert NatToString(22) == NatToString(2) + [Digit(2)];
  }

  // ---------------------------------------------------------------------
  // The city fallback chain.

  /** `field || otherwise` for an optional string field. */
  function Or(field: Option<string>, otherwise: string): string
  {
    if Truthy(field) then field.value else otherwise
  }

  /** The city name of a geocoded address: the first non-empty of city, town,
      village and suburb, else "Unknown Location"; never empty. */
  function CityName(address: Option<Address>): (city: string)
    ensures city != ""
    ensures address.Some? && Truthy(address.value.city) ==> city == address.value.city.value
    ensures address.Some? && !Truthy(address.value.city) && Truthy(address.value.town) ==>
              city == address.value.town.value
    ensures (address.Some? && !Truthy(address.value.city) && !Truthy(address.value.town) &&
             Truthy(address.value.village)) ==> city == address.value.village.value
    ensures (address.Some? && !Truthy(address.value.city) && !Truthy(address.value.town) &&
             !Truthy(address.value.village) && Truthy(address.value.suburb)) ==> city == address.value.suburb.value
    ensures (address.None? || (!Truthy(address.value.city) && !Truthy(address.value.town) &&
                               !Truthy(address.value.village) && !Truthy(address.value.suburb))) ==>
              city == UnknownLocation
  {
    match address
    case None => UnknownLocation
    case Some(a) => Or(a.city, Or(a.town, Or(a.village, Or(a.suburb, UnknownLocation))))
  }

  // ---------------------------------------------------------------------
  // The handler.

  /** A fetch whose status is checked: a non-OK reply throws before its body
      is read. */
  function Checked<T>(f: Outcome<Reply<T>>): Outcome<T>
  {
    match f
    case Threw => Threw
    case Done(reply) => if reply.ok then reply.json else Threw
  }

  /** The response shape built from the two upstream bodies. Every field can
      be traced back to them: coordinates, display name and timestamp are
      copied, the city is the address's `CityName` (never empty), the wind
      speed and humidity are the upstream text with " m/s" and "%" appended,
      and the temperature text parses back to the reading rounded to the
      nearest degree. */
  function Format(lat: string, lon: string, current: Current, place: Geocode): (r: Report)
    ensures r.location.coordinates == Coordinates(lat, lon)
    ensures r.location.displayName == place.displayName
    ensures r.timestamp == current.time
    ensures r.location.city == CityName(place.address) && r.location.city != ""
    ensures Unsuffix(r.weather.windSpeed, " m/s") == Some(current.windSpeed)
    ensures Unsuffix(r.weather.humidity, "%") == Some(current.humidity)
    ensures ParseTemperature(r.weather.temperature) == Some(Round(current.temperature))
    ensures r.weather.temperature == IntToString(Round(current.temperature)) + DegreesCelsius
  {
    var r := Report(LocationInfo(Coordinates(lat, lon), CityName(place.address), place.displayName),
                    WeatherInfo(FormatTemperature(current.temperature),
                                current.windSpeed + " m/s",
                                current.humidity + "%"),
                    current.time);
    TemperatureReadsBack(current.temperature);
    assert r.weather.windSpeed[..|r.weather.windSpeed| - 4] == current.windSpeed;
    assert r.weather.humidity[..|r.weather.humidity| - 1] == current.humidity;
    r
  }

  /** The handler's specification: its response and the upstream calls it
      makes. */
  function Get(lat: Option<string>, lon: Option<string>,
               forecast: (string, string) -> Outcome<Reply<Forecast>>,
               geocode: (string, string) -> Outcome<Reply<Geocode>>): (r: Run<Response<Report>, Call>)
    ensures |r.calls| <= 2
    ensures r.calls == [] <==> r.result == Error(400, ParametersRequired)
    ensures r.result.Ok? ==> |r.calls| == 2
  {
    if !Truthy(lat) || !Truthy(lon) then Run(Error(400, ParametersRequired), [])
    else
      var first := ForecastCall(lat.value, lon.value);
      match Checked(forecast(lat.value, lon.value))
      case Threw => Run(Error(500, FetchFailed), [first])
      case Done(weather) =>
        var both := [first, ReverseGeocodeCall(lat.value, lon.value)];
        match Checked(geocode(lat.value, lon.value))
        case Threw => Run(Error(500, FetchFailed), both)
        case Done(place) =>
          match weather.current
          case None => Run(Error(500, FetchFailed), both)
          case Some(current) => Run(Ok(Format(lat.value, lon.value, current, place)), both)
  }

  /** The handler's outcomes: a missing or empty coordinate is a 400 with no
      upstream call; otherwise the forecast is fetched first, the geocoder is
      fetched only after an OK forecast, and every other failure is the one
      500; success needs both OK and a `current` block, and its body is the
      report formatted from exactly those two bodies. */
  lemma GetOutcomes(lat: Option<string>, lon: Option<string>,
                    forecast: (string, string) -> Outcome<Reply<Forecast>>,
                    geocode: (string, string) -> Outcome<Reply<Geocode>>)
    ensures var run := Get(lat, lon, forecast, geocode);
            && (run.result == Error(400, ParametersRequired) <==> !Truthy(lat) || !Truthy(lon))
            && (run.calls == [] <==> !Truthy(lat) || !Truthy(lon))
            && (run.result.Error? ==> run.result == Error(400, ParametersRequired) || run.result == Error(500, FetchFailed))
            && (Truthy(lat) && Truthy(lon) ==> run.calls[0] == ForecastCall(lat.value, lon.value))
            && (|run.calls| == 2 <==> Truthy(lat) && Truthy(lon) && Checked(forecast(lat.value, lon.value)).Done?)
            && (|run.calls| == 2 ==> run.calls[1] == ReverseGeocodeCall(lat.value, lon.value))
            && |run.calls| <= 2
            && (Truthy(lat) && Truthy(lon) && Checked(forecast(lat.value, lon.value)).Threw? ==>
                  run.calls == [ForecastCall(lat.value, lon.value)])
            && (Truthy(lat) && Truthy(lon) && Checked(forecast(lat.value, lon.value)).Done? ==>
                  run.calls == [ForecastCall(lat.value, lon.value), ReverseGeocodeCall(lat.value, lon.value)])
            && (run.result.Ok? <==>
                  && Truthy(lat) && Truthy(lon)
                  && Checked(forecast(lat.value, lon.value)).Done?
                  && Checked(geocode(lat.value, lon.value)).Done?
                  && Checked(forecast(lat.value, lon.value)).value.current.Some?)
            && (run.result.Ok? ==>
                  run.result.body == Format(lat.value, lon.value,
                                            Checked(forecast(lat.value, lon.value)).value.current.value,
                                            Checked(geocode(lat.value, lon.value)).value))
  {
  }
}
