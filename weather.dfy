/**
 * src/services/weather.js: geocoding with a day-long cache, weather data
 * with its own cache, the reshaping of the Open-Meteo response, the
 * weather-code table, the forecast assembly behind the rate limiter and the
 * Discord message. The two HTTP endpoints are represented by the answers
 * they give. Numbers from the JSON responses are carried as the text JS
 * renders for them (`Num`), since the service only copies and interpolates
 * them; weather codes are integers, since they are looked up.
 */
module Weather {
  import opened Wrappers
  import opened JsText
  import opened Errors
  import opened RateLimiting
  import opened KeyValueCache

  /** A JSON number, as template interpolation renders it. */
  type Num = string

  const CoordinatesCacheSeconds := 86400
  const WeatherLimit := Options(Some(60000), Some(5))
  const UnknownCondition := "Unknown weather condition"
  const NotFoundText := "Location not found"

  // ---------------------------------------------------------------- getCoordinates

  /** One geocoding match: `{ lat, lon, name }`. */
  datatype Place = Place(lat: Num, lon: Num, name: Option<string>)

  datatype Coordinates = Coordinates(latitude: Num, longitude: Num, locationName: Option<string>)

  /** The requests sent, in order: geocoding `q` with `limit: 1`, and weather by coordinates. */
  datatype Request = GeoRequest(q: string, limit: nat) | WeatherRequest(latitude: Num, longitude: Num)

  function GeoKey(location: string): string
  {
    "geo:" + location
  }

  datatype CoordinatesStep = CoordinatesStep(result: Result<Coordinates, Error>,
                                             entries: map<string, Entry<Coordinates>>, requests: seq<Request>)

  /**
   * `getCoordinates(location)`: `geo` is the geocoding answer, its data
   * absent (`None`) or a list of matches.
   */
  function CoordinatesOutcome(entries: map<string, Entry<Coordinates>>, location: string,
                              geo: Result<Option<seq<Place>>, Error>): (r: CoordinatesStep)
    ensures GeoKey(location) in entries ==> r == CoordinatesStep(Ok(entries[GeoKey(location)].value), entries, [])
    ensures GeoKey(location) !in entries ==> r.requests == [GeoRequest(location, 1)]
    ensures r.result.Ok? ==> GeoKey(location) in r.entries && r.entries[GeoKey(location)].value == r.result.value
    ensures r.result.Err? ==> r.entries == entries
    ensures forall k :: k in entries ==> k in r.entries && r.entries[k] == entries[k]
    ensures forall k :: k in r.entries && k != GeoKey(location) ==> k in entries
  {
    var key := GeoKey(location);
    var request := [GeoRequest(location, 1)];
    if key in entries then CoordinatesStep(Ok(entries[key].value), entries, [])
    else match geo
      case Err(e) =>
        CoordinatesStep(Err(APIError("Failed to get location coordinates", StatusOr500(e), "OpenWeatherMap")),
                        entries, request)
      case Ok(data) =>
        if data.None? || |data.value| == 0 then
          CoordinatesStep(Err(NewValidationError(NotFoundText, None)), entries, request)
        else
          var p := data.value[0];
          var c := Coordinates(p.lat, p.lon, p.name);
          CoordinatesStep(Ok(c), entries[key := Entry(c, CoordinatesCacheSeconds)], request)
  }

  method GetCoordinates(location: string, cache: Cache<Coordinates>, geo: Result<Option<seq<Place>>, Error>)
    returns (r: Result<Coordinates, Error>, requests: seq<Request>)
    modifies cache
    ensures CoordinatesStep(r, cache.entries, requests) == CoordinatesOutcome(old(cache.entries), location, geo)
  {
    var cacheKey := GeoKey(location);
    requests := [];
    var cached := cache.Get(cacheKey);
    if cached.Some? {
      return Ok(cached.value), requests;
    }
    requests := [GeoRequest(location, 1)];
    if geo.Err? {
      return Err(APIError("Failed to get location coordinates", StatusOr500(geo.error), "OpenWeatherMap")), requests;
    }
    var data := geo.value;
    if data.None? || |data.value| == 0 {
      // thrown inside the try block and rethrown unchanged by the catch
      return Err(NewValidationError(NotFoundText, None)), requests;
    }
    var place := data.value[0];
    var coordinates := Coordinates(place.lat, place.lon, place.name);
    cache.Set(cacheKey, coordinates, CoordinatesCacheSeconds);
    r := Ok(coordinates);
  }

  // ---------------------------------------------------------------- formatWeatherData

  /** The Open-Meteo response fields the service reads. */
  datatype RawWeather = RawWeather(hourlyTime: seq<string>, hourlyTemperature: seq<Num>,
                                   hourlyPrecipitation: seq<Num>, hourlyCode: seq<int>,
                                   dailyMax: seq<Num>, dailyMin: seq<Num>, dailyPrecipitation: seq<Num>,
                                   temperatureUnit: string)

  /** Reading element 0 of an empty array gives undefined. */
  datatype Current = Current(temperature: Option<Num>, precipitation: Option<Num>, weatherCode: Option<int>)
  datatype Hourly = Hourly(times: seq<string>, temperatures: seq<Num>, precipitation: seq<Num>)
  datatype Daily = Daily(maxTemperatures: seq<Num>, minTemperatures: seq<Num>, precipitation: seq<Num>)
  datatype Units = Units(temperature: string, precipitation: string)
  datatype WeatherData = WeatherData(current: Current, hourly: Hourly, daily: Daily, units: Units)

  /** `xs[0]` */
  function First<T>(xs: seq<T>): (r: Option<T>)
    ensures r.Some? <==> |xs| > 0
    ensures r.Some? ==> r.value == xs[0]
  {
    if |xs| > 0 then Some(xs[0]) else None
  }

  /** `xs.slice(0, 24)`: the first 24 elements, or all of them when there are fewer. */
  function Day<T>(xs: seq<T>): (r: seq<T>)
    ensures |r| == if |xs| < 24 then |xs| else 24
    ensures forall i :: 0 <= i < |r| ==> r[i] == xs[i]
  {
    if |xs| < 24 then xs else xs[..24]
  }

  /** `formatWeatherData(data)` */
  function FormatWeatherData(data: RawWeather): (w: WeatherData)
    ensures w.current == Current(First(data.hourlyTemperature), First(data.hourlyPrecipitation), First(data.hourlyCode))
    ensures w.hourly == Hourly(Day(data.hourlyTime), Day(data.hourlyTemperature), Day(data.hourlyPrecipitation))
    ensures w.daily == Daily(data.dailyMax, data.dailyMin, data.dailyPrecipitation)
    ensures w.units == Units(data.temperatureUnit, "%")
  {
    WeatherData(Current(First(data.hourlyTemperature), First(data.hourlyPrecipitation), First(data.hourlyCode)),
                Hourly(Day(data.hourlyTime), Day(data.hourlyTemperature), Day(data.hourlyPrecipitation)),
                Daily(data.dailyMax, data.dailyMin, data.dailyPrecipitation),
                Units(data.temperatureUnit, "%"))
  }

  // ---------------------------------------------------------------- getWeatherData

  function WeatherKey(latitude: Num, longitude: Num): string
  {
    "weather:" + latitude + "," + longitude
  }

  datatype WeatherStep = WeatherStep(result: Result<WeatherData, Error>,
                                     entries: map<string, Entry<WeatherData>>, requests: seq<Request>)

  /** `getWeatherData(latitude, longitude)`; `cacheTimeout` is `config.weather.cacheTimeout`. */
  function WeatherOutcome(entries: map<string, Entry<WeatherData>>, latitude: Num, longitude: Num,
                          api: Result<RawWeather, Error>, cacheTimeout: nat): (r: WeatherStep)
    ensures WeatherKey(latitude, longitude) in entries ==>
              r == WeatherStep(Ok(entries[WeatherKey(latitude, longitude)].value), entries, [])
    ensures WeatherKey(latitude, longitude) !in entries ==> r.requests == [WeatherRequest(latitude, longitude)]
    ensures r.result.Ok? ==>
              WeatherKey(latitude, longitude) in r.entries && r.entries[WeatherKey(latitude, longitude)].value == r.result.value
    ensures r.result.Err? ==> r.entries == entries && api.Err?
    ensures forall k :: k in entries ==> k in r.entries && r.entries[k] == entries[k]
  {
    var key := WeatherKey(latitude, longitude);
    var request := [WeatherRequest(latitude, longitude)];
    if key in entries then WeatherStep(Ok(entries[key].value), entries, [])
    else match api
      case Err(e) => WeatherStep(Err(APIError("Failed to get weather data", StatusOr500(e), "OpenMeteo")), entries, request)
      case Ok(raw) =>
        var w := FormatWeatherData(raw);
        WeatherStep(Ok(w), entries[key := Entry(w, cacheTimeout)], request)
  }

  method GetWeatherData(latitude: Num, longitude: Num, cache: Cache<WeatherData>, api: Result<RawWeather, Error>,
                        cacheTimeout: nat)
    returns (r: Result<WeatherData, Error>, requests: seq<Request>)
    modifies cache
    ensures WeatherStep(r, cache.entries, requests) == WeatherOutcome(old(cache.entries), latitude, longitude, api, cacheTimeout)
  {
    var cacheKey := WeatherKey(latitude, longitude);
    requests := [];
    var cached := cache.Get(cacheKey);
    if cached.Some? {
      return Ok(cached.value), requests;
    }
    requests := [WeatherRequest(latitude, longitude)];
    if api.Err? {
      return Err(APIError("Failed to get weather data", StatusOr500(api.error), "OpenMeteo")), requests;
    }
    var weatherData := FormatWeatherData(api.value);
    cache.Set(cacheKey, weatherData, cacheTimeout);
    r := Ok(weatherData);
  }

  // ---------------------------------------------------------------- getWeatherDescription

  /** The WMO weather interpretation codes the service names. */
  const Descriptions: map<int, string> := map[
    0 := "Clear sky", 1 := "Mainly clear", 2 := "Partly cloudy", 3 := "Overcast",
    45 := "Foggy", 48 := "Depositing rime fog",
    51 := "Light drizzle", 53 := "Moderate drizzle", 55 := "Dense drizzle",
    61 := "Slight rain", 63 := "Moderate rain", 65 := "Heavy rain",
    71 := "Slight snow fall", 73 := "Moderate snow fall", 75 := "Heavy snow fall",
    95 := "Thunderstorm", 96 := "Thunderstorm with slight hail", 99 := "Thunderstorm with heavy hail"]

  /** `getWeatherDescription(code)`; an undefined code is `None`. */
  function GetWeatherDescription(code: Option<int>): (d: string)
    ensures code.Some? && code.value in Descriptions ==> d == Descriptions[code.value]
    ensures !(code.Some? && code.value in Descriptions) ==> d == UnknownCondition
  {
    if code.Some? && code.value in Descriptions && Descriptions[code.value] != "" then Descriptions[code.value]
    else UnknownCondition
  }

  // ---------------------------------------------------------------- getWeatherForecast

  datatype Forecast = Forecast(location: Option<string>, data: WeatherData, description: string)

  datatype ForecastStep = ForecastStep(result: Result<Forecast, Error>, limits: Limits,
                                       geoEntries: map<string, Entry<Coordinates>>,
                                       weatherEntries: map<string, Entry<WeatherData>>, requests: seq<Request>)

  /** `getWeatherForecast(location, userId)` at time `now`; every error is rethrown as it comes. */
  function ForecastOutcome(limits: Limits, geoEntries: map<string, Entry<Coordinates>>,
                           weatherEntries: map<string, Entry<WeatherData>>, location: string, userId: string,
                           now: int, geo: Result<Option<seq<Place>>, Error>, api: Result<RawWeather, Error>,
                           cacheTimeout: nat): (r: ForecastStep)
    ensures r.limits == Check(limits, userId, "weather", WeatherLimit, now).limits
    ensures Check(limits, userId, "weather", WeatherLimit, now).result.Err? ==>
              r.result.Err? && r.requests == [] && r.geoEntries == geoEntries && r.weatherEntries == weatherEntries
    ensures |r.requests| <= 2
    ensures r.result.Ok? ==> r.result.value.description == GetWeatherDescription(r.result.value.data.current.weatherCode)
    ensures var c := CoordinatesOutcome(geoEntries, location, geo);
            Check(limits, userId, "weather", WeatherLimit, now).result.Ok? && c.result.Err? ==>
              r == ForecastStep(Err(c.result.error), r.limits, c.entries, weatherEntries, c.requests)
    ensures var c := CoordinatesOutcome(geoEntries, location, geo);
            Check(limits, userId, "weather", WeatherLimit, now).result.Ok? && c.result.Ok? ==>
              var w := WeatherOutcome(weatherEntries, c.result.value.latitude, c.result.value.longitude, api, cacheTimeout);
              r.geoEntries == c.entries && r.weatherEntries == w.entries && r.requests == c.requests + w.requests &&
              (w.result.Err? ==> r.result == Err(w.result.error)) &&
              (w.result.Ok? ==> r.result.Ok? && r.result.value.location == c.result.value.locationName &&
                                r.result.value.data == w.result.value)
    ensures r.result.Ok? <==>
              Check(limits, userId, "weather", WeatherLimit, now).result.Ok? &&
              CoordinatesOutcome(geoEntries, location, geo).result.Ok? &&
              WeatherOutcome(weatherEntries, CoordinatesOutcome(geoEntries, location, geo).result.value.latitude,
                             CoordinatesOutcome(geoEntries, location, geo).result.value.longitude, api, cacheTimeout).result.Ok?
  {
    var d := Check(limits, userId, "weather", WeatherLimit, now);
    if d.result.Err? then ForecastStep(Err(d.result.error), d.limits, geoEntries, weatherEntries, [])
    else
      var c := CoordinatesOutcome(geoEntries, location, geo);
      if c.result.Err? then ForecastStep(Err(c.result.error), d.limits, c.entries, weatherEntries, c.requests)
      else
        var coordinates := c.result.value;
        var w := WeatherOutcome(weatherEntries, coordinates.latitude, coordinates.longitude, api, cacheTimeout);
        var requests := c.requests + w.requests;
        if w.result.Err? then ForecastStep(Err(w.result.error), d.limits, c.entries, w.entries, requests)
        else
          var data := w.result.value;
          ForecastStep(Ok(Forecast(coordinates.locationName, data, GetWeatherDescription(data.current.weatherCode))),
                       d.limits, c.entries, w.entries, requests)
  }

  method GetWeatherForecast(location: string, userId: string, now: int, limiter: RateLimiter,
                            geoCache: Cache<Coordinates>, weatherCache: Cache<WeatherData>,
                            geo: Result<Option<seq<Place>>, Error>, api: Result<RawWeather, Error>, cacheTimeout: nat)
    returns (r: Result<Forecast, Error>, requests: seq<Request>)
    modifies limiter, geoCache, weatherCache
    ensures ForecastStep(r, limiter.limits, geoCache.entries, weatherCache.entries, requests)
         == ForecastOutcome(old(limiter.limits), old(geoCache.entries), old(weatherCache.entries), location, userId,
                            now, geo, api, cacheTimeout)
  {
    requests := [];
    var checked := limiter.CheckLimit(userId, "weather", WeatherLimit, now);
    if checked.Err? {
      return Err(checked.error), requests;
    }
    var coordinates, geoRequests := GetCoordinates(location, geoCache, geo);
    requests := geoRequests;
    if coordinates.Err? {
      return Err(coordinates.error), requests;
    }
    var c := coordinates.value;
    var weatherData, weatherRequests := GetWeatherData(c.latitude, c.longitude, weatherCache, api, cacheTimeout);
    requests := requests + weatherRequests;
    if weatherData.Err? {
      return Err(weatherData.error), requests;
    }
    var data := weatherData.value;
    r := Ok(Forecast(c.locationName, data, GetWeatherDescription(data.current.weatherCode)));
  }

  // ---------------------------------------------------------------- formatWeatherMessage

  /** `${xs[0]}`: an empty array reads undefined. */
  function RenderFirst(xs: seq<Num>): string
  {
    Render(First(xs))
  }

  function MessageLines(f: Forecast): (lines: seq<string>)
    ensures |lines| == 9 && lines[4] == ""
  {
    var unit := f.data.units.temperature;
    ["**Weather in " + Render(f.location) + "**",
     "🌡️ Current temperature: " + Render(f.data.current.temperature) + unit,
     "🌧️ Precipitation chance: " + Render(f.data.current.precipitation) + "%",
     "🌥️ Conditions: " + f.description,
     "",
     "**Today's Forecast**",
     "High: " + RenderFirst(f.data.daily.maxTemperatures) + unit,
     "Low: " + RenderFirst(f.data.daily.minTemperatures) + unit,
     "Precipitation chance: " + RenderFirst(f.data.daily.precipitation) + "%"]
  }

  /** `formatWeatherMessage(forecast)` */
  function FormatWeatherMessage(f: Forecast): (m: string)
    ensures (forall i :: 0 <= i < 9 ==> '\n' !in MessageLines(f)[i]) ==> Split(m, '\n') == MessageLines(f)
  {
    SplitJoinWhenClean(MessageLines(f), '\n');
    Join(MessageLines(f), "\n")
  }

  // ---------------------------------------------------------------- properties

  /** The table names exactly the 18 WMO codes 0-3, 45, 48, 51-55, 61-65, 71-75 and 95-99, none as unknown. */
  lemma DescriptionTable()
    ensures Descriptions.Keys == {0, 1, 2, 3, 45, 48, 51, 53, 55, 61, 63, 65, 71, 73, 75, 95, 96, 99}
    ensures UnknownCondition !in Descriptions.Values
  {
  }

  /** The description is 'Unknown weather condition' exactly for an undefined or unlisted code. */
  lemma {:induction false} UnknownIffUnlisted(code: Option<int>)
    ensures GetWeatherDescription(code) == UnknownCondition <==> code.None? || code.value !in Descriptions
  {
    DescriptionTable();
    if code.Some? && code.value in Descriptions {
      assert Descriptions[code.value] in Descriptions.Values;
    }
  }

  /** The current values are those of the first hour, which is also the first entry of the 24-hour series. */
  lemma CurrentIsFirstHour(data: RawWeather)
    requires |data.hourlyTemperature| > 0 && |data.hourlyPrecipitation| > 0 && |data.hourlyCode| > 0
    ensures FormatWeatherData(data).current ==
            Current(Some(data.hourlyTemperature[0]), Some(data.hourlyPrecipitation[0]), Some(data.hourlyCode[0]))
    ensures FormatWeatherData(data).hourly.temperatures[0] == data.hourlyTemperature[0]
    ensures FormatWeatherData(data).hourly.precipitation[0] == data.hourlyPrecipitation[0]
  {
  }

  /** Formatting keeps a day of hourly values (all of them when there are fewer) and every daily value. */
  lemma HourlyIsFirstDay(data: RawWeather)
    ensures |FormatWeatherData(data).hourly.times| == if |data.hourlyTime| < 24 then |data.hourlyTime| else 24
    ensures FormatWeatherData(data).hourly.times <= data.hourlyTime
    ensures FormatWeatherData(data).hourly.temperatures <= data.hourlyTemperature
    ensures FormatWeatherData(data).hourly.precipitation <= data.hourlyPrecipitation
    ensures |data.hourlyTime| <= 24 ==> FormatWeatherData(data).hourly.times == data.hourlyTime
    ensures FormatWeatherData(data).daily.maxTemperatures == data.dailyMax
    ensures FormatWeatherData(data).units.precipitation == "%"
  {
  }

  /** A cached location is answered from the cache: no request, nothing stored. */
  lemma CoordinatesCacheHit(entries: map<string, Entry<Coordinates>>, location: string,
                            geo: Result<Option<seq<Place>>, Error>)
    requires GeoKey(location) in entries
    ensures CoordinatesOutcome(entries, location, geo) == CoordinatesStep(Ok(entries[GeoKey(location)].value), entries, [])
  {
  }

  /** A found location is cached for a day, and the next lookup gives the same coordinates without a request. */
  lemma {:induction false} CoordinatesCachedForADay(entries: map<string, Entry<Coordinates>>, location: string,
                                                    places: seq<Place>, geo2: Result<Option<seq<Place>>, Error>)
    requires GeoKey(location) !in entries && |places| > 0
    ensures var first := CoordinatesOutcome(entries, location, Ok(Some(places)));
            first.result == Ok(Coordinates(places[0].lat, places[0].lon, places[0].name)) &&
            first.requests == [GeoRequest(location, 1)] &&
            first.entries[GeoKey(location)] == Entry(first.result.value, 86400) &&
            CoordinatesOutcome(first.entries, location, geo2) == CoordinatesStep(first.result, first.entries, [])
  {
  }

  /** No match, or no data, is the ValidationError 'Location not found' (status 400), and nothing is cached. */
  lemma NotFoundIsValidationError(entries: map<string, Entry<Coordinates>>, location: string, data: Option<seq<Place>>)
    requires GeoKey(location) !in entries && (data.None? || data.value == [])
    ensures CoordinatesOutcome(entries, location, Ok(data)).result == Err(ValidationError(NotFoundText, map[]))
    ensures StatusCode(CoordinatesOutcome(entries, location, Ok(data)).result.error) == Some(400)
    ensures CoordinatesOutcome(entries, location, Ok(data)).entries == entries
  {
  }

  /** Any other failure is an OpenWeatherMap APIError with the response status, or 500. */
  lemma GeoFailureIsAPIError(entries: map<string, Entry<Coordinates>>, location: string, e: Error)
    requires GeoKey(location) !in entries
    ensures var r := CoordinatesOutcome(entries, location, Err(e)).result;
            r.Err? && r.error.APIError? && r.error.source == "OpenWeatherMap" &&
            (r.error.code == 500 || (e.External? && e.status == Some(r.error.code)))
    ensures CoordinatesOutcome(entries, location, Err(e)).entries == entries
  {
  }

  /** Weather data is cached under its coordinates for the configured time and then answered from the cache. */
  lemma {:induction false} WeatherCached(entries: map<string, Entry<WeatherData>>, latitude: Num, longitude: Num,
                                         raw: RawWeather, cacheTimeout: nat, api2: Result<RawWeather, Error>)
    requires WeatherKey(latitude, longitude) !in entries
    ensures var first := WeatherOutcome(entries, latitude, longitude, Ok(raw), cacheTimeout);
            first.result == Ok(FormatWeatherData(raw)) &&
            first.entries[WeatherKey(latitude, longitude)] == Entry(FormatWeatherData(raw), cacheTimeout) &&
            WeatherOutcome(first.entries, latitude, longitude, api2, cacheTimeout) == WeatherStep(first.result, first.entries, [])
  {
  }

  /** A rate-limited forecast throws the limiter's RateLimitError itself and sends no request. */
  lemma {:induction false} RateLimitedForecast(limits: Limits, geoEntries: map<string, Entry<Coordinates>>,
                                               weatherEntries: map<string, Entry<WeatherData>>, location: string,
                                               userId: string, now: int, geo: Result<Option<seq<Place>>, Error>,
                                               api: Result<RawWeather, Error>, cacheTimeout: nat)
    requires Check(limits, userId, "weather", WeatherLimit, now).result.Err?
    ensures var f := ForecastOutcome(limits, geoEntries, weatherEntries, location, userId, now, geo, api, cacheTimeout);
            f.result.Err? && f.result.error.RateLimitError? && f.requests == [] &&
            f.geoEntries == geoEntries && f.weatherEntries == weatherEntries
  {
  }

  /**
   * A forecast names the geocoded location and describes its own current
   * weather code; a location not found never asks for weather.
   */
  lemma {:induction false} ForecastAssembly(limits: Limits, geoEntries: map<string, Entry<Coordinates>>,
                                            weatherEntries: map<string, Entry<WeatherData>>, location: string,
                                            userId: string, now: int, geo: Result<Option<seq<Place>>, Error>,
                                            api: Result<RawWeather, Error>, cacheTimeout: nat)
    ensures var f := ForecastOutcome(limits, geoEntries, weatherEntries, location, userId, now, geo, api, cacheTimeout);
            f.result.Ok? ==>
              CoordinatesOutcome(geoEntries, location, geo).result.Ok? &&
              f.result.value.location == CoordinatesOutcome(geoEntries, location, geo).result.value.locationName &&
              f.result.value.description == GetWeatherDescription(f.result.value.data.current.weatherCode)
    ensures var f := ForecastOutcome(limits, geoEntries, weatherEntries, location, userId, now, geo, api, cacheTimeout);
            CoordinatesOutcome(geoEntries, location, geo).result.Err? ==>
              forall i :: 0 <= i < |f.requests| ==> !f.requests[i].WeatherRequest?
  {
  }

  /**
   * The message has the nine lines of its layout, the fifth empty, when no
   * interpolated value holds a line break.
   */
  lemma {:induction false} MessageHasNineLines(f: Forecast)
    requires forall i :: 0 <= i < |MessageLines(f)| ==> '\n' !in MessageLines(f)[i]
    ensures |Split(FormatWeatherMessage(f), '\n')| == 9
    ensures Split(FormatWeatherMessage(f), '\n')[4] == ""
    ensures Split(FormatWeatherMessage(f), '\n')[0] == "**Weather in " + Render(f.location) + "**"
    ensures Split(FormatWeatherMessage(f), '\n')[3] == "🌥️ Conditions: " + f.description
  {
    SplitJoin(MessageLines(f), '\n');
  }
}
