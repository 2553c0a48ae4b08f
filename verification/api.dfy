/**
 * The request-building and response-processing logic of api.py: the geocoding
 * search and the hourly-temperature lookup. The HTTP request is a parameter
 * `fetch`, from the query parameters to the response (status, body text and
 * decoded payload); latitudes, longitudes and temperatures are of the opaque
 * number type `N`.
 */
module Api {
  import opened Wrappers
  import opened PyJson

  /** A query parameter value. */
  datatype Param<N> = Text(s: string) | Int(i: int) | Num(n: N)

  datatype Response<N> = Response(status: int, text: string, payload: Json<N>)

  // ---------------------------------------------------------------------------
  // search_location
  // ---------------------------------------------------------------------------

  const ShortNameMessage: string := "Search term must be at least 2 characters long."
  const NoResultsReason: string := "No results found."

  /** One matching place, reduced to the three fields the caller uses. */
  datatype Location<N> = Location(name: Json<N>, latitude: Json<N>, longitude: Json<N>)

  datatype SearchOutcome<N> =
    | Locations(found: seq<Location<N>>)       // the list of matches
    | SearchFailed(reason: string)             // {"error": True, "reason": reason}
    | SearchRaised(error: PyError)             // an exception escapes

  /** Python truthiness of the optional API key: only `None` and the empty string are false. */
  predicate HasKey(apikey: Option<string>): (r: bool)
    ensures !r <==> apikey in {None, Some("")}
  {
    apikey.Some? && apikey.value != ""
  }

  /** The geocoding query: four fixed parameters, and the API key only when one is given. */
  function SearchParams<N>(name: string, count: int, language: string, apikey: Option<string>): (p: map<string, Param<N>>)
    ensures p.Keys == {"name", "count", "format", "language"} + (if HasKey(apikey) then {"apikey"} else {})
    ensures p["name"] == Text(name) && p["count"] == Int(count)
    ensures p["format"] == Text("json") && p["language"] == Text(language)
    ensures HasKey(apikey) ==> p["apikey"] == Text(apikey.value)
  {
    var base := map["name" := Text(name), "count" := Int(count), "format" := Text("json"), "language" := Text(language)];
    if HasKey(apikey) then base["apikey" := Text(apikey.value)] else base
  }

  /** `{"name": loc["name"], "latitude": loc["latitude"], "longitude": loc["longitude"]}` */
  function ProjectLocation<N>(item: Json<N>): (r: Result<Location<N>, PyError>)
    ensures r.Success? <==> HasLocationFields(item)
    ensures r.Success? ==> r.value == Location(Field(item, "name"), Field(item, "latitude"), Field(item, "longitude"))
    ensures !item.Object? ==> r == Failure(TypeError)
    ensures item.Object? && r.Failure? ==>
      r.error == KeyError(if Lookup(item.entries, "name").None? then "name"
                          else if Lookup(item.entries, "latitude").None? then "latitude"
                          else "longitude")
  {
    match Subscript(item, "name")
    case Failure(e) => Failure(e)
    case Success(name) =>
      match Subscript(item, "latitude")
      case Failure(e) => Failure(e)
      case Success(latitude) =>
        match Subscript(item, "longitude")
        case Failure(e) => Failure(e)
        case Success(longitude) => Success(Location(name, latitude, longitude))
  }

  /** An object that has the three fields a location is made of. */
  predicate HasLocationFields<N>(item: Json<N>)
  {
    && item.Object?
    && Lookup(item.entries, "name").Some?
    && Lookup(item.entries, "latitude").Some?
    && Lookup(item.entries, "longitude").Some?
  }

  function Field<N>(item: Json<N>, key: string): Json<N>
    requires item.Object? && Lookup(item.entries, key).Some?
  {
    Lookup(item.entries, key).value
  }

  /** The list comprehension: one location per result, in order, or the first result's exception. */
  function ProjectLocations<N>(items: seq<Json<N>>): (r: Result<seq<Location<N>>, PyError>)
    ensures r.Success? <==> forall k :: 0 <= k < |items| ==> HasLocationFields(items[k])
    ensures r.Success? ==> |r.value| == |items|
    ensures r.Success? ==> forall k :: 0 <= k < |items| ==> ProjectLocation(items[k]) == Success(r.value[k])
    ensures r.Failure? ==> exists k :: FirstFailure(items, k, r.error)
  {
    if items == [] then Success([])
    else
      match ProjectLocation(items[0])
      case Failure(e) =>
        assert FirstFailure(items, 0, e);
        Failure(e)
      case Success(first) =>
        var rest := ProjectLocations(items[1..]);
        match rest
        case Failure(e) =>
          var k :| FirstFailure(items[1..], k, e);
          FirstFailureShift(items, k, e);
          Failure(e)
        case Success(others) =>
          ProjectedCons(ProjectLocation, items, first, others);
          Success([first] + others)
  }

  /** A projection of the first item put in front of a projection of the others projects the whole list. */
  lemma ProjectedCons<T, U, E>(project: T -> Result<U, E>, items: seq<T>, first: U, others: seq<U>)
    requires items != [] && project(items[0]) == Success(first)
    requires |others| == |items| - 1
    requires forall k :: 0 <= k < |items| - 1 ==> project(items[1..][k]) == Success(others[k])
    ensures forall k :: 0 <= k < |items| ==> project(items[k]) == Success(([first] + others)[k])
  {
    forall k | 1 <= k < |items|
      ensures project(items[k]) == Success(([first] + others)[k])
    {
      assert items[k] == items[1..][k - 1];
    }
  }

  lemma FirstFailureShift<N>(items: seq<Json<N>>, k: nat, e: PyError)
    requires items != [] && ProjectLocation(items[0]).Success? && FirstFailure(items[1..], k, e)
    ensures FirstFailure(items, k + 1, e)
  {
    assert items[k + 1] == items[1..][k];
    forall j | 0 <= j < k + 1
      ensures HasLocationFields(items[j])
    {
      if j > 0 {
        assert items[j] == items[1..][j - 1];
      }
    }
  }

  /** Result `k` raises `e`, and every result before it has the three fields. */
  predicate FirstFailure<N>(items: seq<Json<N>>, k: nat, e: PyError)
  {
    && k < |items|
    && ProjectLocation(items[k]) == Failure(e)
    && forall j :: 0 <= j < k ==> HasLocationFields(items[j])
  }

  /** Turns the geocoding response, with its payload decoded, into the function's result. */
  function SearchResponse<N>(response: Response<N>): (r: SearchOutcome<N>)
    ensures r.SearchRaised? ==> !r.error.ValueError?
  {
    if response.status != 200 then
      SearchFailed("HTTP " + Decimal(response.status) + ": " + response.text)
    else
      match Contains(response.payload, "results")
      case Failure(e) => SearchRaised(e)
      case Success(false) => SearchFailed(NoResultsReason)
      case Success(true) =>
        match Subscript(response.payload, "results")
        case Failure(e) => SearchRaised(e)
        case Success(results) =>
          match Iterate(results)
          case Failure(e) => SearchRaised(e)
          case Success(items) =>
            match ProjectLocations(items)
            case Failure(e) => SearchRaised(e)
            case Success(found) => Locations(found)
  }

  /**
   * `search_location(name, count, language, apikey)`. A name shorter than two
   * characters, and only such a name, raises the short-name ValueError; the
   * result for it does not depend on `fetch`. The payload is taken as already
   * decoded, so the ValueError of a body that is not JSON is not modelled.
   */
  function SearchLocation<N>(name: string, count: int, language: string, apikey: Option<string>,
                             fetch: map<string, Param<N>> -> Response<N>): (r: SearchOutcome<N>)
    ensures |name| < 2 <==> r == SearchRaised(ValueError(ShortNameMessage))
    ensures |name| >= 2 ==> r == SearchResponse(fetch(SearchParams(name, count, language, apikey)))
  {
    if |name| < 2 then SearchRaised(ValueError(ShortNameMessage))
    else SearchResponse(fetch(SearchParams(name, count, language, apikey)))
  }

  /** A non-200 status always gives the HTTP error record, whatever the payload. */
  lemma SearchHttpError<N>(response: Response<N>)
    requires response.status != 200
    ensures SearchResponse(response) == SearchFailed("HTTP " + Decimal(response.status) + ": " + response.text)
  {
  }

  /** A payload object without "results" gives the "No results found." error. */
  lemma SearchNoResults<N>(response: Response<N>)
    requires response.status == 200 && response.payload.Object?
    requires Lookup(response.payload.entries, "results").None?
    ensures SearchResponse(response) == SearchFailed(NoResultsReason)
  {
  }

  /**
   * A well-formed answer: "results" is a list of objects with the three
   * fields. The outcome is one location per result, in order, holding that
   * result's name, latitude and longitude.
   */
  lemma SearchFound<N>(response: Response<N>, items: seq<Json<N>>)
    requires response.status == 200 && response.payload.Object?
    requires Lookup(response.payload.entries, "results") == Some(Array(items))
    requires forall k :: 0 <= k < |items| ==> HasLocationFields(items[k])
    ensures SearchResponse(response).Locations?
    ensures var found := SearchResponse(response).found;
      && |found| == |items|
      && forall k :: 0 <= k < |items| ==>
           found[k] == Location(Field(items[k], "name"), Field(items[k], "latitude"), Field(items[k], "longitude"))
  {
    var found := ProjectLocations(items).value;
    forall k | 0 <= k < |items|
      ensures found[k] == Location(Field(items[k], "name"), Field(items[k], "latitude"), Field(items[k], "longitude"))
    {
      assert ProjectLocation(items[k]) == Success(found[k]);
    }
  }

  // ---------------------------------------------------------------------------
  // get_weather
  // ---------------------------------------------------------------------------

  const FetchFailedMessage: string := "Failed to fetch data"
  const InvalidFormatMessage: string := "Invalid response format"
  const NoDataMessage: string := "No data available for the given date"

  /** One hourly sample: its timestamp and the temperature at the same index. */
  datatype Reading<N> = Reading(time: string, temperature: Json<N>)

  datatype WeatherOutcome<N> =
    | Readings(readings: seq<Reading<N>>)      // the list of samples
    | FetchFailed(status: int)                 // {"error": "Failed to fetch data", "status_code": status}
    | WeatherFailed(message: string)           // {"error": message}
    | WeatherRaised(error: PyError)            // an exception escapes

  /** The forecast query. */
  function WeatherParams<N>(latitude: N, longitude: N): (p: map<string, Param<N>>)
    ensures p.Keys == {"latitude", "longitude", "hourly", "timezone", "forecast_days"}
    ensures p["latitude"] == Num(latitude) && p["longitude"] == Num(longitude)
    ensures p["hourly"] == Text("temperature_2m") && p["timezone"] == Text("auto")
    ensures p["forecast_days"] == Int(7)
  {
    map["latitude" := Num(latitude), "longitude" := Num(longitude), "hourly" := Text("temperature_2m"),
        "timezone" := Text("auto"), "forecast_days" := Int(7)]
  }

  /** An object payload whose "hourly" object holds "time" and "temperature_2m". */
  predicate HasHourlySeries<N>(payload: Json<N>)
  {
    && payload.Object?
    && Lookup(payload.entries, "hourly").Some?
    && var hourly := Field(payload, "hourly");
       && hourly.Object?
       && Lookup(hourly.entries, "time").Some?
       && Lookup(hourly.entries, "temperature_2m").Some?
  }

  /**
   * The response-shape check, then `hourly["time"]` and
   * `hourly["temperature_2m"]`; a failure carries the function's result.
   */
  function HourlySeries<N>(payload: Json<N>): (r: Result<(Json<N>, Json<N>), WeatherOutcome<N>>)
    ensures r.Success? <==> HasHourlySeries(payload)
    ensures r.Success? ==>
      var hourly := Field(payload, "hourly");
      r.value == (Field(hourly, "time"), Field(hourly, "temperature_2m"))
    ensures r.Failure? ==> r.error.WeatherRaised? || r.error == WeatherFailed(InvalidFormatMessage)
  {
    match Contains(payload, "hourly")
    case Failure(e) => Failure(WeatherRaised(e))
    case Success(false) => Failure(WeatherFailed(InvalidFormatMessage))
    case Success(true) =>
      match Subscript(payload, "hourly")
      case Failure(e) => Failure(WeatherRaised(e))
      case Success(hourly) =>
        match Contains(hourly, "temperature_2m")
        case Failure(e) => Failure(WeatherRaised(e))
        case Success(false) => Failure(WeatherFailed(InvalidFormatMessage))
        case Success(true) =>
          match Subscript(hourly, "time")
          case Failure(e) => Failure(WeatherRaised(e))
          case Success(timeList) =>
            match Subscript(hourly, "temperature_2m")
            case Failure(e) => Failure(WeatherRaised(e))
            case Success(tempList) => Success((timeList, tempList))
  }

  /** The indices, from `i` on and in increasing order, of the timestamps that start with `date`. */
  function Matches<N>(times: seq<Json<N>>, date: string, i: nat): (m: seq<nat>)
    requires i <= |times|
    ensures forall k :: 0 <= k < |m| ==> i <= m[k] < |times| && times[m[k]].Str? && date <= times[m[k]].s
    ensures forall a, b :: 0 <= a < b < |m| ==> m[a] < m[b]
    ensures forall j :: i <= j < |times| && times[j].Str? && date <= times[j].s ==> j in m
    decreases |times| - i
  {
    if i == |times| then []
    else if times[i].Str? && date <= times[i].s then [i] + Matches(times, date, i + 1)
    else Matches(times, date, i + 1)
  }

  /**
   * What the filtering loop computes from index `i` on: the readings of
   * the matching timestamps, or the first exception (a timestamp that is not a
   * string, or a missing temperature for a matching one).
   */
  function Collect<N>(times: seq<Json<N>>, temps: Json<N>, date: string, i: nat): (r: Result<seq<Reading<N>>, PyError>)
    requires i <= |times|
    ensures r.Success? ==> |r.value| <= |times| - i
    ensures r.Success? ==> forall k :: 0 <= k < |r.value| ==> date <= r.value[k].time
    ensures r.Failure? ==> !r.error.ValueError?
    decreases |times| - i
  {
    if i == |times| then Success([])
    else
      match StartsWith(times[i], date)
      case Failure(e) => Failure(e)
      case Success(false) => Collect(times, temps, date, i + 1)
      case Success(true) =>
        match ItemAt(temps, i)
        case Failure(e) => Failure(e)
        case Success(t) =>
          match Collect(times, temps, date, i + 1)
          case Failure(e) => Failure(e)
          case Success(rest) => Success([Reading(times[i].s, t)] + rest)
  }

  /** `get_weather` on the response to its request. */
  function Weather<N>(date: string, response: Response<N>): (r: WeatherOutcome<N>)
    ensures r.FetchFailed? <==> response.status != 200
    ensures r.FetchFailed? ==> r.status == response.status
    ensures r.WeatherFailed? ==> r.message == InvalidFormatMessage || r.message == NoDataMessage
    ensures r.Readings? ==> r.readings != [] && forall k :: 0 <= k < |r.readings| ==> date <= r.readings[k].time
  {
    if response.status != 200 then FetchFailed(response.status)
    else
      match HourlySeries(response.payload)
      case Failure(outcome) => outcome
      case Success((timeList, tempList)) =>
        match Iterate(timeList)
        case Failure(e) => WeatherRaised(e)
        case Success(times) =>
          match Collect(times, tempList, date, 0)
          case Failure(e) => WeatherRaised(e)
          case Success(readings) => if |readings| == 0 then WeatherFailed(NoDataMessage) else Readings(readings)
  }

  /** `readings` with the readings of `rest` after them, or the failure of `rest`. */
  function Prefixed<N>(readings: seq<Reading<N>>, rest: Result<seq<Reading<N>>, PyError>): Result<seq<Reading<N>>, PyError>
  {
    match rest
    case Failure(e) => Failure(e)
    case Success(more) => Success(readings + more)
  }

  lemma PrefixedTwice<N>(first: seq<Reading<N>>, second: seq<Reading<N>>, rest: Result<seq<Reading<N>>, PyError>)
    ensures Prefixed(first, Prefixed(second, rest)) == Prefixed(first + second, rest)
    ensures Prefixed([], rest) == rest
  {
    if rest.Success? {
      assert first + (second + rest.value) == (first + second) + rest.value;
      assert [] + rest.value == rest.value;
    }
  }

  /**
   * `get_weather(latitude, longitude, date)`, with `date` already in the
   * YYYY-MM-DD form that `str(input_date)` produces.
   */
  method GetWeather<N>(latitude: N, longitude: N, date: string, fetch: map<string, Param<N>> -> Response<N>)
    returns (r: WeatherOutcome<N>)
    ensures r == Weather(date, fetch(WeatherParams(latitude, longitude)))
  {
    var response := fetch(WeatherParams(latitude, longitude));
    if response.status != 200 {
      return FetchFailed(response.status);
    }
    var series := HourlySeries(response.payload);
    if series.Failure? {
      return series.error;
    }
    var (timeList, tempList) := series.value;
    var iterated := Iterate(timeList);
    if iterated.Failure? {
      return WeatherRaised(iterated.error);
    }
    var collected := FilterByDate(iterated.value, tempList, date);
    if collected.Failure? {
      return WeatherRaised(collected.error);
    }
    if |collected.value| == 0 {
      return WeatherFailed(NoDataMessage);
    }
    return Readings(collected.value);
  }

  /** The `for` loop over the timestamps: the readings of the matching ones, or the first exception. */
  method FilterByDate<N>(times: seq<Json<N>>, tempList: Json<N>, date: string)
    returns (r: Result<seq<Reading<N>>, PyError>)
    ensures r == Collect(times, tempList, date, 0)
  {
    var result: seq<Reading<N>> := [];
    var i := 0;
    PrefixedTwice([], [], Collect(times, tempList, date, 0));
    while i < |times|
      invariant 0 <= i <= |times|
      invariant Collect(times, tempList, date, 0) == Prefixed(result, Collect(times, tempList, date, i))
    {
      var starts := StartsWith(times[i], date);
      if starts.Failure? {
        return Failure(starts.error);
      }
      if starts.value {
        var temperature := ItemAt(tempList, i);
        if temperature.Failure? {
          return Failure(temperature.error);
        }
        PrefixedTwice(result, [Reading(times[i].s, temperature.value)], Collect(times, tempList, date, i + 1));
        result := result + [Reading(times[i].s, temperature.value)];
      }
      i := i + 1;
    }
    assert result + [] == result;
    return Success(result);
  }

  /** `readings[k]` is the timestamp at index `m[k]` with the temperature at that same index. */
  ghost predicate Aligned<N>(times: seq<Json<N>>, temps: Json<N>, m: seq<nat>, readings: seq<Reading<N>>)
  {
    && |readings| == |m|
    && forall k :: 0 <= k < |m| ==>
         m[k] < |times| && times[m[k]] == Str(readings[k].time) && ItemAt(temps, m[k]) == Success(readings[k].temperature)
  }

  lemma AlignedCons<N>(times: seq<Json<N>>, temps: Json<N>, j: nat, m: seq<nat>, reading: Reading<N>, rest: seq<Reading<N>>)
    requires Aligned(times, temps, m, rest)
    requires j < |times| && times[j] == Str(reading.time) && ItemAt(temps, j) == Success(reading.temperature)
    ensures Aligned(times, temps, [j] + m, [reading] + rest)
  {
    var m', readings' := [j] + m, [reading] + rest;
    forall k | 1 <= k < |m'|
      ensures m'[k] < |times| && times[m'[k]] == Str(readings'[k].time) && ItemAt(temps, m'[k]) == Success(readings'[k].temperature)
    {
      assert m'[k] == m[k - 1] && readings'[k] == rest[k - 1];
    }
  }

  /**
   * The readings collected from index `i` on are exactly the matching
   * timestamps, in order, each with the temperature at its own index.
   */
  lemma {:induction false} CollectIsMatches<N>(times: seq<Json<N>>, temps: Json<N>, date: string, i: nat, readings: seq<Reading<N>>)
    requires i <= |times|
    requires Collect(times, temps, date, i) == Success(readings)
    ensures Aligned(times, temps, Matches(times, date, i), readings)
    decreases |times| - i
  {
    if i < |times| {
      var starts := StartsWith(times[i], date);
      assert starts.Success?;
      if starts.value {
        assert ItemAt(temps, i).Success? && Collect(times, temps, date, i + 1).Success?;
        var t := ItemAt(temps, i).value;
        var rest := Collect(times, temps, date, i + 1).value;
        assert readings == [Reading(times[i].s, t)] + rest;
        assert Matches(times, date, i) == [i] + Matches(times, date, i + 1);
        CollectIsMatches(times, temps, date, i + 1, rest);
        AlignedCons(times, temps, i, Matches(times, date, i + 1), Reading(times[i].s, t), rest);
      } else {
        assert Matches(times, date, i) == Matches(times, date, i + 1);
        CollectIsMatches(times, temps, date, i + 1, readings);
      }
    }
  }

  /**
   * The loop succeeds exactly when every timestamp is a string and every
   * matching one has a temperature at its index.
   */
  lemma {:induction false} CollectSucceeds<N>(times: seq<Json<N>>, temps: Json<N>, date: string, i: nat)
    requires i <= |times|
    ensures Collect(times, temps, date, i).Success? <==>
      && (forall j :: i <= j < |times| ==> times[j].Str?)
      && (forall j :: i <= j < |times| && times[j].Str? && date <= times[j].s ==> ItemAt(temps, j).Success?)
    decreases |times| - i
  {
    if i < |times| {
      CollectSucceeds(times, temps, date, i + 1);
    }
  }

  /**
   * What a successful `get_weather` returns: a non-empty list whose entries
   * are the timestamps starting with `date`, every one of them and in their
   * order, each paired with the temperature at the same index.
   */
  lemma WeatherReadings<N>(date: string, response: Response<N>, timeList: Json<N>, tempList: Json<N>, times: seq<Json<N>>)
    requires response.status == 200
    requires HourlySeries(response.payload) == Success((timeList, tempList))
    requires Iterate(timeList) == Success(times)
    requires Weather(date, response).Readings?
    ensures var readings := Weather(date, response).readings;
      var m := Matches(times, date, 0);
      && readings != []
      && (forall k :: 0 <= k < |readings| ==> date <= readings[k].time)
      && Aligned(times, tempList, m, readings)
  {
    var readings := Weather(date, response).readings;
    CollectIsMatches(times, tempList, date, 0, readings);
  }

  /**
   * "No data available for the given date" is returned exactly when every
   * timestamp is a string and none of them starts with `date`: the function
   * never returns an empty list.
   */
  lemma WeatherNoData<N>(date: string, response: Response<N>, timeList: Json<N>, tempList: Json<N>, times: seq<Json<N>>)
    requires response.status == 200
    requires HourlySeries(response.payload) == Success((timeList, tempList))
    requires Iterate(timeList) == Success(times)
    ensures Weather(date, response) == WeatherFailed(NoDataMessage) <==>
      && (forall j :: 0 <= j < |times| ==> times[j].Str?)
      && (forall j :: 0 <= j < |times| && times[j].Str? ==> !(date <= times[j].s))
    ensures Weather(date, response).Readings? ==> Weather(date, response).readings != []
  {
    CollectSucceeds(times, tempList, date, 0);
    var collected := Collect(times, tempList, date, 0);
    var m := Matches(times, date, 0);
    if collected.Success? {
      CollectIsMatches(times, tempList, date, 0, collected.value);
      if m != [] {
        assert m[0] in m;
      }
    }
  }

  /** A payload without "hourly", or whose "hourly" object lacks "temperature_2m", is reported as invalid. */
  lemma WeatherInvalidFormat<N>(date: string, response: Response<N>)
    requires response.status == 200 && response.payload.Object?
    requires var hourly := Lookup(response.payload.entries, "hourly");
      hourly.None? || (hourly.value.Object? && Lookup(hourly.value.entries, "temperature_2m").None?)
    ensures Weather(date, response) == WeatherFailed(InvalidFormatMessage)
  {
  }

  /** The shape check does not look at "time": an "hourly" object without it raises KeyError. */
  lemma WeatherMissingTime<N>(date: string, response: Response<N>, hourly: Json<N>)
    requires response.status == 200 && response.payload.Object?
    requires Lookup(response.payload.entries, "hourly") == Some(hourly)
    requires hourly.Object? && Lookup(hourly.entries, "temperature_2m").Some? && Lookup(hourly.entries, "time").None?
    ensures Weather(date, response) == WeatherRaised(KeyError("time"))
  {
  }
}
