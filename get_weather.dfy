/** The weather service's reduction of the weather provider's answers to the
    few fields the itinerary uses: one record for current conditions, or one
    record per forecast day.

    The HTTP requests are not modelled; the filter receives the decoded
    answer. Calendar arithmetic is the caller's: `calendar` answers the ISO
    date and weekday name of `date(year, month, day)`, or `None` where
    Python raises, and `parseIso` does the same for
    `datetime.fromisoformat`. */
module Weather {
  import opened Text
  import opened JsonModel
  import opened Sorting
  import opened Numeric

  // ---------------------------------------------------------------------
  // Current conditions
  // ---------------------------------------------------------------------

  /** The eight fields of the current-conditions record, in order. Every
      `x.get(k, {}).get(...)` step raises on a value that is not a dict. */
  function CurrentFields(cond: Dict): Result<seq<(string, Json)>>
  {
    var temperature :- Chain(cond, ["temperature", "degrees"], Null);
    var temperatureUnit :- Chain(cond, ["temperature", "unit"], Null);
    var windSpeed :- Chain(cond, ["wind", "speed", "value"], Null);
    var windSpeedUnit :- Chain(cond, ["wind", "speed", "unit"], Null);
    var condition :- Chain(cond, ["weatherCondition", "description", "text"], Null);
    var precipitation :- Chain(cond, ["precipitation", "probability", "percent"], Null);
    Ok([("temperature", temperature),
        ("temperatureUnit", temperatureUnit),
        ("humidity", Get(cond, "relativeHumidity")),
        ("windSpeed", windSpeed),
        ("windSpeedUnit", windSpeedUnit),
        ("condition", condition),
        ("dayOrNight", Str(if Truthy(Get(cond, "isDaytime")) then "day" else "night")),
        ("precipitationChance", precipitation)])
  }

  function CurrentWeather(cond: Dict): Result<Dict>
  {
    var fields :- CurrentFields(cond);
    var out: Dict := Obj(fields);
    Ok(out)
  }

  /** It is day exactly when `isDaytime` is truthy; the humidity is passed
      through unchecked. */
  lemma CurrentDayOrNight(cond: Dict)
    requires CurrentWeather(cond).Ok?
    ensures var w := CurrentWeather(cond).value;
            && (Lookup(w.fields, "dayOrNight") == Some(Str("day")) <==> Truthy(Get(cond, "isDaytime")))
            && (Lookup(w.fields, "dayOrNight") == Some(Str("night")) <==> !Truthy(Get(cond, "isDaytime")))
            && Lookup(w.fields, "humidity") == Some(Get(cond, "relativeHumidity"))
  {
    var fields := CurrentWeather(cond).value.fields;
    LookupAt(fields, 6, "dayOrNight");
    LookupAt(fields, 2, "humidity");
  }

  /** A nested section that is not a dict makes the filter raise. */
  lemma CurrentSectionNotDict(cond: Dict, x: Json)
    requires Lookup(cond.fields, "temperature") == Some(x) && !x.Obj?
    ensures CurrentWeather(cond) == Raise(AttributeError)
  {
  }

  // ---------------------------------------------------------------------
  // One forecast day
  // ---------------------------------------------------------------------

  /** `s.replace("Z", "+00:00")` */
  function ReplaceZ(s: string): (r: string)
    ensures 'Z' !in r
    ensures 'Z' !in s ==> r == s
  {
    if s == [] then []
    else (if s[0] == 'Z' then "+00:00" else [s[0]]) + ReplaceZ(s[1..])
  }

  datatype DayDate = DayDate(date: Json, dayname: Json)

  /** The date of a forecast day: from `displayDate` when it makes a valid
      date, otherwise from `interval.startTime`. A start time that is not
      an ISO timestamp (or not a string) is kept as it is, without a day
      name; no start time gives no date. Every failure inside the first
      `try` is caught, but the lookup of `interval.startTime` in the handler
      is not protected. */
  function DateOf(day: Dict, calendar: (Json, Json, Json) -> Option<(string, string)>,
                  parseIso: string -> Option<(string, string)>): (r: Result<DayDate>)
  {
    var disp := GetOr(day, "displayDate", Obj([]));
    var fromDisplay :=
      if disp.Obj? then calendar(Get(disp, "year"), Get(disp, "month"), Get(disp, "day")) else None;
    if fromDisplay.Some? then Ok(DayDate(Str(fromDisplay.value.0), Str(fromDisplay.value.1)))
    else
      var start :- Chain(day, ["interval", "startTime"], Null);
      if !Truthy(start) then Ok(DayDate(Null, Null))
      else if start.Str? && parseIso(ReplaceZ(start.s)).Some? then
        var parsed := parseIso(ReplaceZ(start.s)).value;
        Ok(DayDate(Str(parsed.0), Str(parsed.1)))
      else Ok(DayDate(start, Null))
  }

  /** The date comes from the display date whenever that one is valid, and a
      day name is given only with a parsed date. */
  lemma DateOfCases(day: Dict, calendar: (Json, Json, Json) -> Option<(string, string)>,
                    parseIso: string -> Option<(string, string)>)
    ensures var disp := GetOr(day, "displayDate", Obj([]));
            disp.Obj? && calendar(Get(disp, "year"), Get(disp, "month"), Get(disp, "day")).Some? ==>
              DateOf(day, calendar, parseIso) ==
                Ok(DayDate(Str(calendar(Get(disp, "year"), Get(disp, "month"), Get(disp, "day")).value.0),
                           Str(calendar(Get(disp, "year"), Get(disp, "month"), Get(disp, "day")).value.1)))
    ensures DateOf(day, calendar, parseIso).Ok? ==>
              var d := DateOf(day, calendar, parseIso).value;
              d.dayname != Null ==> d.date.Str? && d.dayname.Str?
  {
  }

  /** `(section or {}).get("precipitation", {}).get("probability", {}).get("percent")` */
  function PrecipPercent(section: Json): Result<Json>
  {
    Chain(Or(section, Obj([])), ["precipitation", "probability", "percent"], Null)
  }

  /** `max([v for v in (a, b) if v is not None], default=None)`: Python keeps
      the first value unless the second is greater, and raises when the two
      cannot be compared. */
  function MaxPresent(a: Json, b: Json): (r: Result<Json>)
    ensures a == Null ==> r == Ok(b)
    ensures a != Null && b == Null ==> r == Ok(a)
  {
    if a == Null then Ok(b)
    else if b == Null then Ok(a)
    else if !Orderable([a, b]) then Raise(TypeError)
    else if KeyLt(KeyOrLast(a), KeyOrLast(b)) then Ok(b)
    else Ok(a)
  }

  /** Of two percentages the larger one is reported. */
  lemma MaxPresentOfNumbers(a: Json, b: Json)
    requires IsNumber(a) && IsNumber(b)
    ensures MaxPresent(a, b).Ok?
    ensures var m := MaxPresent(a, b).value;
            && (m == a || m == b)
            && IsNumber(m)
            && NumValue(a) <= NumValue(m) && NumValue(b) <= NumValue(m)
  {
  }

  /** A number and a string cannot be compared. */
  lemma MaxPresentMixed(a: Json, b: Json)
    requires IsNumber(a) && b.Str?
    ensures MaxPresent(a, b) == Raise(TypeError)
    ensures MaxPresent(b, a) == Raise(TypeError)
  {
    assert [a, b][1] == b && [a, b][0] == a;
    assert [b, a][0] == b && [b, a][1] == a;
  }

  /** `int(round((h_day + h_night) / 2))` when both are present, otherwise
      whichever is present. Adding two values that are not numbers, or
      halving the sum, raises `TypeError`. */
  function Humidity(hDay: Json, hNight: Json): (r: Result<Json>)
    ensures hDay == Null ==> r == Ok(hNight)
    ensures hDay != Null && hNight == Null ==> r == Ok(hDay)
  {
    if hDay != Null && hNight != Null then
      if IsNumber(hDay) && IsNumber(hNight) then
        Ok(Int(RoundHalfEven((NumValue(hDay) + NumValue(hNight)) / 2.0)))
      else Raise(TypeError)
    else if hDay != Null then Ok(hDay)
    else Ok(hNight)
  }

  /** Both present: the mean rounded to a whole number, halves to even. */
  lemma HumidityAverage(hDay: Json, hNight: Json)
    requires IsNumber(hDay) && IsNumber(hNight)
    ensures var mean := (NumValue(hDay) + NumValue(hNight)) / 2.0;
            && Humidity(hDay, hNight).Ok? && Humidity(hDay, hNight).value.Int?
            && var n := Humidity(hDay, hNight).value.i;
               && mean - 0.5 <= n as real <= mean + 0.5
               && ((n as real == mean - 0.5 || n as real == mean + 0.5) ==> n % 2 == 0)
  {
  }

  /** The rounded mean of two whole percentages lies between them. */
  lemma HumidityBetween(a: int, b: int)
    requires a <= b
    ensures var h := Humidity(Int(a), Int(b));
            h.Ok? && h.value.Int? && a <= h.value.i <= b
  {
    var mean := (a as real + b as real) / 2.0;
    RoundMonotone(a as real, mean);
    RoundMonotone(mean, b as real);
    RoundWhole(a);
    RoundWhole(b);
  }

  /** Two present values that are not numbers make the record fail. */
  lemma HumidityNotNumbers(hDay: Json, hNight: Json)
    requires hDay != Null && hNight != Null && !(IsNumber(hDay) && IsNumber(hNight))
    ensures Humidity(hDay, hNight) == Raise(TypeError)
  {
  }

  /** `wind_day.get(k) if wind_day.get(k) is not None else wind_night.get(k)` */
  function PreferDay(dayPart: Json, nightPart: Json, k: string): (r: Result<Json>)
  {
    var v :- GetFrom(dayPart, k, Null);
    if v != Null then Ok(v) else GetFrom(nightPart, k, Null)
  }

  /** The daytime value wins whenever it is not `None`; the night section is
      then not even consulted. */
  lemma PreferDayCases(dayPart: Dict, nightPart: Json, k: string)
    ensures Get(dayPart, k) != Null ==> PreferDay(dayPart, nightPart, k) == Ok(Get(dayPart, k))
    ensures Get(dayPart, k) == Null ==> PreferDay(dayPart, nightPart, k) == GetFrom(nightPart, k, Null)
  {
  }

  /** `day.get(...).get(...)` for the daily maximum and minimum, and the
      unit of the maximum or, when that one is falsy, of the minimum. */
  function Temperatures(day: Dict): Result<(Json, Json, Json)>
  {
    var maxTemp :- Chain(day, ["maxTemperature", "degrees"], Null);
    var minTemp :- Chain(day, ["minTemperature", "degrees"], Null);
    var maxUnit :- Chain(day, ["maxTemperature", "unit"], Null);
    var unit :- if Truthy(maxUnit) then Ok(maxUnit) else Chain(day, ["minTemperature", "unit"], Null);
    Ok((maxTemp, minTemp, unit))
  }

  /** The daytime text `or` the night-time text. */
  function Description(day: Dict): Result<Json>
  {
    var dayText :- Chain(day, ["daytimeForecast", "weatherCondition", "description", "text"], Null);
    if Truthy(dayText) then Ok(dayText)
    else Chain(day, ["nighttimeForecast", "weatherCondition", "description", "text"], Null)
  }

  /** The description is the daytime text unless that is falsy, and then
      the night-time text, which is looked up only in that case. */
  lemma DescriptionPrefersDay(day: Dict)
    ensures var dayText := Chain(day, ["daytimeForecast", "weatherCondition", "description", "text"], Null);
            var nightText := Chain(day, ["nighttimeForecast", "weatherCondition", "description", "text"], Null);
            && (dayText.Raise? ==> Description(day) == Raise(dayText.error))
            && (dayText.Ok? && Truthy(dayText.value) ==> Description(day) == dayText)
            && (dayText.Ok? && !Truthy(dayText.value) ==> Description(day) == nightText)
  {
  }

  /** The larger of the daytime and night-time chances of precipitation. */
  function Precipitation(day: Dict): Result<Json>
  {
    var pDay :- PrecipPercent(Get(day, "daytimeForecast"));
    var pNight :- PrecipPercent(Get(day, "nighttimeForecast"));
    MaxPresent(pDay, pNight)
  }

  function DailyHumidity(day: Dict): Result<Json>
  {
    var hDay :- Chain(day, ["daytimeForecast", "relativeHumidity"], Null);
    var hNight :- Chain(day, ["nighttimeForecast", "relativeHumidity"], Null);
    Humidity(hDay, hNight)
  }

  /** Speed and unit of the wind, each preferring the daytime value. */
  function Wind(day: Dict): Result<(Json, Json)>
  {
    var windDay :- Chain(day, ["daytimeForecast", "wind", "speed"], Obj([]));
    var windNight :- Chain(day, ["nighttimeForecast", "wind", "speed"], Obj([]));
    var windSpeed :- PreferDay(windDay, windNight, "value");
    var windUnit :- PreferDay(windDay, windNight, "unit");
    Ok((windSpeed, windUnit))
  }

  /** The ten fields of one filtered forecast day. */
  datatype DayWeather = DayWeather(
    date: Json, dayname: Json, maxTemp: Json, minTemp: Json, temperatureUnit: Json,
    description: Json, precipitationChance: Json, humidity: Json,
    windSpeed: Json, windSpeedUnit: Json)

  /** The body of the forecast loop for one day, its lookups in the order
      the source evaluates them. */
  function DayWeatherOf(day: Json, calendar: (Json, Json, Json) -> Option<(string, string)>,
                        parseIso: string -> Option<(string, string)>): (r: Result<DayWeather>)
    ensures !day.Obj? ==> r == Raise(AttributeError)
    ensures r.Ok? ==> day.Obj?
    ensures r.Ok? ==> var w := r.value;
              && DateOf(day, calendar, parseIso) == Ok(DayDate(w.date, w.dayname))
              && Temperatures(day) == Ok((w.maxTemp, w.minTemp, w.temperatureUnit))
              && Description(day) == Ok(w.description)
              && Precipitation(day) == Ok(w.precipitationChance)
              && DailyHumidity(day) == Ok(w.humidity)
              && Wind(day) == Ok((w.windSpeed, w.windSpeedUnit))
  {
    if !day.Obj? then Raise(AttributeError)
    else
      var d :- DateOf(day, calendar, parseIso);
      var temps :- Temperatures(day);
      var description :- Description(day);
      var precipitation :- Precipitation(day);
      var humidity :- DailyHumidity(day);
      var wind :- Wind(day);
      Ok(DayWeather(d.date, d.dayname, temps.0, temps.1, temps.2, description,
                    precipitation, humidity, wind.0, wind.1))
  }

  /** A day with nothing in it gives a record of `None`s. */
  lemma EmptyDay(calendar: (Json, Json, Json) -> Option<(string, string)>,
                 parseIso: string -> Option<(string, string)>)
    requires calendar(Null, Null, Null).None?
    ensures DayWeatherOf(Obj([]), calendar, parseIso) ==
              Ok(DayWeather(Null, Null, Null, Null, Null, Null, Null, Null, Null, Null))
  {
  }

  function DayRecord(day: Json, calendar: (Json, Json, Json) -> Option<(string, string)>,
                     parseIso: string -> Option<(string, string)>): Result<Json>
  {
    var w :- DayWeatherOf(day, calendar, parseIso);
    Ok(RecordOf(w))
  }

  /** The dict appended for one day. */
  function RecordOf(w: DayWeather): Json
  {
    Obj([("date", w.date), ("dayname", w.dayname), ("maxTemp", w.maxTemp),
            ("minTemp", w.minTemp), ("temperatureUnit", w.temperatureUnit),
            ("description", w.description), ("precipitationChance", w.precipitationChance),
            ("humidity", w.humidity), ("windSpeed", w.windSpeed),
            ("windSpeedUnit", w.windSpeedUnit)])
  }

  function DayRecords(calendar: (Json, Json, Json) -> Option<(string, string)>,
                      parseIso: string -> Option<(string, string)>): Json -> Result<Json>
  {
    day => DayRecord(day, calendar, parseIso)
  }

  // ---------------------------------------------------------------------
  // The forecast
  // ---------------------------------------------------------------------

  function ForecastOut(records: seq<Json>): Dict
  {
    Obj([("forecastDays", Arr(records))])
  }

  /** `{"forecastDays": [filter(day) for day in data.get("forecastDays", [])]}` */
  function Forecast(data: Dict, calendar: (Json, Json, Json) -> Option<(string, string)>,
                    parseIso: string -> Option<(string, string)>): Result<Dict>
  {
    var days :- Iterate(GetOr(data, "forecastDays", Arr([])));
    var records :- MapOk(DayRecords(calendar, parseIso), days);
    Ok(ForecastOut(records))
  }

  /** One record per forecast day, in the same order. */
  lemma ForecastOneRecordPerDay(data: Dict, calendar: (Json, Json, Json) -> Option<(string, string)>,
                                parseIso: string -> Option<(string, string)>, days: seq<Json>)
    requires Get(data, "forecastDays") == Arr(days)
    requires Forecast(data, calendar, parseIso).Ok?
    ensures var out := Forecast(data, calendar, parseIso).value;
            && |out.fields| == 1 && out.fields[0].0 == "forecastDays"
            && out.fields[0].1.Arr?
            && |out.fields[0].1.items| == |days|
            && forall i :: 0 <= i < |days| ==> DayRecord(days[i], calendar, parseIso) == Ok(out.fields[0].1.items[i])
  {
    var records := MapOk(DayRecords(calendar, parseIso), days).value;
    assert forall i :: 0 <= i < |days| ==> DayRecords(calendar, parseIso)(days[i]) == Ok(records[i]);
  }

  /** A forecast without days filters to an empty list of days. */
  lemma ForecastWithoutDays(data: Dict, calendar: (Json, Json, Json) -> Option<(string, string)>,
                            parseIso: string -> Option<(string, string)>)
    requires !Has(data, "forecastDays")
    ensures Forecast(data, calendar, parseIso).Ok?
    ensures Forecast(data, calendar, parseIso).value == Obj([("forecastDays", Arr([]))])
  {
  }

  /** The forecast loop, `filter` being the loop body for one day: records
      are appended in day order, and the first day that raises ends it. */
  method FilterDays(days: seq<Json>, filter: Json -> Result<Json>) returns (r: Result<seq<Json>>)
    ensures r == MapOk(filter, days)
  {
    var filtered: seq<Json> := [];
    var i := 0;
    while i < |days|
      invariant 0 <= i <= |days|
      invariant |filtered| == i
      invariant forall k :: 0 <= k < i ==> filter(days[k]) == Ok(filtered[k])
    {
      var record := filter(days[i]);
      if record.Raise? {
        MapOkFails(filter, days, i);
        return Raise(record.error);
      }
      filtered := filtered + [record.value];
      i := i + 1;
    }
    MapOkAll(filter, days, filtered);
    return Ok(filtered);
  }

  method FilterForecast(data: Dict, calendar: (Json, Json, Json) -> Option<(string, string)>,
                        parseIso: string -> Option<(string, string)>) returns (r: Result<Dict>)
    ensures r == Forecast(data, calendar, parseIso)
  {
    var days :- Iterate(GetOr(data, "forecastDays", Arr([])));
    var filtered :- FilterDays(days, DayRecords(calendar, parseIso));
    return Ok(ForecastOut(filtered));
  }

  // ---------------------------------------------------------------------
  // filter_weather_data and the forecast request
  // ---------------------------------------------------------------------

  /** The filter by mode: any mode but `"current"` and `"forecast"` raises
      `ValueError`. */
  method FilterWeatherData(data: Dict, mode: string, calendar: (Json, Json, Json) -> Option<(string, string)>,
                           parseIso: string -> Option<(string, string)>) returns (r: Result<Dict>)
    ensures mode == "current" ==> r == CurrentWeather(data)
    ensures mode == "forecast" ==> r == Forecast(data, calendar, parseIso)
    ensures mode != "current" && mode != "forecast" ==> r == Raise(ValueError)
  {
    if mode == "current" {
      r := CurrentWeather(data);
    } else if mode == "forecast" {
      r := FilterForecast(data, calendar, parseIso);
    } else {
      r := Raise(ValueError);
    }
  }

  const DefaultForecastDays := 5

  /** The number of days asked of the provider: never more than seven. */
  function RequestedDays(days: int): (r: int)
    ensures r <= 7
    ensures days <= 7 ==> r == days
    ensures days > 7 ==> r == 7
  {
    if days > 7 then 7 else days
  }
}
