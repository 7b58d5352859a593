/*
  The weather entities: locations, observations (weather readings),
  forecasts and alerts, with the validation rules each enforces before it is
  saved, the per-reading metrics, the alert lifecycle and the lookup of the
  current reading of a location.

  Timestamps are whole seconds, dates whole days.
*/
module Entities {
  import opened Wrappers
  import opened Config
  import opened Agronomy

  /** The validation bounds for readings. The configuration registry does not
      define them, so they are a parameter of every rule that uses them. */
  datatype Bounds = Bounds(minTemperature: real, maxTemperature: real,
                           minHumidity: real, maxHumidity: real,
                           maxWindSpeed: real, maxRainfall: real)

  // ---------------------------------------------------------------------
  // Location
  // ---------------------------------------------------------------------

  datatype Location = Location(id: int, name: string, district: string, state: string,
                               latitude: real, longitude: real, elevation: Option<real>)

  /** The fields a full validation of a location reports: the coordinate
      ranges of the field validators and the elevation rule of `clean`. */
  function LocationErrors(loc: Location): (errors: set<string>)
    ensures "latitude" in errors <==> !(-90.0 <= loc.latitude <= 90.0)
    ensures "longitude" in errors <==> !(-180.0 <= loc.longitude <= 180.0)
    ensures "elevation" in errors <==> loc.elevation.Some? && loc.elevation.value < 0.0
    ensures errors <= {"latitude", "longitude", "elevation"}
  {
    (if -90.0 <= loc.latitude <= 90.0 then {} else {"latitude"})
    + (if -180.0 <= loc.longitude <= 180.0 then {} else {"longitude"})
    + (match loc.elevation
       case Some(e) => if e < 0.0 then {"elevation"} else {}
       case None => {})
  }

  /** A location with no recorded elevation is judged on its coordinates
      alone. */
  lemma LocationWithoutElevation(loc: Location)
    requires loc.elevation.None?
    ensures LocationErrors(loc) == {} <==> -90.0 <= loc.latitude <= 90.0 && -180.0 <= loc.longitude <= 180.0
  {
  }

  // ---------------------------------------------------------------------
  // Observation (a weather reading)
  // ---------------------------------------------------------------------

  datatype Observation = Observation(
    locationId: int,
    temperature: real,
    humidity: real,
    rainfall: real,
    windSpeed: real,
    windDirection: int,
    soilTemperature: Option<real>,
    soilMoisture: Option<real>,
    solarRadiation: Option<real>,
    condition: string,
    timestamp: int,
    dataSource: string)

  /** The fields of a reading that carry a validator. */
  datatype ObservationField =
    | TemperatureField | HumidityField | RainfallField | WindSpeedField
    | WindDirectionField | SoilMoistureField | SolarRadiationField

  const AllObservationFields: set<ObservationField> :=
    {TemperatureField, HumidityField, RainfallField, WindSpeedField,
     WindDirectionField, SoilMoistureField, SolarRadiationField}

  /** The validator of one field of a reading; an absent optional value
      passes. */
  predicate FieldValid(o: Observation, bounds: Bounds, field: ObservationField) {
    match field
    case TemperatureField => bounds.minTemperature <= o.temperature <= bounds.maxTemperature
    case HumidityField => 0.0 <= o.humidity <= 100.0
    case RainfallField => 0.0 <= o.rainfall <= bounds.maxRainfall
    case WindSpeedField => 0.0 <= o.windSpeed <= bounds.maxWindSpeed
    case WindDirectionField => 0 <= o.windDirection <= 360
    case SoilMoistureField => o.soilMoisture.None? || 0.0 <= o.soilMoisture.value <= 100.0
    case SolarRadiationField => o.solarRadiation.None? || o.solarRadiation.value >= 0.0
  }

  /** The fields whose validators reject a reading. */
  function ObservationFieldErrors(o: Observation, bounds: Bounds): (errors: set<ObservationField>)
    ensures TemperatureField in errors <==> !(bounds.minTemperature <= o.temperature <= bounds.maxTemperature)
    ensures HumidityField in errors <==> !(0.0 <= o.humidity <= 100.0)
    ensures RainfallField in errors <==> !(0.0 <= o.rainfall <= bounds.maxRainfall)
    ensures WindSpeedField in errors <==> !(0.0 <= o.windSpeed <= bounds.maxWindSpeed)
    ensures WindDirectionField in errors <==> !(0 <= o.windDirection <= 360)
    ensures SoilMoistureField in errors <==> o.soilMoisture.Some? && !(0.0 <= o.soilMoisture.value <= 100.0)
    ensures SolarRadiationField in errors <==> o.solarRadiation.Some? && o.solarRadiation.value < 0.0
  {
    var errors := set f | f in AllObservationFields && !FieldValid(o, bounds, f);
    assert forall f :: f in errors <==> !FieldValid(o, bounds, f);
    errors
  }

  /** The cross-field rule of a reading: it may not lie in the future, and a
      soil temperature, when present, must lie within the temperature bounds.
      The timestamp is checked first. */
  function ObservationCleanError(o: Observation, now: int, bounds: Bounds): (e: Option<string>)
    ensures e.None? <==> o.timestamp <= now
                         && (o.soilTemperature.None?
                             || bounds.minTemperature <= o.soilTemperature.value <= bounds.maxTemperature)
    ensures o.timestamp > now ==> e == Some("timestamp")
    ensures o.timestamp <= now && e.Some? ==> e == Some("soil_temperature")
  {
    if o.timestamp > now then Some("timestamp")
    else match o.soilTemperature
      case Some(st) =>
        if bounds.minTemperature <= st <= bounds.maxTemperature then None else Some("soil_temperature")
      case None => None
  }

  /** Agricultural metrics of one reading. */
  datatype ReadingMetrics = ReadingMetrics(growingDegreeDays: real, frostRisk: bool,
                                           heatStressRisk: bool, diseaseRisk: bool)

  function ObservationMetrics(o: Observation): (m: ReadingMetrics)
    ensures m.growingDegreeDays >= 0.0
    ensures m.growingDegreeDays == GrowingDegreeDays(o.temperature, GddBaseTemperature)
    ensures m.frostRisk <==> o.temperature <= LowTemperature
    ensures m.heatStressRisk <==> o.temperature >= HighTemperature
    ensures m.diseaseRisk <==> o.humidity >= HighHumidity && o.temperature >= 20.0
    ensures !(m.frostRisk && m.heatStressRisk)
  {
    var risks := RisksOf(o.temperature, o.humidity);
    ReadingMetrics(GrowingDegreeDays(o.temperature, GddBaseTemperature),
                   risks.frost, risks.heatStress, risks.disease)
  }

  /** The most recent reading of a location taken at or after `cutoff`, if
      any. Among readings with the same timestamp the earliest listed wins. */
  function LatestAtOrAfter(obs: seq<Observation>, locationId: int, cutoff: int): (r: Option<Observation>)
    ensures r.None? <==> forall o :: o in obs && o.locationId == locationId ==> o.timestamp < cutoff
    ensures r.Some? ==> r.value in obs && r.value.locationId == locationId && r.value.timestamp >= cutoff
    ensures r.Some? ==> forall o :: o in obs && o.locationId == locationId ==> o.timestamp <= r.value.timestamp
  {
    if |obs| == 0 then None
    else
      var rest := LatestAtOrAfter(obs[1..], locationId, cutoff);
      var o := obs[0];
      assert forall x :: x in obs ==> x == o || x in obs[1..];
      if o.locationId == locationId && o.timestamp >= cutoff && (rest.None? || rest.value.timestamp <= o.timestamp)
      then Some(o)
      else rest
  }

  /** The current reading of a location as the model computes it: the
      recency window is `cacheTimeout` read as a number of hours. */
  function CurrentWeatherAsWritten(locationId: int, obs: seq<Observation>, now: int, cacheTimeout: int)
    : (r: Option<Observation>)
    ensures r.None? <==> forall o :: o in obs && o.locationId == locationId ==>
                           o.timestamp < now - cacheTimeout * SecondsPerHour
    ensures r.Some? ==> r.value in obs && r.value.locationId == locationId
                        && r.value.timestamp >= now - cacheTimeout * SecondsPerHour
    ensures r.Some? ==> forall o :: o in obs && o.locationId == locationId ==> o.timestamp <= r.value.timestamp
  {
    LatestAtOrAfter(obs, locationId, now - cacheTimeout * SecondsPerHour)
  }

  /** The current reading with the cache timeout read as seconds, its unit
      everywhere else: no reading older than the cache timeout counts. */
  function CurrentWeather(locationId: int, obs: seq<Observation>, now: int, cacheTimeout: int)
    : (r: Option<Observation>)
    ensures r.Some? ==> r.value in obs && r.value.locationId == locationId
                        && now - r.value.timestamp <= cacheTimeout
    ensures r.Some? ==> forall o :: o in obs && o.locationId == locationId ==> o.timestamp <= r.value.timestamp
    ensures r.None? <==> forall o :: o in obs && o.locationId == locationId ==> now - o.timestamp > cacheTimeout
  {
    LatestAtOrAfter(obs, locationId, now - cacheTimeout)
  }

  /** With the default timeout of 300, a reading taken an hour ago is still
      current as written, although it is twelve times older than the cache
      lifetime. */
  lemma HourOldReadingIsCurrent(o: Observation, now: int)
    requires o.timestamp == now - SecondsPerHour
    ensures CurrentWeatherAsWritten(o.locationId, [o], now, DefaultCacheTimeout) == Some(o)
    ensures CurrentWeather(o.locationId, [o], now, DefaultCacheTimeout) == None
  {
  }

  /** One day of a location's history: the aggregates of that calendar
      day's readings. The soil averages are absent when no reading of the
      day carried the value. */
  datatype DailySummary = DailySummary(
    date: int,
    avgTemp: real,
    minTemp: real,
    maxTemp: real,
    totalRainfall: real,
    avgHumidity: real,
    avgSoilMoisture: Option<real>,
    avgSoilTemp: Option<real>)

  // ---------------------------------------------------------------------
  // Crop requirements
  // ---------------------------------------------------------------------

  /** The climate a crop tolerates. */
  datatype Crop = Crop(id: int, name: string, minTemp: real, maxTemp: real,
                       minHumidity: real, maxHumidity: real,
                       minSoilMoisture: real, maxSoilMoisture: real)

  // ---------------------------------------------------------------------
  // Forecast
  // ---------------------------------------------------------------------

  datatype Forecast = Forecast(
    locationId: int,
    date: int,
    minTemperature: real,
    maxTemperature: real,
    humidity: real,
    rainfallProbability: real,
    expectedRainfall: real,
    windSpeed: real,
    condition: string,
    confidence: real,
    frostRisk: bool,        // stored flags, set by whoever writes the forecast
    heatStressRisk: bool)

  /** The fields whose percentage validators reject a forecast. */
  function ForecastFieldErrors(f: Forecast): (errors: set<string>)
    ensures "humidity" in errors <==> !(0.0 <= f.humidity <= 100.0)
    ensures "rainfall_probability" in errors <==> !(0.0 <= f.rainfallProbability <= 100.0)
    ensures "confidence_level" in errors <==> !(0.0 <= f.confidence <= 100.0)
    ensures errors <= {"humidity", "rainfall_probability", "confidence_level"}
  {
    (if 0.0 <= f.humidity <= 100.0 then {} else {"humidity"})
    + (if 0.0 <= f.rainfallProbability <= 100.0 then {} else {"rainfall_probability"})
    + (if 0.0 <= f.confidence <= 100.0 then {} else {"confidence_level"})
  }

  /** A forecast's range may be a single temperature but not inverted, and
      its date may not be in the past; the range is checked first. */
  function ForecastCleanError(f: Forecast, today: int): (e: Option<string>)
    ensures e.None? <==> f.minTemperature <= f.maxTemperature && f.date >= today
    ensures f.minTemperature > f.maxTemperature ==> e == Some("min_temperature")
    ensures f.minTemperature <= f.maxTemperature && e.Some? ==> e == Some("forecast_date")
  {
    if f.minTemperature > f.maxTemperature then Some("min_temperature")
    else if f.date < today then Some("forecast_date")
    else None
  }

  /** The midpoint of the forecast range, which lies inside the range. */
  function AverageTemperature(f: Forecast): (avg: real)
    ensures avg - f.minTemperature == f.maxTemperature - avg
    ensures f.minTemperature <= f.maxTemperature ==> f.minTemperature <= avg <= f.maxTemperature
  {
    (f.maxTemperature + f.minTemperature) / 2.0
  }

  // ---------------------------------------------------------------------
  // Alert
  // ---------------------------------------------------------------------

  datatype Alert = Alert(
    id: int,
    locationId: int,
    alertType: string,
    severity: string,
    description: string,
    recommendedActions: string,
    startTime: int,
    endTime: int,
    resolvedAt: Option<int>,
    resolutionNotes: string,
    actualImpact: string,
    isActive: bool,
    affectedCrops: set<int>)

  /** An alert must end after it starts, and cannot be resolved before it
      starts; the time range is checked first. */
  function AlertCleanError(a: Alert): (e: Option<string>)
    ensures e.None? <==> a.startTime < a.endTime && (a.resolvedAt.None? || a.resolvedAt.value >= a.startTime)
    ensures a.startTime >= a.endTime ==> e == Some("end_time")
    ensures a.startTime < a.endTime && e.Some? ==> e == Some("resolved_at")
  {
    if a.startTime >= a.endTime then Some("end_time")
    else match a.resolvedAt
      case Some(r) => if r < a.startTime then Some("resolved_at") else None
      case None => None
  }

  /** The alert after resolution at `now`: inactive, resolved, with the given
      notes and impact, everything else as before. */
  function Resolved(a: Alert, now: int, notes: string, impact: string): Alert {
    a.(isActive := false, resolvedAt := Some(now), resolutionNotes := notes, actualImpact := impact)
  }

  /** How long an alert lasted: until resolution when resolved, its planned
      span when deactivated without resolution, unknown while running. */
  function AlertDuration(a: Alert): (d: Option<int>)
    ensures d.None? <==> a.resolvedAt.None? && a.isActive
    ensures a.resolvedAt.Some? ==> d == Some(a.resolvedAt.value - a.startTime)
    ensures a.resolvedAt.None? && !a.isActive ==> d == Some(a.endTime - a.startTime)
  {
    match a.resolvedAt
    case Some(r) => Some(r - a.startTime)
    case None => if !a.isActive then Some(a.endTime - a.startTime) else None
  }

  /** A valid alert never has a negative duration, and one deactivated
      without resolution lasted a positive time. */
  lemma ValidAlertDuration(a: Alert)
    requires AlertCleanError(a).None?
    ensures AlertDuration(a).Some? ==> AlertDuration(a).value >= 0
    ensures a.resolvedAt.None? && !a.isActive ==> AlertDuration(a).value > 0
  {
  }

  /** Resolving a valid alert at or after its start keeps it valid, ends its
      activity and fixes its duration. */
  lemma ResolvePreservesValidity(a: Alert, now: int, notes: string, impact: string)
    requires AlertCleanError(a).None? && now >= a.startTime
    ensures AlertCleanError(Resolved(a, now, notes, impact)).None?
    ensures AlertDuration(Resolved(a, now, notes, impact)) == Some(now - a.startTime)
    ensures !Resolved(a, now, notes, impact).isActive
  {
  }

  /** A stored alert whose lifecycle fields change in place. */
  class WeatherAlert {
    var id: int
    var locationId: int
    var alertType: string
    var severity: string
    var description: string
    var recommendedActions: string
    var startTime: int
    var endTime: int
    var resolvedAt: Option<int>
    var resolutionNotes: string
    var actualImpact: string
    var isActive: bool
    var affectedCrops: set<int>

    constructor (a: Alert)
      ensures Record() == a
    {
      id, locationId, alertType, severity := a.id, a.locationId, a.alertType, a.severity;
      description, recommendedActions := a.description, a.recommendedActions;
      startTime, endTime, resolvedAt := a.startTime, a.endTime, a.resolvedAt;
      resolutionNotes, actualImpact := a.resolutionNotes, a.actualImpact;
      isActive, affectedCrops := a.isActive, a.affectedCrops;
    }

    function Record(): Alert
      reads this
    {
      Alert(id, locationId, alertType, severity, description, recommendedActions,
            startTime, endTime, resolvedAt, resolutionNotes, actualImpact, isActive, affectedCrops)
    }

    /** Marks the alert resolved at `now`; only the four lifecycle fields
        change. */
    method Resolve(now: int, notes: string, impact: string)
      modifies this
      ensures Record() == Resolved(old(Record()), now, notes, impact)
      ensures !isActive && AlertDuration(Record()) == Some(now - startTime)
    {
      isActive := false;
      resolvedAt := Some(now);
      resolutionNotes := notes;
      actualImpact := impact;
    }

    function Duration(): Option<int>
      reads this
    {
      AlertDuration(Record())
    }
  }
}
