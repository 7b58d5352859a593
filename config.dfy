/** The static thresholds of the weather configuration registry
    (weather/config.py). Values that the deployment may override through
    settings and that the model does not fix (cache timeout, forecast window,
    validation bounds) are passed to the operations as parameters instead;
    their defaults are recorded here. */
module Config {

  // CACHE_TIMEOUT and MAX_FORECAST_DAYS when no setting overrides them
  const DefaultCacheTimeout: int := 300
  const DefaultMaxForecastDays: int := 7

  // ALERT_THRESHOLDS
  const HighTemperature: real := 35.0
  const LowTemperature: real := 2.0
  const HighHumidity: real := 80.0
  const LowSoilMoisture: real := 30.0
  const HighSoilMoisture: real := 70.0
  const FrostWarningTemp: real := 4.0
  const HeatwaveWarningTemp: real := 40.0

  // GROWING_DEGREE_DAYS
  const GddBaseTemperature: real := 10.0

  // CACHE_KEY_PREFIX
  const CacheKeyPrefix: string := "weather_"

  // LANGUAGES and DEFAULT_LANGUAGE
  const Languages: set<string> := {"hi", "hr", "en"}
  const DefaultLanguage: string := "hi"

  // OFFLINE_MODE
  const OfflineEnabled: bool := true
  const SyncFrequencyHours: nat := 6
  const MinStorageDays: nat := 3

  /** ALERT_SEVERITY_LEVELS: the numeric rank of a severity; a string outside
      the table has rank 0. */
  function SeverityLevel(severity: string): (level: nat)
    ensures severity == "LOW" ==> level == 1
    ensures severity == "MEDIUM" ==> level == 2
    ensures severity == "HIGH" ==> level == 3
    ensures severity == "EXTREME" ==> level == 4
    ensures level <= 4
    ensures level == 0 <==> severity !in {"LOW", "MEDIUM", "HIGH", "EXTREME"}
  {
    if severity == "LOW" then 1
    else if severity == "MEDIUM" then 2
    else if severity == "HIGH" then 3
    else if severity == "EXTREME" then 4
    else 0
  }

  const SecondsPerHour: int := 3600
  const SecondsPerDay: int := 86400
}
