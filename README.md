# Weather advisory core of Kisaan Mitra, in Dafny

Kisaan Mitra is a farming assistant for Haryana. Its weather module stores
locations, readings, forecasts and alerts. From these it derives agronomic
advice in English, Hindi and Haryanvi:
- frost, heat and disease risks;
- soil status;
- growing degree days;
- crop suitability;
- irrigation and spraying advice;
- a weekly and monthly outlook.

It keeps an offline copy of readings and alerts that is synchronised back to
the main store. A companion crop module recommends crops whose recorded
conditions are close to those a farmer reports.

This project models that core and proves properties of the model:

- `config.dfy` (module `Config`): the threshold registry.
- `values.dfy` (module `Values`): the untyped payload dictionaries.
- `agronomy.dfy` (module `Agronomy`): the rules shared by models, service,
  serializers and views.
- `entities.dfy` (module `Entities`):
  - the four entities, with their validation rules;
  - the alert lifecycle, where `WeatherAlert` is a class whose `Resolve`
    changes its fields in place;
  - the current-reading lookup.
- `analysis.dfy` (module `Analysis`): the analysis service (suitability,
  trends, history summaries, advisory alerts, metrics).
- `translation.dfy` (module `Translation`): the translator (phrase tables,
  bands, dictionary translations, recommendations).
- `serializers.dfy` (module `Serializers`): the computed serializer fields.
- `repository.dfy` (module `Repository`):
  - the repository, with its cache keys, store queries, alert ordering and
    validation;
  - the class `WeatherRepository`, whose cached lookups and creations are
    methods over a cache map and store sequences.
- `offline.dfy` (module `Offline`): the offline manager, as the class
  `OfflineDataManager`. Its two tables are sequences of rows, and its
  last-sync markers form a map with a time-to-live.
- `views.dfy` (module `Views`): the advisory rules of the location overview,
  the monthly outlook and the alert resolve action.
- `crop_matching.dfy` (module `CropMatching`): the crop recommend action.
- `wrappers.dfy`, `sequences.dfy`, `series.dfy`: option/result types, and
  generic sequence and numeric-series helpers (filter, count, insertion
  sort, subsequences, sum/min/max/mean) with their lemmas.

Units and encodings:
- Measurements are `real`.
- Times are whole seconds (`int`) and dates whole days.
- A clock reading ("now", "today") is a parameter.
- A database or cache is a sequence or map held by the object that owns it.
- Settings that a deployment may override, or that the configuration
  registry does not define (validation bounds, cache timeout, forecast
  window), are parameters. Their defaults are constants in `Config`.

## Model

| member | source | states |
|---|---|---|
| Config.SeverityLevel | weather/config.py:139-144 | LOW ranks 1, MEDIUM 2, HIGH 3 and EXTREME 4; every other string ranks 0. |
| Agronomy.GrowingDegreeDays | weather/services.py:22-31 | Degree days are never negative: the excess over the base, or 0 at or below the base. |
| Agronomy.GrowingDegreeDaysMonotone | weather/services.py:22-31 | A warmer day never accumulates fewer degree days. |
| Agronomy.GrowingDegreeDaysExamples | weather/tests/test_services.py:74-88 | 25 degrees gives 15 over the default base, 5 degrees gives 0, and 25 over base 15 gives 10. |
| Agronomy.RisksOf | weather/models.py:230-240 | Frost iff temperature <= 2; heat iff >= 35; disease iff humidity >= 80 and temperature >= 20. Frost and heat exclude each other, and frost excludes disease. |
| Agronomy.SoilMoistureStatus | weather/services.py:142-151 | unknown iff absent; dry iff < 30; saturated iff > 70; optimal iff within [30, 70]. |
| Agronomy.SoilBandsAgree | weather/language_utils.py:148-157 | The status bands and the translator's soil bands draw the same boundaries. |
| Agronomy.SoilTemperatureStatus | weather/services.py:153-162 | unknown iff absent; cold iff < 10; hot iff > 35; optimal iff within [10, 35]. |
| Entities.LocationErrors | weather/models.py:41-76 | latitude, longitude and elevation are each reported iff they break their range (elevation only when present and negative). |
| Entities.LocationWithoutElevation | weather/models.py:70-76 | A location with no elevation is valid iff its coordinates are in range. |
| Entities.ObservationFieldErrors | weather/models.py:142-185 | Each of the seven field validators rejects iff its bound is broken; absent optional values pass. |
| Entities.ObservationCleanError | weather/models.py:210-228 | No error iff the reading is not in the future and any soil temperature is within bounds. The timestamp is reported first. |
| Entities.ObservationMetrics | weather/models.py:230-245 | The degree days of the reading over the configured base, and the three risk flags by their thresholds. |
| Entities.LatestAtOrAfter | weather/models.py:95-105 | None iff no reading of the location is at or after the cutoff; otherwise a reading of the location at or after the cutoff that is no older than any other. |
| Entities.CurrentWeatherAsWritten | weather/models.py:95-105 | None iff no reading of the location is within the cache timeout taken as hours. Otherwise a reading of the location in that window whose timestamp is the latest of all the location's readings. |
| Entities.CurrentWeather | weather/models.py:95-105 | None iff every reading of the location is older than the cache timeout in seconds. Otherwise a reading of the location in that window whose timestamp is the latest of all the location's readings. |
| Entities.HourOldReadingIsCurrent | weather/models.py:95-105 | An hour-old reading is current as written and not current with the corrected window. |
| Entities.ForecastFieldErrors | weather/models.py:268-288 | humidity, rainfall probability and confidence are each reported iff outside [0, 100]. |
| Entities.ForecastCleanError | weather/models.py:302-313 | No error iff min <= max and the date is not past; an inverted range is reported first. |
| Entities.AverageTemperature | weather/models.py:315-317 | The midpoint of the range, which lies inside a proper range. |
| Entities.AlertCleanError | weather/models.py:381-392 | No error iff start < end and any resolution is not before the start; end_time is reported first. |
| Entities.AlertDuration | weather/models.py:402-408 | Resolution minus start when resolved; end minus start when deactivated without resolution; None iff unresolved and active. |
| Entities.ValidAlertDuration | weather/models.py:381-408 | A valid alert's duration is never negative, and positive when it was deactivated without resolution. |
| Entities.ResolvePreservesValidity | weather/models.py:394-400 | Resolving a valid alert at or after its start keeps it valid and inactive, with duration now - start. |
| Entities.WeatherAlert.Resolve | weather/models.py:394-400 | Only the four lifecycle fields change: inactive, resolved now, notes, impact. |
| Analysis.RiskFactors | weather/services.py:123-140 | An ordered subsequence of cold, heat, disease, drought. Each is present iff its condition holds, and drought needs a non-zero moisture reading. |
| Analysis.AssessCropSuitability | weather/services.py:33-51 | Each suitability flag iff the reading is in the crop's inclusive range (soil needs a non-zero reading), plus the risk factors. |
| Analysis.SuitabilityAndStressOverlapAtBounds | weather/services.py:33-51 | At the crop minimum a reading is both suitable and a cold risk; strictly inside it is neither a cold nor a heat risk; never both. |
| Analysis.AnalyzeCurrentConditions | weather/services.py:97-110 | The three risk flags by threshold and the two soil statuses. |
| Analysis.CurrentConditionsAgreeWithMetrics | weather/services.py:97-110 | The service's flags equal the reading's own metrics. |
| Analysis.CalculateTrend | weather/services.py:192-203 | stable below two values or when the half means differ by less than 0.1; otherwise increasing iff the difference is >= 0.1. |
| Analysis.ConstantSeriesIsStable | weather/services.py:192-203 | A constant series is stable. |
| Analysis.RisingHalvesIncrease | weather/services.py:192-203 | A series whose second half exceeds its first half by at least 0.1 everywhere is increasing. |
| Analysis.CoolingWeekIsDecreasing | weather/services.py:192-203 | A concrete week of falling temperatures is decreasing. |
| Analysis.TemperatureTrends | weather/services.py:164-177 | None iff no day reports a mean. Otherwise the average is the mean of the reported values, high and low are their maximum and minimum (reported values bounding all others, low <= average <= high), and the trend is that of the reported values. |
| Analysis.RainfallPatterns | weather/services.py:179-190 | None iff nothing is reported. Otherwise the total is the sum and the average is sum over count. Rainy days are the number of reported totals above zero: at most the count, zero iff no day is positive. |
| Series.CountPositive | weather/services.py:187 | The number of totals above zero, equal to the generic count of positive entries. |
| Analysis.DryHistory | weather/services.py:179-190 | A history with no rain has zero rainy days and zero total. |
| Analysis.AnalyzeHistoricalData | weather/services.py:112-121 | None iff the history is empty; otherwise both summaries, over the daily means and the daily totals. |
| Analysis.AgriculturalAlerts | weather/services.py:205-236 | An ordered subsequence of frost, heat and dry-soil advisories, each present iff its threshold is crossed. At most two. |
| Analysis.AtMostTwoAdvisories | weather/services.py:205-236 | A subsequence of the advisory order lacking frost or heat has at most two entries. |
| Analysis.AgriculturalMetrics | weather/services.py:53-72 | Empty history is an error before anything else; a missing current reading is an error; otherwise the three parts. |
| Translation.NewTranslator | weather/language_utils.py:115-124 | The language is always supported: the default when none or empty is given, the preference when supported, English otherwise. |
| Translation.LookupReplacesKnownCodes | weather/language_utils.py:126-171 | A lookup changes its key iff the key is in its table. |
| Translation.AlertTypeIdempotent | weather/language_utils.py:159-164 | Translating a translated alert type changes nothing. |
| Translation.WeatherConditionIdempotent | weather/language_utils.py:126-131 | Translating a translated condition changes nothing. |
| Translation.ActionPhrasesDistinct | weather/language_utils.py:92-113 | The irrigate, spray and protect phrases differ in every language. |
| Translation.TemperatureBandOf | weather/language_utils.py:133-146 | The five bands, closed above at 5, 15, 25 and 35 degrees. |
| Translation.TemperatureBandMonotone | weather/language_utils.py:133-146 | A warmer reading never falls in a colder band. |
| Translation.TenDegreesIsCold | weather/tests/test_language_utils.py:29-43 | 10 degrees is "Cold" in English. |
| Translation.SoilBandOf | weather/language_utils.py:148-157 | Dry below 30, wet above 70, moist in between. |
| Translation.TranslateWeatherData | weather/language_utils.py:173-200 | Fails iff a temperature or soil moisture is not a number. Otherwise it adds exactly the description keys, keeps every other key, and translates the condition. |
| Translation.TranslateAlert | weather/language_utils.py:202-225 | Fails iff neither type nor description is given. Otherwise it keeps other keys, translates the type, keeps a given description, and fills a missing one with the translated type. |
| Translation.AlertValueIdempotent | weather/language_utils.py:202-225 | Translating an alert value twice equals translating it once. |
| Translation.RecommendationCodes | weather/language_utils.py:227-256 | An ordered subsequence of irrigate, spray, protect (defaults 0, 0, 20). Each is present iff its condition holds. A non-numeric compared value is an error. |
| Translation.Recommendations | weather/language_utils.py:227-256 | The recommendation codes translated one by one, so the phrases keep the order irrigate, spray, protect. At most three phrases; each phrase is present iff its condition holds. |
| Translation.RecommendationPhrases | weather/language_utils.py:227-256 | Translating an ordered code list keeps at most three entries and preserves which actions are present. |
| Serializers.LocalizedAgriculturalMetrics | weather/serializers.py:34-42 | The three flags by threshold, and a soil phrase iff moisture is present and non-zero. |
| Serializers.SerializedMetricsAgreeWithModel | weather/serializers.py:34-42 | The serializer's literal thresholds agree with the reading's metrics. |
| Serializers.LocalizedAgriculturalConditions | weather/serializers.py:63-81 | favorable iff the average is in [15, 30] and humidity in [40, 70]; the risk flags; irrigation advice by rain-probability band. |
| Serializers.IrrigationAdviceDeterminesBand | weather/serializers.py:76-80 | The advice is irrigate iff probability < 30, spray iff > 70, monitor iff in between. |
| Serializers.LocalizedDescription | weather/serializers.py:103-105 | The description is translated iff it is an alert-type code. |
| Serializers.LocalizedRecommendedActions | weather/serializers.py:107-109 | The actions are translated iff they are an action code. |
| Serializers.LocalizedDescriptionStable | weather/serializers.py:103-105 | Localizing a localized description changes nothing. |
| Serializers.WithLanguage | weather/serializers.py:10-14 | Exactly one key is added: the context language, or "en". Every other key is kept. |
| Repository.CacheKeysDistinct | weather/repositories.py:22-40 | Location keys and current-weather keys are injective in the id and never collide. |
| Repository.DaySummary | weather/repositories.py:57-80 | A day's row is the mean, minimum and maximum of its temperatures (both extremes taken by a reading, min <= avg <= max), the rainfall total, the mean humidity, and the means of the soil values that are present. |
| Repository.ReadingsOn | weather/repositories.py:68-69 | Exactly the readings of the calendar day, every copy kept. |
| Repository.DayReadings | weather/repositories.py:63-69 | Exactly the location's readings in the window taken on the day, every copy kept. |
| Repository.InWindow | weather/repositories.py:63-67 | Exactly the location's readings from the start of the window on, every copy kept. |
| Repository.AverageOfPresent | weather/repositories.py:76-77 | The mean of the present values, None iff none is present; it lies between their extremes. |
| Repository.HistoryDates | weather/repositories.py:57-80 | The distinct days of the readings, strictly ascending. |
| Repository.WeatherHistory | weather/repositories.py:57-80 | Dates strictly ascend. Every reading in the window has its day. Each row aggregates exactly that day's readings of the location in the window. |
| Repository.UpcomingForecasts | weather/repositories.py:105-124 | Exactly the location's forecasts in [today, today + span), every copy of each kept, in ascending date order. |
| Repository.ForecastWindow | weather/repositories.py:105-124 | The same, every copy kept, with the span capped at the maximum number of forecast days. |
| Repository.ForecastWindowClamped | weather/repositories.py:105-124 | Asking for more days than allowed equals asking for the maximum. |
| Repository.ActiveAlertsAsWritten | weather/repositories.py:82-103 | Exactly the active, unexpired alerts of the location (and crop), every copy kept, sorted by severity text descending, then latest start. |
| Repository.ActiveAlerts | weather/repositories.py:82-103 | The same alerts with every copy kept, with severity rank non-increasing and latest start first within a severity. |
| Repository.ActiveMatches | weather/repositories.py:88-99 | Exactly the active, unexpired alerts of the location (and crop), every copy kept. |
| Repository.ExtremeListedLast | weather/repositories.py:82-103 | As written, every LOW alert is listed before every EXTREME one. |
| Repository.ExtremeListedFirst | weather/repositories.py:82-103 | Corrected, every EXTREME alert is listed before every LOW one. |
| Repository.SeverityTextOrder | weather/repositories.py:82-103 | As text the severities order EXTREME < HIGH < LOW < MEDIUM. |
| Repository.DeactivatedAlertDisappears | weather/repositories.py:82-103 | A resolved alert is never among the active alerts. |
| Repository.ValidateWeatherData | weather/repositories.py:159-173 | Passes iff all four checks pass, a missing value counting as 0. The first failure is reported, as out-of-range iff the value is a number. |
| Repository.EmptyRecordValidation | weather/repositories.py:159-173 | An empty record passes iff 0 is within every bound. |
| Repository.ReadingRecordValidation | weather/repositories.py:159-173 | A complete reading fails only on a broken bound. |
| Repository.WeatherRepository.GetLocation | weather/repositories.py:22-34 | A cache hit returns the cached location unchanged. A miss returns the stored location and caches it. An unknown id is an error and caches nothing. |
| Repository.WeatherRepository.GetCurrentWeather | weather/repositories.py:36-55 | A cache hit returns the cached reading. A miss returns the latest reading in the window and caches it only when there is one. |
| Repository.WeatherRepository.CreateWeatherData | weather/repositories.py:143-146 | A record failing validation is an error and stores nothing; otherwise the reading is appended. |
| Repository.WeatherRepository.CreateWeatherAlert | weather/repositories.py:148-157 | The alert is appended with exactly the given crop ids (none for an empty list). |
| Repository.FindLocation | weather/repositories.py:22-34 | A stored location with the id, or None iff there is none. |
| Offline.ParseReading | weather/offline_manager.py:188-203 | A row iff all five columns are present and the timestamp is a time. A missing key is the error reported. |
| Offline.ParseAlert | weather/offline_manager.py:205-220 | A row iff all columns are present and both times are times. A missing key is the error reported. |
| Offline.PendingRecordsMembers | weather/offline_manager.py:106-110 | A record is selected for sync iff a pending row holds it. |
| Offline.MarkSyncedKeepsSyncedRows | weather/offline_manager.py:123-126 | After marking, nothing is pending and already-synced rows are unchanged. |
| Offline.AcceptedPrefixIsLongest | weather/offline_manager.py:112-127 | What a pass writes is the longest accepted prefix: every record in it is accepted, and the next one is refused. |
| Offline.AcceptedAll | weather/offline_manager.py:106-150 | Both tables are written in full iff each is. |
| Offline.RefusalStops | weather/offline_manager.py:112-127 | After a refused record nothing further is written. |
| Offline.Retain | weather/offline_manager.py:284-311 | Cleanup keeps exactly the pending rows and the rows not older than the cutoff, in order. |
| Offline.RetainMultiplicity | weather/offline_manager.py:284-311 | Every copy of a retained row stays and every copy of any other row goes. |
| Offline.RetainKeepsPending | weather/offline_manager.py:284-311 | Cleanup never removes a pending row. |
| Offline.RateCheckAsWritten | weather/offline_manager.py:99-101 | As written, any live marker ends the sync with failure. |
| Offline.RateCheck | weather/offline_manager.py:99-101 | Corrected, a marker younger than the interval ends the sync with success. |
| Offline.RateCheckDiffers | weather/offline_manager.py:99-101 | One second after a sync, the two checks disagree. |
| Offline.OfflineDataManager.constructor | weather/offline_manager.py:28-32 | Interval and retention come from the offline settings; no tables, rows or markers. |
| Offline.OfflineDataManager.Initialize | weather/offline_manager.py:34-85 | The tables exist afterwards, and existing rows are kept. |
| Offline.OfflineDataManager.LiveMarker | weather/offline_manager.py:153-158 | A marker is live iff it was set less than the interval ago. |
| Offline.OfflineDataManager.Store | weather/offline_manager.py:167-224 | Readings and alerts append one pending row to their own table. A missing key raises and writes nothing; missing tables report failure; any other kind writes nothing and succeeds. |
| Offline.OfflineDataManager.OfflineData | weather/offline_manager.py:226-282 | Exactly the rows of the location (and since the date) of the kind, in table order; none for another kind or missing tables. |
| Offline.OfflineDataManager.OfflineDataMultiplicity | weather/offline_manager.py:226-282 | The rows returned keep every copy of each selected row of the table and no copy of any other. |
| Offline.OfflineDataManager.SyncTable | weather/offline_manager.py:106-127 | The accepted prefix of the pending records is written to the store. Success iff all were accepted, and then the rows come back marked synced. |
| Offline.OfflineDataManager.SyncTables | weather/offline_manager.py:106-150 | Pending readings and then pending alerts are written up to the first refusal. Success iff every pending record was accepted, and then both tables come back marked synced. |
| Offline.OfflineDataManager.SyncPass | weather/offline_manager.py:87-165 | Readings, then alerts. Success commits the marks and sets the marker; failure leaves tables and markers as they were, while records already written stay. |
| Offline.OfflineDataManager.SyncAsWritten | weather/offline_manager.py:87-165 | A live marker means failure with no change; otherwise a sync pass. |
| Offline.OfflineDataManager.Sync | weather/offline_manager.py:87-165 | A live marker means success with no change; otherwise a sync pass. |
| Offline.OfflineDataManager.Cleanup | weather/offline_manager.py:284-311 | Both tables keep exactly what `Retain` keeps at now minus the retention days. |
| Offline.OfflineDataManager.Stats | weather/offline_manager.py:313-337 | The counts of the two tables and of pending readings (no more than all readings); absent without tables. |
| Views.RisksOf | weather/views.py:466-478 | Frost, heat and disease by their thresholds; ideal iff max in [15, 30], humidity in [40, 70] and some rain expected. |
| Views.RisksAgreeWithSerializer | weather/views.py:466-478 | The overview's risk flags equal the forecast serializer's in every language. |
| Views.IdealDayIsSafe | weather/views.py:466-478 | An ideal day carries no heat or disease risk. |
| Views.CropActionsMeaning | weather/views.py:502-517 | Each of the four actions is advised iff its condition holds, and none twice. |
| Views.CropRecommendedActions | weather/views.py:498-517 | The guarded appends build exactly the crop actions. |
| Views.CropInsightOf | weather/views.py:485-517 | The crop name; each suitability flag iff in range; water high/low/moderate by rain probability; the actions. |
| Views.CropInsightConsistent | weather/views.py:485-517 | Irrigation is planned iff water need is high. A humidity action implies unsuitable humidity. Neither cold nor heat action on a proper range implies temperature suitability. |
| Views.FindCrop | weather/views.py:481-484 | A stored crop with the id, or None iff there is none. |
| Views.Annotated | weather/views.py:462-521 | Each forecast carries its risks, and a crop section iff a crop id is given and that crop exists. |
| Views.AnnotateForecasts | weather/views.py:462-521 | One annotation per forecast, in order. |
| Views.AnnotateForecast | weather/views.py:485-517 | A forecast built step by step (risks, then the crop section with its actions appended) equals its annotation. |
| Views.CurrentConditionsOf | weather/views.py:419-445 | Fails iff a soil value is missing (moisture first). Otherwise the flags, ideal conditions, the soil statuses, and irrigation iff moisture is non-zero and below 30. |
| Views.CurrentConditionsAgree | weather/views.py:419-445 | The flags equal the reading's metrics; ideal means no risk; irrigation only on dry soil. |
| Views.AlertSummaryOf | weather/views.py:447-450 | The total of the active alerts, and the high-severity ones among them (never more). |
| Views.HighSeverityIsTopLevels | weather/views.py:447-450 | High severity is severity rank >= 3. |
| Views.HighSeverityCounted | weather/views.py:447-450 | An alert is counted high iff it is a current alert of the location with rank >= 3. |
| Views.OutlookOf | weather/views.py:452-457 | Total expected rain, and counts of frost-flagged, heat-flagged and favorable forecasts, each at most the number of forecasts. |
| Views.OutlookAppend | weather/views.py:452-457 | The outlook of two runs is the sum of their outlooks. |
| Views.MildWeekIsFavorable | weather/views.py:452-457 | When every range lies within [15, 30], every day is favorable. |
| Views.WeekStatsOf | weather/views.py:184-194 | A bucket records its week start, the mean of its forecasts' daily average temperatures, and the outlook of its forecasts. |
| Views.AverageTemperatures | weather/views.py:189 | Each forecast's daily average temperature, in forecast order. |
| Views.WeekAverageBetween | weather/views.py:184-194 | A week's average lies between its coolest and warmest daily average. |
| Views.MonthlyBuckets | weather/views.py:171-194 | The loop builds exactly the four weekly buckets. |
| Views.BucketShape | weather/views.py:184-194 | A week yields one bucket iff some forecast falls in it. |
| Views.WeeksSound | weather/views.py:171-194 | At most n buckets, in ascending start order, each the statistics of a non-empty week among the first n. |
| Views.WeeksComplete | weather/views.py:171-194 | Every non-empty week among the first n has its bucket. |
| Views.BucketIgnoresOutsider | weather/views.py:184-194 | A forecast outside a week leaves its bucket unchanged. |
| Views.LateForecastIgnored | weather/views.py:171-194 | Forecasts from day 28 on change no bucket. |
| Views.ResolveAlert | weather/views.py:273-290 | The alert is resolved now with the request's notes and impact (empty when absent). The reported hours times 3600 equal the resolved alert's duration. |
| Views.ResolvedHoursMatchDuration | weather/views.py:286-290 | The reported hours are the duration over 3600, and not negative when resolved after the start. |
| CropMatching.Matching | crops/views.py:53-61 | Exactly the records with equal soil and season, rainfall within 100 and temperature within 5, as a permutation of the filtered records, best success rate first. |
| CropMatching.ReadConditions | crops/views.py:53-61 | Conditions iff soil and season are texts and rainfall and temperature are numbers; otherwise the first unsupported field. |
| CropMatching.RecommendAsWritten | crops/views.py:40-64 | A bad request iff some parameter is falsy; otherwise the matches for the request. |
| CropMatching.Recommend | crops/views.py:40-64 | A bad request iff some parameter is missing or empty; otherwise the matches. |
| CropMatching.RecommendExtendsAsWritten | crops/views.py:47-51 | Wherever the written action answers, the corrected one answers the same. |
| CropMatching.ZeroRainfallRefused | crops/views.py:47-51 | A request with rainfall 0 is refused as written and matched when corrected. |
| CropMatching.BestFirst | crops/views.py:53-61 | The first match has the best success rate among all matching records. |

## Left out

- Four modules of the core fail to load as written: `language_utils.py` annotates with `List` (line 231) without importing it (line 6); `services.py` imports a `Crop` that `models.py` does not define (line 11); `repositories.py` imports `TIME_INTERVALS`, which `config.py` does not define (line 14); and `models.py` reads a `VALIDATION` entry that `WEATHER_CONFIG` lacks while its classes are being defined (line 144). The model treats the modules as importable, takes the missing settings (the current-weather window, the validation bounds) as parameters, and takes the crop records as parameters.
- Persistence, caching back ends, SQLite files and their size, HTTP status codes and routing, serializer plumbing, and logging. Stores are sequences, the cache is a map, and status codes become `Result` errors.
- Cache time-to-live other than the sync marker. Cached locations and readings do not expire in the model.
- The distance computation and nearby-location query (floating-point trigonometry).
- `analyze_forecast_implications` and the machine-learning and chat modules. They call helpers the services do not define, or external services.
- Analysis.AnalyzeHistoricalData: the service also asks for a soil-moisture trend from a helper it never defines. As written, every non-empty history raises there. The model returns the two summaries it can compute.
- Analysis.AgriculturalMetrics: a missing current reading raises an attribute error in the service. The model reports it as `NoCurrentReading`.
- Repository.WeatherRepository.GetCurrentWeather: the window comes from a time-interval setting that the configuration does not define, so it is a parameter (`windowHours`). The same holds for the validation bounds (`Bounds`).
- The crop climate ranges (`min_temp`, `max_temp`, humidity and soil-moisture ranges) are read by the services and views but are not fields of `crops/models.py`. The model takes them as the test fixtures describe them (weather/tests/test_config.py:58-66).
- Views: the monthly outlook passes a `count` keyword to a lookup that takes none. It also labels each week and the month with translated texts, and builds a monthly summary. Only the bucketing and the per-week statistics are modelled.
- Views: the alert summary's grouping by alert type is left out.
- Views.CurrentConditionsOf: `irrigation_needed` is a boolean here. The overview yields the moisture value itself (0.0) when the moisture is zero.
- Offline: ISO text timestamps are compared as seconds, and row ids are positions in the table. The offline forecast table is not modelled (nothing reads it back).
- Offline.OfflineDataManager.SyncPass: what counts as an exception inside a sync pass is the `accepts` parameter. Exceptions from the store are not further distinguished.
- CropMatching.ReadConditions: numeric text for rainfall or temperature (converted with `float` in the source) and a non-text soil type are reported as `UnsupportedParameter`. A non-numeric `crop_id` text in the overview is not modelled.
- Concurrency between requests, and the alert statistics and other list actions of the views.
- Where a test file disagrees with the code, the code is followed. Two cases: the repository test expects a validation error type that the repository never raises (weather/tests/test_repositories.py:193), and the service test expects a soil-moisture trend that the service cannot compute (weather/tests/test_services.py:208).

## Findings

| source | as written | input that shows it | evidently intended | confidence | as-written member | corrected member |
|---|---|---|---|---|---|---|
| weather/offline_manager.py:99-101 | The rate check reads `.hours` of a time difference, which has no such attribute. The exception is caught and the sync reports failure whenever a marker is live. | A sync one second after a successful sync of the same location. | Within the sync interval, skip the sync and report success. | not executed | Offline.RateCheckDiffers | Offline.OfflineDataManager.Sync |
| weather/repositories.py:82-103 | Active alerts are ordered by the severity text descending: MEDIUM, LOW, HIGH, EXTREME. | One LOW and one EXTREME active alert: the LOW one is listed first. | Most severe first, by the severity levels of the configuration. | not executed | Repository.ExtremeListedLast | Repository.ExtremeListedFirst |
| weather/models.py:95-105 | The current reading's cutoff uses the cache timeout (300, in seconds elsewhere) as a number of hours. | A reading taken one hour ago counts as current. | Readings no older than the cache timeout. | not executed | Entities.HourOldReadingIsCurrent | Entities.CurrentWeather |
| crops/views.py:47-51 | Presence of the parameters is checked by truthiness, so a rainfall or temperature of 0 is a missing parameter. | soil loamy, season rabi, rainfall 0, temperature 18. | Only absent or empty parameters are missing. | not executed | CropMatching.ZeroRainfallRefused | CropMatching.Recommend |
