/*
  The advisory rules of the location overview, the monthly outlook and the
  alert resolve action. The overview annotates each forecast of the coming
  week with risk flags and, when a known crop is asked for, crop-specific
  advice; it summarises the current reading, the active alerts and the
  week ahead. The monthly outlook groups the coming 30 days into four
  seven-day buckets.
*/
module Views {
  import opened Wrappers
  import opened Config
  import opened Sequences
  import opened Series
  import opened Agronomy
  import opened Entities
  import Serializers
  import Repository

  // ---------------------------------------------------------------------
  // Per-forecast risks
  // ---------------------------------------------------------------------

  datatype ForecastRisks = ForecastRisks(frost: bool, heatStress: bool, disease: bool, idealGrowing: bool)

  /** Frost at or below 2 degrees overnight, heat stress at or above 35 by
      day, disease when humid and warm on average, and ideal growing when
      the day is mild, moderately humid and some rain is expected. */
  function RisksOf(f: Forecast): (r: ForecastRisks)
    ensures r.frost <==> f.minTemperature <= LowTemperature
    ensures r.heatStress <==> f.maxTemperature >= HighTemperature
    ensures r.disease <==> f.humidity >= HighHumidity && AverageTemperature(f) >= 20.0
    ensures r.idealGrowing <==> && 15.0 <= f.maxTemperature <= 30.0
                                && 40.0 <= f.humidity <= 70.0
                                && f.expectedRainfall > 0.0
  {
    ForecastRisks(
      f.minTemperature <= 2.0,
      f.maxTemperature >= 35.0,
      f.humidity >= 80.0 && (f.maxTemperature + f.minTemperature) / 2.0 >= 20.0,
      15.0 <= f.maxTemperature <= 30.0 && 40.0 <= f.humidity <= 70.0 && f.expectedRainfall > 0.0)
  }

  /** The overview and the forecast serializer raise the same three risk
      flags for every forecast, in every language. */
  lemma RisksAgreeWithSerializer(language: Option<string>, f: Forecast)
    ensures var c := Serializers.LocalizedAgriculturalConditions(language, f);
            && RisksOf(f).frost == c.frost
            && RisksOf(f).heatStress == c.heatStress
            && RisksOf(f).disease == c.disease
  {
  }

  /** Ideal growing days carry neither heat stress nor disease risk. */
  lemma IdealDayIsSafe(f: Forecast)
    requires RisksOf(f).idealGrowing
    ensures !RisksOf(f).heatStress && !RisksOf(f).disease
  {
  }

  // ---------------------------------------------------------------------
  // Crop-specific insight
  // ---------------------------------------------------------------------

  const ColdAction: string := "Protect crop from cold conditions"
  const HeatAction: string := "Implement heat stress mitigation measures"
  const HumidityAction: string := "Monitor for disease due to high humidity"
  const IrrigationAction: string := "Plan for irrigation"

  /** `[action]` when `b` holds, nothing otherwise. */
  function Guarded(b: bool, action: string): seq<string> {
    if b then [action] else []
  }

  /** The actions a forecast calls for: cold, heat, humidity and irrigation
      advice, in that order. The humidity check is strict, the others
      include their bound. */
  function CropActions(f: Forecast, crop: Crop): seq<string> {
    Guarded(f.minTemperature <= crop.minTemp, ColdAction)
    + Guarded(f.maxTemperature >= crop.maxTemp, HeatAction)
    + Guarded(f.humidity > crop.maxHumidity, HumidityAction)
    + Guarded(f.rainfallProbability < 30.0, IrrigationAction)
  }

  /** Each action is advised exactly when its condition holds, and no
      action is advised twice. */
  lemma CropActionsMeaning(f: Forecast, crop: Crop)
    ensures var r := CropActions(f, crop);
            && (ColdAction in r <==> f.minTemperature <= crop.minTemp)
            && (HeatAction in r <==> f.maxTemperature >= crop.maxTemp)
            && (HumidityAction in r <==> f.humidity > crop.maxHumidity)
            && (IrrigationAction in r <==> f.rainfallProbability < 30.0)
            && (forall j, k :: 0 <= j < k < |r| ==> r[j] != r[k])
  {
    assert ColdAction[0] == 'P' && HeatAction[0] == 'I' && HumidityAction[0] == 'M';
    assert IrrigationAction[0] == 'P' && ColdAction[1] == 'r' && IrrigationAction[1] == 'l';
  }

  /** The actions, built as the advice builds them: one guarded append per
      condition, in order. */
  method CropRecommendedActions(f: Forecast, crop: Crop) returns (actions: seq<string>)
    ensures actions == CropActions(f, crop)
  {
    actions := [];
    if f.minTemperature <= crop.minTemp {
      actions := actions + [ColdAction];
    }
    if f.maxTemperature >= crop.maxTemp {
      actions := actions + [HeatAction];
    }
    if f.humidity > crop.maxHumidity {
      actions := actions + [HumidityAction];
    }
    if f.rainfallProbability < 30.0 {
      actions := actions + [IrrigationAction];
    }
  }

  datatype CropInsight = CropInsight(cropName: string, temperatureSuitable: bool, humiditySuitable: bool,
                                     waterRequirement: string, recommendedActions: seq<string>)

  /** The crop section of one forecast: whether the day's high and the
      humidity sit within the crop's ranges, the water requirement by rain
      probability, and the advised actions. */
  function CropInsightOf(f: Forecast, crop: Crop): (c: CropInsight)
    ensures c.cropName == crop.name
    ensures c.temperatureSuitable <==> crop.minTemp <= f.maxTemperature <= crop.maxTemp
    ensures c.humiditySuitable <==> crop.minHumidity <= f.humidity <= crop.maxHumidity
    ensures c.waterRequirement == "high" <==> f.rainfallProbability < 30.0
    ensures c.waterRequirement == "low" <==> f.rainfallProbability > 70.0
    ensures c.waterRequirement == "moderate" <==> 30.0 <= f.rainfallProbability <= 70.0
    ensures c.recommendedActions == CropActions(f, crop)
  {
    CropInsight(
      crop.name,
      crop.minTemp <= f.maxTemperature <= crop.maxTemp,
      crop.minHumidity <= f.humidity <= crop.maxHumidity,
      if f.rainfallProbability < 30.0 then "high"
      else if f.rainfallProbability > 70.0 then "low"
      else "moderate",
      CropActions(f, crop))
  }

  /** The parts of the crop section agree with one another: irrigation is
      planned exactly when the water requirement is high, the humidity
      action comes only with unsuitable humidity, and a forecast with a
      proper range that calls for neither cold nor heat protection is
      suitable in temperature. */
  lemma CropInsightConsistent(f: Forecast, crop: Crop)
    ensures var c := CropInsightOf(f, crop);
            && (IrrigationAction in c.recommendedActions <==> c.waterRequirement == "high")
            && (HumidityAction in c.recommendedActions ==> !c.humiditySuitable)
            && ((f.minTemperature <= f.maxTemperature && ColdAction !in c.recommendedActions
                 && HeatAction !in c.recommendedActions) ==> c.temperatureSuitable)
  {
    CropActionsMeaning(f, crop);
  }

  /** The crop with the given id, if one is stored. */
  function FindCrop(crops: seq<Crop>, id: int): (r: Option<Crop>)
    ensures r.Some? ==> r.value in crops && r.value.id == id
    ensures r.None? <==> forall c :: c in crops ==> c.id != id
  {
    if |crops| == 0 then None
    else if crops[0].id == id then Some(crops[0])
    else FindCrop(crops[1..], id)
  }

  datatype AnnotatedForecast = AnnotatedForecast(forecast: Forecast, risks: ForecastRisks,
                                                 cropSpecific: Option<CropInsight>)

  /** One forecast of the overview: its risks, and a crop section when a
      crop id was asked for and that crop exists. */
  function Annotated(f: Forecast, crops: seq<Crop>, cropId: Option<int>): (a: AnnotatedForecast)
    ensures a.forecast == f && a.risks == RisksOf(f)
    ensures a.cropSpecific.Some? <==> cropId.Some? && exists c :: c in crops && c.id == cropId.value
    ensures a.cropSpecific.Some? ==>
              exists c :: c in crops && c.id == cropId.value && a.cropSpecific.value == CropInsightOf(f, c)
  {
    var section :=
      if cropId.None? then None
      else match FindCrop(crops, cropId.value)
           case None => None
           case Some(crop) => Some(CropInsightOf(f, crop));
    AnnotatedForecast(f, RisksOf(f), section)
  }

  /** One forecast of the overview, built as the overview builds it: the
      risks, then the crop section with its actions appended one by one. */
  method AnnotateForecast(f: Forecast, crops: seq<Crop>, cropId: Option<int>) returns (a: AnnotatedForecast)
    ensures a == Annotated(f, crops, cropId)
  {
    var section: Option<CropInsight> := None;
    if cropId.Some? {
      var found := FindCrop(crops, cropId.value);
      if found.Some? {
        var crop := found.value;
        var actions := CropRecommendedActions(f, crop);
        section := Some(CropInsight(
          crop.name,
          crop.minTemp <= f.maxTemperature <= crop.maxTemp,
          crop.minHumidity <= f.humidity <= crop.maxHumidity,
          if f.rainfallProbability < 30.0 then "high"
          else if f.rainfallProbability > 70.0 then "low"
          else "moderate",
          actions));
      }
    }
    a := AnnotatedForecast(f, RisksOf(f), section);
  }

  /** The overview's forecast list, one annotation per forecast, in order. */
  method AnnotateForecasts(forecasts: seq<Forecast>, crops: seq<Crop>, cropId: Option<int>)
    returns (out: seq<AnnotatedForecast>)
    ensures |out| == |forecasts|
    ensures forall i :: 0 <= i < |forecasts| ==> out[i] == Annotated(forecasts[i], crops, cropId)
  {
    out := [];
    for i := 0 to |forecasts|
      invariant |out| == i
      invariant forall k :: 0 <= k < i ==> out[k] == Annotated(forecasts[k], crops, cropId)
    {
      var a := AnnotateForecast(forecasts[i], crops, cropId);
      out := out + [a];
    }
  }

  // ---------------------------------------------------------------------
  // Current conditions
  // ---------------------------------------------------------------------

  datatype CurrentConditions = CurrentConditions(
    frostRisk: bool, heatStressRisk: bool, diseaseRisk: bool, idealConditions: bool,
    moistureStatus: string, temperatureStatus: string, irrigationNeeded: bool)

  /** Comparing a missing soil value with a number raises; the overview
      does not catch it. */
  datatype SummaryError = MissingSoilValue(field: string)

  /** The summary of the latest reading. The soil bands compare the soil
      values directly, so a reading without soil moisture or soil
      temperature makes the overview fail, moisture being looked at first. */
  function CurrentConditionsOf(o: Observation): (r: Result<CurrentConditions, SummaryError>)
    ensures r.Err? <==> o.soilMoisture.None? || o.soilTemperature.None?
    ensures o.soilMoisture.None? ==> r == Err(MissingSoilValue("soil_moisture"))
    ensures o.soilMoisture.Some? && o.soilTemperature.None? ==> r == Err(MissingSoilValue("soil_temperature"))
    ensures r.Ok? ==> var c := r.value;
              && (c.frostRisk <==> o.temperature <= LowTemperature)
              && (c.heatStressRisk <==> o.temperature >= HighTemperature)
              && (c.diseaseRisk <==> o.humidity >= HighHumidity && o.temperature >= 20.0)
              && (c.idealConditions <==> 15.0 <= o.temperature <= 30.0 && 40.0 <= o.humidity <= 70.0)
              && c.moistureStatus == SoilMoistureStatus(o.soilMoisture)
              && c.temperatureStatus == SoilTemperatureStatus(o.soilTemperature)
              && (c.irrigationNeeded <==> o.soilMoisture.value != 0.0 && o.soilMoisture.value < LowSoilMoisture)
  {
    if o.soilMoisture.None? then Err(MissingSoilValue("soil_moisture"))
    else if o.soilTemperature.None? then Err(MissingSoilValue("soil_temperature"))
    else
      var m, st := o.soilMoisture.value, o.soilTemperature.value;
      Ok(CurrentConditions(
        o.temperature <= 2.0,
        o.temperature >= 35.0,
        o.humidity >= 80.0 && o.temperature >= 20.0,
        15.0 <= o.temperature <= 30.0 && 40.0 <= o.humidity <= 70.0,
        if m < 30.0 then "dry" else if m > 70.0 then "saturated" else "optimal",
        if st < 10.0 then "cold" else if st > 35.0 then "hot" else "optimal",
        m != 0.0 && m < 30.0))
  }

  /** The summary's risk flags are the reading's own metrics; ideal
      conditions carry no risk; irrigation is only asked for on dry soil. */
  lemma CurrentConditionsAgree(o: Observation)
    requires CurrentConditionsOf(o).Ok?
    ensures var c := CurrentConditionsOf(o).value;
            && c.frostRisk == ObservationMetrics(o).frostRisk
            && c.heatStressRisk == ObservationMetrics(o).heatStressRisk
            && c.diseaseRisk == ObservationMetrics(o).diseaseRisk
            && (c.idealConditions ==> !c.frostRisk && !c.heatStressRisk && !c.diseaseRisk)
            && (c.irrigationNeeded ==> c.moistureStatus == "dry")
  {
  }

  // ---------------------------------------------------------------------
  // Alert summary
  // ---------------------------------------------------------------------

  predicate HighSeverity(a: Alert) {
    a.severity == "HIGH" || a.severity == "EXTREME"
  }

  datatype AlertSummary = AlertSummary(totalActive: nat, highSeverity: nat)

  /** The overview's active alerts: this location's, still active and not
      yet ended; the crop filter is not applied here. */
  function OverviewAlerts(alerts: seq<Alert>, locationId: int, now: int): seq<Alert> {
    Repository.ActiveMatches(alerts, locationId, now, None)
  }

  /** How many alerts are active, and how many of those are high or
      extreme. */
  function AlertSummaryOf(alerts: seq<Alert>, locationId: int, now: int): (s: AlertSummary)
    ensures s.totalActive == |OverviewAlerts(alerts, locationId, now)|
    ensures s.highSeverity == |Filter(OverviewAlerts(alerts, locationId, now), HighSeverity)|
    ensures s.highSeverity <= s.totalActive
  {
    var active := OverviewAlerts(alerts, locationId, now);
    AlertSummary(|active|, |Filter(active, HighSeverity)|)
  }

  /** High severity is the top two levels of the severity scale. */
  lemma HighSeverityIsTopLevels(a: Alert)
    ensures HighSeverity(a) <==> SeverityLevel(a.severity) >= 3
  {
  }

  /** Every alert the summary counts as high is a current alert of the
      location with a level of at least three. */
  lemma HighSeverityCounted(alerts: seq<Alert>, locationId: int, now: int, a: Alert)
    ensures a in Filter(OverviewAlerts(alerts, locationId, now), HighSeverity) <==>
              a in alerts && a.locationId == locationId && a.isActive && a.endTime > now
              && SeverityLevel(a.severity) >= 3
  {
  }

  // ---------------------------------------------------------------------
  // Week outlook
  // ---------------------------------------------------------------------

  /** A favourable day averages between 15 and 30 degrees. */
  predicate Favorable(f: Forecast) {
    15.0 <= AverageTemperature(f) <= 30.0
  }

  predicate FrostFlagged(f: Forecast) {
    f.frostRisk
  }

  predicate HeatFlagged(f: Forecast) {
    f.heatStressRisk
  }

  function ExpectedRainfalls(forecasts: seq<Forecast>): (r: seq<real>)
    ensures |r| == |forecasts|
    ensures forall i :: 0 <= i < |r| ==> r[i] == forecasts[i].expectedRainfall
  {
    seq(|forecasts|, i requires 0 <= i < |forecasts| => forecasts[i].expectedRainfall)
  }

  datatype Outlook = Outlook(totalExpectedRainfall: real, frostRiskDays: nat, heatStressDays: nat, favorableDays: nat)

  /** The rain expected over the forecasts and how many of them carry a
      stored frost or heat flag or are favourable. */
  function OutlookOf(forecasts: seq<Forecast>): (o: Outlook)
    ensures o.totalExpectedRainfall == Sum(ExpectedRainfalls(forecasts))
    ensures o.frostRiskDays == Count(forecasts, FrostFlagged) <= |forecasts|
    ensures o.heatStressDays == Count(forecasts, HeatFlagged) <= |forecasts|
    ensures o.favorableDays == Count(forecasts, Favorable) <= |forecasts|
  {
    Outlook(Sum(ExpectedRainfalls(forecasts)),
            Count(forecasts, FrostFlagged),
            Count(forecasts, HeatFlagged),
            Count(forecasts, Favorable))
  }

  lemma RainfallsAppend(a: seq<Forecast>, b: seq<Forecast>)
    ensures Sum(ExpectedRainfalls(a + b)) == Sum(ExpectedRainfalls(a)) + Sum(ExpectedRainfalls(b))
  {
    assert ExpectedRainfalls(a + b) == ExpectedRainfalls(a) + ExpectedRainfalls(b);
    SumAppend(ExpectedRainfalls(a), ExpectedRainfalls(b));
  }

  /** The outlook of two runs of forecasts is the sum of their outlooks:
      no forecast is counted twice or lost. */
  lemma OutlookAppend(a: seq<Forecast>, b: seq<Forecast>)
    ensures var o, oa, ob := OutlookOf(a + b), OutlookOf(a), OutlookOf(b);
            && o.totalExpectedRainfall == oa.totalExpectedRainfall + ob.totalExpectedRainfall
            && o.frostRiskDays == oa.frostRiskDays + ob.frostRiskDays
            && o.heatStressDays == oa.heatStressDays + ob.heatStressDays
            && o.favorableDays == oa.favorableDays + ob.favorableDays
  {
    RainfallsAppend(a, b);
    CountAppend(a, b, FrostFlagged);
    CountAppend(a, b, HeatFlagged);
    CountAppend(a, b, Favorable);
  }

  /** A week whose forecasts all lie between 15 and 30 degrees is favourable
      on every day. */
  lemma {:induction false} MildWeekIsFavorable(forecasts: seq<Forecast>)
    requires forall i :: 0 <= i < |forecasts| ==>
               15.0 <= forecasts[i].minTemperature <= forecasts[i].maxTemperature <= 30.0
    ensures OutlookOf(forecasts).favorableDays == |forecasts|
  {
    if |forecasts| > 0 {
      assert forecasts == [forecasts[0]] + forecasts[1..];
      CountAppend([forecasts[0]], forecasts[1..], Favorable);
      MildWeekIsFavorable(forecasts[1..]);
      assert Favorable(forecasts[0]);
    }
  }

  // ---------------------------------------------------------------------
  // Monthly outlook
  // ---------------------------------------------------------------------

  /** The monthly outlook reports this many weeks. */
  const OutlookWeeks: nat := 4

  /** Week `i` of the outlook starts `7 * i` days after today. */
  function WeekStart(today: int, i: int): int {
    today + 7 * i
  }

  predicate InWeek(f: Forecast, start: int) {
    start <= f.date < start + 7
  }

  /** The week starting at `start`, as a filter condition. */
  function InWeekOf(start: int): Forecast -> bool {
    (f: Forecast) => InWeek(f, start)
  }

  function WeekForecasts(forecasts: seq<Forecast>, start: int): seq<Forecast> {
    Filter(forecasts, InWeekOf(start))
  }

  /** The daily average temperature of each forecast, in order. */
  function AverageTemperatures(forecasts: seq<Forecast>): (r: seq<real>)
    ensures |r| == |forecasts|
    ensures forall i :: 0 <= i < |forecasts| ==> r[i] == AverageTemperature(forecasts[i])
  {
    seq(|forecasts|, i requires 0 <= i < |forecasts| => AverageTemperature(forecasts[i]))
  }

  datatype WeekStats = WeekStats(weekStart: int, avgTemperature: real, outlook: Outlook)

  /** The statistics of one non-empty week. */
  function WeekStatsOf(start: int, week: seq<Forecast>): (w: WeekStats)
    requires |week| > 0
    ensures w.weekStart == start && w.outlook == OutlookOf(week)
    ensures w.avgTemperature == Mean(AverageTemperatures(week))
  {
    WeekStats(start, Mean(AverageTemperatures(week)), OutlookOf(week))
  }

  /** A week's average temperature lies between its coolest and its
      warmest daily average. */
  lemma WeekAverageBetween(start: int, week: seq<Forecast>)
    requires |week| > 0
    ensures Min(AverageTemperatures(week)) <= WeekStatsOf(start, week).avgTemperature
                                          <= Max(AverageTemperatures(week))
  {
    MeanBetweenExtremes(AverageTemperatures(week));
  }

  /** The bucket of the week starting at `start`: its statistics, or
      nothing when no forecast falls in it. */
  function WeekBucket(forecasts: seq<Forecast>, start: int): seq<WeekStats> {
    var week := WeekForecasts(forecasts, start);
    if |week| > 0 then [WeekStatsOf(start, week)] else []
  }

  /** The buckets of the first `n` weeks, empty weeks skipped. */
  function Weeks(forecasts: seq<Forecast>, today: int, n: nat): seq<WeekStats> {
    if n == 0 then [] else Weeks(forecasts, today, n - 1) + WeekBucket(forecasts, WeekStart(today, n - 1))
  }

  /** The four weekly buckets of the monthly outlook. */
  method MonthlyBuckets(forecasts: seq<Forecast>, today: int) returns (weeks: seq<WeekStats>)
    ensures weeks == Weeks(forecasts, today, OutlookWeeks)
  {
    weeks := [];
    for i := 0 to OutlookWeeks
      invariant weeks == Weeks(forecasts, today, i)
    {
      var start := today + 7 * i;
      var week := WeekForecasts(forecasts, start);
      if |week| > 0 {
        weeks := weeks + [WeekStatsOf(start, week)];
      }
      assert weeks == Weeks(forecasts, today, i) + WeekBucket(forecasts, start);
    }
  }

  /** A week yields one bucket, holding its statistics, exactly when some
      forecast falls in it. */
  lemma BucketShape(forecasts: seq<Forecast>, start: int)
    ensures var week := WeekForecasts(forecasts, start);
            && |WeekBucket(forecasts, start)| == (if |week| > 0 then 1 else 0)
            && (|week| > 0 ==> WeekBucket(forecasts, start)[0] == WeekStatsOf(start, week))
  {
  }

  /** Each bucket is the statistics of a non-empty week among the first
      `n`, and the buckets are in ascending order of their start, so there
      are at most `n` of them. */
  lemma {:induction false} WeeksSound(forecasts: seq<Forecast>, today: int, n: nat)
    ensures var ws := Weeks(forecasts, today, n);
            && |ws| <= n
            && (forall j, k :: 0 <= j < k < |ws| ==> ws[j].weekStart < ws[k].weekStart)
            && (forall j :: 0 <= j < |ws| ==>
                  exists i :: 0 <= i < n && ws[j].weekStart == WeekStart(today, i)
                              && |WeekForecasts(forecasts, WeekStart(today, i))| > 0
                              && ws[j] == WeekStatsOf(WeekStart(today, i), WeekForecasts(forecasts, WeekStart(today, i))))
  {
    if n > 0 {
      WeeksSound(forecasts, today, n - 1);
      var prev, ws := Weeks(forecasts, today, n - 1), Weeks(forecasts, today, n);
      var start := WeekStart(today, n - 1);
      var week := WeekForecasts(forecasts, start);
      BucketShape(forecasts, start);
      assert ws == prev + WeekBucket(forecasts, start);
      if |week| > 0 {
        forall j | 0 <= j < |prev|
          ensures ws[j].weekStart < start
        {
          var i :| 0 <= i < n - 1 && prev[j].weekStart == WeekStart(today, i);
        }
        assert ws[|prev|] == WeekStatsOf(start, week);
      } else {
        assert ws == prev;
      }
    }
  }

  /** Every non-empty week among the first `n` has its bucket. */
  lemma {:induction false} WeeksComplete(forecasts: seq<Forecast>, today: int, n: nat, i: nat)
    requires i < n && |WeekForecasts(forecasts, WeekStart(today, i))| > 0
    ensures WeekStatsOf(WeekStart(today, i), WeekForecasts(forecasts, WeekStart(today, i)))
            in Weeks(forecasts, today, n)
  {
    BucketShape(forecasts, WeekStart(today, n - 1));
    if i < n - 1 {
      WeeksComplete(forecasts, today, n - 1, i);
    }
  }

  /** A forecast outside a week leaves that week's bucket unchanged. */
  lemma BucketIgnoresOutsider(forecasts: seq<Forecast>, f: Forecast, start: int)
    requires !InWeek(f, start)
    ensures WeekBucket(forecasts + [f], start) == WeekBucket(forecasts, start)
  {
    FilterAppend(forecasts, [f], InWeekOf(start));
    assert [f][1..] == [] && !InWeekOf(start)(f);
    assert WeekForecasts([f], start) == [];
    assert WeekForecasts(forecasts + [f], start) == WeekForecasts(forecasts, start) + [];
    assert WeekForecasts(forecasts + [f], start) == WeekForecasts(forecasts, start);
  }

  /** A forecast on day 28 or later changes none of the four buckets: the
      last two days of the fetched month are never counted. */
  lemma {:induction false} LateForecastIgnored(forecasts: seq<Forecast>, today: int, f: Forecast, n: nat)
    requires n <= OutlookWeeks && f.date >= WeekStart(today, OutlookWeeks)
    ensures Weeks(forecasts + [f], today, n) == Weeks(forecasts, today, n)
  {
    if n > 0 {
      LateForecastIgnored(forecasts, today, f, n - 1);
      BucketIgnoresOutsider(forecasts, f, WeekStart(today, n - 1));
    }
  }

  // ---------------------------------------------------------------------
  // Resolve action
  // ---------------------------------------------------------------------

  datatype ResolveResponse = ResolveResponse(status: string, resolutionTime: int, totalDurationHours: real)

  /** A request field, the empty text when absent. */
  function FieldOrEmpty(request: map<string, string>, key: string): string {
    if key in request then request[key] else ""
  }

  /** How many hours an alert ran, from its start to `end`. */
  function DurationHours(startTime: int, end: int): real {
    (end - startTime) as real / 3600.0
  }

  /** Resolves the alert at `now` with the request's notes and impact
      (empty when not given) and reports how long it ran, in hours. */
  method ResolveAlert(alert: WeatherAlert, request: map<string, string>, now: int) returns (response: ResolveResponse)
    modifies alert
    ensures alert.Record() == Resolved(old(alert.Record()), now, FieldOrEmpty(request, "resolution_notes"),
                                       FieldOrEmpty(request, "actual_impact"))
    ensures response == ResolveResponse("alert resolved", now, DurationHours(alert.startTime, now))
    ensures response.totalDurationHours * 3600.0 == AlertDuration(alert.Record()).value as real
  {
    var notes := FieldOrEmpty(request, "resolution_notes");
    var impact := FieldOrEmpty(request, "actual_impact");
    alert.isActive := false;
    alert.resolutionNotes := notes;
    alert.actualImpact := impact;
    alert.resolvedAt := Some(now);
    response := ResolveResponse("alert resolved", now, (now - alert.startTime) as real / 3600.0);
  }

  /** The reported hours are the resolved alert's duration in seconds over
      3600, and they are never negative for a valid alert resolved after it
      started. */
  lemma ResolvedHoursMatchDuration(a: Alert, now: int, notes: string, impact: string)
    ensures AlertDuration(Resolved(a, now, notes, impact)) == Some(now - a.startTime)
    ensures DurationHours(a.startTime, now) * 3600.0 == (now - a.startTime) as real
    ensures now >= a.startTime ==> DurationHours(a.startTime, now) >= 0.0
  {
  }
}
