/*
  The weather analysis service: crop suitability and its risk factors, the
  reading of current conditions, the trend of a series, the temperature and
  rainfall summaries of a location's history, the advisory alerts and the
  agricultural metrics that combine them.
*/
module Analysis {
  import opened Wrappers
  import opened Config
  import opened Sequences
  import opened Series
  import opened Agronomy
  import opened Entities

  // ---------------------------------------------------------------------
  // Crop suitability
  // ---------------------------------------------------------------------

  const ColdStress: string := "Cold stress risk"
  const HeatStress: string := "Heat stress risk"
  const HumidityDisease: string := "Disease risk due to high humidity"
  const DroughtStress: string := "Drought stress risk"
  const RiskOrder: seq<string> := [ColdStress, HeatStress, HumidityDisease, DroughtStress]

  /** A present, non-zero soil moisture reading; an absent or zero reading
      is not acted on. */
  predicate MoistureReported(o: Observation) {
    o.soilMoisture.Some? && o.soilMoisture.value != 0.0
  }

  /** The risks a reading poses to a crop, always listed in the order cold,
      heat, disease, drought. */
  function RiskFactors(o: Observation, crop: Crop): (r: seq<string>)
    ensures IsSubsequence(r, RiskOrder) && |r| <= 4
    ensures ColdStress in r <==> o.temperature <= crop.minTemp
    ensures HeatStress in r <==> o.temperature >= crop.maxTemp
    ensures HumidityDisease in r <==> o.humidity >= HighHumidity
    ensures DroughtStress in r <==> MoistureReported(o) && o.soilMoisture.value < crop.minSoilMoisture
  {
    var flags := [o.temperature <= crop.minTemp,
                  o.temperature >= crop.maxTemp,
                  o.humidity >= HighHumidity,
                  MoistureReported(o) && o.soilMoisture.value < crop.minSoilMoisture];
    var r := Select(flags, RiskOrder);
    SubsequenceBounds(r, RiskOrder);
    SelectDistinct(flags, RiskOrder, 0);
    SelectDistinct(flags, RiskOrder, 1);
    SelectDistinct(flags, RiskOrder, 2);
    SelectDistinct(flags, RiskOrder, 3);
    r
  }

  datatype Suitability = Suitability(temperatureSuitable: bool, humiditySuitable: bool,
                                     soilMoistureSuitable: bool, riskFactors: seq<string>)

  /** Whether a reading suits a crop: each range is inclusive, and a missing
      or zero soil moisture never counts as suitable. */
  function AssessCropSuitability(o: Observation, crop: Crop): (s: Suitability)
    ensures s.temperatureSuitable <==> crop.minTemp <= o.temperature <= crop.maxTemp
    ensures s.humiditySuitable <==> crop.minHumidity <= o.humidity <= crop.maxHumidity
    ensures s.soilMoistureSuitable <==>
              MoistureReported(o) && crop.minSoilMoisture <= o.soilMoisture.value <= crop.maxSoilMoisture
    ensures s.riskFactors == RiskFactors(o, crop)
  {
    Suitability(crop.minTemp <= o.temperature <= crop.maxTemp,
                crop.minHumidity <= o.humidity <= crop.maxHumidity,
                MoistureReported(o) && crop.minSoilMoisture <= o.soilMoisture.value <= crop.maxSoilMoisture,
                RiskFactors(o, crop))
  }

  /** The inclusive ranges overlap the stress risks at their ends: a reading
      exactly at the crop's minimum is both suitable and a cold risk, one
      strictly inside the range is neither a cold nor a heat risk. */
  lemma SuitabilityAndStressOverlapAtBounds(o: Observation, crop: Crop)
    requires crop.minTemp < crop.maxTemp
    ensures o.temperature == crop.minTemp ==>
              AssessCropSuitability(o, crop).temperatureSuitable && ColdStress in RiskFactors(o, crop)
    ensures crop.minTemp < o.temperature < crop.maxTemp ==>
              ColdStress !in RiskFactors(o, crop) && HeatStress !in RiskFactors(o, crop)
    ensures !(ColdStress in RiskFactors(o, crop) && HeatStress in RiskFactors(o, crop))
  {
  }

  // ---------------------------------------------------------------------
  // Current conditions
  // ---------------------------------------------------------------------

  datatype CurrentConditions = CurrentConditions(frostRisk: bool, heatStressRisk: bool, diseaseRisk: bool,
                                                 moistureStatus: string, temperatureStatus: string)

  function AnalyzeCurrentConditions(o: Observation): (c: CurrentConditions)
    ensures c.frostRisk <==> o.temperature <= LowTemperature
    ensures c.heatStressRisk <==> o.temperature >= HighTemperature
    ensures c.diseaseRisk <==> o.humidity >= HighHumidity && o.temperature >= 20.0
    ensures c.moistureStatus == SoilMoistureStatus(o.soilMoisture)
    ensures c.temperatureStatus == SoilTemperatureStatus(o.soilTemperature)
  {
    var risks := RisksOf(o.temperature, o.humidity);
    CurrentConditions(risks.frost, risks.heatStress, risks.disease,
                      SoilMoistureStatus(o.soilMoisture), SoilTemperatureStatus(o.soilTemperature))
  }

  /** The service and the reading's own metrics raise the same three flags. */
  lemma CurrentConditionsAgreeWithMetrics(o: Observation)
    ensures AnalyzeCurrentConditions(o).frostRisk == ObservationMetrics(o).frostRisk
    ensures AnalyzeCurrentConditions(o).heatStressRisk == ObservationMetrics(o).heatStressRisk
    ensures AnalyzeCurrentConditions(o).diseaseRisk == ObservationMetrics(o).diseaseRisk
  {
  }

  // ---------------------------------------------------------------------
  // Trend of a series
  // ---------------------------------------------------------------------

  /** Mean of the second half minus mean of the first half; with an odd
      length the middle value belongs to the second half. */
  function HalfDifference(values: seq<real>): real
    requires |values| >= 2
  {
    var h := |values| / 2;
    Mean(values[h..]) - Mean(values[..h])
  }

  /** A difference of the half means below 0.1 in size is no trend. */
  function CalculateTrend(values: seq<real>): (t: string)
    ensures t == "stable" || t == "increasing" || t == "decreasing"
    ensures |values| < 2 ==> t == "stable"
    ensures |values| >= 2 ==> (t == "stable" <==> -0.1 < HalfDifference(values) < 0.1)
    ensures |values| >= 2 ==> (t == "increasing" <==> HalfDifference(values) >= 0.1)
    ensures |values| >= 2 ==> (t == "decreasing" <==> HalfDifference(values) <= -0.1)
  {
    if |values| < 2 then "stable"
    else
      var diff := HalfDifference(values);
      if -0.1 < diff < 0.1 then "stable"
      else if diff > 0.0 then "increasing"
      else "decreasing"
  }

  /** A constant series has no trend. */
  lemma ConstantSeriesIsStable(values: seq<real>, c: real)
    requires forall i :: 0 <= i < |values| ==> values[i] == c
    ensures CalculateTrend(values) == "stable"
  {
    if |values| >= 2 {
      var h := |values| / 2;
      SumConstant(values[h..], c);
      SumConstant(values[..h], c);
      assert Mean(values[h..]) == c;
      assert Mean(values[..h]) == c;
    }
  }

  /** When every value of the second half exceeds every value of the first
      half by at least 0.1, the series is increasing. */
  lemma RisingHalvesIncrease(values: seq<real>)
    requires |values| >= 2
    requires forall i, j :: 0 <= i < |values| / 2 <= j < |values| ==> values[j] - values[i] >= 0.1
    ensures CalculateTrend(values) == "increasing"
  {
    var h := |values| / 2;
    var first, second := values[..h], values[h..];
    MeanBetweenExtremes(first);
    MeanBetweenExtremes(second);
    var i :| 0 <= i < |first| && first[i] == Max(first);
    var j :| 0 <= j < |second| && second[j] == Min(second);
    assert values[h + j] - values[i] >= 0.1;
  }

  /** The daily mean temperatures of a cooling week, oldest first, trend
      downwards. */
  lemma CoolingWeekIsDecreasing()
    ensures CalculateTrend([31.0, 30.0, 29.0, 28.0, 27.0, 26.0, 25.25]) == "decreasing"
  {
    var s := [31.0, 30.0, 29.0, 28.0, 27.0, 26.0, 25.25];
    assert s[..3] == [31.0, 30.0, 29.0];
    assert s[3..] == [28.0, 27.0, 26.0, 25.25];
    assert Sum([31.0, 30.0, 29.0]) == 90.0;
    assert Sum([28.0, 27.0, 26.0, 25.25]) == 106.25;
  }

  // ---------------------------------------------------------------------
  // Summaries of a history
  // ---------------------------------------------------------------------

  datatype TemperatureSummary = TemperatureSummary(average: real, trend: string, high: real, low: real)

  /** Summary of the reported daily mean temperatures; absent entries are
      skipped, and nothing reported gives no summary. */
  function TemperatureTrends(temps: seq<Option<real>>): (r: Option<TemperatureSummary>)
    ensures r.None? <==> forall i :: 0 <= i < |temps| ==> temps[i].None?
    ensures r.Some? ==> && r.value.average == Mean(Present(temps))
                        && r.value.high == Max(Present(temps)) && r.value.low == Min(Present(temps))
    ensures r.Some? ==> r.value.low <= r.value.average <= r.value.high
    ensures r.Some? ==> Some(r.value.high) in temps && Some(r.value.low) in temps
    ensures r.Some? ==> forall i :: 0 <= i < |temps| && temps[i].Some? ==>
                          r.value.low <= temps[i].value <= r.value.high
    ensures r.Some? ==> r.value.trend == CalculateTrend(Present(temps))
  {
    var present := Present(temps);
    if |present| == 0 then None
    else
      MeanBetweenExtremes(present);
      var hi := Max(present);
      var lo := Min(present);
      assert forall x :: x in present ==> lo <= x <= hi;
      Some(TemperatureSummary(Mean(present), CalculateTrend(present), hi, lo))
  }

  datatype RainfallSummary = RainfallSummary(total: real, average: real, daysWithRain: nat, trend: string)

  /** Summary of the reported daily rainfall totals. */
  function RainfallPatterns(totals: seq<Option<real>>): (r: Option<RainfallSummary>)
    ensures r.None? <==> forall i :: 0 <= i < |totals| ==> totals[i].None?
    ensures r.Some? ==> r.value.total == Sum(Present(totals))
    ensures r.Some? ==> r.value.average == r.value.total / (|Present(totals)| as real)
    ensures r.Some? ==> r.value.daysWithRain == Count(Present(totals), Positive)
    ensures r.Some? ==> r.value.daysWithRain <= |Present(totals)| <= |totals|
    ensures r.Some? ==> (r.value.daysWithRain == 0 <==>
                           forall i :: 0 <= i < |Present(totals)| ==> Present(totals)[i] <= 0.0)
    ensures r.Some? ==> r.value.trend == CalculateTrend(Present(totals))
  {
    var present := Present(totals);
    if |present| == 0 then None
    else
      Some(RainfallSummary(Sum(present), Mean(present), CountPositive(present), CalculateTrend(present)))
  }

  /** Without any rain the days with rain are zero and the total is zero. */
  lemma DryHistory(totals: seq<Option<real>>)
    requires exists i :: 0 <= i < |totals| && totals[i].Some?
    requires forall i :: 0 <= i < |totals| && totals[i].Some? ==> totals[i].value == 0.0
    ensures RainfallPatterns(totals).Some?
    ensures RainfallPatterns(totals).value.daysWithRain == 0
    ensures RainfallPatterns(totals).value.total == 0.0
  {
    var present := Present(totals);
    forall i | 0 <= i < |present| ensures present[i] == 0.0 {
      assert Some(present[i]) in totals;
    }
    SumConstant(present, 0.0);
  }

  function AvgTemps(history: seq<DailySummary>): (r: seq<Option<real>>)
    ensures |r| == |history|
    ensures forall i :: 0 <= i < |history| ==> r[i] == Some(history[i].avgTemp)
  {
    seq(|history|, i requires 0 <= i < |history| => Some(history[i].avgTemp))
  }

  function RainfallTotals(history: seq<DailySummary>): (r: seq<Option<real>>)
    ensures |r| == |history|
    ensures forall i :: 0 <= i < |history| ==> r[i] == Some(history[i].totalRainfall)
  {
    seq(|history|, i requires 0 <= i < |history| => Some(history[i].totalRainfall))
  }

  datatype HistoricalAnalysis = HistoricalAnalysis(temperatureTrends: Option<TemperatureSummary>,
                                                   rainfallPatterns: Option<RainfallSummary>)

  /** An empty history gives no analysis; a non-empty one always has both
      summaries, since every day carries a mean temperature and a rainfall
      total. */
  function AnalyzeHistoricalData(history: seq<DailySummary>): (r: Option<HistoricalAnalysis>)
    ensures r.None? <==> |history| == 0
    ensures r.Some? ==> r.value.temperatureTrends.Some? && r.value.rainfallPatterns.Some?
    ensures r.Some? ==> r.value.temperatureTrends == TemperatureTrends(AvgTemps(history))
    ensures r.Some? ==> r.value.rainfallPatterns == RainfallPatterns(RainfallTotals(history))
  {
    if |history| == 0 then None
    else
      var temps, totals := AvgTemps(history), RainfallTotals(history);
      assert temps[0].Some? && totals[0].Some?;
      Some(HistoricalAnalysis(TemperatureTrends(temps), RainfallPatterns(totals)))
  }

  // ---------------------------------------------------------------------
  // Advisory alerts and the combined metrics
  // ---------------------------------------------------------------------

  datatype AdvisoryAlert = AdvisoryAlert(kind: string, severity: string, message: string)

  const FrostAdvisory: AdvisoryAlert := AdvisoryAlert("frost_risk", "high", "Risk of frost damage to crops")
  const HeatAdvisory: AdvisoryAlert := AdvisoryAlert("heat_stress", "high", "Risk of heat stress to crops")
  const DrySoilAdvisory: AdvisoryAlert :=
    AdvisoryAlert("low_soil_moisture", "medium", "Soil moisture below optimal level")
  const AdvisoryOrder: seq<AdvisoryAlert> := [FrostAdvisory, HeatAdvisory, DrySoilAdvisory]

  /** The alerts a current reading raises, in the order frost, heat, dry
      soil. Frost and heat exclude each other, so there are at most two. */
  function AgriculturalAlerts(o: Observation): (r: seq<AdvisoryAlert>)
    ensures IsSubsequence(r, AdvisoryOrder)
    ensures FrostAdvisory in r <==> o.temperature <= LowTemperature
    ensures HeatAdvisory in r <==> o.temperature >= HighTemperature
    ensures DrySoilAdvisory in r <==> MoistureReported(o) && o.soilMoisture.value < LowSoilMoisture
    ensures !(FrostAdvisory in r && HeatAdvisory in r)
    ensures |r| <= 2
  {
    var flags := [o.temperature <= LowTemperature,
                  o.temperature >= HighTemperature,
                  MoistureReported(o) && o.soilMoisture.value < LowSoilMoisture];
    var r := Select(flags, AdvisoryOrder);
    SelectDistinct(flags, AdvisoryOrder, 0);
    SelectDistinct(flags, AdvisoryOrder, 1);
    SelectDistinct(flags, AdvisoryOrder, 2);
    AtMostTwoAdvisories(r);
    r
  }

  /** A subsequence of the advisory order that lacks frost or heat has at
      most two elements. */
  lemma AtMostTwoAdvisories(r: seq<AdvisoryAlert>)
    requires IsSubsequence(r, AdvisoryOrder)
    requires !(FrostAdvisory in r && HeatAdvisory in r)
    ensures |r| <= 2
  {
    SubsequenceBounds(r, AdvisoryOrder);
    if |r| == 3 {
      SubsequenceSameLength(r, AdvisoryOrder);
      assert false;
    }
  }

  datatype Metrics = Metrics(currentConditions: CurrentConditions,
                             historicalAnalysis: HistoricalAnalysis,
                             agriculturalAlerts: seq<AdvisoryAlert>)

  datatype MetricsError =
    | NoWeatherData     // the history of the window is empty
    | NoCurrentReading  // there is no current reading to analyse

  /** The agricultural metrics of a location from its history over the
      window and its current reading (both as the repository returns them).
      An empty history is reported before the current reading is looked at. */
  function AgriculturalMetrics(history: seq<DailySummary>, current: Option<Observation>)
    : (r: Result<Metrics, MetricsError>)
    ensures |history| == 0 ==> r == Err(NoWeatherData)
    ensures |history| > 0 && current.None? ==> r == Err(NoCurrentReading)
    ensures r.Ok? <==> |history| > 0 && current.Some?
    ensures r.Ok? ==> r.value.currentConditions == AnalyzeCurrentConditions(current.value)
                      && Some(r.value.historicalAnalysis) == AnalyzeHistoricalData(history)
                      && r.value.agriculturalAlerts == AgriculturalAlerts(current.value)
  {
    if |history| == 0 then Err(NoWeatherData)
    else match current
      case None => Err(NoCurrentReading)
      case Some(o) =>
        Ok(Metrics(AnalyzeCurrentConditions(o), AnalyzeHistoricalData(history).value, AgriculturalAlerts(o)))
  }
}
