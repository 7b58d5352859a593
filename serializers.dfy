/*
  The computed fields the serializers add to readings, forecasts and
  alerts. Each serializer builds a translator from the language in its
  context (None when the context has none).
*/
module Serializers {
  import opened Wrappers
  import opened Config
  import opened Values
  import opened Translation
  import opened Entities

  // ---------------------------------------------------------------------
  // Readings
  // ---------------------------------------------------------------------

  datatype LocalizedMetrics = LocalizedMetrics(frostRisk: bool, heatStressRisk: bool,
                                               diseaseFavorable: bool, soilCondition: Option<string>)

  /** The reading's risk flags, and its soil band in the context language
      when a non-zero soil moisture is recorded. */
  function LocalizedAgriculturalMetrics(language: Option<string>, o: Observation): (m: LocalizedMetrics)
    ensures m.frostRisk <==> o.temperature <= 2.0
    ensures m.heatStressRisk <==> o.temperature >= 35.0
    ensures m.diseaseFavorable <==> o.humidity >= 80.0 && o.temperature >= 20.0
    ensures m.soilCondition.None? <==> o.soilMoisture.None? || o.soilMoisture.value == 0.0
    ensures m.soilCondition.Some? ==>
              m.soilCondition.value == SoilCondition(NewTranslator(language), o.soilMoisture.value)
  {
    var tr := NewTranslator(language);
    LocalizedMetrics(
      o.temperature <= 2.0,
      o.temperature >= 35.0,
      o.humidity >= 80.0 && o.temperature >= 20.0,
      if o.soilMoisture.Some? && o.soilMoisture.value != 0.0 then Some(SoilCondition(tr, o.soilMoisture.value))
      else None)
  }

  /** The serializer's literal thresholds are the configured ones: its
      flags agree with the reading's own metrics. */
  lemma SerializedMetricsAgreeWithModel(language: Option<string>, o: Observation)
    ensures LocalizedAgriculturalMetrics(language, o).frostRisk == ObservationMetrics(o).frostRisk
    ensures LocalizedAgriculturalMetrics(language, o).heatStressRisk == ObservationMetrics(o).heatStressRisk
    ensures LocalizedAgriculturalMetrics(language, o).diseaseFavorable == ObservationMetrics(o).diseaseRisk
  {
  }

  // ---------------------------------------------------------------------
  // Forecasts
  // ---------------------------------------------------------------------

  datatype ForecastConditions = ForecastConditions(growingConditions: string, frost: bool, heatStress: bool,
                                                   disease: bool, irrigationRecommendation: string)

  /** Favourable growing conditions, the forecast's risk flags, and the
      irrigation advice by rain probability. */
  function LocalizedAgriculturalConditions(language: Option<string>, f: Forecast): (c: ForecastConditions)
    ensures var avg := AverageTemperature(f);
            c.growingConditions == (if 15.0 <= avg <= 30.0 && 40.0 <= f.humidity <= 70.0
                                    then "favorable" else "unfavorable")
    ensures c.frost <==> f.minTemperature <= 2.0
    ensures c.heatStress <==> f.maxTemperature >= 35.0
    ensures c.disease <==> f.humidity >= 80.0 && AverageTemperature(f) >= 20.0
    ensures f.rainfallProbability < 30.0 ==>
              c.irrigationRecommendation == FarmingAction(NewTranslator(language), "IRRIGATE")
    ensures f.rainfallProbability > 70.0 ==>
              c.irrigationRecommendation == FarmingAction(NewTranslator(language), "SPRAY")
    ensures 30.0 <= f.rainfallProbability <= 70.0 ==> c.irrigationRecommendation == "monitor"
  {
    var tr := NewTranslator(language);
    var avg := AverageTemperature(f);
    ForecastConditions(
      if 15.0 <= avg <= 30.0 && 40.0 <= f.humidity <= 70.0 then "favorable" else "unfavorable",
      f.minTemperature <= 2.0,
      f.maxTemperature >= 35.0,
      f.humidity >= 80.0 && avg >= 20.0,
      if f.rainfallProbability < 30.0 then FarmingAction(tr, "IRRIGATE")
      else if f.rainfallProbability > 70.0 then FarmingAction(tr, "SPRAY")
      else "monitor")
  }

  /** The three pieces of irrigation advice differ in every language, so
      the advice tells which rain-probability band the forecast is in. */
  lemma IrrigationAdviceDeterminesBand(language: Option<string>, f: Forecast)
    ensures var advice := LocalizedAgriculturalConditions(language, f).irrigationRecommendation;
            var tr := NewTranslator(language);
            && (advice == FarmingAction(tr, "IRRIGATE") <==> f.rainfallProbability < 30.0)
            && (advice == FarmingAction(tr, "SPRAY") <==> f.rainfallProbability > 70.0)
            && (advice == "monitor" <==> 30.0 <= f.rainfallProbability <= 70.0)
  {
    var tr := NewTranslator(language);
    ActionPhrasesDistinct(tr);
    assert tr.language in Languages;
    assert FarmingAction(tr, "IRRIGATE") != "monitor";
    assert FarmingAction(tr, "SPRAY") != "monitor";
  }

  // ---------------------------------------------------------------------
  // Alerts
  // ---------------------------------------------------------------------

  /** The description through the alert-type table: a description that is
      exactly an alert-type code is translated, any other text is kept. */
  function LocalizedDescription(language: Option<string>, a: Alert): (s: string)
    ensures AlertPhrase(a.description).None? ==> s == a.description
    ensures AlertPhrase(a.description).Some? ==> s == AlertPhrase(a.description).value.In(NewTranslator(language).language)
  {
    AlertType(NewTranslator(language), a.description)
  }

  /** The recommended actions through the farming-action table: text that
      is exactly an action code is translated, any other text is kept. */
  function LocalizedRecommendedActions(language: Option<string>, a: Alert): (s: string)
    ensures ActionPhrase(a.recommendedActions).None? ==> s == a.recommendedActions
    ensures ActionPhrase(a.recommendedActions).Some? ==>
              s == ActionPhrase(a.recommendedActions).value.In(NewTranslator(language).language)
  {
    FarmingAction(NewTranslator(language), a.recommendedActions)
  }

  /** Translating a localized description again changes nothing. */
  lemma LocalizedDescriptionStable(language: Option<string>, a: Alert)
    ensures LocalizedDescription(language, a.(description := LocalizedDescription(language, a)))
            == LocalizedDescription(language, a)
  {
    AlertTypeIdempotent(NewTranslator(language), a.description);
  }

  // ---------------------------------------------------------------------
  // Representation
  // ---------------------------------------------------------------------

  /** The representation with the context's language added, English when
      the context names none. */
  function WithLanguage(representation: Dict, context: Dict): (r: Dict)
    ensures r.Keys == representation.Keys + {"language"}
    ensures r["language"] == (if "language" in context then context["language"] else Text("en"))
    ensures forall k :: k in representation && k != "language" ==> r[k] == representation[k]
  {
    representation["language" := Get(context, "language", Text("en"))]
  }
}
