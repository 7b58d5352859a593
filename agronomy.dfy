/*
  Agronomic rules shared by the models, the analysis service, the
  serializers and the views: growing degree days, the per-reading risk
  flags and the soil status bands.
*/
module Agronomy {
  import opened Wrappers
  import opened Config
  import Translation

  /** Growing degree days: the excess of the temperature over the base,
      never negative. */
  function GrowingDegreeDays(t: real, base: real): (gdd: real)
    ensures gdd >= 0.0
    ensures t >= base ==> gdd == t - base
    ensures t <= base ==> gdd == 0.0
  {
    if t - base > 0.0 then t - base else 0.0
  }

  /** A warmer day never accumulates fewer degree days. */
  lemma GrowingDegreeDaysMonotone(t1: real, t2: real, base: real)
    requires t1 <= t2
    ensures GrowingDegreeDays(t1, base) <= GrowingDegreeDays(t2, base)
  {
  }

  /** 25 degrees gives 15 degree days over the default base, 5 degrees none,
      and 25 degrees over a base of 15 gives 10. */
  lemma GrowingDegreeDaysExamples()
    ensures GrowingDegreeDays(25.0, GddBaseTemperature) == 25.0 - GddBaseTemperature
    ensures GrowingDegreeDays(5.0, GddBaseTemperature) == 0.0
    ensures GrowingDegreeDays(25.0, 15.0) == 10.0
  {
  }

  /** Risk flags of one reading. */
  datatype ReadingRisks = ReadingRisks(frost: bool, heatStress: bool, disease: bool)

  /** Frost at or below the low threshold, heat stress at or above the high
      one, disease when it is both humid and at least 20 degrees. */
  function RisksOf(temperature: real, humidity: real): (r: ReadingRisks)
    ensures r.frost <==> temperature <= LowTemperature
    ensures r.heatStress <==> temperature >= HighTemperature
    ensures r.disease <==> humidity >= HighHumidity && temperature >= 20.0
    ensures !(r.frost && r.heatStress)
    ensures r.frost ==> !r.disease
  {
    ReadingRisks(temperature <= LowTemperature,
                 temperature >= HighTemperature,
                 humidity >= HighHumidity && temperature >= 20.0)
  }

  /** Soil moisture status: unknown without a reading, dry below the low
      threshold, saturated above the high one, optimal in between. */
  function SoilMoistureStatus(moisture: Option<real>): (s: string)
    ensures s == "unknown" <==> moisture.None?
    ensures s == "dry" <==> moisture.Some? && moisture.value < LowSoilMoisture
    ensures s == "saturated" <==> moisture.Some? && moisture.value > HighSoilMoisture
    ensures s == "optimal" <==> moisture.Some? && LowSoilMoisture <= moisture.value <= HighSoilMoisture
  {
    match moisture
    case None => "unknown"
    case Some(m) =>
      if m < LowSoilMoisture then "dry"
      else if m > HighSoilMoisture then "saturated"
      else "optimal"
  }

  /** The status bands and the translator's soil phrases draw the same
      boundaries: dry is dry, saturated is wet, optimal is moist. */
  lemma SoilBandsAgree(m: real)
    ensures SoilMoistureStatus(Some(m)) == "dry" <==> Translation.SoilBandOf(m) == Translation.Dry
    ensures SoilMoistureStatus(Some(m)) == "saturated" <==> Translation.SoilBandOf(m) == Translation.Wet
    ensures SoilMoistureStatus(Some(m)) == "optimal" <==> Translation.SoilBandOf(m) == Translation.Moist
  {
  }

  /** Soil temperature status: unknown without a reading, cold below 10
      degrees, hot above 35, optimal in between. */
  function SoilTemperatureStatus(temperature: Option<real>): (s: string)
    ensures s == "unknown" <==> temperature.None?
    ensures s == "cold" <==> temperature.Some? && temperature.value < 10.0
    ensures s == "hot" <==> temperature.Some? && temperature.value > 35.0
    ensures s == "optimal" <==> temperature.Some? && 10.0 <= temperature.value <= 35.0
  {
    match temperature
    case None => "unknown"
    case Some(t) =>
      if t < 10.0 then "cold"
      else if t > 35.0 then "hot"
      else "optimal"
  }
}
