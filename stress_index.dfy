/** The stress index: four raw sensor readings folded into one score in 0..100.
  * The backend controller, the backend's mock data generator, the frontend and the
  * forecaster each carry their own copy of this formula; this module is the
  * backend's, with JavaScript rounding. */
module StressIndex {
  import opened Common
  import opened Rounding

  /** The four raw values of one reading, by their backend names. */
  datatype SensorValues = SensorValues(noise: real, temperature: real, airQuality: real, crowdDensity: real)

  const NoiseWeight: real := 0.4
  const TemperatureWeight: real := 0.25
  const AirQualityWeight: real := 0.2
  const CrowdWeight: real := 0.15

  /** A raw value placed on a 0..100 scale from `low` (score 0) to `low + span`
    * (score 100); capped above at 100 and not capped below. */
  function SubScore(value: real, low: real, span: real): (s: real)
    requires span > 0.0
    ensures s <= 100.0
    ensures value <= low + span ==> s == (value - low) * 100.0 / span
    ensures value >= low + span ==> s == 100.0
  {
    Min(((value - low) / span) * 100.0, 100.0)
  }

  function NoiseScore(noise: real): real { SubScore(noise, 40.0, 60.0) }
  function TemperatureScore(temperature: real): real { SubScore(temperature, 15.0, 25.0) }
  function AirQualityScore(airQuality: real): real { SubScore(airQuality, 0.0, 150.0) }
  function CrowdScore(crowdDensity: real): real { SubScore(crowdDensity, 0.0, 30.0) }

  /** The weighted sum before rounding; a convex combination of the four sub-scores. */
  function WeightedScore(v: SensorValues): (w: real)
    ensures w <= 100.0
  {
    NoiseScore(v.noise) * NoiseWeight + TemperatureScore(v.temperature) * TemperatureWeight
      + AirQualityScore(v.airQuality) * AirQualityWeight + CrowdScore(v.crowdDensity) * CrowdWeight
  }

  /** `calculateStressIndex`: the weighted score rounded half-up, then clamped below at 0. */
  function CalculateStressIndex(v: SensorValues): (r: int)
    ensures 0 <= r <= 100
    ensures r == 0 <==> WeightedScore(v) < 0.5
    ensures r > 0 ==> r as real - 0.5 <= WeightedScore(v) < r as real + 0.5
  {
    var index := JsRound(WeightedScore(v));
    if index < 0 then 0 else index
  }

  lemma WeightsSumToOne()
    ensures NoiseWeight + TemperatureWeight + AirQualityWeight + CrowdWeight == 1.0
  {
  }

  /** Raising any of the four readings never lowers the index. */
  lemma StressIndexMonotone(v: SensorValues, w: SensorValues)
    requires v.noise <= w.noise && v.temperature <= w.temperature
    requires v.airQuality <= w.airQuality && v.crowdDensity <= w.crowdDensity
    ensures CalculateStressIndex(v) <= CalculateStressIndex(w)
  {
    assert WeightedScore(v) <= WeightedScore(w);
    JsRoundMonotone(WeightedScore(v), WeightedScore(w));
  }

  /** The worked example: noise 90, temperature 20, AQI 50, crowd 5 weighs 47.5 and
    * rounds up to 48. */
  lemma WorkedExample()
    ensures WeightedScore(SensorValues(90.0, 20.0, 50.0, 5.0)) == 47.5
    ensures CalculateStressIndex(SensorValues(90.0, 20.0, 50.0, 5.0)) == 48
  {
  }

  /** A nominal reading: noise 50, temperature 22, AQI 60, crowd 3 scores 23. */
  lemma NominalExample()
    ensures CalculateStressIndex(SensorValues(50.0, 22.0, 60.0, 3.0)) == 23
  {
  }
}
