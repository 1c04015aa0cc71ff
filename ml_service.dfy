/** The backend's client of the ML service: anomaly detection with a local
  * threshold heuristic as fallback, and the forecast proxy. */
module MlService {
  import opened Common
  import opened Decimal
  import opened Readings

  /** How an awaited `fetch` followed by `response.json()` ended: a success status
    * with its parsed body, a non-success status, or a thrown error (network failure
    * or a body that does not parse). */
  datatype Response<T> = Ok(body: T) | NotOk | Threw

  const NoiseThreshold: real := 85.0
  const HeatThreshold: real := 35.0
  const AirQualityThreshold: real := 120.0
  const CrowdThreshold: real := 25.0
  const CriticalStress: int := 80

  predicate NoiseFired(r: Reading) { r.noise > NoiseThreshold }
  predicate HeatFired(r: Reading) { r.temperature > HeatThreshold }
  predicate AirQualityFired(r: Reading) { r.airQuality > AirQualityThreshold }
  predicate CrowdFired(r: Reading) { r.crowdDensity > CrowdThreshold }

  predicate AnyBaseSignal(r: Reading) {
    NoiseFired(r) || HeatFired(r) || AirQualityFired(r) || CrowdFired(r)
  }

  function NoiseMessage(r: Reading, numberText: real -> string): string {
    "Noise level " + numberText(r.noise) + " dB exceeds Mohali evening baseline"
  }

  function HeatMessage(r: Reading, numberText: real -> string): string {
    "Temperature " + numberText(r.temperature) + "C indicates heat stress"
  }

  function AirQualityMessage(r: Reading, numberText: real -> string): string {
    "AQI " + numberText(r.airQuality) + " above safe threshold"
  }

  const CompositeMessage: string := "Multi-sensor correlation indicates urban stress anomaly"

  /** The `explanation` chain: the message of the first of noise, heat and air quality
    * that fired, else the composite message when that signal applies, else "". */
  function Explanation(noise: bool, heat: bool, airQuality: bool, composite: bool,
                       reading: Reading, numberText: real -> string): (e: string)
    ensures |e| == 0 <==> !noise && !heat && !airQuality && !composite
  {
    if noise then NoiseMessage(reading, numberText)
    else if heat then HeatMessage(reading, numberText)
    else if airQuality then AirQualityMessage(reading, numberText)
    else if composite then CompositeMessage
    else ""
  }

  /** The four threshold checks of the heuristic, each pushing its label in turn. */
  function BaseSignals(reading: Reading): (signals: seq<Signal>)
    ensures InPriorityOrder(signals)
    ensures forall i :: 0 <= i < |signals| ==> SignalRank(signals[i]) <= SignalRank(Crowd)
    ensures Noise in signals <==> NoiseFired(reading)
    ensures Heat in signals <==> HeatFired(reading)
    ensures AirQuality in signals <==> AirQualityFired(reading)
    ensures Crowd in signals <==> CrowdFired(reading)
    ensures |signals| == 0 <==> !AnyBaseSignal(reading)
  {
    CheckSignals(NoiseFired(reading), HeatFired(reading), AirQualityFired(reading), CrowdFired(reading))
  }

  /** The late `composite` push: only when none of noise, heat and air quality fired
    * and the index is critical. */
  function CompositeChecked(signals: seq<Signal>, critical: bool): (final: seq<Signal>)
    requires InPriorityOrder(signals)
    requires forall i :: 0 <= i < |signals| ==> SignalRank(signals[i]) <= SignalRank(Crowd)
    ensures InPriorityOrder(final)
    ensures forall x :: x in final <==>
      x in signals || (x == Composite && critical && Noise !in signals && Heat !in signals && AirQuality !in signals)
    ensures |final| > 0 <==> |signals| > 0 || critical
  {
    assert SignalRank(Crowd) < SignalRank(Composite);
    PushIf(signals, Noise !in signals && Heat !in signals && AirQuality !in signals && critical, Composite)
  }

  /** `fallbackAnomalyDetection`: the threshold heuristic used when the ML service
    * cannot be reached. `numberText` is JavaScript's number-to-string conversion used
    * by the message templates. The local `signals` array is grown by pushes: the
    * four threshold checks in order, then the late `composite` push. */
  function FallbackAnomalyDetection(reading: Reading, numberText: real -> string): (result: AnomalyResult)
    // the quiet case is exactly `{ is_anomaly: false }`
    ensures !result.isAnomaly <==> !AnyBaseSignal(reading) && reading.stressIndex <= CriticalStress
    ensures !result.isAnomaly ==> result == AnomalyResult(false, None, None, None)
    ensures result.isAnomaly ==>
      && result.signals.Some? && result.explanation.Some? && result.anomalyScore.Some?
      // the score is the index scaled to 0..1, capped at 0.99
      && result.anomalyScore.value == Min(reading.stressIndex as real / 100.0, 0.99)
      && InPriorityOrder(result.signals.value)
      // each base signal is present exactly when its threshold is strictly exceeded
      && (Noise in result.signals.value <==> NoiseFired(reading))
      && (Heat in result.signals.value <==> HeatFired(reading))
      && (AirQuality in result.signals.value <==> AirQualityFired(reading))
      && (Crowd in result.signals.value <==> CrowdFired(reading))
      // `composite` only stands in when none of noise, heat, air quality fired
      && (Composite in result.signals.value <==>
            !NoiseFired(reading) && !HeatFired(reading) && !AirQualityFired(reading)
            && reading.stressIndex > CriticalStress)
      // one explanation, chosen by priority
      && result.explanation.value ==
           Explanation(NoiseFired(reading), HeatFired(reading), AirQualityFired(reading),
                       reading.stressIndex > CriticalStress, reading, numberText)
  {
    var signals := BaseSignals(reading);
    if |signals| == 0 && reading.stressIndex <= CriticalStress then
      AnomalyResult(false, None, None, None)
    else
      var composite := Noise !in signals && Heat !in signals && AirQuality !in signals
                       && reading.stressIndex > CriticalStress;
      var explanation :=
        Explanation(Noise in signals, Heat in signals, AirQuality in signals, composite, reading, numberText);
      var final := CompositeChecked(signals, reading.stressIndex > CriticalStress);
      AnomalyResult(
        reading.stressIndex > CriticalStress || |final| > 0,
        Some(Min(reading.stressIndex as real / 100.0, 0.99)),
        Some(final),
        Some(explanation))
  }

  /** The fallback's explanation is empty exactly when only the crowd signal fired
    * and the index is not critical. */
  lemma FallbackEmptyExplanation(reading: Reading, numberText: real -> string)
    requires FallbackAnomalyDetection(reading, numberText).isAnomaly
    ensures FallbackAnomalyDetection(reading, numberText).explanation == Some("")
        <==> CrowdFired(reading) && !NoiseFired(reading) && !HeatFired(reading)
             && !AirQualityFired(reading) && reading.stressIndex <= CriticalStress
  {
  }

  /** A score in 0..0.99 whenever the index is not negative. */
  lemma FallbackScoreBounds(reading: Reading, numberText: real -> string)
    requires reading.stressIndex >= 0
    requires FallbackAnomalyDetection(reading, numberText).isAnomaly
    ensures 0.0 <= FallbackAnomalyDetection(reading, numberText).anomalyScore.value <= 0.99
  {
  }

  /** `detectAnomaly`: the parsed body on success, `null` on a non-success status
    * (no fallback), the heuristic when the call or the parse threw. */
  function DetectAnomaly(response: Response<AnomalyResult>, reading: Reading, numberText: real -> string)
    : (r: Option<AnomalyResult>)
    ensures response.Ok? ==> r == Some(response.body)
    ensures response.NotOk? ==> r == None
    ensures response.Threw? ==> r == Some(FallbackAnomalyDetection(reading, numberText))
  {
    match response
    case Ok(body) => Some(body)
    case NotOk => None
    case Threw => Some(FallbackAnomalyDetection(reading, numberText))
  }

  /** What `getForecast` resolves to: the predictor's payload, or an `{ error }` object. */
  datatype ForecastReply<T> = Forecast(payload: T) | ForecastError(error: string)

  /** The predictor URL: a node segment only for a truthy (non-empty) node id. */
  function ForecastUrl(serviceUrl: string, nodeId: string, horizon: int): (url: string)
    ensures StartsWith(url, serviceUrl + "/forecast")
  {
    if nodeId != "" then serviceUrl + "/forecast/" + nodeId + "?horizon=" + IntToString(horizon)
    else serviceUrl + "/forecast?horizon=" + IntToString(horizon)
  }

  /** What the forecast path names: a node id ("" for all nodes) and a horizon. */
  datatype ForecastTarget = ForecastTarget(nodeId: string, horizon: int)

  /** Reads a forecast path (the URL after the service prefix) back into its target. */
  function ParseForecastPath(path: string): Option<ForecastTarget> {
    var all := "/forecast?horizon=";
    var one := "/forecast/";
    if StartsWith(path, all) then
      match ParseInt(path[|all|..])
      case Some(h) => Some(ForecastTarget("", h))
      case None => None
    else if StartsWith(path, one) then
      var rest := path[|one|..];
      var q := IndexOfChar(rest, '?');
      if q <= 0 || !StartsWith(rest[q..], "?horizon=") then None
      else match ParseInt(rest[q + |"?horizon="|..])
        case Some(h) => Some(ForecastTarget(rest[..q], h))
        case None => None
    else None
  }

  lemma OneNodePathParses(nodeId: string, horizon: int)
    requires nodeId != "" && '?' !in nodeId
    ensures ParseForecastPath("/forecast/" + (nodeId + ("?horizon=" + IntToString(horizon))))
         == Some(ForecastTarget(nodeId, horizon))
  {
    var h := IntToString(horizon);
    var query := "?horizon=" + h;
    var rest := nodeId + query;
    OnePathNotAllPath(rest);
    PrefixThenRest("/forecast/", rest);
    PrefixThenRest(nodeId, query);
    PrefixThenRest("?horizon=", h);
    IndexOfCharAfter(nodeId, '?', query);
    assert rest[|nodeId|..] == query;
    assert rest[|nodeId| + |"?horizon="|..] == h;
    ParseIntToString(horizon);
  }

  /** A one-node path is never read as the all-nodes path. */
  lemma OnePathNotAllPath(rest: string)
    ensures !StartsWith("/forecast/" + rest, "/forecast?horizon=")
  {
    assert ("/forecast/" + rest)[9] == '/';
  }

  lemma AllNodesPathParses(horizon: int)
    ensures ParseForecastPath("/forecast?horizon=" + IntToString(horizon))
         == Some(ForecastTarget("", horizon))
  {
    PrefixThenRest("/forecast?horizon=", IntToString(horizon));
    ParseIntToString(horizon);
  }

  /** The URL names exactly the requested node and horizon, provided the node id
    * has no `?` of its own (the id is interpolated without encoding). */
  lemma ForecastUrlRoundTrip(serviceUrl: string, nodeId: string, horizon: int)
    requires '?' !in nodeId
    ensures ParseForecastPath(ForecastUrl(serviceUrl, nodeId, horizon)[|serviceUrl|..])
         == Some(ForecastTarget(nodeId, horizon))
  {
    var h := IntToString(horizon);
    if nodeId != "" {
      var tail := "/forecast/" + (nodeId + ("?horizon=" + h));
      assert ForecastUrl(serviceUrl, nodeId, horizon) == serviceUrl + tail;
      PrefixThenRest(serviceUrl, tail);
      OneNodePathParses(nodeId, horizon);
    } else {
      var tail := "/forecast?horizon=" + h;
      assert ForecastUrl(serviceUrl, nodeId, horizon) == serviceUrl + tail;
      PrefixThenRest(serviceUrl, tail);
      AllNodesPathParses(horizon);
    }
  }

  /** `getForecast`: the payload on success, a distinguishable error otherwise. */
  function GetForecast<T>(response: Response<T>): (reply: ForecastReply<T>)
    ensures response.Ok? ==> reply == Forecast(response.body)
    ensures response.NotOk? ==> reply == ForecastError("Forecast unavailable")
    ensures response.Threw? ==> reply == ForecastError("ML service unavailable")
  {
    match response
    case Ok(body) => Forecast(body)
    case NotOk => ForecastError("Forecast unavailable")
    case Threw => ForecastError("ML service unavailable")
  }

  /** The two failure replies differ from each other, so callers can tell them apart. */
  lemma ForecastFailuresDistinguishable<T>()
    ensures GetForecast<T>(NotOk) != GetForecast<T>(Threw)
  {
  }
}
