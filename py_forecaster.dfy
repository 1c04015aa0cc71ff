/** The ML service's forecaster: for each selected node, a point every 15 minutes up
  * to the horizon, each from the baseline of that future time with random variation,
  * and a trend over the predicted index. */
module Forecaster {
  import opened Common
  import opened Rounding
  import StressIndex
  import Config

  /** The calendar fields of `now + timedelta(minutes=i)` and its ISO text. */
  datatype Instant = Instant(hour: int, month: int, iso: string)

  /** The four `np.random.normal` draws of one point, in call order. */
  datatype Jitter = Jitter(noise: real, temp: real, aqi: real, crowd: real)

  datatype ForecastPoint = ForecastPoint(
    timestamp: string,
    minutesAhead: int,
    predictedStress: int,
    predictedNoise: real,
    predictedTemp: real,
    predictedAqi: int,
    predictedCrowd: int,
    confidence: real)

  datatype Trend = Increasing | Decreasing | Stable

  datatype NodeForecast = NodeForecast(nodeId: string, nodeName: string, forecast: seq<ForecastPoint>, trend: Trend)

  /** `predict` returns a bare object for one forecast and a list otherwise. */
  datatype Prediction = One(forecast: NodeForecast) | Many(forecasts: seq<NodeForecast>)

  const StepMinutes: int := 15

  /** The predicted index: the backend's weighted score, rounded half to even by
    * Python's `round`, clamped below at 0. */
  function ForecastStress(v: StressIndex.SensorValues): (r: int)
    ensures 0 <= r <= 100
  {
    PyRoundMonotone(StressIndex.WeightedScore(v), 100.0);
    var rounded := PyRound(StressIndex.WeightedScore(v));
    if rounded < 0 then 0 else rounded
  }

  /** Off exact ties the forecaster and the backend compute the same index. */
  lemma ForecastStressMatchesBackend(v: StressIndex.SensorValues)
    requires var w := StressIndex.WeightedScore(v); w - w.Floor as real != 0.5
    ensures ForecastStress(v) == StressIndex.CalculateStressIndex(v)
  {
    RoundingsAgreeOffTies(StressIndex.WeightedScore(v));
  }

  /** `max(0.6, 0.95 - i * 0.005)`. */
  function Confidence(minutes: int): (c: real)
    ensures c >= 0.6
    ensures minutes >= 0 ==> c <= 0.95
    ensures minutes <= 70 ==> c == 0.95 - minutes as real * 0.005
  {
    Max(0.6, 0.95 - minutes as real * 0.005)
  }

  /** Confidence never rises with the distance ahead. */
  lemma ConfidenceNonIncreasing(m: int, n: int)
    requires m <= n
    ensures Confidence(n) <= Confidence(m)
  {
  }

  /** Python `round(x, 1)`. */
  function PyRound1(x: real): real {
    PyRound(x * 10.0) as real / 10.0
  }

  /** The point `minutes` ahead for node `nid`. */
  function Point(nid: string, minutes: int, at: int -> Instant, jitter: (string, int) -> Jitter): (p: ForecastPoint)
    ensures p.minutesAhead == minutes && p.timestamp == at(minutes).iso
    ensures 0 <= p.predictedStress <= 100
    ensures p.confidence == Confidence(minutes)
    ensures p.predictedCrowd >= 0
  {
    var t := at(minutes);
    var b := Config.GetBaseline(nid, t.hour, Some(t.month));
    var j := jitter(nid, minutes);
    var noisePred := b.noise * (1.0 + j.noise);
    var tempPred := b.temp * (1.0 + j.temp);
    var aqiPred := b.aqi * (1.0 + j.aqi);
    var crowdPred := Max(0.0, b.crowd * (1.0 + j.crowd));
    PyRoundMonotone(0.0, crowdPred);
    ForecastPoint(
      t.iso, minutes,
      ForecastStress(StressIndex.SensorValues(noisePred, tempPred, aqiPred, crowdPred)),
      PyRound1(noisePred), PyRound1(tempPred), PyRound(aqiPred), PyRound(crowdPred),
      Confidence(minutes))
  }

  /** `len(range(0, horizon, 15))`. */
  function StepCount(horizon: int): (n: nat)
    ensures horizon <= 0 ==> n == 0
    ensures horizon > 0 ==> StepMinutes * (n - 1) < horizon <= StepMinutes * n
  {
    if horizon <= 0 then 0 else (horizon + StepMinutes - 1) / StepMinutes
  }

  function NodeName(nid: string): (name: string)
    ensures Config.NodeConfig(nid).None? ==> name == "Unknown"
    ensures name != ""
  {
    match Config.NodeConfig(nid)
    case Some(info) => info.name
    case None => "Unknown"
  }

  /** `_calculate_trend`. */
  function CalculateTrend(points: seq<ForecastPoint>): (trend: Trend)
    ensures |points| < 2 ==> trend == Stable
    ensures |points| >= 2 ==>
      var diff := points[|points| - 1].predictedStress - points[0].predictedStress;
      (trend == Increasing <==> diff > 10) && (trend == Decreasing <==> diff < -10)
      && (trend == Stable <==> -10 <= diff <= 10)
  {
    if |points| < 2 then Stable
    else
      var diff := points[|points| - 1].predictedStress - points[0].predictedStress;
      if diff > 10 then Increasing else if diff < -10 then Decreasing else Stable
  }

  /** The points of one node: every 15 minutes from now, strictly below the horizon. */
  function Steps(nid: string, horizon: int, at: int -> Instant, jitter: (string, int) -> Jitter)
    : (points: seq<ForecastPoint>)
    ensures |points| == StepCount(horizon)
    ensures forall k :: 0 <= k < |points| ==> points[k] == Point(nid, StepMinutes * k, at, jitter)
  {
    seq(StepCount(horizon), k requires 0 <= k => Point(nid, StepMinutes * k, at, jitter))
  }

  /** The step offsets below the horizon are exactly the multiples of 15 below it. */
  lemma StepOffsets(horizon: int, m: int)
    ensures (exists k :: 0 <= k < StepCount(horizon) && StepMinutes * k == m)
        <==> 0 <= m < horizon && m % StepMinutes == 0
  {
    var n := StepCount(horizon);
    if 0 <= m < horizon && m % StepMinutes == 0 {
      assert StepMinutes * (m / StepMinutes) == m;
    } else {
      forall k | 0 <= k < n ensures StepMinutes * k != m {
        assert StepMinutes * k <= StepMinutes * (n - 1) < horizon;
        assert (StepMinutes * k) % StepMinutes == 0;
      }
    }
  }

  /** The minute offsets are exactly the multiples of 15 in [0, horizon). */
  lemma StepsCoverHorizon(nid: string, horizon: int, at: int -> Instant, jitter: (string, int) -> Jitter, m: int)
    ensures (exists k :: 0 <= k < |Steps(nid, horizon, at, jitter)| && Steps(nid, horizon, at, jitter)[k].minutesAhead == m)
        <==> 0 <= m < horizon && m % StepMinutes == 0
  {
    var points := Steps(nid, horizon, at, jitter);
    StepOffsets(horizon, m);
    if 0 <= m < horizon && m % StepMinutes == 0 {
      var k :| 0 <= k < StepCount(horizon) && StepMinutes * k == m;
      assert points[k].minutesAhead == m;
    } else {
      forall k | 0 <= k < |points| ensures points[k].minutesAhead != m {
        assert points[k].minutesAhead == StepMinutes * k;
      }
    }
  }

  /** Confidence lies in [0.6, 0.95] and the index in [0, 100] at every point. */
  lemma StepsBounds(nid: string, horizon: int, at: int -> Instant, jitter: (string, int) -> Jitter)
    ensures forall p :: p in Steps(nid, horizon, at, jitter) ==>
      0.6 <= p.confidence <= 0.95 && 0 <= p.predictedStress <= 100
  {
  }

  function Forecast(nid: string, horizon: int, at: int -> Instant, jitter: (string, int) -> Jitter): (f: NodeForecast)
    ensures f.nodeId == nid && f.nodeName == NodeName(nid)
    ensures |f.forecast| == StepCount(horizon)
  {
    var points := Steps(nid, horizon, at, jitter);
    NodeForecast(nid, NodeName(nid), points, CalculateTrend(points))
  }

  /** `[node_id] if node_id else list(MOHALI_CONFIG['nodes'].keys())`. */
  function SelectNodes(nodeId: string): (nodes: seq<string>)
    ensures nodeId != "" ==> nodes == [nodeId]
    ensures nodeId == "" ==> nodes == Config.NodeIds
    ensures |nodes| >= 1
  {
    if nodeId != "" then [nodeId] else Config.NodeIds
  }

  function Forecasts(nodes: seq<string>, horizon: int, at: int -> Instant, jitter: (string, int) -> Jitter)
    : (fs: seq<NodeForecast>)
    ensures |fs| == |nodes|
    ensures forall n :: 0 <= n < |nodes| ==> fs[n] == Forecast(nodes[n], horizon, at, jitter)
  {
    seq(|nodes|, n requires 0 <= n < |nodes| => Forecast(nodes[n], horizon, at, jitter))
  }

  /** `forecasts if len(forecasts) > 1 else forecasts[0]`. */
  function Shape(forecasts: seq<NodeForecast>): (r: Prediction)
    requires |forecasts| >= 1
    ensures |forecasts| == 1 <==> r.One?
    ensures r.One? ==> r.forecast == forecasts[0]
    ensures r.Many? ==> r.forecasts == forecasts
  {
    if |forecasts| > 1 then Many(forecasts) else One(forecasts[0])
  }

  /** One named node gives one bare forecast; no node gives the five configured ones,
    * in table order. */
  lemma PredictionShape(nodeId: string, horizon: int, at: int -> Instant, jitter: (string, int) -> Jitter)
    ensures var r := Shape(Forecasts(SelectNodes(nodeId), horizon, at, jitter));
      (nodeId != "" ==> r == One(Forecast(nodeId, horizon, at, jitter)))
      && (nodeId == "" ==>
            r.Many? && |r.forecasts| == 5 && forall n :: 0 <= n < 5 ==> r.forecasts[n].nodeId == Config.NodeIds[n])
  {
  }

  /** One more node adds its forecast at the end. */
  lemma ForecastsAppend(nodes: seq<string>, nid: string, horizon: int, at: int -> Instant,
                        jitter: (string, int) -> Jitter)
    ensures Forecasts(nodes + [nid], horizon, at, jitter)
         == Forecasts(nodes, horizon, at, jitter) + [Forecast(nid, horizon, at, jitter)]
  {
    var l := Forecasts(nodes + [nid], horizon, at, jitter);
    var r := Forecasts(nodes, horizon, at, jitter) + [Forecast(nid, horizon, at, jitter)];
    forall n | 0 <= n < |l| ensures l[n] == r[n] {
      assert (nodes + [nid])[n] == if n < |nodes| then nodes[n] else nid;
    }
  }

  /** The forecasts of one more node of the list. */
  lemma ForecastsStep(nodes: seq<string>, n: nat, horizon: int, at: int -> Instant, jitter: (string, int) -> Jitter)
    requires n < |nodes|
    ensures Forecasts(nodes[..n + 1], horizon, at, jitter)
         == Forecasts(nodes[..n], horizon, at, jitter) + [Forecast(nodes[n], horizon, at, jitter)]
  {
    assert nodes[..n + 1] == nodes[..n] + [nodes[n]];
    ForecastsAppend(nodes[..n], nodes[n], horizon, at, jitter);
  }

  /** One pass of `predict`'s outer loop: the inner loop over `range(0, horizon_minutes, 15)`
    * builds the node's points, then the node's forecast object is assembled. */
  method ForecastNode(nid: string, horizon: int, at: int -> Instant, jitter: (string, int) -> Jitter)
    returns (forecast: NodeForecast)
    ensures forecast == Forecast(nid, horizon, at, jitter)
  {
    var nodeForecasts := [];
    var i := 0;
    while i < horizon
      invariant i == StepMinutes * |nodeForecasts|
      invariant |nodeForecasts| > 0 ==> i - StepMinutes < horizon
      invariant forall k :: 0 <= k < |nodeForecasts| ==> nodeForecasts[k] == Point(nid, StepMinutes * k, at, jitter)
      decreases horizon - i
    {
      nodeForecasts := nodeForecasts + [Point(nid, i, at, jitter)];
      i := i + StepMinutes;
    }
    assert |nodeForecasts| == StepCount(horizon);
    assert nodeForecasts == Steps(nid, horizon, at, jitter);
    forecast := NodeForecast(nid, NodeName(nid), nodeForecasts, CalculateTrend(nodeForecasts));
  }

  /** `predict`'s outer loop over the selected nodes. */
  method ForecastAll(nodes: seq<string>, horizon: int, at: int -> Instant, jitter: (string, int) -> Jitter)
    returns (forecasts: seq<NodeForecast>)
    ensures forecasts == Forecasts(nodes, horizon, at, jitter)
  {
    forecasts := [];
    var n := 0;
    while n < |nodes|
      invariant 0 <= n <= |nodes|
      invariant forecasts == Forecasts(nodes[..n], horizon, at, jitter)
    {
      var forecast := ForecastNode(nodes[n], horizon, at, jitter);
      ForecastsStep(nodes, n, horizon, at, jitter);
      forecasts := forecasts + [forecast];
      n := n + 1;
    }
    assert nodes[..n] == nodes;
  }

  /** `predict`; `at` gives the clock fields `i` minutes from now, `jitter` the random
    * draws. */
  method Predict(nodeId: string, horizon: int, at: int -> Instant, jitter: (string, int) -> Jitter)
    returns (result: Prediction)
    ensures result == Shape(Forecasts(SelectNodes(nodeId), horizon, at, jitter))
  {
    var nodes := SelectNodes(nodeId);
    var forecasts := ForecastAll(nodes, horizon, at, jitter);
    if |forecasts| > 1 {
      result := Many(forecasts);
    } else {
      result := One(forecasts[0]);
    }
  }
}
