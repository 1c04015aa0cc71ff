/** The frontend's demo data helpers: its own copy of the stress formula, the slowly
  * drifting per-node sensor values, the explanation and anomaly flags of a mock
  * node, the activity-log classifier and the rolling 20-point history. */
module MockData {
  import opened Common
  import opened Decimal
  import opened Rounding
  import StressIndex

  /** The frontend's sensor record, with its own field names. */
  datatype Sensors = Sensors(noise: real, temp: real, airQuality: real, crowd: real)

  /** The `weights` object of the frontend formula. */
  datatype Weights = Weights(noise: real, temp: real, air: real, crowd: real)

  const FormulaWeights: Weights := Weights(0.4, 0.25, 0.2, 0.15)

  /** The frontend `calculateStressIndex`. */
  function CalculateStressIndex(sensors: Sensors): (r: int)
    ensures 0 <= r <= 100
  {
    var w := FormulaWeights;
    var nScore := Min(((sensors.noise - 40.0) / 60.0) * 100.0, 100.0);
    var tScore := Min(((sensors.temp - 15.0) / 25.0) * 100.0, 100.0);
    var aScore := Min((sensors.airQuality / 150.0) * 100.0, 100.0);
    var dScore := Min((sensors.crowd / 30.0) * 100.0, 100.0);
    var index := JsRound(nScore * w.noise + tScore * w.temp + aScore * w.air + dScore * w.crowd);
    if index < 0 then 0 else index
  }

  /** The frontend and the backend compute the same index, up to field names. */
  lemma MatchesBackendFormula(sensors: Sensors)
    ensures CalculateStressIndex(sensors)
         == StressIndex.CalculateStressIndex(
              StressIndex.SensorValues(sensors.noise, sensors.temp, sensors.airQuality, sensors.crowd))
  {
  }

  const AqiFloor: real := 200.0
  const AqiCeiling: real := 250.0
  const TempFloor: real := 8.0
  const TempCeiling: real := 18.0

  /** `Math.max(lo, Math.min(hi, x))`. */
  function Clamp(lo: real, hi: real, x: real): (r: real)
    requires lo <= hi
    ensures lo <= r <= hi
    ensures lo <= x <= hi ==> r == x
  {
    Max(lo, Min(hi, x))
  }

  /** One node's persistent air-quality and temperature values. */
  datatype StableValues = StableValues(airQuality: real, temp: real)

  /** A new entry: `220 + Math.random() * 30` and `11 + Math.random() * 4`. */
  function InitialValues(aqiDraw: real, tempDraw: real): StableValues {
    StableValues(220.0 + aqiDraw * 30.0, 11.0 + tempDraw * 4.0)
  }

  /** One drift step, `(Math.random() - 0.5) * 4` and `* 0.4`, then the clamp. */
  function Drifted(current: StableValues, aqiDraw: real, tempDraw: real): (next: StableValues)
    ensures AqiFloor <= next.airQuality <= AqiCeiling && TempFloor <= next.temp <= TempCeiling
  {
    StableValues(
      Clamp(AqiFloor, AqiCeiling, current.airQuality + (aqiDraw - 0.5) * 4.0),
      Clamp(TempFloor, TempCeiling, current.temp + (tempDraw - 0.5) * 0.4))
  }

  /** The random draws one `generateMockNodeData` call makes, in call order. */
  datatype Draws = Draws(initAqi: real, initTemp: real, aqiDrift: real, tempDrift: real, noise: real, crowd: real)

  /** The node record the map renders. */
  datatype NodeData = NodeData(
    nodeId: string, coordinates: (real, real), sensors: Sensors, stressIndex: int,
    isAnomaly: bool, aiExplanation: string, timestamp: int)

  const NominalMessage: string := "Sensing parameters nominal. No immediate infrastructure intervention required."
  const AirMessage: string := "Critical air quality levels detected. Likely heavy construction or pollution."
  const HeatMessage: string := "High thermal stress. Heat island effect detected in this sector."
  const MultiSensorMessage: string := "Multi-sensor correlation indicates a localized urban stress anomaly."
  const ElevatedMessage: string := "Elevated activity levels. Monitoring for potential ordinance threshold breach."

  /** The explanation branch of `generateMockNodeData`, which starts from the nominal
    * message and then overwrites it. */
  function MockExplanation(stressIndex: int, sensors: Sensors): (e: string)
    ensures e != NominalMessage
    ensures stressIndex >= 80 <==> e == ElevatedMessage
  {
    var initial := NominalMessage;
    if stressIndex < 80 then
      if sensors.airQuality > 85.0 then AirMessage
      else if sensors.temp > 32.0 then HeatMessage
      else MultiSensorMessage
    else if stressIndex > 55 then ElevatedMessage
    else initial
  }

  /** The branches as they fall: below 80 one of the three sensor messages by priority,
    * from 80 up the elevated message; the nominal start value never survives. */
  lemma MockExplanationCases(stressIndex: int, sensors: Sensors)
    ensures stressIndex >= 80 ==> MockExplanation(stressIndex, sensors) == ElevatedMessage
    ensures stressIndex < 80 && sensors.airQuality > 85.0 ==> MockExplanation(stressIndex, sensors) == AirMessage
    ensures stressIndex < 80 && sensors.airQuality <= 85.0 && sensors.temp > 32.0
      ==> MockExplanation(stressIndex, sensors) == HeatMessage
    ensures stressIndex < 80 && sensors.airQuality <= 85.0 && sensors.temp <= 32.0
      ==> MockExplanation(stressIndex, sensors) == MultiSensorMessage
    ensures MockExplanation(stressIndex, sensors) != NominalMessage
  {
  }

  /** With the air-quality value held in 200..250, every index below 80 yields the
    * critical air-quality message. */
  lemma StableAirQualityDecides(stressIndex: int, sensors: Sensors)
    requires AqiFloor <= sensors.airQuality && stressIndex < 80
    ensures MockExplanation(stressIndex, sensors) == AirMessage
  {
  }

  /** The sensors of a mock node: random noise and crowd, the stable values rounded. */
  function MockSensors(stable: StableValues, noiseDraw: real, crowdDraw: real): Sensors {
    Sensors(
      JsRound((40.0 + noiseDraw * 55.0) * 10.0) as real / 10.0,
      JsRound(stable.temp * 10.0) as real / 10.0,
      JsRound(stable.airQuality) as real,
      JsRound(crowdDraw * 8.0) as real)
  }

  /** Rounding keeps every generated sensor inside its generator's range: noise in
    * 40..95, crowd in 0..8 for draws in [0, 1), air and temperature in the clamp. */
  lemma MockSensorsRanges(stable: StableValues, noiseDraw: real, crowdDraw: real)
    requires 0.0 <= noiseDraw <= 1.0 && 0.0 <= crowdDraw <= 1.0
    requires AqiFloor <= stable.airQuality <= AqiCeiling && TempFloor <= stable.temp <= TempCeiling
    ensures var s := MockSensors(stable, noiseDraw, crowdDraw);
      40.0 <= s.noise <= 95.0 && 0.0 <= s.crowd <= 8.0
      && AqiFloor <= s.airQuality <= AqiCeiling && TempFloor <= s.temp <= TempCeiling
  {
    JsRoundWithin((40.0 + noiseDraw * 55.0) * 10.0, 400, 950);
    JsRoundWithin(crowdDraw * 8.0, 0, 8);
    JsRoundWithin(stable.airQuality, 200, 250);
    JsRoundWithin(stable.temp * 10.0, 80, 180);
  }

  /** The module-level `stableSensorValues` map and the generator that drifts it. */
  class StableSensorStore {
    var values: map<string, StableValues>

    constructor ()
      ensures values == map[]
    {
      values := map[];
    }

    /** `getStableSensorValues`: the node's entry is created on first use and kept;
      * every call drifts it and clamps it back into range. */
    method GetStableSensorValues(nodeId: string, draws: Draws) returns (current: StableValues)
      modifies this
      ensures values.Keys == old(values).Keys + {nodeId}
      ensures forall id :: id in old(values) && id != nodeId ==> values[id] == old(values)[id]
      ensures current == values[nodeId]
      ensures current == Drifted(
        if nodeId in old(values) then old(values)[nodeId] else InitialValues(draws.initAqi, draws.initTemp),
        draws.aqiDrift, draws.tempDrift)
      ensures AqiFloor <= current.airQuality <= AqiCeiling && TempFloor <= current.temp <= TempCeiling
    {
      if nodeId !in values {
        values := values[nodeId := InitialValues(draws.initAqi, draws.initTemp)];
      }
      var entry := values[nodeId];
      current := Drifted(entry, draws.aqiDrift, draws.tempDrift);
      values := values[nodeId := current];
    }

    /** `generateMockNodeData`; `now` is `Date.now()`. */
    method GenerateMockNodeData(nodeId: string, coordinates: (real, real), draws: Draws, now: int)
      returns (data: NodeData)
      modifies this
      ensures values.Keys == old(values).Keys + {nodeId}
      ensures forall id :: id in old(values) && id != nodeId ==> values[id] == old(values)[id]
      ensures data.sensors == MockSensors(values[nodeId], draws.noise, draws.crowd)
      ensures data.stressIndex == CalculateStressIndex(data.sensors)
      ensures data.isAnomaly <==> data.stressIndex > 80
      ensures data.aiExplanation == MockExplanation(data.stressIndex, data.sensors)
      ensures AqiFloor <= data.sensors.airQuality <= AqiCeiling && TempFloor <= data.sensors.temp <= TempCeiling
      ensures 0.0 <= draws.noise <= 1.0 ==> 40.0 <= data.sensors.noise <= 95.0
      ensures data.nodeId == nodeId && data.coordinates == coordinates && data.timestamp == now
    {
      var stable := GetStableSensorValues(nodeId, draws);
      var sensors := MockSensors(stable, draws.noise, draws.crowd);
      JsRoundWithin(stable.airQuality, 200, 250);
      JsRoundWithin(stable.temp * 10.0, 80, 180);
      if 0.0 <= draws.noise <= 1.0 {
        JsRoundWithin((40.0 + draws.noise * 55.0) * 10.0, 400, 950);
      }
      var stressIndex := CalculateStressIndex(sensors);
      data := NodeData(nodeId, coordinates, sensors, stressIndex, stressIndex > 80,
                       MockExplanation(stressIndex, sensors), now);
    }
  }

  datatype EventType = Normal | Elevated | Critical

  datatype ActivityLogEntry = ActivityLogEntry(id: string, timestamp: int, nodeId: string, eventType: EventType, value: int)

  function Severity(e: EventType): (n: nat)
    ensures n <= 2
    ensures n == 0 <==> e == Normal
    ensures n == 2 <==> e == Critical
  {
    match e
    case Normal => 0
    case Elevated => 1
    case Critical => 2
  }

  /** `generateActivityLog`. */
  function GenerateActivityLog(node: NodeData): (entry: ActivityLogEntry)
    ensures entry.eventType == Critical <==> node.stressIndex > 80
    ensures entry.eventType == Elevated <==> 55 < node.stressIndex <= 80
    ensures entry.eventType == Normal <==> node.stressIndex <= 55
    ensures entry.value == node.stressIndex && entry.nodeId == node.nodeId && entry.timestamp == node.timestamp
  {
    var eventType := if node.stressIndex > 80 then Critical
                     else if node.stressIndex > 55 then Elevated
                     else Normal;
    ActivityLogEntry(node.nodeId + "-" + IntToString(node.timestamp), node.timestamp, node.nodeId,
                     eventType, node.stressIndex)
  }

  /** A higher index never gives a milder event. */
  lemma ActivityLogMonotone(a: NodeData, b: NodeData)
    requires a.stressIndex <= b.stressIndex
    ensures Severity(GenerateActivityLog(a).eventType) <= Severity(GenerateActivityLog(b).eventType)
  {
  }

  function LastIndexOfChar(s: string, c: char): (k: int)
    ensures -1 <= k < |s|
    ensures k >= 0 ==> s[k] == c && c !in s[k + 1..]
    ensures k == -1 ==> c !in s
    decreases |s|
  {
    if |s| == 0 then -1
    else if s[|s| - 1] == c then |s| - 1
    else LastIndexOfChar(s[..|s| - 1], c)
  }

  /** The log id splits back at its last `-` into the node id and the timestamp,
    * node ids with dashes of their own included. */
  lemma {:induction false} ActivityLogIdRoundTrip(node: NodeData)
    requires node.timestamp >= 0
    ensures var id := GenerateActivityLog(node).id;
      var k := LastIndexOfChar(id, '-');
      k == |node.nodeId| && id[..k] == node.nodeId && ParseInt(id[k + 1..]) == Some(node.timestamp)
  {
    var digits := IntToString(node.timestamp);
    var id := node.nodeId + "-" + digits;
    assert GenerateActivityLog(node).id == id;
    assert '-' !in digits;
    assert id[|node.nodeId| + 1..] == digits;
    assert id[|node.nodeId|] == '-';
    assert LastIndexOfChar(id, '-') == |node.nodeId| by {
      LastDashIsSeparator(node.nodeId, digits);
    }
    assert id[..|node.nodeId|] == node.nodeId;
    ParseIntToString(node.timestamp);
  }

  lemma {:induction false} LastDashIsSeparator(prefix: string, tail: string)
    requires '-' !in tail
    ensures LastIndexOfChar(prefix + "-" + tail, '-') == |prefix|
    decreases |tail|
  {
    var s := prefix + "-" + tail;
    if tail != [] {
      assert s[..|s| - 1] == prefix + "-" + tail[..|tail| - 1];
      assert s[|s| - 1] == tail[|tail| - 1];
      LastDashIsSeparator(prefix, tail[..|tail| - 1]);
    } else {
      assert s[|s| - 1] == '-';
    }
  }

  /** A point of the rolling history chart. */
  datatype HistoricalDataPoint = HistoricalDataPoint(
    timestamp: int, stressIndex: int, noise: real, temp: real, airQuality: real, crowd: real)

  /** `{ timestamp, stressIndex, ...sensors }`. */
  function ToHistoricalPoint(node: NodeData): HistoricalDataPoint {
    HistoricalDataPoint(node.timestamp, node.stressIndex, node.sensors.noise, node.sensors.temp,
                        node.sensors.airQuality, node.sensors.crowd)
  }

  const HistoryWindow: nat := 20

  /** `arr.slice(-20)`: the last 20 elements, or all of a shorter array. */
  function LastWindow<T>(s: seq<T>): seq<T> {
    if |s| <= HistoryWindow then s else s[|s| - HistoryWindow..]
  }

  /** `generateHistoricalData`: append the new point, keep the last 20. */
  function GenerateHistoricalData(current: NodeData, existing: seq<HistoricalDataPoint>)
    : (history: seq<HistoricalDataPoint>)
    ensures |history| == if |existing| + 1 < HistoryWindow then |existing| + 1 else HistoryWindow
    ensures history[|history| - 1] == ToHistoricalPoint(current)
    // what stays is the newest part of the old history, in its order
    ensures history[..|history| - 1] == existing[|existing| - (|history| - 1)..]
  {
    var all := existing + [ToHistoricalPoint(current)];
    assert all[..|all| - 1] == existing;
    LastWindow(all)
  }
}
