/** The backend's in-memory store, used when no database is configured: a
  * newest-first array of readings capped at 2000 entries, the history query over
  * it, and the small classifiers the mock data generator uses. */
module MockStore {
  import opened Common
  import opened Readings
  import StressIndex

  const Capacity: nat := 2000
  const HistoryLimit: nat := 500
  /** `initMockData` seeds 24 hours of readings at 5-minute steps. */
  const SeedSteps: nat := 288
  const StepMillis: int := 5 * 60 * 1000
  const HourMillis: int := 60 * 60 * 1000

  datatype TimeSlot = Morning | Afternoon | Evening | Night

  /** `getTimeSlot`. */
  function GetTimeSlot(hour: int): (slot: TimeSlot)
    ensures InSlot(hour, slot)
  {
    if 6 <= hour < 12 then Morning
    else if 12 <= hour < 17 then Afternoon
    else if 17 <= hour < 22 then Evening
    else Night
  }

  /** The slot boundaries as half-open ranges of the day; night is the rest, so
    * hours outside 0..23 fall into it too. */
  predicate InSlot(hour: int, slot: TimeSlot) {
    match slot
    case Morning => 6 <= hour < 12
    case Afternoon => 12 <= hour < 17
    case Evening => 17 <= hour < 22
    case Night => hour < 6 || hour >= 22
  }

  /** Every hour lies in exactly one slot, and that is the slot `getTimeSlot` names. */
  lemma TimeSlotPartition(hour: int, slot: TimeSlot)
    ensures GetTimeSlot(hour) == slot <==> InSlot(hour, slot)
  {
  }

  /** A node of the deployment catalog. */
  datatype Node = Node(id: string, name: string, lat: real, lng: real, sector: string, zoneType: string)

  const Nodes: seq<Node> := [
    Node("CP-MOH-01", "IT Park Sector 70", 30.7046, 76.6934, "Sector 70", "commercial"),
    Node("CP-MOH-02", "Phase 11", 30.7010, 76.7179, "Phase 11", "residential"),
    Node("CP-MOH-03", "Phase 7", 30.7120, 76.7292, "Phase 7", "mixed"),
    Node("CP-MOH-04", "Sector 77", 30.6815, 76.6512, "Sector 77", "residential"),
    Node("CP-MOH-05", "Phase 3B2", 30.6885, 76.7245, "Phase 3B2", "commercial")
  ]

  const CriticalNoiseMessage: string := "Critical noise levels detected. Likely heavy construction or congestion."
  const HeatMessage: string := "High thermal stress. Heat island effect detected in this sector."
  const MultiSensorMessage: string := "Multi-sensor correlation indicates a localized urban stress anomaly."
  const ElevatedMessage: string := "Elevated activity levels. Monitoring for potential ordinance threshold breach."
  const NominalMessage: string := "Sensing parameters nominal. No immediate infrastructure intervention required."

  /** `generateExplanation` of the mock generator, over a reading's own field names. */
  function GenerateExplanation(data: Reading): (e: string)
    ensures data.stressIndex > 80 <==> e in {CriticalNoiseMessage, HeatMessage, MultiSensorMessage}
    ensures data.stressIndex <= 55 <==> e == NominalMessage
  {
    if data.stressIndex > 80 then
      if data.noise > 85.0 then CriticalNoiseMessage
      else if data.temperature > 32.0 then HeatMessage
      else MultiSensorMessage
    else if data.stressIndex > 55 then ElevatedMessage
    else NominalMessage
  }

  /** `{ time: <clock>, ...data }`, capped: the new reading in front, the oldest
    * entries cut once the array exceeds the capacity. */
  function Added(readings: seq<Reading>, data: Reading): (r: seq<Reading>)
    ensures |r| == if |readings| + 1 <= Capacity then |readings| + 1 else Capacity
    ensures r[0] == data
    ensures r[1..] == readings[..|r| - 1]
  {
    var grown := [data] + readings;
    if |grown| > Capacity then grown[..Capacity] else grown
  }

  lemma {:induction false} AddedShape(readings: seq<Reading>, data: Reading)
    ensures |Added(readings, data)| == if |readings| + 1 <= Capacity then |readings| + 1 else Capacity
    ensures Added(readings, data)[0] == data
    // every older entry moves one place back; only the tail falls off
    ensures forall i :: 0 <= i < |Added(readings, data)| - 1 ==> Added(readings, data)[i + 1] == readings[i]
  {
  }

  /** Also stated as a prefix: what survives is the newest part of the old array. */
  lemma AddedKeepsNewest(readings: seq<Reading>, data: Reading)
    ensures Added(readings, data) == [data] + readings[..|Added(readings, data)| - 1]
  {
    AddedShape(readings, data);
  }

  /** A full store evicts exactly its single oldest entry. */
  lemma FullStoreEvictsOldest(readings: seq<Reading>, data: Reading)
    requires |readings| == Capacity
    ensures Added(readings, data) == [data] + readings[..Capacity - 1]
    ensures |Added(readings, data)| == Capacity
  {
    AddedKeepsNewest(readings, data);
  }

  predicate NewestFirst(readings: seq<Reading>) {
    forall i, j :: 0 <= i < j < |readings| ==> readings[i].time >= readings[j].time
  }

  /** A reading no older than the current head keeps the array newest-first. */
  lemma AddedKeepsNewestFirst(readings: seq<Reading>, data: Reading)
    requires NewestFirst(readings)
    requires readings != [] ==> data.time >= readings[0].time
    ensures NewestFirst(Added(readings, data))
  {
    var r := Added(readings, data);
    AddedShape(readings, data);
    forall i, j | 0 <= i < j < |r| ensures r[i].time >= r[j].time {
      if i == 0 {
        assert r[j] == readings[j - 1];
        assert readings[0].time >= readings[j - 1].time || j - 1 == 0;
      } else {
        assert r[i] == readings[i - 1] && r[j] == readings[j - 1];
      }
    }
  }

  /** The reading `initMockData` pushes as its `k`-th entry: step `k / |Nodes|` back
    * in time, for node `k % |Nodes|`. `generate` stands for the random sensor
    * values of `generateReading`; the index is computed from them by the formula. */
  function SeedReading(now: int, generate: (Node, int) -> StressIndex.SensorValues, k: nat): Reading {
    var node := Nodes[k % |Nodes|];
    var time := now - (k / |Nodes|) * StepMillis;
    var v := generate(node, time);
    Reading(time, node.id, v.noise, v.temperature, v.airQuality, v.crowdDensity,
            StressIndex.CalculateStressIndex(v), None)
  }

  function SeedSchedule(now: int, generate: (Node, int) -> StressIndex.SensorValues, n: nat): (s: seq<Reading>)
    ensures |s| == n
    ensures forall k :: 0 <= k < n ==> s[k] == SeedReading(now, generate, k)
  {
    seq(n, k requires 0 <= k < n => SeedReading(now, generate, k))
  }

  /** The schedule grows by one entry at a time. */
  lemma SeedScheduleStep(now: int, generate: (Node, int) -> StressIndex.SensorValues, n: nat)
    ensures SeedSchedule(now, generate, n + 1) == SeedSchedule(now, generate, n) + [SeedReading(now, generate, n)]
  {
  }

  /** Whole steps of the seed schedule never go back as the entry index grows. */
  lemma StepMonotone(a: nat, b: nat)
    requires a <= b
    ensures a / |Nodes| <= b / |Nodes|
  {
    var qa, qb := a / 5, b / 5;
    assert a == qa * 5 + a % 5 && b == qb * 5 + b % 5;
  }

  /** The seeded history is newest-first, each node once per step, the steps five
    * minutes apart. */
  lemma SeedScheduleOrdered(now: int, generate: (Node, int) -> StressIndex.SensorValues)
    ensures NewestFirst(SeedSchedule(now, generate, SeedSteps * |Nodes|))
    ensures forall k :: 0 <= k < SeedSteps * |Nodes| ==>
      SeedSchedule(now, generate, SeedSteps * |Nodes|)[k].nodeId == Nodes[k % |Nodes|].id
      && SeedSchedule(now, generate, SeedSteps * |Nodes|)[k].time == now - (k / |Nodes|) * StepMillis
  {
    var s := SeedSchedule(now, generate, SeedSteps * |Nodes|);
    forall i, j | 0 <= i < j < |s| ensures s[i].time >= s[j].time {
      StepMonotone(i, j);
      assert (i / |Nodes|) * StepMillis <= (j / |Nodes|) * StepMillis;
    }
  }

  /** `getHistory`'s row shape: the same seven values under the frontend's names. */
  datatype HistoryPoint = HistoryPoint(
    timestamp: int, nodeId: string, noise: real, temp: real, airQuality: real, crowd: real, stressIndex: int)

  function ToHistoryPoint(r: Reading): HistoryPoint {
    HistoryPoint(r.time, r.nodeId, r.noise, r.temperature, r.airQuality, r.crowdDensity, r.stressIndex)
  }

  function FromHistoryPoint(p: HistoryPoint): Reading {
    Reading(p.timestamp, p.nodeId, p.noise, p.temp, p.airQuality, p.crowd, p.stressIndex, None)
  }

  /** The renaming loses nothing but an attached anomaly. */
  lemma HistoryPointRoundTrip(r: Reading)
    ensures FromHistoryPoint(ToHistoryPoint(r)) == r.(anomaly := None)
  {
  }

  /** `readings.filter(r => r.time > cutoff)`. */
  function InWindow(readings: seq<Reading>, cutoff: int): seq<Reading>
    decreases |readings|
  {
    if readings == [] then []
    else (if readings[0].time > cutoff then [readings[0]] else []) + InWindow(readings[1..], cutoff)
  }

  /** `readings.filter(r => r.node_id === nodeId)`. */
  function OfNode(readings: seq<Reading>, nodeId: string): seq<Reading>
    decreases |readings|
  {
    if readings == [] then []
    else (if readings[0].nodeId == nodeId then [readings[0]] else []) + OfNode(readings[1..], nodeId)
  }

  lemma {:induction false} InWindowSound(readings: seq<Reading>, cutoff: int)
    ensures forall r :: r in InWindow(readings, cutoff) <==> r in readings && r.time > cutoff
    decreases |readings|
  {
    if readings != [] {
      InWindowSound(readings[1..], cutoff);
      assert readings == [readings[0]] + readings[1..];
    }
  }

  lemma {:induction false} OfNodeSound(readings: seq<Reading>, nodeId: string)
    ensures forall r :: r in OfNode(readings, nodeId) <==> r in readings && r.nodeId == nodeId
    decreases |readings|
  {
    if readings != [] {
      OfNodeSound(readings[1..], nodeId);
      assert readings == [readings[0]] + readings[1..];
    }
  }

  /** Filtering a concatenation filters each part in turn: the filter keeps store order. */
  lemma {:induction false} InWindowAppend(a: seq<Reading>, b: seq<Reading>, cutoff: int)
    ensures InWindow(a + b, cutoff) == InWindow(a, cutoff) + InWindow(b, cutoff)
    decreases |a|
  {
    if a == [] {
      assert a + b == b;
    } else {
      var ab := a + b;
      assert ab[0] == a[0];
      assert ab[1..] == a[1..] + b;
      var head := if a[0].time > cutoff then [a[0]] else [];
      assert InWindow(ab, cutoff) == head + InWindow(ab[1..], cutoff);
      assert InWindow(a, cutoff) == head + InWindow(a[1..], cutoff);
      InWindowAppend(a[1..], b, cutoff);
    }
  }

  lemma {:induction false} OfNodeAppend(a: seq<Reading>, b: seq<Reading>, nodeId: string)
    ensures OfNode(a + b, nodeId) == OfNode(a, nodeId) + OfNode(b, nodeId)
    decreases |a|
  {
    if a == [] {
      assert a + b == b;
    } else {
      var ab := a + b;
      assert ab[0] == a[0];
      assert ab[1..] == a[1..] + b;
      var head := if a[0].nodeId == nodeId then [a[0]] else [];
      assert OfNode(ab, nodeId) == head + OfNode(ab[1..], nodeId);
      assert OfNode(a, nodeId) == head + OfNode(a[1..], nodeId);
      OfNodeAppend(a[1..], b, nodeId);
    }
  }

  /** The readings `getHistory` selects, in store order, before truncation. */
  function HistoryMatches(readings: seq<Reading>, nodeId: string, cutoff: int): seq<Reading> {
    var recent := InWindow(readings, cutoff);
    if nodeId != "" then OfNode(recent, nodeId) else recent
  }

  /** A reading is selected exactly when it is newer than the cutoff and, for a
    * truthy node id, belongs to that node. */
  lemma HistoryMatchesSound(readings: seq<Reading>, nodeId: string, cutoff: int)
    ensures forall r :: r in HistoryMatches(readings, nodeId, cutoff) <==>
      r in readings && r.time > cutoff && (nodeId != "" ==> r.nodeId == nodeId)
  {
    InWindowSound(readings, cutoff);
    OfNodeSound(InWindow(readings, cutoff), nodeId);
  }

  function MapHistory(readings: seq<Reading>): (points: seq<HistoryPoint>)
    ensures |points| == |readings|
    ensures forall i :: 0 <= i < |readings| ==> points[i] == ToHistoryPoint(readings[i])
  {
    seq(|readings|, i requires 0 <= i < |readings| => ToHistoryPoint(readings[i]))
  }

  /** A stored anomaly row. Nothing in this module appends one. */
  datatype AnomalyRecord = AnomalyRecord(
    id: int, time: int, nodeId: string, anomalyScore: real, signals: seq<Signal>,
    explanation: string, stressIndex: int)

  /** `getAnomalies`' row shape. */
  datatype AnomalyView = AnomalyView(
    id: int, timestamp: int, nodeId: string, nodeName: string, sector: string,
    anomalyScore: real, signals: seq<Signal>, explanation: string, stressIndex: int)

  /** `nodes.find(n => n.id === id)`: the first catalog node with that id. */
  function FindNode(id: string): (found: Option<Node>)
    ensures found.Some? ==> found.value in Nodes && found.value.id == id
    ensures found.None? ==> forall n :: n in Nodes ==> n.id != id
  {
    if Nodes[0].id == id then Some(Nodes[0])
    else if Nodes[1].id == id then Some(Nodes[1])
    else if Nodes[2].id == id then Some(Nodes[2])
    else if Nodes[3].id == id then Some(Nodes[3])
    else if Nodes[4].id == id then Some(Nodes[4])
    else None
  }

  /** `find(...)?.name || 'Unknown'` and `find(...)?.sector || ''`. */
  function ToAnomalyView(a: AnomalyRecord): (v: AnomalyView)
    ensures FindNode(a.nodeId).None? ==> v.nodeName == "Unknown" && v.sector == ""
    ensures FindNode(a.nodeId).Some? ==> v.nodeName == FindNode(a.nodeId).value.name
    ensures FindNode(a.nodeId).Some? ==> v.sector == FindNode(a.nodeId).value.sector
    ensures (v.id, v.timestamp, v.nodeId, v.anomalyScore, v.signals, v.explanation, v.stressIndex)
         == (a.id, a.time, a.nodeId, a.anomalyScore, a.signals, a.explanation, a.stressIndex)
  {
    var name := match FindNode(a.nodeId) case Some(n) => if n.name != "" then n.name else "Unknown" case None => "Unknown";
    var sector := match FindNode(a.nodeId) case Some(n) => n.sector case None => "";
    AnomalyView(a.id, a.time, a.nodeId, name, sector, a.anomalyScore, a.signals, a.explanation, a.stressIndex)
  }

  class Store {
    var readings: seq<Reading>
    var anomalies: seq<AnomalyRecord>

    /** The empty `mockData` object. */
    constructor ()
      ensures readings == [] && anomalies == []
    {
      readings := [];
      anomalies := [];
    }

    /** `initMockData`: 288 steps back from `now`, one reading per node per step,
      * pushed at the end of the array. */
    method InitMockData(now: int, generate: (Node, int) -> StressIndex.SensorValues)
      modifies this`readings
      ensures readings == old(readings) + SeedSchedule(now, generate, SeedSteps * |Nodes|)
    {
      ghost var start := readings;
      var i := 0;
      while i < SeedSteps
        invariant 0 <= i <= SeedSteps
        invariant readings == start + SeedSchedule(now, generate, i * |Nodes|)
      {
        var timestamp := now - i * StepMillis;
        var j := 0;
        while j < |Nodes|
          invariant 0 <= j <= |Nodes|
          invariant readings == start + SeedSchedule(now, generate, i * |Nodes| + j)
        {
          var node := Nodes[j];
          var v := generate(node, timestamp);
          ghost var k := i * |Nodes| + j;
          assert k / |Nodes| == i && k % |Nodes| == j;
          var reading := Reading(timestamp, node.id, v.noise, v.temperature, v.airQuality,
                                 v.crowdDensity, StressIndex.CalculateStressIndex(v), None);
          assert reading == SeedReading(now, generate, k);
          readings := readings + [reading];
          SeedScheduleStep(now, generate, k);
          j := j + 1;
        }
        i := i + 1;
      }
    }

    /** `addReading`: `unshift` the reading, then cut the array back to the capacity.
      * The stored object is a copy, so a later `reading.anomaly = ...` on the
      * caller's object does not reach it. */
    method AddReading(data: Reading)
      modifies this`readings
      ensures readings == Added(old(readings), data)
    {
      readings := [data] + readings;
      if |readings| > Capacity {
        readings := readings[..Capacity];
      }
    }

    /** `getHistory`: readings newer than `hours` before `now`, of one node when
      * `nodeId` is truthy, the first 500 in store order, renamed. */
    function GetHistory(nodeId: string, hours: int, now: int): (points: seq<HistoryPoint>)
      reads this
      ensures |points| <= HistoryLimit
      ensures forall i :: 0 <= i < |points| ==> points[i].timestamp > now - hours * HourMillis
      ensures nodeId != "" ==> forall i :: 0 <= i < |points| ==> points[i].nodeId == nodeId
    {
      var matches := HistoryMatches(readings, nodeId, now - hours * HourMillis);
      HistoryMatchesSound(readings, nodeId, now - hours * HourMillis);
      var kept := if |matches| > HistoryLimit then matches[..HistoryLimit] else matches;
      assert forall i :: 0 <= i < |kept| ==> kept[i] in matches;
      MapHistory(kept)
    }

    /** The history is the renamed prefix of the selected readings: all of them when
      * there are at most 500, otherwise the 500 newest in store order. */
    lemma GetHistoryIsPrefix(nodeId: string, hours: int, now: int)
      ensures var matches := HistoryMatches(readings, nodeId, now - hours * HourMillis);
        var points := GetHistory(nodeId, hours, now);
        && |points| == (if |matches| < HistoryLimit then |matches| else HistoryLimit)
        && forall i :: 0 <= i < |points| ==> points[i] == ToHistoryPoint(matches[i])
    {
    }

    /** `getAnomalies`: each record with its node's name and sector from the catalog. */
    function GetAnomalies(): (views: seq<AnomalyView>)
      reads this
      ensures |views| == |anomalies|
      ensures forall i :: 0 <= i < |views| ==> views[i] == ToAnomalyView(anomalies[i])
    {
      var rows := anomalies;
      seq(|rows|, i requires 0 <= i < |rows| => ToAnomalyView(rows[i]))
    }
  }
}
