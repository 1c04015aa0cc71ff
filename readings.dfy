/** The backend's record types: the reading object built by the ingest handler,
  * the anomaly decision the detector returns, and the real-time envelope. */
module Readings {
  import opened Common
  import StressIndex

  /** A signal label of an anomaly decision. The heuristic and the Python detector
    * only emit the first five; `Other` carries any other label a remote body holds. */
  datatype Signal = Noise | Heat | AirQuality | Crowd | Composite | Other(text: string)

  /** The JSON text of a label. */
  function Label(s: Signal): string {
    match s
    case Noise => "noise"
    case Heat => "heat"
    case AirQuality => "air_quality"
    case Crowd => "crowd"
    case Composite => "composite"
    case Other(l) => l
  }

  /** Detection priority of the signals, the order both detectors test them in; -1 for
    * labels neither emits. */
  function SignalRank(s: Signal): int {
    match s
    case Noise => 0
    case Heat => 1
    case AirQuality => 2
    case Crowd => 3
    case Composite => 4
    case Other(_) => -1
  }

  /** Known signals, strictly in priority order: hence ordered and duplicate-free. */
  predicate InPriorityOrder(signals: seq<Signal>) {
    (forall i :: 0 <= i < |signals| ==> SignalRank(signals[i]) >= 0)
    && (forall i, j :: 0 <= i < j < |signals| ==> SignalRank(signals[i]) < SignalRank(signals[j]))
  }

  lemma PriorityOrderHasNoDuplicates(signals: seq<Signal>)
    requires InPriorityOrder(signals)
    ensures NoDuplicates(signals)
  {
  }

  /** `if (fired) signals.push(sig)`, for a signal ranked after everything already pushed. */
  function PushIf(signals: seq<Signal>, fired: bool, sig: Signal): (r: seq<Signal>)
    requires InPriorityOrder(signals) && SignalRank(sig) >= 0
    requires forall i :: 0 <= i < |signals| ==> SignalRank(signals[i]) < SignalRank(sig)
    ensures InPriorityOrder(r)
    ensures forall i :: 0 <= i < |r| ==> SignalRank(r[i]) <= SignalRank(sig)
    ensures forall x :: x in r <==> x in signals || (fired && x == sig)
    ensures |r| == 0 <==> |signals| == 0 && !fired
    ensures |r| == |signals| + (if fired then 1 else 0)
  {
    if fired then signals + [sig] else signals
  }

  /** The four threshold checks both detectors run, in this order, each pushing its
    * label when it fires; one function per push. */
  function NoiseChecked(noise: bool): (s: seq<Signal>)
    ensures InPriorityOrder(s)
    ensures forall i :: 0 <= i < |s| ==> SignalRank(s[i]) <= SignalRank(Noise)
    ensures forall x :: x in s <==> noise && x == Noise
    ensures |s| == if noise then 1 else 0
  {
    PushIf([], noise, Noise)
  }

  function HeatChecked(noise: bool, heat: bool): (s: seq<Signal>)
    ensures InPriorityOrder(s)
    ensures forall i :: 0 <= i < |s| ==> SignalRank(s[i]) <= SignalRank(Heat)
    ensures forall x :: x in s <==> (noise && x == Noise) || (heat && x == Heat)
    ensures |s| == (if noise then 1 else 0) + (if heat then 1 else 0)
  {
    PushIf(NoiseChecked(noise), heat, Heat)
  }

  function AirQualityChecked(noise: bool, heat: bool, airQuality: bool): (s: seq<Signal>)
    ensures InPriorityOrder(s)
    ensures forall i :: 0 <= i < |s| ==> SignalRank(s[i]) <= SignalRank(AirQuality)
    ensures forall x :: x in s <==> (noise && x == Noise) || (heat && x == Heat) || (airQuality && x == AirQuality)
    ensures |s| == (if noise then 1 else 0) + (if heat then 1 else 0) + (if airQuality then 1 else 0)
  {
    PushIf(HeatChecked(noise, heat), airQuality, AirQuality)
  }

  function CheckSignals(noise: bool, heat: bool, airQuality: bool, crowd: bool): (signals: seq<Signal>)
    ensures InPriorityOrder(signals)
    ensures forall i :: 0 <= i < |signals| ==> SignalRank(signals[i]) <= SignalRank(Crowd)
    ensures forall x :: x in signals <==>
      (noise && x == Noise) || (heat && x == Heat) || (airQuality && x == AirQuality) || (crowd && x == Crowd)
    ensures |signals| == (if noise then 1 else 0) + (if heat then 1 else 0)
                         + (if airQuality then 1 else 0) + (if crowd then 1 else 0)
  {
    PushIf(AirQualityChecked(noise, heat, airQuality), crowd, Crowd)
  }

  /** An anomaly decision as the backend reads it: `is_anomaly` and the optional
    * `anomaly_score`, `signals` and `explanation` keys. */
  datatype AnomalyResult = AnomalyResult(
    isAnomaly: bool,
    anomalyScore: Option<real>,
    signals: Option<seq<Signal>>,
    explanation: Option<string>)

  /** `{ time, node_id, noise, temperature, air_quality, crowd_density, stress_index }`,
    * plus the `anomaly` key the ingest handler may attach; `time` in epoch milliseconds. */
  datatype Reading = Reading(
    time: int,
    nodeId: string,
    noise: real,
    temperature: real,
    airQuality: real,
    crowdDensity: real,
    stressIndex: int,
    anomaly: Option<AnomalyResult>)

  function Values(r: Reading): StressIndex.SensorValues {
    StressIndex.SensorValues(r.noise, r.temperature, r.airQuality, r.crowdDensity)
  }

  /** The real-time envelope `{ type, data }`. */
  datatype Message = Message(kind: string, data: Reading)
}
