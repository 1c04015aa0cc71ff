/** The ML service's rule-based detector: per-signal threshold and baseline
  * deviation checks, the anomaly decision and score, and the explanation text. */
module AnomalyDetector {
  import opened Common
  import opened Decimal
  import opened Rounding
  import opened Readings
  import MockStore
  import Config

  /** Python's float formatting, which the model does not reproduce: `str` of a float
    * and the `:.0f` and `:.1f` format specifications. */
  datatype Formatter = Formatter(repr: real -> string, fixed0: real -> string, fixed1: real -> string)

  /** The request body: every key may be missing. */
  datatype RawReading = RawReading(
    nodeId: Option<string>,
    noise: Option<real>,
    temperature: Option<real>,
    airQuality: Option<real>,
    crowdDensity: Option<real>,
    stressIndex: Option<real>)

  /** `reading.get(key, 0)`. */
  function OrZero(x: Option<real>): real {
    if x.Some? then x.value else 0.0
  }

  /** Python `int()` of a float: truncation towards zero. */
  function Trunc(x: real): (r: int)
    ensures x >= 0.0 ==> r as real <= x < r as real + 1.0
    ensures x < 0.0 ==> r as real - 1.0 < x <= r as real
  {
    if x >= 0.0 then x.Floor else -((-x).Floor)
  }

  /** The values `detect` works on after reading and converting the body. */
  datatype Inputs = Inputs(nodeKey: string, noise: real, temperature: real, airQuality: int, crowdDensity: int, stressIndex: int)

  /** `float(...)` for noise and temperature, `int(...)` for the rest; a missing node id
    * looks up like an unlisted one. */
  function Normalize(r: RawReading): (x: Inputs)
    // a missing key reads as 0 (and a missing id as ""), a present one keeps its value
    ensures r.nodeId.None? ==> x.nodeKey == ""
    ensures r.nodeId.Some? ==> x.nodeKey == r.nodeId.value
    ensures x.noise == (if r.noise.Some? then r.noise.value else 0.0)
    ensures x.temperature == (if r.temperature.Some? then r.temperature.value else 0.0)
    ensures r.airQuality.None? ==> x.airQuality == 0
    ensures r.crowdDensity.None? ==> x.crowdDensity == 0
    ensures r.stressIndex.None? ==> x.stressIndex == 0
    // `int()` truncates toward zero
    ensures r.airQuality.Some? && r.airQuality.value >= 0.0 ==>
      x.airQuality as real <= r.airQuality.value < x.airQuality as real + 1.0
    ensures r.stressIndex.Some? && r.stressIndex.value >= 0.0 ==>
      x.stressIndex as real <= r.stressIndex.value < x.stressIndex as real + 1.0
  {
    Inputs(
      if r.nodeId.Some? then r.nodeId.value else "",
      OrZero(r.noise), OrZero(r.temperature),
      Trunc(OrZero(r.airQuality)), Trunc(OrZero(r.crowdDensity)), Trunc(OrZero(r.stressIndex)))
  }

  /** A `deviations` entry. */
  datatype Deviation = Deviation(value: real, baseline: real, deviation: real)

  /** The result dictionary. */
  datatype Detection = Detection(
    isAnomaly: bool,
    anomalyScore: real,
    signals: seq<Signal>,
    explanation: string,
    deviations: map<Signal, Deviation>,
    baseline: Config.Baseline,
    timeContext: MockStore.TimeSlot)

  const NoiseDeviation: real := 15.0
  const TempDeviation: real := 5.0
  const AqiDeviation: real := 30.0
  const CrowdDeviation: real := 10.0

  predicate NoiseSignal(x: Inputs, b: Config.Baseline) {
    x.noise > Config.NoiseCritical || x.noise - b.noise > NoiseDeviation
  }
  predicate HeatSignal(x: Inputs, b: Config.Baseline) {
    x.temperature > Config.TempCritical || x.temperature - b.temp > TempDeviation
  }
  predicate AirQualitySignal(x: Inputs, b: Config.Baseline) {
    x.airQuality as real > Config.AqiCritical || x.airQuality as real - b.aqi > AqiDeviation
  }
  predicate CrowdSignal(x: Inputs, b: Config.Baseline) {
    x.crowdDensity as real > Config.CrowdCritical || x.crowdDensity as real - b.crowd > CrowdDeviation
  }

  function Fired(x: Inputs, b: Config.Baseline): nat {
    (if NoiseSignal(x, b) then 1 else 0) + (if HeatSignal(x, b) then 1 else 0)
    + (if AirQualitySignal(x, b) then 1 else 0) + (if CrowdSignal(x, b) then 1 else 0)
  }

  /** The four checks, each appending its signal in turn. */
  function DetectedSignals(x: Inputs, b: Config.Baseline): (signals: seq<Signal>)
    ensures InPriorityOrder(signals)
    ensures forall s :: s in signals ==> s in {Noise, Heat, AirQuality, Crowd}
    ensures Noise in signals <==> NoiseSignal(x, b)
    ensures Heat in signals <==> HeatSignal(x, b)
    ensures AirQuality in signals <==> AirQualitySignal(x, b)
    ensures Crowd in signals <==> CrowdSignal(x, b)
    ensures |signals| == Fired(x, b)
  {
    CheckSignals(NoiseSignal(x, b), HeatSignal(x, b), AirQualitySignal(x, b), CrowdSignal(x, b))
  }

  /** The `deviations` dictionary, one entry per signal that fired. */
  function Deviations(x: Inputs, b: Config.Baseline): (d: map<Signal, Deviation>)
    ensures forall s :: s in d ==> s in {Noise, Heat, AirQuality, Crowd}
    ensures Noise in d <==> NoiseSignal(x, b)
    ensures Heat in d <==> HeatSignal(x, b)
    ensures AirQuality in d <==> AirQualitySignal(x, b)
    ensures Crowd in d <==> CrowdSignal(x, b)
    ensures Noise in d ==> d[Noise] == Deviation(x.noise, b.noise, x.noise - b.noise)
    ensures Heat in d ==> d[Heat] == Deviation(x.temperature, b.temp, x.temperature - b.temp)
    ensures AirQuality in d ==> d[AirQuality] == Deviation(x.airQuality as real, b.aqi, x.airQuality as real - b.aqi)
    ensures Crowd in d ==> d[Crowd] == Deviation(x.crowdDensity as real, b.crowd, x.crowdDensity as real - b.crowd)
  {
    var d0: map<Signal, Deviation> := map[];
    var d1 := if NoiseSignal(x, b) then d0[Noise := Deviation(x.noise, b.noise, x.noise - b.noise)] else d0;
    var d2 := if HeatSignal(x, b) then d1[Heat := Deviation(x.temperature, b.temp, x.temperature - b.temp)] else d1;
    var d3 := if AirQualitySignal(x, b)
              then d2[AirQuality := Deviation(x.airQuality as real, b.aqi, x.airQuality as real - b.aqi)] else d2;
    if CrowdSignal(x, b)
    then d3[Crowd := Deviation(x.crowdDensity as real, b.crowd, x.crowdDensity as real - b.crowd)] else d3
  }

  /** The keys of `deviations` are exactly the signals. */
  lemma DeviationKeysAreSignals(x: Inputs, b: Config.Baseline)
    ensures Deviations(x, b).Keys == set s | s in DetectedSignals(x, b)
  {
    var d := Deviations(x, b);
    var signals := DetectedSignals(x, b);
    forall s ensures s in d.Keys <==> s in signals {
      if s !in {Noise, Heat, AirQuality, Crowd} {
        assert s !in d && s !in signals;
      }
    }
  }

  /** `round(min(stress_index / 100.0, 0.99), 3)`: never above 0.99, and not negative
    * for a non-negative index. */
  function Score(stressIndex: int): (score: real)
    ensures score <= 0.99
    ensures stressIndex >= 0 ==> score >= 0.0
    ensures score == PyRound3(Min(stressIndex as real / 100.0, 0.99))
  {
    var m := Min(stressIndex as real / 100.0, 0.99);
    PyRoundMonotone(m * 1000.0, 990.0);
    if stressIndex >= 0 then
      PyRoundMonotone(0.0, m * 1000.0);
      PyRound3(m)
    else PyRound3(m)
  }

  /** The node's configured name, or `this sector`. */
  function Location(nodeKey: string): string {
    match Config.NodeConfig(nodeKey)
    case Some(info) => info.name
    case None => "this sector"
  }

  function NominalExplanation(slot: MockStore.TimeSlot, location: string): string {
    "Sensing parameters nominal for " + Config.SlotName(slot) + " at " + location + ". No intervention required."
  }

  /** The sentence one signal contributes. AQI and crowd values are integers, so they
    * print as integers; the AQI baseline is a float once scaled by its season. */
  function PartFor(sig: Signal, dev: Deviation, slot: MockStore.TimeSlot, fmt: Formatter): string {
    match sig
    case Noise =>
      "Noise " + fmt.repr(dev.value) + " dB is " + fmt.fixed0(dev.deviation) + " dB above Mohali "
      + Config.SlotName(slot) + " baseline"
    case Heat =>
      "Temperature " + fmt.repr(dev.value) + "C indicates thermal stress (" + fmt.fixed1(dev.deviation)
      + "C above baseline)"
    case AirQuality =>
      "AQI " + IntToString(dev.value.Floor) + " exceeds safe levels (baseline: " + fmt.repr(dev.baseline) + ")"
    case Crowd =>
      "Crowd density " + IntToString(dev.value.Floor) + " above typical " + Config.SlotName(slot) + " levels"
    case _ => ""
  }

  /** `if sig in signals: explanations.append(...)`. */
  function PartIf(signals: seq<Signal>, deviations: map<Signal, Deviation>, sig: Signal,
                  slot: MockStore.TimeSlot, fmt: Formatter): seq<string>
  {
    if sig in signals && sig in deviations then [PartFor(sig, deviations[sig], slot, fmt)] else []
  }

  /** The sentences, in the fixed noise, heat, AQI, crowd order. */
  function ExplanationParts(signals: seq<Signal>, deviations: map<Signal, Deviation>,
                            slot: MockStore.TimeSlot, fmt: Formatter): seq<string>
  {
    PartIf(signals, deviations, Noise, slot, fmt) + PartIf(signals, deviations, Heat, slot, fmt)
    + PartIf(signals, deviations, AirQuality, slot, fmt) + PartIf(signals, deviations, Crowd, slot, fmt)
  }

  /** `_generate_explanation`. */
  function GenerateExplanation(signals: seq<Signal>, deviations: map<Signal, Deviation>,
                               slot: MockStore.TimeSlot, nodeKey: string, fmt: Formatter): (text: string)
    ensures signals == [] ==> text == NominalExplanation(slot, Location(nodeKey))
    ensures signals != [] ==> StartsWith(text, "Alert at " + Location(nodeKey) + ": ")
  {
    if signals == [] then NominalExplanation(slot, Location(nodeKey))
    else
      var base := "Alert at " + Location(nodeKey) + ": ";
      PrefixThenRest(base, Join(ExplanationParts(signals, deviations, slot, fmt), ". "));
      base + Join(ExplanationParts(signals, deviations, slot, fmt), ". ")
  }

  /** `detect` on the converted body, with the hour and month of `datetime.now()`. */
  function DetectInputs(x: Inputs, hour: int, month: int, fmt: Formatter): (result: Detection)
    requires 1 <= month <= 12
    ensures var b := Config.GetBaseline(x.nodeKey, hour, Some(month));
      && result.baseline == b
      && result.timeContext == MockStore.GetTimeSlot(hour)
      && result.signals == DetectedSignals(x, b)
      && result.deviations == Deviations(x, b)
      && result.deviations.Keys == set s | s in result.signals
      && (result.isAnomaly <==> x.stressIndex > Config.StressCritical || |result.signals| >= 2)
      && result.anomalyScore == Score(x.stressIndex)
      && result.explanation == GenerateExplanation(result.signals, result.deviations,
                                                   result.timeContext, x.nodeKey, fmt)
  {
    var baseline := Config.GetBaseline(x.nodeKey, hour, Some(month));
    DeviationKeysAreSignals(x, baseline);
    var slot := MockStore.GetTimeSlot(hour);
    var signals := DetectedSignals(x, baseline);
    var deviations := Deviations(x, baseline);
    var isAnomaly := x.stressIndex > Config.StressCritical || |signals| >= 2;
    Detection(isAnomaly, Score(x.stressIndex), signals,
              GenerateExplanation(signals, deviations, slot, x.nodeKey, fmt),
              deviations, baseline, slot)
  }

  /** `detect`. */
  function Detect(reading: RawReading, hour: int, month: int, fmt: Formatter): (d: Detection)
    requires 1 <= month <= 12
    ensures var x := Normalize(reading);
      && d.timeContext == MockStore.GetTimeSlot(hour)
      && d.baseline == Config.GetBaseline(x.nodeKey, hour, Some(month))
      && d.signals == DetectedSignals(x, d.baseline)
      && (d.isAnomaly <==> x.stressIndex > Config.StressCritical || |d.signals| >= 2)
  {
    DetectInputs(Normalize(reading), hour, month, fmt)
  }

  /** One signal alone does not make an anomaly below the critical index. */
  lemma SingleSignalIsNotEnough(reading: RawReading, hour: int, month: int, fmt: Formatter)
    requires 1 <= month <= 12
    requires |Detect(reading, hour, month, fmt).signals| <= 1
    requires Normalize(reading).stressIndex <= Config.StressCritical
    ensures !Detect(reading, hour, month, fmt).isAnomaly
  {
    assert Detect(reading, hour, month, fmt) == DetectInputs(Normalize(reading), hour, month, fmt);
  }

  /** A missing key reads as 0. */
  lemma MissingFieldsReadAsZero(reading: RawReading, hour: int, month: int, fmt: Formatter)
    requires 1 <= month <= 12
    ensures Detect(reading.(noise := None), hour, month, fmt) == Detect(reading.(noise := Some(0.0)), hour, month, fmt)
    ensures Detect(reading.(temperature := None), hour, month, fmt)
         == Detect(reading.(temperature := Some(0.0)), hour, month, fmt)
    ensures Detect(reading.(airQuality := None), hour, month, fmt)
         == Detect(reading.(airQuality := Some(0.0)), hour, month, fmt)
    ensures Detect(reading.(crowdDensity := None), hour, month, fmt)
         == Detect(reading.(crowdDensity := Some(0.0)), hour, month, fmt)
    ensures Detect(reading.(stressIndex := None), hour, month, fmt)
         == Detect(reading.(stressIndex := Some(0.0)), hour, month, fmt)
  {
    SameInputsSameDetection(reading.(noise := None), reading.(noise := Some(0.0)), hour, month, fmt);
    SameInputsSameDetection(reading.(temperature := None), reading.(temperature := Some(0.0)), hour, month, fmt);
    SameInputsSameDetection(reading.(airQuality := None), reading.(airQuality := Some(0.0)), hour, month, fmt);
    SameInputsSameDetection(reading.(crowdDensity := None), reading.(crowdDensity := Some(0.0)), hour, month, fmt);
    SameInputsSameDetection(reading.(stressIndex := None), reading.(stressIndex := Some(0.0)), hour, month, fmt);
  }

  /** `detect` sees a reading only through its normalised inputs. */
  lemma SameInputsSameDetection(a: RawReading, b: RawReading, hour: int, month: int, fmt: Formatter)
    requires 1 <= month <= 12
    requires a.nodeId == b.nodeId && OrZero(a.noise) == OrZero(b.noise)
          && OrZero(a.temperature) == OrZero(b.temperature) && OrZero(a.airQuality) == OrZero(b.airQuality)
          && OrZero(a.crowdDensity) == OrZero(b.crowdDensity) && OrZero(a.stressIndex) == OrZero(b.stressIndex)
    ensures Detect(a, hour, month, fmt) == Detect(b, hour, month, fmt)
  {
    assert Normalize(a) == Normalize(b);
  }

  /** The sentences of a list of signals, one each, in its order. */
  function PartsOf(signals: seq<Signal>, deviations: map<Signal, Deviation>,
                   slot: MockStore.TimeSlot, fmt: Formatter): (parts: seq<string>)
    requires forall s :: s in signals ==> s in deviations
    ensures |parts| == |signals|
    ensures forall i :: 0 <= i < |signals| ==> parts[i] == PartFor(signals[i], deviations[signals[i]], slot, fmt)
  {
    if signals == [] then []
    else [PartFor(signals[0], deviations[signals[0]], slot, fmt)] + PartsOf(signals[1..], deviations, slot, fmt)
  }

  lemma {:induction false} PartsOfAppend(a: seq<Signal>, b: seq<Signal>, deviations: map<Signal, Deviation>,
                      slot: MockStore.TimeSlot, fmt: Formatter)
    requires forall s :: s in a + b ==> s in deviations
    ensures PartsOf(a + b, deviations, slot, fmt) == PartsOf(a, deviations, slot, fmt) + PartsOf(b, deviations, slot, fmt)
    decreases |a|
  {
    if a == [] {
      assert a + b == b;
    } else {
      assert (a + b)[0] == a[0];
      assert (a + b)[1..] == a[1..] + b;
      PartsOfAppend(a[1..], b, deviations, slot, fmt);
    }
  }

  function Opt(fired: bool, sig: Signal): seq<Signal> {
    if fired then [sig] else []
  }

  lemma PartIfOfOpt(signals: seq<Signal>, deviations: map<Signal, Deviation>, sig: Signal, fired: bool,
                    slot: MockStore.TimeSlot, fmt: Formatter)
    requires sig in signals <==> fired
    requires fired ==> sig in deviations
    ensures PartIf(signals, deviations, sig, slot, fmt) == PartsOf(Opt(fired, sig), deviations, slot, fmt)
  {
    if fired {
      assert PartsOf(Opt(fired, sig), deviations, slot, fmt) == [PartFor(sig, deviations[sig], slot, fmt)];
    }
  }

  /** Whatever subset of the four signals fired, in priority order, the explanation
    * has one sentence per signal, in the order of the signals. */
  lemma ExplanationFollowsSignals(n: bool, h: bool, a: bool, c: bool, deviations: map<Signal, Deviation>,
                                  slot: MockStore.TimeSlot, fmt: Formatter)
    requires var signals := Opt(n, Noise) + Opt(h, Heat) + Opt(a, AirQuality) + Opt(c, Crowd);
      forall s :: s in signals ==> s in deviations
    ensures var signals := Opt(n, Noise) + Opt(h, Heat) + Opt(a, AirQuality) + Opt(c, Crowd);
      ExplanationParts(signals, deviations, slot, fmt) == PartsOf(signals, deviations, slot, fmt)
  {
    var on, oh, oa, oc := Opt(n, Noise), Opt(h, Heat), Opt(a, AirQuality), Opt(c, Crowd);
    var signals := on + oh + oa + oc;
    assert Noise in signals <==> n;
    assert Heat in signals <==> h;
    assert AirQuality in signals <==> a;
    assert Crowd in signals <==> c;
    PartIfOfOpt(signals, deviations, Noise, n, slot, fmt);
    PartIfOfOpt(signals, deviations, Heat, h, slot, fmt);
    PartIfOfOpt(signals, deviations, AirQuality, a, slot, fmt);
    PartIfOfOpt(signals, deviations, Crowd, c, slot, fmt);
    PartsOfAppend(on, oh, deviations, slot, fmt);
    PartsOfAppend(on + oh, oa, deviations, slot, fmt);
    PartsOfAppend(on + oh + oa, oc, deviations, slot, fmt);
  }

  /** The four checks append in priority order, each only when it fires. */
  lemma DetectedSignalsShape(x: Inputs, b: Config.Baseline)
    ensures DetectedSignals(x, b) == Opt(NoiseSignal(x, b), Noise) + Opt(HeatSignal(x, b), Heat)
                                   + Opt(AirQualitySignal(x, b), AirQuality) + Opt(CrowdSignal(x, b), Crowd)
  {
    var n, h, a, c := NoiseSignal(x, b), HeatSignal(x, b), AirQualitySignal(x, b), CrowdSignal(x, b);
    var s1 := PushIf([], n, Noise);
    var s2 := PushIf(s1, h, Heat);
    var s3 := PushIf(s2, a, AirQuality);
    assert s1 == Opt(n, Noise);
    assert s2 == Opt(n, Noise) + Opt(h, Heat);
    assert s3 == Opt(n, Noise) + Opt(h, Heat) + Opt(a, AirQuality);
  }

  /** The detector's own signals are of that shape, so its alert has one sentence per
    * signal, in signal order. */
  lemma DetectExplanationFollowsSignals(x: Inputs, b: Config.Baseline, slot: MockStore.TimeSlot, fmt: Formatter)
    ensures var signals := DetectedSignals(x, b);
      var deviations := Deviations(x, b);
      (forall s :: s in signals ==> s in deviations)
      && ExplanationParts(signals, deviations, slot, fmt) == PartsOf(signals, deviations, slot, fmt)
  {
    DetectedSignalsShape(x, b);
    ExplanationFollowsSignals(NoiseSignal(x, b), HeatSignal(x, b), AirQualitySignal(x, b), CrowdSignal(x, b),
                              Deviations(x, b), slot, fmt);
  }

  /** Without signals the text is the nominal message, with them the alert. */
  lemma ExplanationKind(reading: RawReading, hour: int, month: int, fmt: Formatter)
    requires 1 <= month <= 12
    ensures var r := Detect(reading, hour, month, fmt);
      var location := Location(Normalize(reading).nodeKey);
      (r.signals == [] ==> r.explanation == NominalExplanation(MockStore.GetTimeSlot(hour), location))
      && (r.signals != [] ==> StartsWith(r.explanation, "Alert at " + location + ": "))
  {
    assert Detect(reading, hour, month, fmt) == DetectInputs(Normalize(reading), hour, month, fmt);
  }
}
