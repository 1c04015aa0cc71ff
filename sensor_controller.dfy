/** The backend's sensor controller: the ingest handler that validates, scores,
  * persists, classifies and broadcasts a reading, and the live-view row mapping. */
module SensorController {
  import opened Common
  import opened Readings
  import StressIndex
  import MlService
  import MockStore
  import WebSocketHub

  // ---------------------------------------------------------------------
  // Live view
  // ---------------------------------------------------------------------

  /** The `sensors` object of a live-view entry. */
  datatype LiveSensors = LiveSensors(noise: real, temp: real, airQuality: real, crowd: real)

  /** `generateExplanation(stressIndex, sensors)`. */
  function GenerateExplanation(stressIndex: int, sensors: LiveSensors): (e: string)
    ensures stressIndex > 80 <==> e in CriticalMessages
    ensures stressIndex <= 55 <==> e == MockStore.NominalMessage
  {
    if stressIndex > 80 then
      if sensors.noise > 85.0 then MockStore.CriticalNoiseMessage
      else if sensors.temp > 32.0 then MockStore.HeatMessage
      else MockStore.MultiSensorMessage
    else if stressIndex > 55 then MockStore.ElevatedMessage
    else MockStore.NominalMessage
  }

  /** The branches: above 80 noise, then heat, then the multi-sensor message; above
    * 55 the elevated message; otherwise nominal. */
  lemma ExplanationCases(stressIndex: int, sensors: LiveSensors)
    ensures stressIndex > 80 && sensors.noise > 85.0
      ==> GenerateExplanation(stressIndex, sensors) == MockStore.CriticalNoiseMessage
    ensures stressIndex > 80 && sensors.noise <= 85.0 && sensors.temp > 32.0
      ==> GenerateExplanation(stressIndex, sensors) == MockStore.HeatMessage
    ensures stressIndex > 80 && sensors.noise <= 85.0 && sensors.temp <= 32.0
      ==> GenerateExplanation(stressIndex, sensors) == MockStore.MultiSensorMessage
    ensures 55 < stressIndex <= 80 ==> GenerateExplanation(stressIndex, sensors) == MockStore.ElevatedMessage
    ensures stressIndex <= 55 ==> GenerateExplanation(stressIndex, sensors) == MockStore.NominalMessage
  {
  }

  /** The mock generator's copy is the same rule over the reading's field names. */
  lemma MockExplanationMatches(data: Reading)
    ensures MockStore.GenerateExplanation(data)
         == GenerateExplanation(data.stressIndex, LiveSensors(data.noise, data.temperature, data.airQuality, data.crowdDensity))
  {
  }

  /** A row of the live query: the newest reading of a node joined with the node. */
  datatype LiveRow = LiveRow(
    time: int, nodeId: string, noise: real, temperature: real, airQuality: real, crowdDensity: real,
    stressIndex: int, name: string, latitude: real, longitude: real, sector: string, zoneType: string)

  /** A live-view entry. */
  datatype LiveNode = LiveNode(
    nodeId: string, name: string, coordinates: (real, real), sensors: LiveSensors, stressIndex: int,
    isAnomaly: bool, aiExplanation: string, timestamp: int, sector: string, zoneType: string)

  const CriticalMessages: set<string> :=
    {MockStore.CriticalNoiseMessage, MockStore.HeatMessage, MockStore.MultiSensorMessage}

  /** The row map of `getLive`: coordinates as (longitude, latitude), the anomaly flag
    * set above 80, which is exactly when the explanation is one of the critical ones. */
  function ToLiveNode(row: LiveRow): (node: LiveNode)
    ensures node.isAnomaly <==> row.stressIndex > 80
    ensures node.isAnomaly <==> node.aiExplanation in CriticalMessages
    ensures node.coordinates == (row.longitude, row.latitude)
    ensures node.sensors == LiveSensors(row.noise, row.temperature, row.airQuality, row.crowdDensity)
    ensures node.nodeId == row.nodeId && node.stressIndex == row.stressIndex && node.timestamp == row.time
    ensures node.name == row.name && node.sector == row.sector && node.zoneType == row.zoneType
    ensures node.aiExplanation == GenerateExplanation(row.stressIndex, node.sensors)
  {
    var sensors := LiveSensors(row.noise, row.temperature, row.airQuality, row.crowdDensity);
    LiveNode(row.nodeId, row.name, (row.longitude, row.latitude), sensors, row.stressIndex,
             row.stressIndex > 80, GenerateExplanation(row.stressIndex, sensors), row.time, row.sector, row.zoneType)
  }

  // ---------------------------------------------------------------------
  // Ingest
  // ---------------------------------------------------------------------

  /** The request body; a missing or empty `node_id` is "". */
  datatype IngestRequest = IngestRequest(nodeId: string, noise: real, temperature: real, airQuality: real, crowdDensity: real)

  datatype HttpResponse =
    | Success(data: Reading)          // 200 `{ success: true, data: reading }`
    | BadRequest(error: string)       // 400
    | ServerError(error: string)      // 500

  /** A row of the `anomalies` table. */
  datatype AnomalyRow = AnomalyRow(
    time: int, nodeId: string, anomalyScore: Option<real>, signals: Option<seq<Signal>>,
    explanation: Option<string>, stressIndex: int)

  /** The effects of one ingest that took place, in order. */
  datatype Effect =
    | StoredInMock(reading: Reading)
    | InsertedReading(reading: Reading)
    | DetectorCalled(reading: Reading)
    | InsertedAnomaly(row: AnomalyRow)
    | Broadcast(message: Message)

  /** Which database statements throw (the store is external; it only appends or fails). */
  datatype Faults = Faults(readingInsertThrows: bool, anomalyInsertThrows: bool)

  datatype Outcome = Outcome(response: HttpResponse, effects: seq<Effect>)

  /** The reading object built from the body, before any anomaly is attached. */
  function NewReading(req: IngestRequest, now: int): (r: Reading)
    ensures r.stressIndex == StressIndex.CalculateStressIndex(
      StressIndex.SensorValues(req.noise, req.temperature, req.airQuality, req.crowdDensity))
    ensures 0 <= r.stressIndex <= 100
    ensures r.anomaly == None && r.time == now && r.nodeId == req.nodeId
  {
    var stressIndex := StressIndex.CalculateStressIndex(
      StressIndex.SensorValues(req.noise, req.temperature, req.airQuality, req.crowdDensity));
    Reading(now, req.nodeId, req.noise, req.temperature, req.airQuality, req.crowdDensity, stressIndex, None)
  }

  function AnomalyRowOf(reading: Reading, result: AnomalyResult): AnomalyRow {
    AnomalyRow(reading.time, reading.nodeId, result.anomalyScore, result.signals, result.explanation,
               reading.stressIndex)
  }

  const NodeIdRequired: string := "node_id required"
  const IngestFailed: string := "Failed to ingest data"

  /** The steps of `ingest` after the detector answered: the anomaly row (database
    * mode only), the attached result and the broadcast; the effects that follow the
    * detector call. */
  function PublishPlan(reading: Reading, useMock: bool, result: Option<AnomalyResult>, anomalyInsertThrows: bool)
    : Outcome
  {
    var anomalous := result.Some? && result.value.isAnomaly;
    if anomalous && !useMock && anomalyInsertThrows then Outcome(ServerError(IngestFailed), [])
    else
      var stored := if anomalous && !useMock then [InsertedAnomaly(AnomalyRowOf(reading, result.value))] else [];
      var final := if anomalous then reading.(anomaly := result) else reading;
      Outcome(Success(final), stored + [Broadcast(Message("reading", final))])
  }

  /** After the detector answered, only an anomaly insert and the broadcast can happen;
    * the insert only in database mode, for an anomalous result, with that result's row. */
  lemma PublishEffects(reading: Reading, useMock: bool, result: Option<AnomalyResult>, anomalyInsertThrows: bool)
    ensures var effects := PublishPlan(reading, useMock, result, anomalyInsertThrows).effects;
      forall i :: 0 <= i < |effects| ==>
        (effects[i].InsertedAnomaly? || effects[i].Broadcast?)
        && (effects[i].InsertedAnomaly? ==> !useMock && result.Some? && result.value.isAnomaly
                                             && effects[i].row == AnomalyRowOf(reading, result.value))
    ensures var o := PublishPlan(reading, useMock, result, anomalyInsertThrows);
      o.response.Success? ==>
        && o.response.data == (if result.Some? && result.value.isAnomaly then reading.(anomaly := result) else reading)
        && |o.effects| >= 1
        && o.effects[|o.effects| - 1] == Broadcast(Message("reading", o.response.data))
        && (forall i :: 0 <= i < |o.effects| - 1 ==> !o.effects[i].Broadcast?)
  {
  }

  /** What `ingest` does, step by step: the response it sends and the effects it has.
    * `detect` is the anomaly decision for the stored reading, `detectAnomaly`'s result. */
  function IngestPlan(req: IngestRequest, useMock: bool, detect: Reading -> Option<AnomalyResult>, now: int,
                      faults: Faults): (o: Outcome)
    ensures o.response.BadRequest? <==> req.nodeId == ""
    // only a database statement can throw: mock mode never answers 500
    ensures o.response.ServerError? ==> !useMock
    // nothing happens exactly when the request stops before its first write
    ensures o.effects == [] <==> req.nodeId == "" || (!useMock && faults.readingInsertThrows)
  {
    if req.nodeId == "" then Outcome(BadRequest(NodeIdRequired), [])
    else
      var reading := NewReading(req, now);
      if !useMock && faults.readingInsertThrows then Outcome(ServerError(IngestFailed), [])
      else
        var persisted := if useMock then StoredInMock(reading) else InsertedReading(reading);
        var rest := PublishPlan(reading, useMock, detect(reading), faults.anomalyInsertThrows);
        Outcome(rest.response, [persisted, DetectorCalled(reading)] + rest.effects)
  }

  /** A falsy `node_id` is answered with 400 and nothing else happens. */
  lemma MissingNodeIdRejected(req: IngestRequest, useMock: bool,
                              detect: Reading -> Option<AnomalyResult>, now: int, faults: Faults)
    ensures req.nodeId == "" <==>
      IngestPlan(req, useMock, detect, now, faults) == Outcome(BadRequest(NodeIdRequired), [])
  {
  }

  /** A successful ingest answers with the scored reading, attaches the detector's
    * result exactly when it is non-null and anomalous, and broadcasts that same
    * reading once, as its last effect. */
  lemma SuccessfulIngest(req: IngestRequest, useMock: bool,
                         detect: Reading -> Option<AnomalyResult>, now: int, faults: Faults)
    requires IngestPlan(req, useMock, detect, now, faults).response.Success?
    ensures var o := IngestPlan(req, useMock, detect, now, faults);
      var data := o.response.data;
      var result := detect(NewReading(req, now));
      && data.(anomaly := None) == NewReading(req, now)
      && (data.anomaly.Some? <==> result.Some? && result.value.isAnomaly)
      && (data.anomaly.Some? ==> data.anomaly == result)
      && |o.effects| >= 3
      && o.effects[|o.effects| - 1] == Broadcast(Message("reading", data))
      && (forall i :: 0 <= i < |o.effects| - 1 ==> !o.effects[i].Broadcast?)
  {
    var o := IngestPlan(req, useMock, detect, now, faults);
    var reading := NewReading(req, now);
    var result := detect(reading);
    PublishEffects(reading, useMock, result, faults.anomalyInsertThrows);
    var rest := PublishPlan(reading, useMock, result, faults.anomalyInsertThrows);
    var persisted := if useMock then StoredInMock(reading) else InsertedReading(reading);
    assert o == Outcome(rest.response, [persisted, DetectorCalled(reading)] + rest.effects);
    forall i | 2 <= i < |o.effects| ensures o.effects[i] == rest.effects[i - 2] {
    }
  }

  /** The reading is persisted (to the mock store or the database) strictly before
    * the detector is called, and the detector is called only after a persisted write. */
  lemma PersistBeforeDetect(req: IngestRequest, useMock: bool,
                            detect: Reading -> Option<AnomalyResult>, now: int, faults: Faults)
    ensures var effects := IngestPlan(req, useMock, detect, now, faults).effects;
      forall i :: 0 <= i < |effects| && effects[i].DetectorCalled? ==>
        exists j :: 0 <= j < i && (effects[j].StoredInMock? || effects[j].InsertedReading?)
    // conversely, once the write went through, the detector is called next, on the
    // stored reading, and never again
    ensures var effects := IngestPlan(req, useMock, detect, now, faults).effects;
      var reading := NewReading(req, now);
      req.nodeId != "" && (useMock || !faults.readingInsertThrows) ==>
        && |effects| >= 2
        && effects[..2] == [if useMock then StoredInMock(reading) else InsertedReading(reading), DetectorCalled(reading)]
        && forall i :: 2 <= i < |effects| ==> !effects[i].DetectorCalled?
  {
    var effects := IngestPlan(req, useMock, detect, now, faults).effects;
    if req.nodeId != "" && (useMock || !faults.readingInsertThrows) {
      var reading := NewReading(req, now);
      var result := detect(reading);
      PublishEffects(reading, useMock, result, faults.anomalyInsertThrows);
      var rest := PublishPlan(reading, useMock, result, faults.anomalyInsertThrows).effects;
      var persisted := if useMock then StoredInMock(reading) else InsertedReading(reading);
      assert effects == [persisted, DetectorCalled(reading)] + rest;
      forall i | 2 <= i < |effects| ensures effects[i] == rest[i - 2] {
      }
      forall i | 0 <= i < |effects| && effects[i].DetectorCalled?
        ensures exists j :: 0 <= j < i && (effects[j].StoredInMock? || effects[j].InsertedReading?)
      {
        assert i == 1 && effects[0] == persisted;
      }
    }
  }

  /** An anomaly row is inserted only for an anomalous result and only in database
    * mode; the mock store never receives one. Mock writes and database writes
    * exclude each other. */
  lemma AnomalyStoredOnlyInDatabaseMode(req: IngestRequest, useMock: bool,
                                        detect: Reading -> Option<AnomalyResult>, now: int, faults: Faults)
    ensures var effects := IngestPlan(req, useMock, detect, now, faults).effects;
      var result := detect(NewReading(req, now));
      forall i :: 0 <= i < |effects| ==>
        (effects[i].InsertedAnomaly? ==> !useMock && result.Some? && result.value.isAnomaly
                                          && effects[i].row == AnomalyRowOf(NewReading(req, now), result.value))
        && (effects[i].StoredInMock? ==> useMock)
        && (effects[i].InsertedReading? ==> !useMock)
  {
    var effects := IngestPlan(req, useMock, detect, now, faults).effects;
    if req.nodeId != "" && (useMock || !faults.readingInsertThrows) {
      var reading := NewReading(req, now);
      var result := detect(reading);
      PublishEffects(reading, useMock, result, faults.anomalyInsertThrows);
      var rest := PublishPlan(reading, useMock, result, faults.anomalyInsertThrows).effects;
      var persisted := if useMock then StoredInMock(reading) else InsertedReading(reading);
      assert effects == [persisted, DetectorCalled(reading)] + rest;
      forall i | 2 <= i < |effects| ensures effects[i] == rest[i - 2] {
      }
    }
  }

  /** A throwing database statement ends the request with 500 and no broadcast; a failed
    * reading insert also skips the detector. */
  lemma ThrownErrorIs500(req: IngestRequest, useMock: bool,
                         detect: Reading -> Option<AnomalyResult>, now: int, faults: Faults)
    requires req.nodeId != "" && !useMock
    requires faults.readingInsertThrows
      || (faults.anomalyInsertThrows
          && var r := detect(NewReading(req, now)); r.Some? && r.value.isAnomaly)
    ensures var o := IngestPlan(req, useMock, detect, now, faults);
      o.response == ServerError(IngestFailed)
      && (forall i :: 0 <= i < |o.effects| ==> !o.effects[i].Broadcast?)
      && (faults.readingInsertThrows ==> o.effects == [])
  {
  }

  /** Mock mode never fails. */
  lemma MockIngestSucceeds(req: IngestRequest,
                           detect: Reading -> Option<AnomalyResult>, now: int, faults: Faults)
    requires req.nodeId != ""
    ensures IngestPlan(req, true, detect, now, faults).response.Success?
  {
  }

  /** The database behind `query`: two append-only tables whose inserts may throw. */
  class Database {
    var readings: seq<Reading>
    var anomalies: seq<AnomalyRow>

    constructor ()
      ensures readings == [] && anomalies == []
    {
      readings := [];
      anomalies := [];
    }

    /** `INSERT INTO sensor_readings`. */
    method InsertReading(r: Reading, throws: bool)
      modifies this`readings
      ensures readings == if throws then old(readings) else old(readings) + [r]
    {
      if !throws {
        readings := readings + [r];
      }
    }

    /** `INSERT INTO anomalies`. */
    method InsertAnomaly(row: AnomalyRow, throws: bool)
      modifies this`anomalies
      ensures anomalies == if throws then old(anomalies) else old(anomalies) + [row]
    {
      if !throws {
        anomalies := anomalies + [row];
      }
    }
  }

  /** The part of `ingest` that follows the detector call. */
  method Publish(reading: Reading, useMock: bool, result: Option<AnomalyResult>, anomalyInsertThrows: bool,
                 db: Database, hub: WebSocketHub.Hub)
    returns (response: HttpResponse, ghost effects: seq<Effect>)
    modifies db`anomalies, hub`clients
    ensures Outcome(response, effects) == PublishPlan(reading, useMock, result, anomalyInsertThrows)
    ensures db.anomalies == if result.Some? && result.value.isAnomaly && !useMock && !anomalyInsertThrows
                            then old(db.anomalies) + [AnomalyRowOf(reading, result.value)]
                            else old(db.anomalies)
    ensures hub.clients == if response.Success? && hub.initialised
                           then WebSocketHub.Delivered(old(hub.clients), hub.stringify(Message("reading", response.data)))
                           else old(hub.clients)
  {
    var final := reading;
    effects := [];
    if result.Some? && result.value.isAnomaly {
      if !useMock {
        var row := AnomalyRowOf(reading, result.value);
        db.InsertAnomaly(row, anomalyInsertThrows);
        if anomalyInsertThrows {
          response := ServerError(IngestFailed);
          return;
        }
        effects := [InsertedAnomaly(row)];
      }
      final := reading.(anomaly := result);
    }
    var message := Message("reading", final);
    hub.Broadcast(message);
    effects := effects + [Broadcast(message)];
    response := Success(final);
  }

  /** `ingest`, against the mock store, the database, the WebSocket hub and the ML
    * service's response; `now` is `new Date()`. */
  method Ingest(req: IngestRequest, useMock: bool, store: MockStore.Store, db: Database, hub: WebSocketHub.Hub,
                detector: MlService.Response<AnomalyResult>, numberText: real -> string, now: int, faults: Faults)
    returns (response: HttpResponse, ghost effects: seq<Effect>)
    modifies store`readings, db`readings, db`anomalies, hub`clients
    ensures Outcome(response, effects) == IngestPlan(req, useMock, r => MlService.DetectAnomaly(detector, r, numberText), now, faults)
    // the mock store takes the new reading (and nothing else) in mock mode
    ensures store.readings == if useMock && req.nodeId != ""
                              then MockStore.Added(old(store.readings), NewReading(req, now))
                              else old(store.readings)
    ensures db.readings == if !useMock && req.nodeId != "" && !faults.readingInsertThrows
                           then old(db.readings) + [NewReading(req, now)]
                           else old(db.readings)
    // the anomaly row goes to the database, in database mode, for an anomalous result
    ensures var result := MlService.DetectAnomaly(detector, NewReading(req, now), numberText);
      db.anomalies == if req.nodeId != "" && !useMock && !faults.readingInsertThrows && !faults.anomalyInsertThrows
                         && result.Some? && result.value.isAnomaly
                      then old(db.anomalies) + [AnomalyRowOf(NewReading(req, now), result.value)]
                      else old(db.anomalies)
    // every open client receives the serialised reading once, for a successful ingest only
    ensures hub.clients == if response.Success? && hub.initialised
                           then WebSocketHub.Delivered(old(hub.clients), hub.stringify(Message("reading", response.data)))
                           else old(hub.clients)
  {
    if req.nodeId == "" {
      response := BadRequest(NodeIdRequired);
      effects := [];
      return;
    }
    var reading := NewReading(req, now);
    var persisted: Effect;
    if useMock {
      store.AddReading(reading);
      persisted := StoredInMock(reading);
    } else {
      db.InsertReading(reading, faults.readingInsertThrows);
      if faults.readingInsertThrows {
        response := ServerError(IngestFailed);
        effects := [];
        return;
      }
      persisted := InsertedReading(reading);
    }
    var result := MlService.DetectAnomaly(detector, reading, numberText);
    ghost var rest;
    response, rest := Publish(reading, useMock, result, faults.anomalyInsertThrows, db, hub);
    effects := [persisted, DetectorCalled(reading)] + rest;
  }
}
