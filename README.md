# CityPulse sensing core in Dafny

This project models the decision logic of CityPulse, a dashboard that watches urban stress in Mohali. It covers three parts.

- **Backend (Node).**
  - The ingest handler: it validates a reading, scores it with the stress-index formula, persists it, asks the ML service for an anomaly decision, records the anomaly and broadcasts the reading to WebSocket clients.
  - The in-memory mock store: newest-first, capped at 2000 entries, with a history query capped at 500.
  - The ML client: a threshold fallback and the outcome selection of its HTTP calls.
  - The broadcast filter.
- **Frontend.**
  - The demo data helpers: the frontend copy of the stress formula, clamped per-node drift, the activity-log classifier and the rolling 20-point history.
  - The API client: the listener registry, message dispatch and the URLs it builds.
- **ML service (Python).**
  - The configuration lookups: time slot, season and baseline.
  - The rule-based anomaly detector and its explanation text.
  - The forecaster's step schedule, confidence, node selection, trend and return shape.

## How the model is organised

Each source file is its own module, plus three shared helper modules.

| module | file | models |
|---|---|---|
| `Common`, `Decimal`, `Rounding` | `common.dfy`, `decimal.dfy`, `rounding.dfy` | Shared helpers: `Option`, string helpers, decimal text of integers, and how the two runtimes round |
| `StressIndex` | `stress_index.dfy` | `calculateStressIndex` in `BE/src/controllers/sensorController.js` |
| `Readings` | `readings.dfy` | The reading object, the anomaly decision, the signal labels and their priority |
| `SensorController` | `sensor_controller.dfy` | `ingest`, `generateExplanation`, the `getLive` row map |
| `MlService` | `ml_service.dfy` | `BE/src/services/mlService.js` |
| `MockStore` | `mock_store.dfy` | `BE/src/db/mockStore.js` |
| `WebSocketHub` | `websocket.dfy` | `BE/src/sockets/websocket.js` |
| `MockData` | `fe_mock_data.dfy` | `FE/src/lib/mockData.ts` |
| `Api` | `fe_api.dfy` | `FE/src/lib/api.ts` |
| `Config` | `py_config.dfy` | `Model/config.py` |
| `AnomalyDetector` | `py_anomaly_detector.dfy` | `Model/inference/anomaly_detector.py` |
| `Forecaster` | `py_forecaster.dfy` | `Model/inference/forecaster.py` |

Where the source changes state in place, the model is a class:

- `MockStore.Store` holds the readings array.
- `WebSocketHub.Hub` holds the server handle and its client list.
- `SensorController.Database` holds the two tables, whose inserts may throw.
- `MockData.StableSensorStore` holds the drift map.
- `Api.ApiService` holds the socket slot and the listener map.

Each method is proved against a specification function. The properties are proved as lemmas about that function.

External inputs become parameters:

- **Clock:** `now`, `hour`, `month`, and `at` for the forecaster's future instants.
- **Random draws:** `Draws`, `Jitter` and `generate`.
- **`JSON.stringify`:** the hub's `stringify`.
- **Number-to-text conversions:** `numberText` and `Formatter`.
- **Network outcomes:** `MlService.Response`, which is `Ok(body)`, `NotOk` or `Threw`.
- **The detector's decision:** `SensorController.IngestPlan` and its lemmas take it as a function `detect` of the stored reading, so they hold for any decision. `SensorController.Ingest` supplies `detectAnomaly`'s result.

A falsy JavaScript string (`undefined`, `null` or `""`) is modelled as `""`. Sensor values are `real`.

Rounding differs by runtime:

- JavaScript `Math.round` is `floor(x + 1/2)`: a tie rounds up, and `-2.5` rounds to `-2`.
- Python `round` sends a tie to the even neighbour.

The model keeps both, in `Rounding`.

### Behaviour of the code worth knowing

- **Rounding:** the backend's `Math.round` rounds half upward, so a negative tie goes toward zero.
- **Detector failures:** a non-success response from the ML service yields `null`, and there is no fallback (`BE/src/services/mlService.js:11-14`). Only a thrown fetch or parse error falls back to the threshold heuristic.
- **Anomaly insert failure:** in database mode, a failing anomaly insert aborts the whole ingest with 500 (`sensorController.js:47-51,60-63`). The reading row is already stored, and nothing is broadcast.
- **Mock mode:** no anomaly is ever stored. `mockStore.js` has no way to append one.
- **Closed clients:** `broadcast` removes no one from the client list. It only skips clients that are not open.
- **Reading time:** `addReading` keeps the caller's `time`, because the spread of the reading overrides the default `new Date()`.

## Model

| member | source | states |
|---|---|---|
| StressIndex.SubScore | BE/src/controllers/sensorController.js:10-13 | A sub-score never exceeds 100. Below the cap it is the linear scale `(value-low)*100/span`; at or above `low+span` it is exactly 100. |
| StressIndex.WeightedScore | BE/src/controllers/sensorController.js:15-17 | The weighted sum before rounding is at most 100. |
| StressIndex.CalculateStressIndex | BE/src/controllers/sensorController.js:9-18 | The index is an integer in 0..100. It is 0 exactly when the weighted score is below 0.5. Otherwise it is within half a point of the weighted score. |
| StressIndex.WeightsSumToOne | BE/src/controllers/sensorController.js:16 | The weights 0.4, 0.25, 0.2 and 0.15 sum to 1. |
| StressIndex.StressIndexMonotone | BE/src/controllers/sensorController.js:10-17 | Raising any of noise, temperature, air quality or crowd density never lowers the index. |
| StressIndex.WorkedExample | BE/src/controllers/sensorController.js:9-18 | For noise 90, temp 20, AQI 50 and crowd 5, the weighted score is 47.5 and the index is 48, because a tie rounds up. |
| StressIndex.NominalExample | BE/src/controllers/sensorController.js:9-18 | A nominal reading (50, 22, 60, 3) scores 23. |
| Rounding.JsRound | BE/src/controllers/sensorController.js:15 | `Math.round` gives the integer `r` with `x-0.5 < r <= x+0.5`, so a tie rounds up. |
| Rounding.PyRound | Model/inference/forecaster.py:38 | Python `round` is within 0.5 of `x`, and an exact tie gives an even result. |
| Rounding.PyRound3 | Model/inference/anomaly_detector.py:73 | `round(x, 3)` is within 0.0005 of `x`. |
| Rounding.JsRoundMonotone | BE/src/controllers/sensorController.js:15 | `Math.round` is monotone. |
| Rounding.PyRoundMonotone | Model/inference/forecaster.py:38 | Python `round` is monotone. |
| Rounding.RoundingsAgreeOffTies | Model/inference/forecaster.py:38-40 | The two roundings agree except on a tie with an even floor. |
| Rounding.JsRoundWithin | FE/src/lib/mockData.ts:59-62 | Rounding keeps a value inside any integer interval that contains it. |
| Rounding.PyRoundWithin | Model/inference/forecaster.py:49 | The same, for Python `round`. |
| Readings.PriorityOrderHasNoDuplicates | BE/src/services/mlService.js:28-31 | A signal list in strict priority order has no duplicates. |
| Readings.PushIf | BE/src/services/mlService.js:28-31 | This is a conditional push onto a priority-ordered list. The result keeps the order. Its members are the old ones plus the new label exactly when the condition fired. Its length grows by one exactly then. |
| Readings.CheckSignals | BE/src/services/mlService.js:28-31 | The four threshold checks, pushed in order, give a list in priority order. Each of noise, heat, air quality and crowd is a member exactly when its check fired, and the length is the number of checks that fired. The Python detector runs the same four checks (Model/inference/anomaly_detector.py:50-64). |
| SensorController.GenerateExplanation | BE/src/controllers/sensorController.js:66-75 | The message is one of the three critical ones exactly when stress > 80, and the nominal one exactly when stress <= 55. `ExplanationCases` gives every branch. |
| SensorController.ExplanationCases | BE/src/controllers/sensorController.js:66-75 | When stress > 80, the explanation is the noise message if noise > 85, otherwise the heat message if temp > 32, otherwise the multi-sensor message. When 55 < stress <= 80, it is the elevated message. Otherwise it is nominal. |
| SensorController.MockExplanationMatches | BE/src/db/mockStore.js:60-69 | The mock store's `generateExplanation` is the controller's rule over the reading's own field names. |
| SensorController.ToLiveNode | BE/src/controllers/sensorController.js:93-113 | `isAnomaly` holds exactly when stressIndex > 80. This is also exactly when the explanation is one of the three critical messages. Coordinates are (longitude, latitude). The sensors, id, name, sector, zone type, index and time are carried over. The explanation is `generateExplanation` of the index and the sensors. |
| SensorController.NewReading | BE/src/controllers/sensorController.js:28-31 | The reading's `stress_index` is `calculateStressIndex` of the four submitted values, in 0..100, with the clock's time and no anomaly attached. |
| SensorController.IngestPlan | BE/src/controllers/sensorController.js:20-64 | The answer is 400 exactly for a falsy `node_id`. A 500 only happens in database mode. The trace is empty exactly when the request stops before its first write. The lemmas below give the rest. |
| SensorController.MissingNodeIdRejected | BE/src/controllers/sensorController.js:24-26 | For any detector decision `detect` (in `Ingest`, `detectAnomaly`'s result), a falsy `node_id` gets a 400 with no effects: no store write, no detector call and no broadcast. The converse also holds: only then is the response that 400. |
| SensorController.SuccessfulIngest | BE/src/controllers/sensorController.js:44-59 | A successful response carries the scored reading. The anomaly is attached exactly when the detector result is non-null with `is_anomaly`, and it is that result. The last effect is the single broadcast `{type:'reading', data}` of the same reading, and no earlier effect is a broadcast. |
| SensorController.PersistBeforeDetect | BE/src/controllers/sensorController.js:33-44 | Every detector call is preceded by a mock-store write or a reading insert. Conversely, once that write went through, the first two effects are the write and the detector call on the stored reading, and no later effect calls the detector. |
| SensorController.AnomalyStoredOnlyInDatabaseMode | BE/src/controllers/sensorController.js:45-54 | An anomaly row is inserted only in database mode and only for a non-null anomalous result. The row is built from that result. Mock writes happen only in mock mode, and inserts only in database mode. |
| SensorController.ThrownErrorIs500 | BE/src/controllers/sensorController.js:36-63 | A throwing insert yields a 500 with no broadcast. A failed reading insert also has no effects at all. |
| SensorController.MockIngestSucceeds | BE/src/controllers/sensorController.js:33-34 | In mock mode, an ingest with a node id always succeeds. |
| SensorController.PublishEffects | BE/src/controllers/sensorController.js:45-59 | After the detector answers, every effect is an anomaly insert or a broadcast. An anomaly insert happens only in database mode, for a non-null anomalous result, with that result's row. On success the data carries the result exactly when it is anomalous, and the single broadcast of that data is the last effect. |
| SensorController.Publish | BE/src/controllers/sensorController.js:45-59 | The steps after the detector answered match `PublishPlan`. The anomaly table grows only by the anomalous result's row, in database mode, when the insert does not throw. The hub delivers the serialised reading only for a success. |
| SensorController.Ingest | BE/src/controllers/sensorController.js:20-64 | The response and the effect trace equal `IngestPlan`, with `detectAnomaly`'s result as the detector decision. The mock store takes the new reading only in mock mode. The database gains the reading row and anomaly row exactly as the plan says. Every open client receives the serialised reading once, and only for a successful ingest. |
| SensorController.Database.InsertReading | BE/src/controllers/sensorController.js:36-40 | The insert appends the row, or leaves the table unchanged when it throws. |
| SensorController.Database.InsertAnomaly | BE/src/controllers/sensorController.js:47-51 | The insert appends the anomaly row, or leaves the table unchanged when it throws. |
| MlService.BaseSignals | BE/src/services/mlService.js:25-31 | The four pushes give a list in priority order. Each base signal is present exactly when its threshold (85, 35, 120, 25) is strictly exceeded, and the list is empty exactly when none fired. |
| MlService.FallbackAnomalyDetection | BE/src/services/mlService.js:24-54 | The result is exactly `{is_anomaly:false}` when no base signal fired and stress <= 80; otherwise `is_anomaly` is true. In that case: the score is `min(stress/100, 0.99)`; the signals are in priority order, each present exactly when it fired; 'composite' is present exactly when none of noise, heat or air quality fired and stress > 80; and the explanation is `Explanation` of the fired signals, which follows the priority noise > heat > air quality > composite, else "". |
| MlService.Explanation | BE/src/services/mlService.js:26-46 | The chosen explanation is empty exactly when none of noise, heat and air quality fired and the composite case does not apply. |
| MlService.CompositeChecked | BE/src/services/mlService.js:43-46 | The final signals are the base signals plus 'composite' exactly when none of noise, heat and air quality fired and stress > 80. They stay in priority order, and they are non-empty exactly when the base signals are or stress > 80. |
| MlService.FallbackEmptyExplanation | BE/src/services/mlService.js:26-47 | The explanation is "" exactly when only 'crowd' fired and stress <= 80. |
| MlService.FallbackScoreBounds | BE/src/services/mlService.js:50 | The score lies in 0..0.99 for a non-negative index. |
| MlService.DetectAnomaly | BE/src/services/mlService.js:3-22 | An ok response gives the parsed body as it is. A not-ok response gives `null`, with no fallback. A thrown error gives the fallback result. |
| MlService.ForecastUrl | BE/src/services/mlService.js:58-60 | The URL starts with the service URL followed by `/forecast`. |
| MlService.OneNodePathParses | BE/src/services/mlService.js:59 | `/forecast/{id}?horizon=h` reads back as that id and horizon. |
| MlService.AllNodesPathParses | BE/src/services/mlService.js:60 | `/forecast?horizon=h` reads back as all nodes and that horizon. |
| MlService.ForecastUrlRoundTrip | BE/src/services/mlService.js:58-60 | The URL names exactly the requested node (none when the id is falsy) and the horizon, for any id without a `?`. |
| MlService.GetForecast | BE/src/services/mlService.js:56-74 | Ok gives the payload. Not-ok gives `{error:'Forecast unavailable'}`, and a throw gives `{error:'ML service unavailable'}`. |
| MlService.ForecastFailuresDistinguishable | BE/src/services/mlService.js:66-72 | The two failure replies differ. |
| MockStore.GetTimeSlot | BE/src/db/mockStore.js:9-14 | The slot named contains the hour, by the half-open ranges of `InSlot`. |
| MockStore.GenerateExplanation | BE/src/db/mockStore.js:60-69 | The message is one of the three critical ones exactly when stress > 80, and the nominal one exactly when stress <= 55. |
| MockStore.TimeSlotPartition | BE/src/db/mockStore.js:9-14 | Every hour lies in exactly one slot: morning is [6,12), afternoon [12,17), evening [17,22) and night the rest. `getTimeSlot` names that slot. Python's `get_time_slot` (Model/config.py:48-55) is the same rule, and the Python model uses `MockStore.GetTimeSlot`. |
| MockStore.Added | BE/src/db/mockStore.js:128-138 | The new reading is first, the length is min(old+1, 2000), and the rest is the old array's newest entries in order. |
| MockStore.AddedShape | BE/src/db/mockStore.js:128-138 | After `addReading`, the length is min(old+1, 2000). The new reading is at index 0, and every older entry that survives moves one place back. |
| MockStore.AddedKeepsNewest | BE/src/db/mockStore.js:129-137 | What survives is a prefix of the old array, the newest part, so only the oldest entries are dropped. |
| MockStore.FullStoreEvictsOldest | BE/src/db/mockStore.js:134-137 | A full store evicts exactly its single oldest entry and stays at 2000. |
| MockStore.AddedKeepsNewestFirst | BE/src/db/mockStore.js:129 | A reading no older than the head keeps the array newest-first. |
| MockStore.Store.AddReading | BE/src/db/mockStore.js:128-138 | The readings become `Added(old readings, data)`. |
| MockStore.SeedSchedule | BE/src/db/mockStore.js:44-55 | The seed list's k-th entry is node k mod 5, five minutes times k div 5 before `now`. |
| MockStore.StepMonotone | BE/src/db/mockStore.js:44-45 | The step index never decreases along the list. |
| MockStore.SeedScheduleOrdered | BE/src/db/mockStore.js:44-55 | The seeded 1440 readings are newest-first, with node k mod 5, at 5-minute spacing. |
| MockStore.Store.InitMockData | BE/src/db/mockStore.js:40-55 | The nested loops append exactly the seed schedule. |
| MockStore.HistoryPointRoundTrip | BE/src/db/mockStore.js:103-111 | The renaming to the history row loses nothing but an attached anomaly. |
| MockStore.InWindowSound | BE/src/db/mockStore.js:96-97 | A reading passes the window filter exactly when its time is strictly after the cutoff. |
| MockStore.OfNodeSound | BE/src/db/mockStore.js:99-101 | A reading passes the node filter exactly when it belongs to that node. |
| MockStore.InWindowAppend | BE/src/db/mockStore.js:97 | The window filter keeps store order. |
| MockStore.OfNodeAppend | BE/src/db/mockStore.js:100 | The node filter keeps store order. |
| MockStore.HistoryMatchesSound | BE/src/db/mockStore.js:95-101 | A reading is selected exactly when it is newer than `now - hours*3600000` and, for a truthy node id, belongs to that node. |
| MockStore.MapHistory | BE/src/db/mockStore.js:103-111 | The renaming maps the entries one to one, in order. |
| MockStore.Store.GetHistory | BE/src/db/mockStore.js:95-112 | At most 500 entries. Every timestamp is strictly greater than the cutoff, and with a truthy id every entry has that id. |
| MockStore.Store.GetHistoryIsPrefix | BE/src/db/mockStore.js:103 | The result is the renamed prefix of the selected readings, of length min(count, 500). |
| MockStore.FindNode | BE/src/db/mockStore.js:119-120 | `find` returns a catalog node with that id, or none exists. |
| MockStore.ToAnomalyView | BE/src/db/mockStore.js:115-125 | An unknown node gets name 'Unknown' and sector ''. A known node gets its name and its sector. The other fields are carried over. |
| MockStore.Store.GetAnomalies | BE/src/db/mockStore.js:114-126 | Each stored record maps to one view, in order. |
| WebSocketHub.SendIfOpen | BE/src/sockets/websocket.js:29-31 | An open client gains the frame at the end of its outbox. Any other client is unchanged. |
| WebSocketHub.Delivered | BE/src/sockets/websocket.js:28-32 | The fan-out keeps the client list's length and applies the open-only send to each client. |
| WebSocketHub.DeliveredSendsToOpenOnly | BE/src/sockets/websocket.js:28-32 | Exactly the OPEN clients get the frame appended, once. Other clients are unchanged. No client joins, leaves or changes state. |
| WebSocketHub.RecipientsShareOneFrame | BE/src/sockets/websocket.js:26-31 | Any two recipients received the identical frame. |
| WebSocketHub.MixedClientsExample | BE/src/sockets/websocket.js:28-32 | With two open clients and one closed one, the open ones receive the frame and the closed one stays listed without it. |
| WebSocketHub.Hub.Broadcast | BE/src/sockets/websocket.js:23-33 | With no server nothing changes. Otherwise the message is serialised once and the clients become `Delivered(old(clients), frame)`. |
| WebSocketHub.Hub.ClientConnected | BE/src/sockets/websocket.js:8-10 | A new connection is appended to the client list as an open client with nothing received. |
| WebSocketHub.Hub.InitWebSocket | BE/src/sockets/websocket.js:5-21 | The server exists, with no clients yet. |
| MockData.CalculateStressIndex | FE/src/lib/mockData.ts:12-25 | The index is an integer in 0..100. |
| MockData.MatchesBackendFormula | FE/src/lib/mockData.ts:12-25 | It equals the backend index under the renaming temp to temperature, airQuality to air_quality and crowd to crowd_density. |
| MockData.Clamp | FE/src/lib/mockData.ts:48-49 | The result lies in [lo, hi] and equals `x` when `x` is already inside. |
| MockData.Drifted | FE/src/lib/mockData.ts:44-49 | After one drift step, AQI is in [200,250] and temp is in [8,18], whatever the drift. |
| MockData.StableSensorStore.GetStableSensorValues | FE/src/lib/mockData.ts:31-52 | The node's entry is created once, on first use, from the initial draws, and reused afterwards. The other entries are untouched. The returned value is the stored entry, drifted and clamped into range. |
| MockData.MockExplanation | FE/src/lib/mockData.ts:68-76 | The nominal start value is never the result. The elevated message is chosen exactly when the index is at least 80. |
| MockData.MockExplanationCases | FE/src/lib/mockData.ts:68-76 | Below 80, the explanation is the air message (AQI > 85), else the heat message (temp > 32), else the multi-sensor message. From 80 up it is the elevated message, and the nominal start value is never returned. |
| MockData.StableAirQualityDecides | FE/src/lib/mockData.ts:61-71 | With AQI held at or above 200, every index below 80 gets the air message. |
| MockData.MockSensorsRanges | FE/src/lib/mockData.ts:58-63 | For draws in [0,1], noise is in 40..95, crowd in 0..8, and AQI and temp stay within their clamps after rounding. |
| MockData.StableSensorStore.GenerateMockNodeData | FE/src/lib/mockData.ts:54-87 | The sensors come from the stable values and the draws, and the index from the frontend formula. `isAnomaly` holds exactly when the index is > 80. The explanation follows the branch rule. AQI and temp are in range. |
| MockData.Severity | FE/src/lib/mockData.ts:90-92 | Ranks the three event types Normal < Elevated < Critical (0, 1, 2), the order in which the thresholds escalate. `ActivityLogMonotone` uses it. |
| MockData.GenerateActivityLog | FE/src/lib/mockData.ts:89-101 | The event is Critical exactly when the index is > 80, Elevated exactly when 55 < index <= 80, and Normal otherwise. The value is the index. |
| MockData.ActivityLogMonotone | FE/src/lib/mockData.ts:90-92 | A higher index never gives a milder event. |
| MockData.ActivityLogIdRoundTrip | FE/src/lib/mockData.ts:95 | The id `nodeId-timestamp` splits back at its last '-' into the node id and the timestamp. |
| MockData.GenerateHistoricalData | FE/src/lib/mockData.ts:103-110 | The length is min(old+1, 20). The new point is last, and the rest is the newest part of the old history, in order. |
| Api.ApiUrl | FE/src/lib/api.ts:1 | The configured URL when it is set, else `http://localhost:3001`. |
| Api.SetAdd | FE/src/lib/api.ts:132 | `Set.add` keeps each member once. The callback is in the result, along with all old members and nothing else. |
| Api.SetDelete | FE/src/lib/api.ts:135 | `Set.delete` removes exactly that callback and keeps the set free of duplicates. |
| Api.Subscribed | FE/src/lib/api.ts:128-133 | The event's set is created on first use and gains the callback. Other events are untouched. |
| Api.Unsubscribed | FE/src/lib/api.ts:134-136 | Only that callback leaves that event's set. Other events and other callbacks are untouched. |
| Api.SubscribeIdempotent | FE/src/lib/api.ts:132 | Subscribing the same callback twice leaves one entry. |
| Api.UnsubscribeIdempotent | FE/src/lib/api.ts:134-136 | Running the unsubscribe closure twice is the same as running it once. |
| Api.UnsubscribeUndoesSubscribe | FE/src/lib/api.ts:128-136 | Unsubscribing a fresh subscription restores the registry. The only trace left is the emptied set that subscribing created. |
| Api.Dispatch | FE/src/lib/api.ts:117-120 | With no listeners for the type there are no calls. Otherwise there is one call per listener, each with `message.data`. |
| Api.DispatchCallsEachListenerOnce | FE/src/lib/api.ts:115-121 | A callback is called exactly when it is registered for the message's type, and no callback is called twice. |
| Api.ApiService.Subscribe | FE/src/lib/api.ts:128-137 | The listeners become `Subscribed(...)`, the registry stays well formed, and the returned closure names that event and callback. |
| Api.ApiService.Unsubscribe | FE/src/lib/api.ts:134-136 | The listeners become `Unsubscribed(...)`. |
| Api.ApiService.OnMessage | FE/src/lib/api.ts:115-121 | The calls made are exactly `Dispatch(listeners, message)`, in order. |
| Api.ApiService.ConnectWebSocket | FE/src/lib/api.ts:109-113 | With an open socket nothing happens. Otherwise a new socket is opened on `WebSocketUrl(API_URL)`. |
| Api.ApiService.Disconnect | FE/src/lib/api.ts:139-142 | The socket slot is emptied. |
| Api.FindFirst | FE/src/lib/api.ts:112 | The result is the first occurrence at or after `from`, or none. |
| Api.WebSocketUrl | FE/src/lib/api.ts:112 | The socket URL always ends in `/ws`. `WebSocketUrlOfHttp` and `WebSocketUrlWithoutHttp` give the rest. |
| Api.WebSocketUrlOfHttp | FE/src/lib/api.ts:112 | `http…` becomes `ws…` plus `/ws`, so `https` becomes `wss`. |
| Api.WebSocketUrlWithoutHttp | FE/src/lib/api.ts:112 | A URL without `http` only gains `/ws`. |
| Api.DefaultWebSocketUrl | FE/src/lib/api.ts:112 | With the default base URL `http://localhost:3001` (line 1), the socket URL is `ws://localhost:3001/ws`. |
| Api.ForecastUrl | FE/src/lib/api.ts:85-87 | The URL starts with `API_URL/api/forecast`. |
| Api.ForecastUrlMatchesBackend | FE/src/lib/api.ts:84-87 | The frontend's forecast URL is `/api/forecast/{id}?horizon=h`, or `/api/forecast?horizon=h` for a falsy id. It is the backend's URL under the `/api` prefix and reads back as the same node and horizon. |
| Api.AnomaliesUrl | FE/src/lib/api.ts:79 | The URL is `API_URL/api/anomalies?hours=`, followed by the hours, which parse back. |
| Api.HistoryParams | FE/src/lib/api.ts:69-71 | The query has `node_id` exactly when the id is truthy, first with that value. It always ends with `hours`. |
| Api.HistoryUrl | FE/src/lib/api.ts:73 | The URL is `API_URL/api/history?` followed by the serialised parameters. |
| Api.FormEncode | FE/src/lib/api.ts:73 | The encoding is never shorter than the text, and it is empty exactly for the empty text. `FormEncodeSafe` and `FormRoundTrip` give the rest. |
| Api.Serialize | FE/src/lib/api.ts:73 | The query string is empty exactly when there are no parameters. `SerializeSplits` shows it splits back into the encoded pairs in order. |
| Api.FormEncodeSafe | FE/src/lib/api.ts:73 | The form encoding emits only unreserved characters, '+' and '%', never '&', '=' or a space. |
| Api.FormRoundTrip | FE/src/lib/api.ts:73 | Form decoding undoes form encoding on ASCII text. |
| Api.FormEncodeUnreserved | FE/src/lib/api.ts:73 | Unreserved text is sent unchanged. |
| Api.SerializeSplits | FE/src/lib/api.ts:73 | Any serialised query splits back at '&' and '=' into its encoded pairs, in order. |
| Api.QueryRoundTrip | FE/src/lib/api.ts:73 | Parsing undoes serialising for ASCII names and values. |
| Api.HistoryQueryNames | FE/src/lib/api.ts:69-73 | The history query names `node_id` exactly when the id is truthy, and always names `hours` last. |
| Api.HistoryQueryRoundTrip | FE/src/lib/api.ts:68-73 | With an ASCII id, both the id and the hours are read back. |
| Config.ZoneBaseline | Model/config.py:5-24 | Every table entry is positive. |
| Config.NodeConfig | Model/config.py:39-45 | A node is configured exactly when it is one of the five ids. |
| Config.GetSeason | Model/config.py:57-64 | Months 4–6 are summer, 7–9 monsoon, and 10–12 and 1 winter. Every other value is spring. |
| Config.GetBaseline | Model/config.py:66-79 | A falsy month (None or 0) gives the zone/slot entry unchanged. Otherwise noise and crowd are unchanged and temp and aqi are multiplied by the season's factors. The result is positive. |
| Config.UnknownNodeUsesMixedZone | Model/config.py:67-68 | A node not in the table gets the baseline of the 'mixed' zone, the same as CP-MOH-03. |
| Config.SpringKeepsTable | Model/config.py:73-77 | The spring factors (line 29) are 1, so the entry comes back unchanged. |
| Config.WinterShiftsBaseline | Model/config.py:73-77 | With the winter factors of line 28, winter raises the AQI baseline and lowers the temperature baseline. |
| AnomalyDetector.Normalize | Model/inference/anomaly_detector.py:29-34 | A missing key reads as 0, and a missing id as "". Present noise and temperature are kept. `int()` truncates a non-negative AQI and index to the integer at or below them. |
| AnomalyDetector.Trunc | Model/inference/anomaly_detector.py:32-34 | `int()` of a float truncates toward zero. |
| AnomalyDetector.DetectedSignals | Model/inference/anomaly_detector.py:50-64 | The signals are an ordered subset of noise, heat, air quality and crowd, with no duplicates. Each is present exactly when its value exceeds the critical threshold (85, 38, 150, 25) or its deviation from baseline exceeds 15, 5, 30 or 10. |
| AnomalyDetector.Deviations | Model/inference/anomaly_detector.py:52-64 | There is one entry per signal that fired, holding its value, baseline and deviation. |
| AnomalyDetector.DeviationKeysAreSignals | Model/inference/anomaly_detector.py:50-64 | The keys of `deviations` are exactly the signals. |
| AnomalyDetector.Score | Model/inference/anomaly_detector.py:67-73 | `round(min(stress/100, 0.99), 3)`, which is at most 0.99 and non-negative for a non-negative index. |
| AnomalyDetector.GenerateExplanation | Model/inference/anomaly_detector.py:81-107 | With no signals the text is the nominal message. Otherwise it starts with "Alert at <location>: ". |
| AnomalyDetector.DetectInputs | Model/inference/anomaly_detector.py:36-79 | `detect` returns, as one record: the baseline for the hour and month; the hour's slot; the signals; the deviations, which are exactly `Deviations` (value, baseline and deviation of each fired signal), with the keys equal to the signals; `is_anomaly` exactly when stress > 80 or there are at least two signals; the rounded score; and the explanation. |
| AnomalyDetector.Detect | Model/inference/anomaly_detector.py:28-79 | The detection of the normalised reading: the hour's slot, the zone baseline for hour and month, the detected signals, and `is_anomaly` exactly when stress > 80 or there are at least two signals. |
| AnomalyDetector.SingleSignalIsNotEnough | Model/inference/anomaly_detector.py:66 | Below the critical index, one signal alone is not an anomaly. |
| AnomalyDetector.MissingFieldsReadAsZero | Model/inference/anomaly_detector.py:30-34 | A missing field is treated as 0. |
| AnomalyDetector.PartsOf | Model/inference/anomaly_detector.py:88-104 | There is one sentence per signal, in the order of the signals. |
| AnomalyDetector.ExplanationFollowsSignals | Model/inference/anomaly_detector.py:88-107 | For any priority-ordered subset of the signals, the sentences are one per signal, in signal order. |
| AnomalyDetector.DetectedSignalsShape | Model/inference/anomaly_detector.py:50-64 | The checks append in priority order, each only when it fires. |
| AnomalyDetector.DetectExplanationFollowsSignals | Model/inference/anomaly_detector.py:69-107 | The detector's alert has one sentence per detected signal, in signal order. |
| AnomalyDetector.ExplanationKind | Model/inference/anomaly_detector.py:82-107 | Without signals, `detect`'s text is the nominal message. With them it is the alert, at the node's name or 'this sector'. |
| Forecaster.ForecastStress | Model/inference/forecaster.py:33-40 | `predicted_stress` is an integer in [0,100]. |
| Forecaster.ForecastStressMatchesBackend | Model/inference/forecaster.py:33-40 | Off exact ties, it equals the backend index. |
| Forecaster.Confidence | Model/inference/forecaster.py:50 | `max(0.6, 0.95 - 0.005*i)` is at least 0.6 and, for non-negative minutes, at most 0.95. Up to 70 minutes it is the linear value. |
| Forecaster.ConfidenceNonIncreasing | Model/inference/forecaster.py:50 | Confidence never rises with distance ahead. |
| Forecaster.Point | Model/inference/forecaster.py:23-51 | A point carries its minutes and timestamp, an index in 0..100, its confidence and a non-negative crowd. |
| Forecaster.StepCount | Model/inference/forecaster.py:22 | There are ceil(h/15) steps for h > 0, and none otherwise. |
| Forecaster.CalculateTrend | Model/inference/forecaster.py:62-74 | Fewer than 2 points give stable. Otherwise `last-first > 10` is increasing, `< -10` decreasing, and anything else stable. |
| Forecaster.Steps | Model/inference/forecaster.py:22-51 | There are ceil(h/15) points, the k-th being the point 15k minutes ahead. |
| Forecaster.StepsCoverHorizon | Model/inference/forecaster.py:22-44 | The `minutes_ahead` values are exactly the multiples of 15 in [0, horizon). |
| Forecaster.StepsBounds | Model/inference/forecaster.py:38-50 | Every point has confidence in [0.6, 0.95] and index in [0,100]. |
| Forecaster.SelectNodes | Model/inference/forecaster.py:17 | The nodes are `[node_id]` when it is truthy, else all five configured nodes in table order. |
| Forecaster.NodeName | Model/inference/forecaster.py:55 | The node's configured name, never empty, and 'Unknown' for an id outside the five-node table. |
| Forecaster.Forecast | Model/inference/forecaster.py:53-58 | The node's forecast object carries the node's id and its configured name, and one point per 15-minute step below the horizon. `Steps` and `StepsCoverHorizon` give the points, and `CalculateTrend` the trend. |
| Forecaster.Forecasts | Model/inference/forecaster.py:19-58 | There is one forecast per selected node, in order. |
| Forecaster.Shape | Model/inference/forecaster.py:60 | A single forecast is returned bare, and several as a list. |
| Forecaster.PredictionShape | Model/inference/forecaster.py:17-60 | A named node gives exactly one bare forecast. No node gives the five configured forecasts, in table order. |
| Forecaster.ForecastNode | Model/inference/forecaster.py:20-55 | The inner loop and the node's dictionary build exactly `Forecast(nid, horizon)`: the node's name and the steps of `Steps(nid, horizon)`. |
| Forecaster.ForecastAll | Model/inference/forecaster.py:19-58 | The outer loop builds exactly `Forecasts(nodes, horizon)`, one forecast per node in the order given. |
| Forecaster.Predict | Model/inference/forecaster.py:13-60 | `predict` returns `Shape(Forecasts(SelectNodes(node_id)))`. |

## Left out

- Database access (`sensorController.js:36-40,47-51,83-91,130-142`) is reduced to an append that succeeds or throws. SQL text, `DISTINCT ON` and the Postgres-side history query are not modelled, and neither is `getNodes`.
- `getLive` in mock mode and `generateReading` draw random values. The mock-mode live data is not modelled; the seed schedule takes the generated values as a parameter.
- Randomness, the clock, `JSON.stringify`, `JSON.parse` and the frontend's `fetch` calls are parameters or left out. The socket's `onclose` reconnect timer is not modelled.
- The ML model library calls (`anomaly_detector.py:12-26,109-131`) and the forecaster's `train` are foreign code and are not modelled.
- Concurrency between ingests is not modelled; each ingest is one sequential run.
- Floating point is modelled as `real`: no IEEE rounding near .5 and no NaN from missing JavaScript fields. A Python body field present with value `null` (which makes `float(None)` raise) is not modelled; only missing keys are.
- AnomalyDetector.GenerateExplanation: Python's float text (`str`, `:.0f`, `:.1f`) is the `Formatter` parameter, so the contract states the prefix and the sentence structure, not the exact characters.
- MlService.FallbackAnomalyDetection: JavaScript's number-to-text conversion in the messages is the `numberText` parameter.
- MockData.StableSensorStore.GetStableSensorValues: the Map holds one mutable object per node that the function mutates and returns. The model stores a value and returns an equal copy, so the aliasing between the returned object and the map entry is not captured.
- Api.FormRoundTrip: proved for ASCII text only. Non-ASCII characters are percent-encoded as UTF-8, but decoding multi-byte sequences is not modelled.
- MlService.ForecastUrlRoundTrip: the node id is interpolated unencoded, so the round trip is stated for ids without '?'.
- Forecaster.ForecastStressMatchesBackend: the backend rounds ties up and Python rounds them to even, so the agreement is stated off exact ties.
- `get_baseline` works on a copy of the table entry. The model computes a new value and has no shared table to mutate, so "the table is never changed" holds by construction and is not a separate lemma.
- The frontend's `ingestReading`, `getLiveData` and the response-status checks of its fetch calls are network I/O and are not modelled.
