# Engine monitoring backend: a Dafny model

The backend watches electric engines through Balluff CMTK gateways. Each gateway has IO-Link ports,
and each port has a vibration and temperature sensor. Gateways are grouped into plant areas. For every
port, a `Sensor` object keeps:

- the latest MQTT reading;
- four thresholds: the failure and warning limits for vibration and for temperature;
- debounce counters and four latches: vibration/temperature warning and failure;
- an error record;
- two bounded history queues, from which the thresholds adapt to the mean plus two and three
  standard deviations.

The server (`backend/server.js`) holds the gateway catalogue, the error log and the list of gateways
that still need a connection. It connects every gateway at start-up and retries the failed ones on a
one-second interval. On each sampling tick it runs the three detection steps on every port and logs
newly latched failures. It also answers HTTP requests that report health and change setpoints.

The model covers:

| Dafny file | module | models |
|---|---|---|
| `queue.dfy` | `Queues` | the circular FIFO `Queue` of `backend/queue.js`, as a class over a sequence field |
| `hysteresis.dfy` | `Hysteresis` | the debounce logic of `DetectEngineFailure`, `DetectEngineWarning` and `DetectEngineOk`, as pure step functions, with lemmas about runs of readings |
| `thresholds.dfy` | `Thresholds` | mean, population standard deviation and z-score thresholds |
| `sensor.dfy` | `ApiSensors` | the `Sensor` class: every method is proved against the step functions and the queue |
| `catalogue.dfy` | `Catalogue` | the catalogue of areas, gateways and ports: `findCmtk`, `findLocationByCmtk`, the port map, and the frame facts that keep sensor objects distinct |
| `history.dfy` | `History` | the error log, JavaScript string order on dates, `DepureHistory`'s pruning, and the entry one tick logs for a port |
| `gateway.dfy` | `Gateway` | what `Connect2Cmtk` does to one gateway, including its port-creation loop |
| `server.dfy` | `Server` | the server state as class `Monitor`: `ErrorsHandler`, `DepureHistory`, `Connect2Cmtk`, `Try2Connect`, the start-up loop, and the `get-health-all`, `set-sensor-setpoints` and `set-sampling-time` handlers |

These parts of the environment are parameters of the model:

- **Gateways' answers.** Each is a `GatewayReply`. `Offline`: building the database client in
  `InitInfluxDB` throws. `NoTables`: `GetTables` resolves to null, which is how an unreachable
  gateway shows up. `Tables`: the table list, with the index of the port whose MQTT start fails.
- **Clock.** The `now` and `cutoff` date strings.
- **`Math.sqrt`.** A function parameter constrained by `IsSqrt`.
- **Timers.** The boolean fields `retryArmed` and `samplingArmed`.

## Model

| member | source | states |
|---|---|---|
| Queues.Queue.constructor | backend/queue.js:2-9 | a new queue is empty, not full, with both indices at 0 and the requested capacity |
| Queues.Queue.FlagsMeanCount | backend/queue.js:25-32 | in every reachable state `isEmpty` holds exactly when no value is stored, `isFull` exactly when `size` values are, and never more than `size` are stored |
| Queues.Queue.Write | backend/queue.js:16-35 | a full queue rejects the write and keeps its state; otherwise the value is stored at the old head, the head advances modulo the size, and the live contents gain the value at the back (FIFO) |
| Queues.Queue.Read | backend/queue.js:41-60 | an empty queue yields null and keeps its state; otherwise the oldest stored value is returned and removed, and the tail advances modulo the size |
| Queues.Queue.Clear | backend/queue.js:65-71 | from any state, back to the empty state the constructor creates |
| Hysteresis.FailureStep | backend/ApiSensors.js:99-135 | each failure counter counts consecutive bad samples (any axis at or above the limit, or temperature at or above it) and resets otherwise; a latch is set only when its counter reaches the depth; vibration takes precedence and at most one latch is set per call; the result is true exactly when a latch was newly set; the error record then names that cause and is dated `now` |
| Hysteresis.WarningStep | backend/ApiSensors.js:143-180 | the same pattern against the warning limits, at half the failure depth; the failure side is untouched |
| Hysteresis.UpdateStatus | backend/ApiSensors.js:202-211 | one track's counter gets `(count + 1) * latch`; a set latch whose counter reaches the threshold is cleared together with the cause and date of the error record; every other track is unchanged |
| Hysteresis.OkStep | backend/ApiSensors.js:187-228 | latches only clear; the first of vibWarning, tempWarning, vibFailure, tempFailure (in that order) that is latched and reaches the recovery depth is cleared and ends the call; a latched track on a healthy sample advances by two; the result is true exactly when a latch cleared |
| Hysteresis.PortTick | backend/server.js:192-197 | one tick on a port runs failure, warning, then recovery detection. It reports only failures the failure step newly latched. With depths of at least 1 and 2, it reports exactly the failure latches that end the tick newly set. A failure latch set after the tick was set before or is reported |
| Hysteresis.VibErrorCountIsTrailingRun | backend/ApiSensors.js:107-110 | after any sequence of readings, the vibration error counter is the length of the trailing run of bad readings |
| Hysteresis.VibFailureLatchesAtDepth | backend/ApiSensors.js:110-122 | from a clean start, consecutive bad vibration readings latch the failure exactly at the `countToBeFail`-th reading, and it stays latched while readings stay bad |
| Hysteresis.VibFailureHeals | backend/ApiSensors.js:214-222 | with a corrected (numeric) counter, a failure depth of at least 1 and no warning latched, a latched vibration failure clears after clean readings once the start count plus twice their number reaches `countToBeHealth`; until then the counter is the start count plus twice the number of readings |
| Hysteresis.TempFailureHeals | backend/ApiSensors.js:215-223 | with a corrected (numeric) counter, a failure depth of at least 1, no warning and no vibration failure latched, a latched temperature failure clears after clean readings once the start count plus twice their number reaches `countToBeHealth`; no other latch is set meanwhile |
| Hysteresis.HealingBound | backend/ApiSensors.js:187-228 | the number of clean readings after which a port has no latch left is zero exactly when nothing is latched, and never more than four plus half the recovery depth |
| Hysteresis.OkStepOnClean | backend/ApiSensors.js:187-228 | on a clean reading `DetectEngineOk` clears at most one latch; a latch that stays set has a higher counter, and when none clears every latched counter advances by two without reaching the depth |
| Hysteresis.BoundFalls | backend/ApiSensors.js:187-228 | when every track advanced that way, the healing bound of a port with a latch set falls by at least one |
| Hysteresis.CleanTickHeals | backend/server.js:192-197 | with a failure depth of at least 1, a tick on a clean reading sets no latch and, while some latch is set, brings the healing bound down by at least one |
| Hysteresis.AllLatchesHeal | backend/ApiSensors.js:187-228 | with a failure depth of at least 1, from any state, with corrected counters, every warning and failure latch is clear after `HealingBound` clean readings, and so after four plus half the recovery depth; the bound falls by one per clean reading |
| Hysteresis.FailureTrackAsWritten | backend/ApiSensors.js:33-34 | one recovery pass on a failure track with the source's JavaScript counter: on NaN the counter stays NaN and the latch is kept; on a number the counter gets two `(count + 1) * flag` updates and the latch clears when it reaches the depth |
| Hysteresis.FailureTracksAgree | backend/ApiSensors.js:214-223 | on numeric counters, each failure track as written equals that track of `OkStep` whenever no earlier track clears in the same call (a clearance ends the call before their second update) |
| Hysteresis.AsWrittenFailureNeverHeals | backend/ApiSensors.js:216-222 | as written, from the uninitialised counter, no sequence of readings clears a failure latch |
| Thresholds.FromZScore | backend/ApiSensors.js:335-337 | the value lies exactly `zScore` standard deviations from the mean, and at or above the mean for a non-negative z-score |
| Thresholds.StdDev | backend/ApiSensors.js:347 | the standard deviation is non-negative and its square is the population variance |
| Thresholds.MeanWithinBounds | backend/ApiSensors.js:346 | the mean of the history lies between any lower and upper bound of its values |
| Thresholds.ThresholdsOf | backend/ApiSensors.js:346-351 | the recomputed warning limit lies at or above the mean, the failure limit lies one standard deviation above the warning limit, and the warning limit lies two standard deviations above the mean |
| ApiSensors.Settings.constructor | backend/ApiSensors.js:16-17 | the shared depths start at 10 and 20 |
| ApiSensors.Settings.SetCountToFail | backend/ApiSensors.js:267-270 | replaces the failure depth, returns it, and leaves the recovery depth alone |
| ApiSensors.Settings.SetCountToHealth | backend/ApiSensors.js:277-280 | replaces the recovery depth, returns it, and leaves the failure depth alone |
| ApiSensors.Sensor.constructor | backend/ApiSensors.js:18-70 | a new sensor has the default limits (4, 2, 20, 10), no reading, every counter at zero (the two no-failure counters as corrected under Findings), no latch, an error record naming its port and gateway, and two empty history queues |
| ApiSensors.Sensor.DetectEngineFailure | backend/ApiSensors.js:99-135 | the sensor's new state and the result are exactly `FailureStep` of its old state; reading and limits are unchanged |
| ApiSensors.Sensor.DetectEngineWarning | backend/ApiSensors.js:143-180 | the new state and result are exactly `WarningStep` of the old state |
| ApiSensors.Sensor.UpdateVibWarningStatus | backend/ApiSensors.js:220 | `updateStatus` on the vibration warning track equals `UpdateStatus` on it |
| ApiSensors.Sensor.UpdateTempWarningStatus | backend/ApiSensors.js:221 | `updateStatus` on the temperature warning track equals `UpdateStatus` on it |
| ApiSensors.Sensor.UpdateVibFailureStatus | backend/ApiSensors.js:222 | `updateStatus` on the vibration failure track equals `UpdateStatus` on it |
| ApiSensors.Sensor.UpdateTempFailureStatus | backend/ApiSensors.js:223 | `updateStatus` on the temperature failure track equals `UpdateStatus` on it |
| ApiSensors.Sensor.DetectEngineOk | backend/ApiSensors.js:187-228 | the new state and result are exactly `OkStep` of the old state |
| ApiSensors.Sensor.SetName | backend/ApiSensors.js:235-238 | renames the sensor, returns the name, and changes nothing else |
| ApiSensors.Sensor.SetVibValueFailure | backend/ApiSensors.js:246-249 | replaces only the vibration failure limit and returns it |
| ApiSensors.Sensor.SetTempValueFailure | backend/ApiSensors.js:257-260 | replaces only the temperature failure limit and returns it |
| ApiSensors.Sensor.SetVibValueWarning | backend/ApiSensors.js:288-291 | replaces only the vibration warning limit and returns it |
| ApiSensors.Sensor.SetTempValueWarning | backend/ApiSensors.js:299-302 | replaces only the temperature warning limit and returns it |
| ApiSensors.Sensor.ClearFailure | backend/ApiSensors.js:308-311 | drops the two warning latches; failure latches, counters and limits stay |
| ApiSensors.Sensor.SaveValuesToHistory | backend/ApiSensors.js:316-326 | the temperature and the vibration magnitude of the last reading are appended to their queues, unless a queue is full, which keeps its contents |
| ApiSensors.Sensor.CalculateThresholds | backend/ApiSensors.js:343-366 | for each full queue, that metric's warning and failure limits become `ThresholdsOf` its stored values and the queue is emptied; a queue that is not full changes nothing; the detection state is untouched |
| ApiSensors.Sensor.Ingest | backend/server.js:1250-1291 | one MQTT message stores the reading, and every 50th reading recomputes a metric's limits from exactly the 50 values received since the last recomputation, in arrival order |
| Catalogue.CmtkOf | backend/server.js:307-318 | `findCmtk`: none when no area lists the label; otherwise the gateway stored under the label in the first area that lists it |
| Catalogue.LocationOf | backend/server.js:326-333 | `findLocationByCmtk`: none exactly when no area lists the label; otherwise the name of the first area that lists it |
| Catalogue.LookupFindsEntry | backend/server.js:307-333 | with unique labels, both lookups find the entry that holds the label and its area |
| Catalogue.PortNamed | backend/server.js:251 | `cmtk.ports[name]`: none exactly when no port has the name; otherwise a port with that name and sensor |
| Catalogue.PutPort | backend/server.js:251 | assigning `ports[name]` makes the name map to the new sensor and leaves every other name alone; a new name is appended at the end |
| Catalogue.WithCmtkLookups | backend/server.js:227-263 | replacing one gateway keeps the catalogue's shape and unique labels, and changes the lookup of that label only |
| Catalogue.SameSlotsPresence | backend/server.js:307-318 | catalogues with their null gateways in the same places find a gateway for exactly the same labels |
| History.KeptMembers | backend/server.js:158-164 | an entry survives pruning exactly when it was in the log and is not dated before the cutoff |
| History.KeptConcat | backend/server.js:158-164 | pruning works piece by piece, so the survivors keep their relative order |
| History.KeptLaterCutoff | backend/server.js:142-165 | pruning with a later cutoff after an earlier one is the same as pruning with the later one |
| History.LexTotal | backend/server.js:161 | JavaScript string order on dates is a strict total order (with `LexIrreflexive` and `LexTransitive`) |
| History.TickLog | backend/server.js:191-201 | a tick logs at most one entry for a port, exactly when the failure step latches a new failure; the entry carries the port, gateway, area and `now`, and names the failure that was latched |
| History.TickLogAsWritten | backend/server.js:191-201 | as written, the entry is copied after the warning and recovery steps, yet it is logged under the same condition |
| History.AsWrittenLogMislabels | backend/server.js:194-201 | a concrete port whose tick latches a vibration failure gets an entry saying "Temperature Warning" as written, and "Vibration Error" once corrected |
| Gateway.CreatedPorts | backend/server.js:247-263 | the ports created are a prefix of the table list, up to and including the one whose MQTT start fails; all of them when none fails; none when the gateway is offline or has no tables |
| Gateway.CreatePorts | backend/server.js:249-264 | each created port name maps to a fresh, pristine sensor; other names keep their sensors; the result says whether a port failed; sensors stay distinct |
| Gateway.AddPort | backend/server.js:251-260 | `ports[port] = new Sensor(...)`: the port maps to a fresh pristine sensor and every other port is kept |
| Server.Monitor.constructor | backend/server.js:22-70 | the server starts with the catalogue, the seed log entry, no pending gateway, a sampling time of 1000 and no timer running |
| Server.Monitor.FindCmtk | backend/server.js:307-318 | the search loop returns exactly `CmtkOf` of the catalogue |
| Server.Monitor.FindLocationByCmtk | backend/server.js:326-333 | the search loop returns exactly `LocationOf` of the catalogue |
| Server.Monitor.ErrorsHandler | backend/server.js:170-206 | every port of every non-pending, non-null gateway, in catalogue order and up to the first port without a reading, advances by exactly one `PortTick` from its state when the tick started; every other sensor is untouched; the log gains exactly `LogOf` those ports (corrected, see Findings row 3) |
| Server.Monitor.Detect | backend/server.js:192-194 | the three detection calls on one sensor equal `PortTick`, and the record kept is the one the failure step wrote (corrected, see Findings row 3) |
| Server.Monitor.TickPort | backend/server.js:192-201 | one port advances alone and the log gains its `TickLog` entry |
| Server.Monitor.DepureHistory | backend/server.js:142-165 | the backward splice loop leaves exactly `Kept` of the old log |
| Server.Monitor.Connect2Cmtk | backend/server.js:215-275 | the result is true exactly when the label names a non-null gateway and every port starts; a missing label or null gateway changes nothing; a found gateway gets its connection and its table list, and a fresh pristine sensor for each created port; no other gateway changes |
| Server.Monitor.ConnectAt | backend/server.js:221-266 | the same for the gateway at a known place, with the `Offline`, `NoTables` and table-list cases |
| Gateway.ConnectGateway | backend/server.js:221-266 | the gateway gets its database client, then its table list (none when unreachable), then a fresh pristine sensor per table up to the port whose MQTT start fails; the result is true exactly when every port starts; sensors stay distinct |
| Gateway.AttemptedAgain | backend/server.js:215-275 | two attempts with the same answer leave a gateway as one attempt does |
| Server.Monitor.Try2Connect | backend/server.js:282-300 | the pending list becomes `StillPending`: the labels whose attempt fails, in order; the retry timer stops exactly when a success empties a non-empty list; every gateway with a pending label has been through its attempt, and every other gateway is as it was |
| Server.StillPending | backend/server.js:284-293 | a label stays pending exactly when it was pending and its attempt fails; a list emptied by the round had a first label that connected |
| Server.PendingAfterDrops | backend/server.js:284-293 | after the first k attempts, the labels that connected among them have left the list |
| Server.Monitor.Retry | backend/server.js:286-297 | one round of the retry loop: the list drops the label if it connects, and the timer runs while the list is non-empty; the gateways tried so far are the ones labelled up to this round |
| Server.Monitor.Reconnect | backend/server.js:288 | `await Connect2Cmtk(cmtkLabel)` in the retry loop: the result says whether the label connects; gateways with other labels are as they were and the labelled gateway has been through its attempt |
| Server.TriedLabel | backend/server.js:286-288 | an attempt on one label adds that label to the labels tried, whatever was tried before (a second attempt with the same answer included) |
| Server.Monitor.Forget | backend/server.js:292-297 | the filter removes every copy of the label, and the timer stops once the list is empty |
| Server.Monitor.Startup | backend/server.js:1225-1310 | one attempt per gateway in catalogue order; the pending list gains exactly the labels of the non-null gateways whose attempt failed, in that order; the retry timer starts when the list becomes non-empty; the sampling timer starts; every gateway has been through its attempt |
| Server.FailedLabelsMembers | backend/server.js:1225-1245 | a label is queued at start-up exactly when some area holds it as a non-null gateway whose attempt fails |
| Server.FailedInAreaMembers | backend/server.js:1227-1245 | within one area, a label is queued exactly when one of the area's entries holds it, non-null and failing |
| Server.Monitor.StartEntry | backend/server.js:1227-1246 | for one gateway, the list gains its label exactly when it is non-null and its attempt fails; that gateway has been through its attempt, its created sensors are fresh and pristine, and no other gateway changes |
| Server.Monitor.Attempt | backend/server.js:1233-1237 | `await Connect2Cmtk(cmtkLabel)` on the gateway at (i, j): it fails exactly when the gateway is non-null and does not connect; it has been through its attempt with fresh pristine sensors, and no other gateway changes |
| Server.TriedNext | backend/server.js:1227-1237 | an attempt on the next gateway in catalogue order extends the gateways tried by that one |
| Server.Monitor.Remember | backend/server.js:1240-1244 | a failed label is pushed, and the retry timer starts when the list was empty |
| Server.Monitor.StartupAsWritten | backend/server.js:1225-1310 | as written, the start-up loop never queues any gateway and never starts the retry timer |
| Server.Monitor.AttemptAsWritten | backend/server.js:1233-1237 | as written, the `influxConnection === null` test after the attempt is never true |
| Server.Monitor.PortsState | backend/server.js:1184-1188 | the OR over a gateway's ports of the warning latches and of the failure latches |
| Server.Monitor.GetHealthAll | backend/server.js:1166-1207 | one entry per area and gateway, in catalogue order; a null gateway reports the empty state, any other reports whether some port is in warning and whether some port is in failure |
| Server.Monitor.SetSensorSetpoints | backend/server.js:877-931 | a missing body or gateway gives the 500 answer; each pair whose failure value exceeds its warning value is stored on the addressed port (a missing port then gives the 500 answer); success exactly when both pairs are stored; the port's detection state is untouched |
| Server.Monitor.SetSamplingTime | backend/server.js:1052-1076 | a value at most zero is refused and changes nothing; any other value, NaN included, becomes the period and restarts the sampling timer |

## Left out

- MQTT, InfluxDB, Express and file I/O are not modelled as I/O. A gateway's answers to a connection
  attempt are a `GatewayReply` parameter. Nothing models reading or writing the JSON configuration
  files, the other HTTP routes, or the frontend.
- `await` interleaving is not modelled. The start-up loop and `Try2Connect` are sequential, so a timer
  tick cannot run in the middle of a connection attempt. The catalogue update that `Connect2Cmtk`
  makes across its awaits is applied as one step.
- Timers (`setInterval`/`clearInterval`) are the flags `retryArmed` and `samplingArmed`, not
  scheduled callbacks.
- The clock is not modelled. The `now` and `cutoff` strings are parameters; the formatting done by
  `#getDate` and by `DepureHistory` is not modelled.
- JavaScript numbers are `real`. Floating-point rounding is not modelled. `Math.sqrt` is a parameter
  that is assumed exact (`IsSqrt`). Parsing with `Number(...)` is not modelled: the handlers take the
  parsed value. Only set-sampling-time represents NaN (as `None`); for limits and depths see the
  next lines.
- The MQTT callback's parsing of a message and its status bits is left out, as is `FormatMsg`. Its
  effect on a port is `ApiSensors.Sensor.Ingest`: the reading, the history and the thresholds.
- A constructor that throws (`new InfluxDB_` or `new Sensor`) is not modelled. `Connect2Cmtk`'s
  `catch` is modelled for a throw from `InitInfluxDB` and a rejection of `InitMQTT`. `GetTables`
  never rejects: it turns every error into null.
- Queues.Queue.constructor: requires a size above zero. With size 0, the source computes `% 0`,
  giving NaN indices. Only the default size 50 is ever used.
- Server.Monitor.Valid requires gateway labels to be unique across the catalogue, and every port's
  sensor to be a distinct object. The configuration files give labels as object keys within an
  area; duplicates across areas are not modelled.
- `cmtk.ports.length !== 0` in `ErrorsHandler` (server.js:184) is always true, because `ports` is an
  object, so the model has no such guard.
- `lastReadValues.length === 0` in `ErrorsHandler` (server.js:189) is true only before the first
  message. The model reads it as "no reading yet" (`None`).
- In set-sensor-setpoints, `vibValueFailure` is compared with the body's `vibWarning`, but
  `vibValueWarning` is stored. The model compares and stores those two fields the same way
  (`Setpoints.vibWarning`, `Setpoints.vibValueWarning`).
- Server.Monitor.SetSensorSetpoints: a NaN limit is not modelled. Limits are `real`, so the model
  requires `vibValueWarning` to be a number. In the source, a body with `vibValueFailure` and
  `vibWarning` but no `vibValueWarning` is accepted and stores `Number(undefined)`, which is NaN, as
  the vibration warning limit. After that no vibration warning latches and none heals
  (ApiSensors.js:150, 194), until a full history recomputes the limit.
- ApiSensors.Settings.SetCountToFail: a NaN depth (`Number` of a non-numeric value,
  ApiSensors.js:268) is not modelled. Depths are integers. With a NaN depth no failure or warning
  would ever latch.
- ApiSensors.Settings.SetCountToHealth: a NaN depth (ApiSensors.js:278) is not modelled, for the
  same reason. With a NaN depth no latch would ever clear.
- The limit setters of `Sensor` (ApiSensors.js:247, 258, 289, 300) store `Number(arg)`. The model
  takes the number; the handler only passes them values it has compared, except `vibValueWarning`
  (see above).
- Server.Monitor.SetSensorSetpoints: the 400 answer for a missing body (server.js:885-890) cannot
  happen, because `values.cmtk` has already thrown. The model gives the 500 answer, as the code does.
- The response messages (the Spanish fail text, the HTTP status numbers other than the 500 answer)
  are not modelled.
- Server.Monitor.PortsState: returns booleans. In the source, `|=` (server.js:1185-1187) turns
  `warningState` and `failureState` into the numbers 0 or 1 whenever the gateway has ports; only
  their truth value is modelled.
- Server.Monitor.Startup: MQTT subscriptions are not modelled. Only the start-up loop registers the
  `ReadMQTT` callbacks (server.js:1248-1306), and only for gateways it does not queue. The model
  lets `ApiSensors.Sensor.Ingest` run on any sensor.
- Server.Monitor.Try2Connect: registers no MQTT callback (server.js:282-300). So in the source a
  gateway queued at start-up and later connected by a retry never receives a reading, and
  `ErrorsHandler` stops at its first port on every tick. The model does not capture this.
- Server.Monitor.Try2Connect: states, per gateway, that the attempt happened (`Attempted`) and that
  other gateways are unchanged, but not, across the loop, that the sensors created are fresh and
  pristine. That is stated per attempt, by `Connect2Cmtk` and `ConnectAt`.
- Server.Monitor.Startup: the same. The freshness of the created sensors is stated per gateway by
  `Attempt` and `StartEntry`, not for the whole loop.
- ApiSensors.Settings.SetCountToFail, ApiSensors.Settings.SetCountToHealth: depths are integers.
  The source stores `Number(value)` (ApiSensors.js:268, 278), so "7.5" gives a fractional depth.
  The integer counters reach 7.5, and half of it, exactly when they reach 8 and its half. So such a
  depth behaves as its ceiling, which the model can represent; the fraction itself is not kept.
- The order of areas, gateways and ports follows the configuration files. In the source,
  `Object.keys` and `for ... in` list integer-like keys first, in numeric order, and then the
  others in insertion order. The model keeps insertion order only.
- History.SeedEntry: the seed entry of `errorsHistory` (server.js:70-78) names its place with a
  `location` key. Logged entries use `area`. The model has one field, `area`, so it stores "test" there.
- Hysteresis.CleanTickHeals, Hysteresis.AllLatchesHeal: require a failure depth of at least 1. The
  source accepts a depth of 0 (ApiSensors.js:268 stores it unchecked), and then a clean reading
  latches a failure (`0 >= 0`, ApiSensors.js:114), so neither lemma holds at that depth.
- The 12-hour `KEEP_ERRORS` window (server.js:22) and the 1000 ms retry period
  (`CONNECTION_SAMPLING_TIME`, server.js:28) belong to the clock and the timers. `DepureHistory`
  takes its cutoff date as a parameter, and the retry interval is the flag `retryArmed`.

## Findings

| source | as written | input that shows it | evidently intended | confidence | as-written member | corrected member |
|---|---|---|---|---|---|---|
| backend/ApiSensors.js:33-34, 216-222 | `vibNoFailureCount` and `tempNoFailureCount` have no initial value, so `undefined + 1` makes them NaN; `NaN >= countToBeHealth` is false, so a latched failure never clears | any sensor that latches a failure and then receives only healthy readings | the counters start at 0, like the other counters, so a failure clears after enough healthy readings | high (not executed) | Hysteresis.AsWrittenFailureNeverHeals | Hysteresis.VibFailureHeals, Hysteresis.TempFailureHeals, Hysteresis.AllLatchesHeal |
| backend/server.js:1236-1245 | after `await Connect2Cmtk(cmtkLabel)`, the loop tests `cmtk.influxConnection === null`, but `Connect2Cmtk` assigns the client before its first await, so the test is never true | a gateway whose `GetTables` resolves to null (it is unreachable): it is never queued, so `Try2Connect` never retries it | queue the gateway when `Connect2Cmtk` returns false; a retry that connects it must also subscribe its ports, which the model leaves out (see "## Left out") | high (not executed) | Server.Monitor.StartupAsWritten | Server.Monitor.Startup |
| backend/server.js:192-201 | the logged entry copies `error` after `DetectEngineWarning` and `DetectEngineOk` have run, so it can show their cause instead of the failure just latched | a port with `vibErrorCount` 9 and `tempWarningCount` 4 (depth 10, default limits) that reads temperature 15 and X velocity 5: the vibration failure is logged as "Temperature Warning" | log the record as `DetectEngineFailure` left it | medium (not executed) | History.AsWrittenLogMislabels | Server.Monitor.ErrorsHandler |
