# Car monitor app: a Dafny model of its logic

The app talks to a car over MQTT and watches how far the phone is from the car. Three pieces
hold all of its logic, and this project models each of them as a sequential state machine:

- **`MqttService`** holds three nullable data facets (GPS, doors, presence), a Boolean
  connection status and a client.
  - It connects and subscribes to six topics.
  - It routes each inbound payload to at most one facet.
  - It publishes door commands; only a successful command publish is followed by one
    data-update request.
- **`LocationService`** is the proximity monitor. `START_MONITORING`, `STOP_MONITORING` and
  `UPDATE_CAR_STATUS` intents set its anchor (the car's position), its unlocked flag and its
  monitoring flag. Each location fix records the distance to the anchor. A fix raises an alert
  when the car is unlocked and more than 50 m away.
- **`MainViewModel`** does four things:
  - it derives "unlocked" from the door facet;
  - it toggles monitoring and chooses which intent to send to the location service;
  - it guards door commands with the connection check;
  - it keeps the loading and status fields.

Each piece is modelled in two layers.

- **A module of pure functions over a state value**: `MqttModel`, `MonitorModel` and
  `ControllerModel`.
  - Each operation is one function whose `ensures` say which fields change, to what, and
    what is published or emitted.
  - Lemmas cover whole runs of operations. They compare a fold over the operations with an
    independent reference definition, or show that an invariant holds.
- **A module with a class holding the program's mutable fields**: `MqttRuntime`,
  `MonitorRuntime` and `ControllerRuntime`.
  - Each method updates the fields in place.
  - Each method is proved to take the object's state exactly to the result of the matching
    model function.

Some outside effects are inputs to the operations instead:

- Transport outcomes: whether the client can be created, whether the handshake succeeds, how
  many subscriptions succeed, and whether each publish or disconnect throws.
- The location permission.
- The distance of each fix.
- The service's `isMonitoring` flag as the view model reads it.
- The Gson decoder, modelled as a `Codec` of partial functions. A decode either throws
  (`Malformed`), returns `null` (`JsonNull`), or returns a value.

Publishes and subscriptions go to a ghost log of `Event`s, and intents go to a ghost log of
`ServiceCommand`s. Alerts go to a ghost log of `Alert`s.

In these points the model follows the code:

- "Unlocked" is `!(front && back)`, and missing door data counts as locked.
- The connection status is a Boolean, not a multi-state enum.
- An automatic reconnect of the client does not set the status back to `true`, and nothing
  re-subscribes.
- `disconnect` leaves the status unchanged when the client's `disconnect` throws.
- The fix handler does not check whether monitoring is active. Fixes stop because the updates
  are removed (`Deliver`, `NothingAfterStop`).
- The alert text shows the distance truncated toward zero (`toInt`), not rounded.
- A `null` decode result (for example an empty payload) is stored into the facet and clears it.

`MqttRepository` forwards each call unchanged to `MqttService`, so the view model's `repo` is
modelled as the service itself.

## Model

Paths are relative to the repository root. Below, `MqttService.kt`, `LocationMonitoringService.kt`
and `MainViewModel.kt` all live in `app/src/main/java/com/example/projectiot/`.

| member | source | states |
|---|---|---|
| MqttModel.SubscribeRun | app/src/main/java/com/example/projectiot/MqttService.kt:92-108 | The subscribe calls are made in topic order, each at QoS 1. The first `accepted` calls succeed. The next one throws and ends the run, so there is one call more than `accepted` unless all succeed. |
| MqttModel.SubscribeToTopics | app/src/main/java/com/example/projectiot/MqttService.kt:92-108 | With a client, the old log is kept and gains exactly the subscribe calls of `SubscribeRun`: all six subscriptions in order (`car/gps` through `car/presence/response`) at QoS 1 when nothing throws, or up to and including the one that throws. Without a client nothing changes. Client, facets and status are unchanged. |
| MqttModel.Connect | app/src/main/java/com/example/projectiot/MqttService.kt:46-90 | Returns true iff the handshake succeeds, and the status equals the result. A success subscribes, even when a subscribe throws. A failure subscribes to nothing. If client creation throws, the old client is kept; otherwise the new client is connected iff the result is true. Facets are untouched and the status/connected invariant holds afterwards. |
| MqttModel.ApplyInbound | app/src/main/java/com/example/projectiot/MqttService.kt:110-132 | A payload on a `*/response` topic replaces only its own facet with what the decoder stored. The other two facets are unchanged. A null message, an unrouted topic or a throwing decode leaves all facets unchanged. |
| MqttModel.HandleIncomingMessage | app/src/main/java/com/example/projectiot/MqttService.kt:110-132 | The facets become exactly those of `ApplyInbound`, so a routed payload replaces only its own facet. Client, status and the publish log are untouched, and an ignored message changes nothing. |
| MqttModel.RequestDataUpdate | app/src/main/java/com/example/projectiot/MqttService.kt:157-168 | With a client there is exactly one `"update"` publish at QoS 1 on `car/request/update`, even when the publish throws. Without a client nothing happens. |
| MqttModel.SendDoorCommand | app/src/main/java/com/example/projectiot/MqttService.kt:134-155 | With a client, the result is true iff the command publish succeeds. On success the log gains the command and then exactly one update request. On failure it gains only the failed command publish. Without a client the result is true and nothing is logged. |
| MqttModel.Disconnect | app/src/main/java/com/example/projectiot/MqttService.kt:170-178 | With no client, or when the client disconnects cleanly, the status becomes false and `isConnected` is false. When the client's `disconnect` throws, nothing changes. |
| MqttModel.ConnectionLost | app/src/main/java/com/example/projectiot/MqttService.kt:58-62 | The status and `isConnected` become false. Facets and log are kept. |
| MqttModel.AutomaticReconnect | app/src/main/java/com/example/projectiot/MqttService.kt:51-56 | The client is connected again iff there is one. The status, facets and log are unchanged, so there is no re-subscription. |
| MqttModel.Step | app/src/main/java/com/example/projectiot/MqttService.kt:46-182 | No operation except a successful connect turns the status on. A connection loss turns it off. Every operation preserves "status true implies client connected". |
| MqttModel.StatusTrueNeedsConnect | app/src/main/java/com/example/projectiot/MqttService.kt:46-90 | After any run of operations, a true status means one of two things. It was already true with no loss since, or some successful connect happened with no loss after it. |
| MqttModel.RunKeepsInv | app/src/main/java/com/example/projectiot/MqttService.kt:46-182 | Every run from a state where the status implies connected keeps that invariant. |
| MqttModel.ApplyAllIsLastStored | app/src/main/java/com/example/projectiot/MqttService.kt:110-132 | After any sequence of messages, each facet is what the last decodable message on its own response topic stored. With no such message, it is the initial value. |
| MqttModel.ApplyAllAppend | app/src/main/java/com/example/projectiot/MqttService.kt:110-132 | Handling two message sequences one after the other equals handling their concatenation. |
| MqttModel.IgnoredMessageIsInvisible | app/src/main/java/com/example/projectiot/MqttService.kt:110-132 | Removing a dropped message (null, unrouted or undecodable) from anywhere in a sequence does not change the resulting facets. |
| MqttRuntime.MqttService.constructor | app/src/main/java/com/example/projectiot/MqttService.kt:12-28 | No client, all facets null, status false, empty log. |
| MqttRuntime.MqttService.Connect | app/src/main/java/com/example/projectiot/MqttService.kt:46-90 | The fields and the result become exactly those of `MqttModel.Connect`. |
| MqttRuntime.MqttService.SubscribeToTopics | app/src/main/java/com/example/projectiot/MqttService.kt:92-108 | Only the log changes, exactly as in `MqttModel.SubscribeToTopics`. |
| MqttRuntime.MqttService.HandleIncomingMessage | app/src/main/java/com/example/projectiot/MqttService.kt:110-132 | The facet fields become exactly those of `MqttModel.HandleIncomingMessage`. |
| MqttRuntime.MqttService.SendDoorCommand | app/src/main/java/com/example/projectiot/MqttService.kt:134-155 | The new state and the result are exactly those of `MqttModel.SendDoorCommand`. |
| MqttRuntime.MqttService.RequestDataUpdate | app/src/main/java/com/example/projectiot/MqttService.kt:157-168 | The new state is exactly that of `MqttModel.RequestDataUpdate`. |
| MqttRuntime.MqttService.Disconnect | app/src/main/java/com/example/projectiot/MqttService.kt:170-178 | The new state is exactly that of `MqttModel.Disconnect`. |
| MqttRuntime.MqttService.IsConnected | app/src/main/java/com/example/projectiot/MqttService.kt:180-182 | Returns whether the client exists and is connected. It is false without a client, and true whenever the status is true in a state satisfying the invariant. |
| MqttRuntime.MqttService.ConnectionLost | app/src/main/java/com/example/projectiot/MqttService.kt:58-62 | The new state is exactly that of `MqttModel.ConnectionLost`. |
| MqttRuntime.MqttService.AutomaticReconnect | app/src/main/java/com/example/projectiot/MqttService.kt:51-56 | The new state is exactly that of `MqttModel.AutomaticReconnect`. |
| MonitorModel.ParseIntent | app/src/main/java/com/example/projectiot/LocationMonitoringService.kt:58-75 | Each of the three actions is recognised, and any other or missing action is ignored. Missing `car_lat`, `car_lon` and `car_unlocked` extras read as 0.0, 0.0 and false. |
| MonitorModel.ToInt | app/src/main/java/com/example/projectiot/LocationMonitoringService.kt:181-183 | Kotlin's `Double.toInt`. It truncates toward zero within the `Int` range and saturates at `Int.MIN_VALUE` and `Int.MAX_VALUE` outside it. |
| MonitorModel.StartMonitoring | app/src/main/java/com/example/projectiot/LocationMonitoringService.kt:104-137 | The anchor and the unlocked flag are always set. Only with permission are updates requested and monitoring set. The distance is unchanged and the invariant is kept. |
| MonitorModel.StopMonitoring | app/src/main/java/com/example/projectiot/LocationMonitoringService.kt:139-146 | Updates are removed, monitoring is off and the distance is null. The anchor and unlocked flag stay. |
| MonitorModel.UpdateCarStatus | app/src/main/java/com/example/projectiot/LocationMonitoringService.kt:148-151 | Only the unlocked flag changes. |
| MonitorModel.OnStartCommand | app/src/main/java/com/example/projectiot/LocationMonitoringService.kt:58-75 | START_MONITORING runs `startMonitoring` with the `car_lat`, `car_lon` and `car_unlocked` extras, read as 0.0, 0.0 and false when missing. STOP_MONITORING runs `stopMonitoring`. UPDATE_CAR_STATUS runs `updateCarStatus` with `car_unlocked`, false when missing. An unknown or missing action changes nothing. Every dispatch keeps the invariant. |
| MonitorModel.StartWithoutExtras | app/src/main/java/com/example/projectiot/LocationMonitoringService.kt:60-64 | A START_MONITORING intent with no extras anchors the service at (0.0, 0.0) with the car locked, and with permission monitoring starts. |
| MonitorModel.OnLocationResult | app/src/main/java/com/example/projectiot/LocationMonitoringService.kt:79-99 | With no `lastLocation` or no anchor, nothing changes and there is no alert. Otherwise only the distance is recorded. An alert is raised iff the car is unlocked and the distance is strictly above 50.0, and it shows the truncated meters. |
| MonitorModel.Deliver | app/src/main/java/com/example/projectiot/LocationMonitoringService.kt:128-132 | A fix reaches the callback only while updates are requested. |
| MonitorModel.QualifyingAlerts | app/src/main/java/com/example/projectiot/LocationMonitoringService.kt:89-96 | Reference definition: one alert per fix with a location beyond the threshold, every alert beyond 50 m. If every fix qualifies there are exactly as many alerts as fixes. |
| MonitorModel.RunFixesAlerts | app/src/main/java/com/example/projectiot/LocationMonitoringService.kt:79-99 | While monitoring an unlocked car, any run of fixes raises exactly the reference alerts, one per qualifying fix with no debounce. Otherwise it raises none. Fixes never move the anchor or the flags. |
| MonitorModel.NothingAfterStop | app/src/main/java/com/example/projectiot/LocationMonitoringService.kt:139-146 | After `STOP_MONITORING`, no run of fixes changes the state or raises an alert. |
| MonitorRuntime.LocationService.constructor | app/src/main/java/com/example/projectiot/LocationMonitoringService.kt:44-56 | No anchor, locked, not monitoring, no distance, no alerts. |
| MonitorRuntime.LocationService.OnStartCommand | app/src/main/java/com/example/projectiot/LocationMonitoringService.kt:58-75 | The fields become those of `MonitorModel.OnStartCommand` and the result is `START_STICKY`. |
| MonitorRuntime.LocationService.StartMonitoring | app/src/main/java/com/example/projectiot/LocationMonitoringService.kt:104-137 | The fields become those of `MonitorModel.StartMonitoring`. |
| MonitorRuntime.LocationService.StopMonitoring | app/src/main/java/com/example/projectiot/LocationMonitoringService.kt:139-146 | The fields become those of `MonitorModel.StopMonitoring`. |
| MonitorRuntime.LocationService.UpdateCarStatus | app/src/main/java/com/example/projectiot/LocationMonitoringService.kt:148-151 | The fields become those of `MonitorModel.UpdateCarStatus`. |
| MonitorRuntime.LocationService.OnLocationResult | app/src/main/java/com/example/projectiot/LocationMonitoringService.kt:79-99 | The fields become those of `MonitorModel.OnLocationResult`. The alert log gains that function's alert, if any. |
| MonitorRuntime.LocationService.SendDistanceNotification | app/src/main/java/com/example/projectiot/LocationMonitoringService.kt:168-193 | One alert is posted, carrying the distance and its truncated meters. |
| ControllerModel.IsCarUnlocked | app/src/main/java/com/example/projectiot/MainViewModel.kt:40-45 | Unlocked iff door data exists and not both doors are true. Missing data yields false. |
| ControllerModel.ToIntent | app/src/main/java/com/example/projectiot/MainViewModel.kt:143-172 | Each intent the view model builds is parsed by the service back into the same command. |
| ControllerModel.UpdateLocationService | app/src/main/java/com/example/projectiot/MainViewModel.kt:143-164 | When enabled, it sends a START carrying exactly the given lat, lon and flag. When disabled, it sends an UPDATE_CAR_STATUS only if the service reports monitoring, and otherwise nothing. It changes nothing else. |
| ControllerModel.StopLocationService | app/src/main/java/com/example/projectiot/MainViewModel.kt:166-172 | Exactly one STOP is sent. |
| ControllerModel.ToggleLocationMonitoring | app/src/main/java/com/example/projectiot/MainViewModel.kt:124-140 | The enabled flag is negated and nothing else but the intents changes. Turning off sends exactly one STOP. Turning on with no GPS sends nothing. Otherwise it sends one START at the current position and unlocked flag. |
| ControllerModel.ToggleTwice | app/src/main/java/com/example/projectiot/MainViewModel.kt:124-140 | Two toggles restore the enabled flag, and an on-then-off pair ends with a STOP. |
| ControllerModel.OnStateEmitted | app/src/main/java/com/example/projectiot/MainViewModel.kt:52-60 | The init collector sends a START at the current position only when monitoring is enabled and GPS is known. Otherwise it changes nothing. |
| ControllerModel.ConnectToMqtt | app/src/main/java/com/example/projectiot/MainViewModel.kt:63-82 | Loading is false at the end. The model is initialized, and the update request follows the subscriptions, only on a successful connect. The status message reflects the outcome. |
| ControllerModel.FetchData | app/src/main/java/com/example/projectiot/MainViewModel.kt:84-92 | When connected there is one update request and the "requested" message. Otherwise there is the "not connected" message and then a new connect. |
| ControllerModel.SendDoorCommand | app/src/main/java/com/example/projectiot/MainViewModel.kt:94-121 | When not connected, the result is (false, "Non connesso al broker MQTT") and nothing changes, including loading. When connected, the service's result is passed on with its message, and loading is false. A success means the command and one update request were published. |
| ControllerModel.OnCleared | app/src/main/java/com/example/projectiot/MainViewModel.kt:174-178 | The service disconnects and exactly one STOP is sent. No other field of the view model changes. |
| ControllerModel.StartReachesService | app/src/main/java/com/example/projectiot/MainViewModel.kt:147-153 | A START built by the view model anchors the service at exactly its position and flag, and with permission monitoring starts. |
| ControllerModel.ToggleAsWritten | app/src/main/java/com/example/projectiot/MainViewModel.kt:124-140 | The toggle as written sends the same intents as the one-shot toggle. Each toggle-on with a GPS fix also leaves one collector running with the position it captured. |
| ControllerModel.CollectorsReact | app/src/main/java/com/example/projectiot/MainViewModel.kt:131-137 | A door change reaching the leftover collectors changes only the intents, with at most one intent per collector. |
| ControllerModel.CollectorsResendCaptured | app/src/main/java/com/example/projectiot/MainViewModel.kt:131-137 | While enabled, each door change makes every leftover collector send one more START, each at its captured position. |
| ControllerModel.CollectorsUpdateWhenDisabled | app/src/main/java/com/example/projectiot/MainViewModel.kt:154-162 | While disabled, each door change makes every leftover collector send one UPDATE_CAR_STATUS if the service reports monitoring, and nothing otherwise. |
| ControllerModel.StaleStartAsWritten | app/src/main/java/com/example/projectiot/MainViewModel.kt:124-140 | Counterexample: after a move and a door change, the last START re-anchors the service at the old position. |
| ControllerModel.LastStartIsCurrent | app/src/main/java/com/example/projectiot/MainViewModel.kt:52-60 | With the one-shot toggle, the last START after any later change carries the current position. |
| ControllerRuntime.MainViewModel.constructor | app/src/main/java/com/example/projectiot/MainViewModel.kt:47-61 | A fresh service is created with no leftover collectors, then the automatic connect runs, as in `ControllerModel.ConnectToMqtt` from the initial states. |
| ControllerRuntime.MainViewModel.ConnectToMqtt | app/src/main/java/com/example/projectiot/MainViewModel.kt:63-82 | The view model and service become exactly those of `ControllerModel.ConnectToMqtt`. |
| ControllerRuntime.MainViewModel.FetchData | app/src/main/java/com/example/projectiot/MainViewModel.kt:84-92 | The view model and service become exactly those of `ControllerModel.FetchData`. |
| ControllerRuntime.MainViewModel.SendDoorCommand | app/src/main/java/com/example/projectiot/MainViewModel.kt:94-121 | The states and the `onComplete` arguments are exactly those of `ControllerModel.SendDoorCommand`. |
| ControllerRuntime.MainViewModel.ToggleLocationMonitoring | app/src/main/java/com/example/projectiot/MainViewModel.kt:124-140 | As written: the view model and its running collectors become `ControllerModel.ToggleAsWritten` of the service's current facets. The intents are those of the one-shot toggle, and each toggle-on with GPS leaves one more collector with the captured position. |
| ControllerRuntime.MainViewModel.OnCollectorsResumed | app/src/main/java/com/example/projectiot/MainViewModel.kt:132-137 | A new unlocked value reaching the leftover collectors changes the intents exactly as `ControllerModel.CollectorsReact` does, each collector calling `updateLocationService` with its captured position. |
| ControllerRuntime.MainViewModel.OnStateEmitted | app/src/main/java/com/example/projectiot/MainViewModel.kt:52-60 | The intents become those of `ControllerModel.OnStateEmitted`. |
| ControllerRuntime.MainViewModel.UpdateLocationService | app/src/main/java/com/example/projectiot/MainViewModel.kt:143-164 | The intents become those of `ControllerModel.UpdateLocationService`. |
| ControllerRuntime.MainViewModel.StopLocationService | app/src/main/java/com/example/projectiot/MainViewModel.kt:166-172 | One STOP is appended. |
| ControllerRuntime.MainViewModel.OnCleared | app/src/main/java/com/example/projectiot/MainViewModel.kt:174-178 | The view model and service become exactly those of `ControllerModel.OnCleared`. Cancelling `viewModelScope` stops every leftover collector. |

## Left out

- The haversine `calculateDistance` (`LocationMonitoringService.kt:153-166`) is left out because it is double-precision trigonometry. The distance of each fix is an input `real`.
- Doubles are modelled as exact reals, so NaN, infinities and rounding are not modelled.
- Notifications are not modelled beyond their content: the channel, the foreground notification, `PendingIntent`, vibration and logging are platform calls. A posted notification is an `Alert` in a ghost log.
- The Paho client internals are not modelled: TCP, persistence, keep-alive and the reconnect policy. Outcomes are inputs, and an automatic reconnect is a separate step. The old client that a new `connect` replaces is not closed, and the model does not track it.
- Gson's parsing rules are not modelled. Decoding is an arbitrary `Codec`, and the door-command JSON is a constructor (`DoorCommandJson`) rather than text.
- Coroutines, `suspendCoroutine`, `StateFlow`, `combine` and `viewModelScope` are not modelled. Each operation is one sequential step and each flow is a field. Interleavings between the MQTT callback thread, location callbacks and launched coroutines are not modelled. The order of the toggle's own START and the `init` collector's reaction to the enabled flag is left to the caller of the model. After `onCleared` the `init` collector is cancelled too, and no operation of the model should be applied to the view model past that point.
- The service lifecycle beyond `onCreate` and `onStartCommand` is not modelled: `stopSelf`, `onDestroy`, `onBind`, and the sharing of the companion `isMonitoring` and `currentDistance` flows between service instances.
- `MainViewModel.ConnectToMqtt` does not model the `catch` branch at `MainViewModel.kt:76-77`, because the service's `connect` catches every exception itself, so that branch is unreachable. The same holds for the `catch` branch of `sendDoorCommand` at `MainViewModel.kt:113-116`.
- The exception message that an unexpected error would add to the status text is not modelled.
- `MqttRepository.kt`, `Repository.kt`, `ApiServices.kt`, `MainActivity.kt` and the Compose UI are not part of this model. The repository only forwards calls, and the rest is network declarations and UI.
- The `isMonitoringActive` and `currentDistance` passthroughs of the view model are not modelled, because they carry no logic.
- MqttModel.AutomaticReconnect: reconnects any existing client, including one whose handshake failed or that was disconnected on purpose, whereas Paho only reconnects after a lost connection. The model therefore allows some runs the app cannot reach, in which `isConnected` is true again. No proved property depends on excluding them.
- MonitorModel.OnLocationResult: its own contract states the shown meters as `floor(distance)` only below `Int.MAX_VALUE`. Above that bound the value is `ToInt`'s saturation, which `ToInt`'s contract states.

## Findings

| source | as written | input that shows it | evidently intended | confidence | as-written member | corrected member |
|---|---|---|---|---|---|---|
| app/src/main/java/com/example/projectiot/MainViewModel.kt:131-137 | `return@collect` only returns from the lambda, so the collector launched by turning monitoring on never stops. It keeps the lat/lon it captured, and every later door change re-sends START with that old position. Each toggle-on adds another such collector. | Turn monitoring on at (45.07, 7.69) with the car unlocked. GPS then reports (45.08, 7.70) and the doors report locked. The `init` collector sends START(45.08, 7.70, false), and the leftover collector then sends START(45.07, 7.69, false), re-anchoring the service where the car no longer is. | Read `isCarUnlocked` once, as `first()` would, and send a single START at the current position. After any later change, the last START then carries the current position (`ControllerModel.LastStartIsCurrent`). | high; not executed | ControllerModel.StaleStartAsWritten | ControllerModel.ToggleLocationMonitoring |
