/**
 * The logic of `MainViewModel` as functions over values: the unlocked derivation, the
 * monitoring toggle and the intents it sends to the location service, and the loading and
 * status bookkeeping around connecting and sending door commands through the MQTT service.
 */
module ControllerModel {
  import opened Models
  import MqttModel
  import opened MonitorModel

  const StatusConnected: string := "Connesso al broker MQTT"
  const StatusConnectFailed: string := "Errore di connessione al broker MQTT"
  const StatusUpdateRequested: string := "Richiesta aggiornamento dati inviata"
  const MessageNotConnected: string := "Non connesso al broker MQTT"

  function CommandSentMessage(command: string): string {
    "Comando " + command + " inviato con successo"
  }

  function CommandFailedMessage(command: string): string {
    "Errore nell'invio del comando " + command
  }

  /** The view model's own flows, and every intent it has sent to the location service. */
  datatype VmState = VmState(
    isLoading: bool,
    doorCommandStatus: Option<string>,
    isInitialized: bool,
    isLocationMonitoringEnabled: bool,
    intents: seq<ServiceCommand>)

  const Initial: VmState := VmState(false, None, false, false, [])

  /**
   * `isCarUnlocked`: unlocked unless both doors report true; no door data yet counts as
   * locked, so that no alert is raised before the lock state is known.
   */
  function IsCarUnlocked(doors: Option<DoorData>): (unlocked: bool)
    ensures doors.None? ==> !unlocked
    ensures doors.Some? ==> (unlocked <==> !doors.value.front || !doors.value.back)
  {
    match doors
    case None => false
    case Some(d) => !(d.front && d.back)
  }

  /** The `Intent` built by `updateLocationService` and `stopLocationService` for a command. */
  function ToIntent(c: ServiceCommand): (i: Intent)
    ensures ParseIntent(Some(i)) == Some(c)
  {
    match c
    case Start(lat, lon, unlocked) =>
      assert ExtraCarLat != ExtraCarLon by { assert ExtraCarLat[5] != ExtraCarLon[5]; }
      Intent(Some(ActionStartMonitoring),
             map[ExtraCarLat := DoubleExtra(lat), ExtraCarLon := DoubleExtra(lon), ExtraCarUnlocked := BooleanExtra(unlocked)])
    case UpdateStatus(unlocked) =>
      Intent(Some(ActionUpdateCarStatus), map[ExtraCarUnlocked := BooleanExtra(unlocked)])
    case Stop =>
      Intent(Some(ActionStopMonitoring), map[])
  }

  /**
   * `updateLocationService`: a START carrying exactly the given position and flag while
   * monitoring is enabled; otherwise an UPDATE_CAR_STATUS only if the service reports that
   * it is monitoring, and nothing at all if it does not.
   */
  function UpdateLocationService(vm: VmState, lat: real, lon: real, unlocked: bool, serviceMonitoring: bool): (r: VmState)
    ensures r.(intents := vm.intents) == vm
    ensures vm.isLocationMonitoringEnabled ==> r.intents == vm.intents + [Start(lat, lon, unlocked)]
    ensures !vm.isLocationMonitoringEnabled && serviceMonitoring ==> r.intents == vm.intents + [UpdateStatus(unlocked)]
    ensures !vm.isLocationMonitoringEnabled && !serviceMonitoring ==> r == vm
  {
    if vm.isLocationMonitoringEnabled then vm.(intents := vm.intents + [Start(lat, lon, unlocked)])
    else if serviceMonitoring then vm.(intents := vm.intents + [UpdateStatus(unlocked)])
    else vm
  }

  /** `stopLocationService`: one STOP_MONITORING intent. */
  function StopLocationService(vm: VmState): (r: VmState)
    ensures r.(intents := vm.intents) == vm && r.intents == vm.intents + [Stop]
  {
    vm.(intents := vm.intents + [Stop])
  }

  /**
   * `toggleLocationMonitoring`, taking one value of `isCarUnlocked` when turned on: off emits
   * exactly one STOP; on emits one START at the car's current position, or nothing without one.
   */
  function ToggleLocationMonitoring(vm: VmState, facets: MqttModel.Facets): (r: VmState)
    ensures r.isLocationMonitoringEnabled == !vm.isLocationMonitoringEnabled
    ensures r.isLoading == vm.isLoading && r.doorCommandStatus == vm.doorCommandStatus && r.isInitialized == vm.isInitialized
    ensures vm.isLocationMonitoringEnabled ==> r.intents == vm.intents + [Stop]
    ensures !vm.isLocationMonitoringEnabled && facets.gps.None? ==> r.intents == vm.intents
    ensures !vm.isLocationMonitoringEnabled && facets.gps.Some? ==>
      r.intents == vm.intents + [Start(facets.gps.value.lat, facets.gps.value.lon, IsCarUnlocked(facets.doors))]
  {
    var toggled := vm.(isLocationMonitoringEnabled := !vm.isLocationMonitoringEnabled);
    if !toggled.isLocationMonitoringEnabled then StopLocationService(toggled)
    else if facets.gps.None? then toggled
    else UpdateLocationService(toggled, facets.gps.value.lat, facets.gps.value.lon, IsCarUnlocked(facets.doors), false)
  }

  /** Two toggles restore the enabled flag, and turning off after on always ends with a STOP. */
  lemma ToggleTwice(vm: VmState, facets: MqttModel.Facets)
    ensures var twice := ToggleLocationMonitoring(ToggleLocationMonitoring(vm, facets), facets);
      twice.isLocationMonitoringEnabled == vm.isLocationMonitoringEnabled &&
      (!vm.isLocationMonitoringEnabled ==> twice.intents[|twice.intents| - 1] == Stop)
  {
  }

  /**
   * The collector launched by `init`: whenever the car position, the unlocked flag or the
   * enabled flag changes, it forwards to `updateLocationService` only while monitoring is
   * enabled and a position is known.
   */
  function OnStateEmitted(vm: VmState, facets: MqttModel.Facets, serviceMonitoring: bool): (r: VmState)
    ensures !vm.isLocationMonitoringEnabled || facets.gps.None? ==> r == vm
    ensures vm.isLocationMonitoringEnabled && facets.gps.Some? ==>
      r.(intents := vm.intents) == vm &&
      r.intents == vm.intents + [Start(facets.gps.value.lat, facets.gps.value.lon, IsCarUnlocked(facets.doors))]
  {
    if vm.isLocationMonitoringEnabled && facets.gps.Some? then
      UpdateLocationService(vm, facets.gps.value.lat, facets.gps.value.lon, IsCarUnlocked(facets.doors), serviceMonitoring)
    else vm
  }

  /**
   * `connectToMqtt`: the service is initialized and one update request follows the
   * subscriptions only when the connect succeeds; loading is off when it finishes.
   */
  function ConnectToMqtt(vm: VmState, mq: MqttModel.MqttState, outcome: MqttModel.ConnectOutcome, updateAccepted: bool)
    : (r: (VmState, MqttModel.MqttState))
    ensures !r.0.isLoading
    ensures r.0.isInitialized == (vm.isInitialized || outcome.HandshakeSucceeds?)
    ensures r.0.doorCommandStatus == Some(if outcome.HandshakeSucceeds? then StatusConnected else StatusConnectFailed)
    ensures r.0.isLocationMonitoringEnabled == vm.isLocationMonitoringEnabled && r.0.intents == vm.intents
    ensures outcome.HandshakeSucceeds? ==>
      r.1.log == mq.log + MqttModel.SubscribeRun(MqttModel.SubscribedTopics, outcome.subscribesAccepted)
                        + [MqttModel.UpdateRequest(updateAccepted)]
    ensures !outcome.HandshakeSucceeds? ==> r.1.log == mq.log && !r.1.connectionStatus
    ensures r.1.facets == mq.facets && r.1 == MqttModel.Connect(mq, outcome).0.(log := r.1.log)
  {
    var (connected, ok) := MqttModel.Connect(mq, outcome);
    if ok then
      (vm.(isLoading := false, doorCommandStatus := Some(StatusConnected), isInitialized := true),
       MqttModel.RequestDataUpdate(connected, updateAccepted))
    else
      (vm.(isLoading := false, doorCommandStatus := Some(StatusConnectFailed)), connected)
  }

  /** `fetchData`: an update request when connected, otherwise a new connect. */
  function FetchData(vm: VmState, mq: MqttModel.MqttState, outcome: MqttModel.ConnectOutcome, updateAccepted: bool)
    : (r: (VmState, MqttModel.MqttState))
    ensures MqttModel.IsConnected(mq) ==>
      r.0 == vm.(doorCommandStatus := Some(StatusUpdateRequested)) &&
      r.1 == mq.(log := mq.log + [MqttModel.UpdateRequest(updateAccepted)])
    ensures !MqttModel.IsConnected(mq) ==>
      r == ConnectToMqtt(vm.(doorCommandStatus := Some(MessageNotConnected)), mq, outcome, updateAccepted)
  {
    if MqttModel.IsConnected(mq) then
      (vm.(doorCommandStatus := Some(StatusUpdateRequested)), MqttModel.RequestDataUpdate(mq, updateAccepted))
    else
      ConnectToMqtt(vm.(doorCommandStatus := Some(MessageNotConnected)), mq, outcome, updateAccepted)
  }

  /**
   * `sendDoorCommand`, with the `onComplete` call as the last two components. Not connected:
   * `onComplete(false, "Non connesso al broker MQTT")` and nothing else happens. Connected:
   * the service's result is passed on and loading is off afterwards. A success reported here
   * always means the command was published and one update request followed.
   */
  function SendDoorCommand(vm: VmState, mq: MqttModel.MqttState, command: string, publishAccepted: bool, updateAccepted: bool)
    : (r: (VmState, MqttModel.MqttState, bool, string))
    ensures !MqttModel.IsConnected(mq) ==> r == (vm, mq, false, MessageNotConnected)
    ensures MqttModel.IsConnected(mq) ==>
      && !r.0.isLoading
      && r.2 == publishAccepted
      && r.3 == (if publishAccepted then CommandSentMessage(command) else CommandFailedMessage(command))
      && r.0 == vm.(isLoading := false, doorCommandStatus := Some(r.3))
    ensures r.2 ==> r.1.log == mq.log + [MqttModel.DoorCommand(command, true), MqttModel.UpdateRequest(updateAccepted)]
    ensures MqttModel.IsConnected(mq) && !publishAccepted ==> r.1.log == mq.log + [MqttModel.DoorCommand(command, false)]
    ensures r.1.facets == mq.facets && r.1.client == mq.client && r.1.connectionStatus == mq.connectionStatus
  {
    if !MqttModel.IsConnected(mq) then (vm, mq, false, MessageNotConnected)
    else
      var (sent, success) := MqttModel.SendDoorCommand(mq, command, publishAccepted, updateAccepted);
      var message := if success then CommandSentMessage(command) else CommandFailedMessage(command);
      (vm.(isLoading := false, doorCommandStatus := Some(message)), sent, success, message)
  }

  /** `onCleared`: disconnect the service and send one STOP_MONITORING. */
  function OnCleared(vm: VmState, mq: MqttModel.MqttState, disconnectAccepted: bool): (r: (VmState, MqttModel.MqttState))
    ensures r.0 == vm.(intents := vm.intents + [Stop])
    ensures r.1 == MqttModel.Disconnect(mq, disconnectAccepted)
    ensures mq.client.None? || disconnectAccepted ==> !r.1.connectionStatus
  {
    (StopLocationService(vm), MqttModel.Disconnect(mq, disconnectAccepted))
  }

  /** A START sent by the view model anchors the service at exactly the position it carries. */
  lemma StartReachesService(ms: MonitorState, lat: real, lon: real, unlocked: bool, permitted: bool)
    ensures var r := MonitorModel.OnStartCommand(ms, Some(ToIntent(Start(lat, lon, unlocked))), permitted);
      r.carLocation == Some(Position(lat, lon)) && r.isCarUnlocked == unlocked && (permitted ==> r.isMonitoring)
  {
  }

  // ---------------------------------------------------------------------------------------
  // `toggleLocationMonitoring` as written: `return@collect` only leaves the lambda, so the
  // collector it launches keeps running and re-sends the position it captured on every later
  // door change. The functions above model the evidently intended one-shot read.

  /** A collector left running by a toggle, holding the position captured when it was launched. */
  datatype Collector = Collector(lat: real, lon: real)

  /** The toggle as written: the same intents, plus one collector that never stops. */
  function ToggleAsWritten(vm: VmState, collectors: seq<Collector>, facets: MqttModel.Facets)
    : (r: (VmState, seq<Collector>))
    ensures r.0 == ToggleLocationMonitoring(vm, facets)
    ensures !vm.isLocationMonitoringEnabled && facets.gps.Some? ==>
      r.1 == collectors + [Collector(facets.gps.value.lat, facets.gps.value.lon)]
    ensures vm.isLocationMonitoringEnabled || facets.gps.None? ==> r.1 == collectors
  {
    var toggled := ToggleLocationMonitoring(vm, facets);
    if !vm.isLocationMonitoringEnabled && facets.gps.Some? then
      (toggled, collectors + [Collector(facets.gps.value.lat, facets.gps.value.lon)])
    else (toggled, collectors)
  }

  /** A new `isCarUnlocked` value reaching every leftover collector, in launch order. */
  function CollectorsReact(vm: VmState, collectors: seq<Collector>, unlocked: bool, serviceMonitoring: bool): (r: VmState)
    ensures r.(intents := vm.intents) == vm
    ensures |r.intents| <= |vm.intents| + |collectors|
    decreases |collectors|
  {
    if collectors == [] then vm
    else
      var c := collectors[0];
      CollectorsReact(UpdateLocationService(vm, c.lat, c.lon, unlocked, serviceMonitoring), collectors[1..], unlocked, serviceMonitoring)
  }

  /** The STARTs the leftover collectors send, each at the position it captured. */
  function CapturedStarts(collectors: seq<Collector>, unlocked: bool): (r: seq<ServiceCommand>)
    ensures |r| == |collectors|
  {
    seq(|collectors|, i requires 0 <= i < |collectors| => Start(collectors[i].lat, collectors[i].lon, unlocked))
  }

  /**
   * While monitoring is enabled, every door change makes each leftover collector send one more
   * START at its captured position, so each toggle-on adds one START per later change.
   */
  lemma {:induction false} CollectorsResendCaptured(vm: VmState, collectors: seq<Collector>, unlocked: bool, serviceMonitoring: bool)
    requires vm.isLocationMonitoringEnabled
    ensures CollectorsReact(vm, collectors, unlocked, serviceMonitoring).intents
         == vm.intents + CapturedStarts(collectors, unlocked)
    decreases |collectors|
  {
    if collectors == [] {
      assert CapturedStarts(collectors, unlocked) == [];
    } else {
      var c := collectors[0];
      var next := UpdateLocationService(vm, c.lat, c.lon, unlocked, serviceMonitoring);
      CollectorsResendCaptured(next, collectors[1..], unlocked, serviceMonitoring);
      assert CapturedStarts(collectors, unlocked)
          == [Start(c.lat, c.lon, unlocked)] + CapturedStarts(collectors[1..], unlocked);
    }
  }

  /**
   * While monitoring is disabled, every leftover collector sends one UPDATE_CAR_STATUS if the
   * service reports monitoring, and nothing otherwise.
   */
  lemma {:induction false} CollectorsUpdateWhenDisabled(vm: VmState, collectors: seq<Collector>, unlocked: bool, serviceMonitoring: bool)
    requires !vm.isLocationMonitoringEnabled
    ensures CollectorsReact(vm, collectors, unlocked, serviceMonitoring).intents
         == vm.intents + (if serviceMonitoring then seq(|collectors|, _ => UpdateStatus(unlocked)) else [])
    decreases |collectors|
  {
    if collectors != [] {
      var c := collectors[0];
      var next := UpdateLocationService(vm, c.lat, c.lon, unlocked, serviceMonitoring);
      CollectorsUpdateWhenDisabled(next, collectors[1..], unlocked, serviceMonitoring);
      if serviceMonitoring {
        assert seq(|collectors|, _ => UpdateStatus(unlocked))
            == [UpdateStatus(unlocked)] + seq(|collectors[1..]|, _ => UpdateStatus(unlocked));
      }
    }
  }

  /**
   * Counterexample: monitoring is turned on at one position, the car is then reported 0.01
   * degrees away and locked. The `init` collector sends a START at the new position, and the
   * leftover collector follows it with a START at the old one, so the service is re-anchored
   * where the car no longer is.
   */
  lemma StaleStartAsWritten()
    ensures
      var here := MqttModel.Facets(Some(GpsData(45.07, 7.69)), Some(DoorData(false, true)), None);
      var moved := MqttModel.Facets(Some(GpsData(45.08, 7.70)), Some(DoorData(true, true)), None);
      var (on, leftover) := ToggleAsWritten(Initial, [], here);
      var reacted := CollectorsReact(OnStateEmitted(on, moved, true), leftover, IsCarUnlocked(moved.doors), true);
      reacted.intents == [Start(45.07, 7.69, true), Start(45.08, 7.70, false), Start(45.07, 7.69, false)]
  {
    var here := MqttModel.Facets(Some(GpsData(45.07, 7.69)), Some(DoorData(false, true)), None);
    var moved := MqttModel.Facets(Some(GpsData(45.08, 7.70)), Some(DoorData(true, true)), None);
    var (on, leftover) := ToggleAsWritten(Initial, [], here);
    assert leftover == [Collector(45.07, 7.69)];
    var emitted := OnStateEmitted(on, moved, true);
    assert emitted.intents == [Start(45.07, 7.69, true), Start(45.08, 7.70, false)];
    assert CollectorsReact(emitted, leftover, false, true)
        == CollectorsReact(UpdateLocationService(emitted, 45.07, 7.69, false, true), [], false, true);
  }

  /**
   * With the one-shot toggle, once monitoring is on the last START the service receives after
   * any change always carries the car's current position.
   */
  lemma LastStartIsCurrent(vm: VmState, here: MqttModel.Facets, moved: MqttModel.Facets, serviceMonitoring: bool)
    requires !vm.isLocationMonitoringEnabled && moved.gps.Some?
    ensures var r := OnStateEmitted(ToggleLocationMonitoring(vm, here), moved, serviceMonitoring);
      r.intents[|r.intents| - 1] == Start(moved.gps.value.lat, moved.gps.value.lon, IsCarUnlocked(moved.doors))
  {
  }
}
