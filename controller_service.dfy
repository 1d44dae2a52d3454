/**
 * The view model object: its own flows as mutable fields, the MQTT service it talks to, and
 * one method per operation, each proved to move the pair (view model, service) exactly as the
 * matching function of `ControllerModel` does.
 */
module ControllerRuntime {
  import opened Models
  import MqttModel
  import opened MonitorModel
  import ControllerModel
  import opened MqttRuntime

  class MainViewModel {
    /** The MQTT service reached through the repository's one-line delegations. */
    const repo: MqttService

    var isLoading: bool
    var doorCommandStatus: Option<string>
    var isInitialized: bool
    var isLocationMonitoringEnabled: bool

    /** Every intent sent to the location service, in order. */
    ghost var intents: seq<ServiceCommand>

    /** The collectors launched by `toggleLocationMonitoring` that are still running. */
    ghost var collectors: seq<ControllerModel.Collector>

    ghost function State(): ControllerModel.VmState
      reads this
    {
      ControllerModel.VmState(isLoading, doorCommandStatus, isInitialized, isLocationMonitoringEnabled, intents)
    }

    /** Construction runs `init`: a fresh service, then the automatic connect. */
    constructor (gson: MqttModel.Codec, outcome: MqttModel.ConnectOutcome, updateAccepted: bool)
      ensures fresh(repo) && repo.gson == gson && collectors == []
      ensures (State(), repo.State())
        == ControllerModel.ConnectToMqtt(ControllerModel.Initial, MqttModel.Initial, outcome, updateAccepted)
    {
      repo := new MqttService(gson);
      isLoading, doorCommandStatus, isInitialized, isLocationMonitoringEnabled := false, None, false, false;
      intents := [];
      collectors := [];
      new;
      ConnectToMqtt(outcome, updateAccepted);
    }

    method ConnectToMqtt(outcome: MqttModel.ConnectOutcome, updateAccepted: bool)
      modifies this, repo
      ensures (State(), repo.State())
        == ControllerModel.ConnectToMqtt(old(State()), old(repo.State()), outcome, updateAccepted)
      ensures collectors == old(collectors)
    {
      isLoading := true;
      var connected := repo.Connect(outcome);
      if connected {
        doorCommandStatus := Some(ControllerModel.StatusConnected);
        isInitialized := true;
        repo.RequestDataUpdate(updateAccepted);
      } else {
        doorCommandStatus := Some(ControllerModel.StatusConnectFailed);
      }
      isLoading := false;
    }

    method FetchData(outcome: MqttModel.ConnectOutcome, updateAccepted: bool)
      modifies this, repo
      ensures (State(), repo.State())
        == ControllerModel.FetchData(old(State()), old(repo.State()), outcome, updateAccepted)
      ensures collectors == old(collectors)
    {
      var connected := repo.IsConnected();
      if connected {
        repo.RequestDataUpdate(updateAccepted);
        doorCommandStatus := Some(ControllerModel.StatusUpdateRequested);
      } else {
        doorCommandStatus := Some(ControllerModel.MessageNotConnected);
        ConnectToMqtt(outcome, updateAccepted);
      }
    }

    /** `sendDoorCommand`; the out-parameters are the arguments given to `onComplete`. */
    method SendDoorCommand(command: string, publishAccepted: bool, updateAccepted: bool)
      returns (success: bool, message: string)
      modifies this, repo
      ensures (State(), repo.State(), success, message)
        == ControllerModel.SendDoorCommand(old(State()), old(repo.State()), command, publishAccepted, updateAccepted)
      ensures collectors == old(collectors)
    {
      var connected := repo.IsConnected();
      if !connected {
        return false, ControllerModel.MessageNotConnected;
      }
      isLoading := true;
      success := repo.SendDoorCommand(command, publishAccepted, updateAccepted);
      if success {
        message := ControllerModel.CommandSentMessage(command);
      } else {
        message := ControllerModel.CommandFailedMessage(command);
      }
      doorCommandStatus := Some(message);
      isLoading := false;
    }

    /**
     * `toggleLocationMonitoring` as written: the collector it launches sends the first START
     * and then stays in `collectors` with the position it captured.
     */
    method ToggleLocationMonitoring()
      modifies this
      ensures (State(), collectors)
        == ControllerModel.ToggleAsWritten(old(State()), old(collectors), repo.State().facets)
    {
      isLocationMonitoringEnabled := !isLocationMonitoringEnabled;
      if !isLocationMonitoringEnabled {
        StopLocationService();
      } else if repo.gpsData.Some? {
        var gps := repo.gpsData.value;
        UpdateLocationService(gps.lat, gps.lon, ControllerModel.IsCarUnlocked(repo.doorData), false);
        collectors := collectors + [ControllerModel.Collector(gps.lat, gps.lon)];
      }
    }

    /**
     * A new value of `isCarUnlocked` reaching the collectors left by earlier toggles: each one
     * calls `updateLocationService` with the position it captured, in launch order.
     */
    ghost method OnCollectorsResumed(serviceMonitoring: bool)
      modifies this`intents
      ensures State()
        == ControllerModel.CollectorsReact(old(State()), collectors, ControllerModel.IsCarUnlocked(repo.doorData), serviceMonitoring)
    {
      var unlocked := ControllerModel.IsCarUnlocked(repo.doorData);
      var i := 0;
      while i < |collectors|
        invariant 0 <= i <= |collectors|
        invariant ControllerModel.CollectorsReact(old(State()), collectors, unlocked, serviceMonitoring)
               == ControllerModel.CollectorsReact(State(), collectors[i..], unlocked, serviceMonitoring)
      {
        var c := collectors[i];
        if isLocationMonitoringEnabled {
          intents := intents + [Start(c.lat, c.lon, unlocked)];
        } else if serviceMonitoring {
          intents := intents + [UpdateStatus(unlocked)];
        }
        assert collectors[i..][1..] == collectors[i + 1..];
        i := i + 1;
      }
    }

    /** The body of the collector launched by `init`, run on each combined emission. */
    method OnStateEmitted(serviceMonitoring: bool)
      modifies this`intents
      ensures State() == ControllerModel.OnStateEmitted(old(State()), repo.State().facets, serviceMonitoring)
    {
      if isLocationMonitoringEnabled && repo.gpsData.Some? {
        var gps := repo.gpsData.value;
        UpdateLocationService(gps.lat, gps.lon, ControllerModel.IsCarUnlocked(repo.doorData), serviceMonitoring);
      }
    }

    /** `serviceMonitoring` is the value of the location service's `isMonitoring` flow. */
    method UpdateLocationService(lat: real, lon: real, unlocked: bool, serviceMonitoring: bool)
      modifies this`intents
      ensures State() == ControllerModel.UpdateLocationService(old(State()), lat, lon, unlocked, serviceMonitoring)
    {
      if isLocationMonitoringEnabled {
        intents := intents + [Start(lat, lon, unlocked)];
      } else if serviceMonitoring {
        intents := intents + [UpdateStatus(unlocked)];
      }
    }

    method StopLocationService()
      modifies this`intents
      ensures State() == ControllerModel.StopLocationService(old(State()))
    {
      intents := intents + [Stop];
    }

    /** `onCleared`; cancelling `viewModelScope` also stops every leftover collector. */
    method OnCleared(disconnectAccepted: bool)
      modifies this, repo
      ensures (State(), repo.State()) == ControllerModel.OnCleared(old(State()), old(repo.State()), disconnectAccepted)
      ensures collectors == []
    {
      repo.Disconnect(disconnectAccepted);
      StopLocationService();
      collectors := [];
    }
  }
}
