/**
 * The MQTT service object: the fields `MqttService` updates in place, and one method per
 * operation, each proved to move the object's state exactly as the step of `MqttModel` does.
 */
module MqttRuntime {
  import opened Models
  import opened MqttModel

  class MqttService {
    /** The Gson instance used to decode inbound payloads. */
    const gson: Codec

    var mqttClient: Option<Session>
    var gpsData: Option<GpsData>
    var doorData: Option<DoorData>
    var presenceData: Option<PresenceData>
    var connectionStatus: bool

    /** Every subscribe and publish call made on a client, in order. */
    ghost var log: seq<Event>

    ghost function State(): MqttState
      reads this
    {
      MqttState(mqttClient, Facets(gpsData, doorData, presenceData), connectionStatus, log)
    }

    constructor (gson: Codec)
      ensures this.gson == gson && State() == Initial
    {
      this.gson := gson;
      mqttClient, gpsData, doorData, presenceData := None, None, None, None;
      connectionStatus := false;
      log := [];
    }

    method Connect(outcome: ConnectOutcome) returns (ok: bool)
      modifies this
      ensures (State(), ok) == MqttModel.Connect(old(State()), outcome)
    {
      if outcome.ClientCreationFails? {
        // the outer `catch (e: Exception)`: the old client reference is kept
        connectionStatus := false;
        return false;
      }
      mqttClient := Some(Session(false));
      if outcome.HandshakeFails? {
        connectionStatus := false;
        return false;
      }
      mqttClient := Some(Session(true));
      connectionStatus := true;
      SubscribeToTopics(outcome.subscribesAccepted);
      ok := true;
    }

    method SubscribeToTopics(accepted: nat)
      modifies this`log
      ensures State() == MqttModel.SubscribeToTopics(old(State()), accepted)
    {
      if mqttClient.Some? {
        log := log + SubscribeRun(SubscribedTopics, accepted);
      }
    }

    method HandleIncomingMessage(topic: Option<string>, message: Option<string>)
      modifies this
      ensures State() == MqttModel.HandleIncomingMessage(old(State()), gson, topic, message)
    {
      if message.None? {
        return;
      }
      var payload := message.value;
      if topic == Some(TopicGpsResponse) {
        match gson.gps(payload)
        case Malformed =>
        case JsonNull => gpsData := None;
        case Parsed(v) => gpsData := Some(v);
      } else if topic == Some(TopicDoorsResponse) {
        match gson.doors(payload)
        case Malformed =>
        case JsonNull => doorData := None;
        case Parsed(v) => doorData := Some(v);
      } else if topic == Some(TopicPresenceResponse) {
        match gson.presence(payload)
        case Malformed =>
        case JsonNull => presenceData := None;
        case Parsed(v) => presenceData := Some(v);
      }
    }

    method SendDoorCommand(command: string, publishAccepted: bool, updateAccepted: bool) returns (ok: bool)
      modifies this
      ensures (State(), ok) == MqttModel.SendDoorCommand(old(State()), command, publishAccepted, updateAccepted)
    {
      if mqttClient.Some? {
        log := log + [DoorCommand(command, publishAccepted)];
        if !publishAccepted {
          return false;
        }
      }
      ok := true;
      RequestDataUpdate(updateAccepted);
    }

    method RequestDataUpdate(accepted: bool)
      modifies this
      ensures State() == MqttModel.RequestDataUpdate(old(State()), accepted)
    {
      if mqttClient.Some? {
        log := log + [UpdateRequest(accepted)];
      }
    }

    method Disconnect(accepted: bool)
      modifies this
      ensures State() == MqttModel.Disconnect(old(State()), accepted)
    {
      if mqttClient.Some? {
        if !accepted {
          return;
        }
        mqttClient := Some(Session(false));
      }
      connectionStatus := false;
    }

    method IsConnected() returns (connected: bool)
      ensures connected == MqttModel.IsConnected(State())
      ensures connectionStatus ==> connected || !Inv(State())
      ensures mqttClient.None? ==> !connected
    {
      connected := match mqttClient
        case None => false
        case Some(client) => client.connected;
    }

    /** The `connectionLost` callback installed on the client. */
    method ConnectionLost()
      modifies this
      ensures State() == MqttModel.ConnectionLost(old(State()))
    {
      if mqttClient.Some? {
        mqttClient := Some(Session(false));
      }
      connectionStatus := false;
    }

    /** Paho reconnecting on its own; no code of the service runs. */
    method AutomaticReconnect()
      modifies this
      ensures State() == MqttModel.AutomaticReconnect(old(State()))
    {
      if mqttClient.Some? {
        mqttClient := Some(Session(true));
      }
    }
  }
}
