/**
 * The MQTT service as a state machine over values.
 *
 * The state holds the (nullable) Paho client, the three inbound facets, the Boolean
 * connection status and a log of every subscribe and publish call made on a client.
 * The outcome of each transport call (does the handshake succeed, does a publish throw)
 * is an input of the step that makes it; Gson is the `Codec` given to the steps that decode.
 */
module MqttModel {
  import opened Models

  const TopicGps: string := "car/gps"
  const TopicDoors: string := "car/doors"
  const TopicPresence: string := "car/presence"
  const TopicDoorCommand: string := "car/doors/command"
  const TopicGpsResponse: string := "car/gps/response"
  const TopicDoorsResponse: string := "car/doors/response"
  const TopicPresenceResponse: string := "car/presence/response"
  const TopicRequestUpdate: string := "car/request/update"
  const UpdatePayload: string := "update"

  /** Every subscribe and publish of the service uses QoS 1 (at least once). */
  const QosAtLeastOnce: int := 1

  /** The topics `subscribeToTopics` subscribes to, in the order it does so. */
  const SubscribedTopics: seq<string> :=
    [TopicGps, TopicDoors, TopicPresence, TopicGpsResponse, TopicDoorsResponse, TopicPresenceResponse]

  /** What goes on the wire: the Gson encoding of `DoorCommand(command)`, or a literal text. */
  datatype Payload = DoorCommandJson(command: string) | Text(text: string)

  /** One call on the client; `accepted` is false when the call threw. */
  datatype Event =
    | Subscribed(topic: string, qos: int, accepted: bool)
    | Published(topic: string, payload: Payload, qos: int, accepted: bool)

  /** The Paho client object; `connected` is what its `isConnected` reports. */
  datatype Session = Session(connected: bool)

  /**
   * How a call of `connect` goes: creating the client throws, the handshake throws
   * (an `MqttException` or any other exception), or the handshake succeeds and the first
   * `subscribesAccepted` subscribe calls return before one throws.
   */
  datatype ConnectOutcome =
    | ClientCreationFails
    | HandshakeFails
    | HandshakeSucceeds(subscribesAccepted: nat)

  /** What `gson.fromJson` does with a payload: throw, return null, or return a record. */
  datatype Decoded<+T> = Malformed | JsonNull | Parsed(value: T)

  /** The Gson instance, one decoder per record class. */
  datatype Codec = Codec(
    gps: string -> Decoded<GpsData>,
    doors: string -> Decoded<DoorData>,
    presence: string -> Decoded<PresenceData>)

  /** The three inbound facets, each null until a message sets it. */
  datatype Facets = Facets(gps: Option<GpsData>, doors: Option<DoorData>, presence: Option<PresenceData>)

  datatype MqttState = MqttState(client: Option<Session>, facets: Facets, connectionStatus: bool, log: seq<Event>)

  const Initial: MqttState := MqttState(None, Facets(None, None, None), false, [])

  function DoorCommand(command: string, accepted: bool): Event {
    Published(TopicDoorCommand, DoorCommandJson(command), QosAtLeastOnce, accepted)
  }

  function UpdateRequest(accepted: bool): Event {
    Published(TopicRequestUpdate, Text(UpdatePayload), QosAtLeastOnce, accepted)
  }

  /** `mqttClient?.isConnected == true`. */
  predicate IsConnected(s: MqttState) {
    s.client.Some? && s.client.value.connected
  }

  /** Every reachable state: a true status is only ever held while the client is connected. */
  predicate Inv(s: MqttState) {
    s.connectionStatus ==> IsConnected(s)
  }

  // ---------------------------------------------------------------------------------------
  // Connecting and subscribing

  /**
   * The subscribe calls made on `topics` in order when the first `accepted` of them return
   * and the next one throws, which ends the run.
   */
  function SubscribeRun(topics: seq<string>, accepted: nat): (calls: seq<Event>)
    ensures |calls| == if accepted < |topics| then accepted + 1 else |topics|
    ensures forall i :: 0 <= i < |calls| ==> calls[i] == Subscribed(topics[i], QosAtLeastOnce, i < accepted)
  {
    if topics == [] then []
    else if accepted == 0 then [Subscribed(topics[0], QosAtLeastOnce, false)]
    else [Subscribed(topics[0], QosAtLeastOnce, true)] + SubscribeRun(topics[1..], accepted - 1)
  }

  /**
   * `subscribeToTopics`: six subscriptions at QoS 1 on the client, none without one; an
   * exception stops the run and is swallowed.
   */
  function SubscribeToTopics(s: MqttState, accepted: nat): (r: MqttState)
    ensures r.client == s.client && r.facets == s.facets && r.connectionStatus == s.connectionStatus
    ensures s.client.None? ==> r == s
    ensures s.client.Some? ==> r.log == s.log + SubscribeRun(SubscribedTopics, accepted)
    ensures s.client.Some? && accepted >= |SubscribedTopics| ==>
      |r.log| == |s.log| + 6 &&
      forall i :: 0 <= i < 6 ==> r.log[|s.log| + i] == Subscribed(SubscribedTopics[i], QosAtLeastOnce, true)
  {
    if s.client.None? then s
    else s.(log := s.log + SubscribeRun(SubscribedTopics, accepted))
  }

  /**
   * `connect`: success sets the status, subscribes and returns true even when a subscribe
   * throws; any failure sets the status false, returns false and subscribes to nothing.
   */
  function Connect(s: MqttState, outcome: ConnectOutcome): (r: (MqttState, bool))
    ensures r.1 <==> outcome.HandshakeSucceeds?
    ensures r.0.connectionStatus == r.1 && Inv(r.0)
    ensures r.0.facets == s.facets
    ensures outcome.ClientCreationFails? ==> r.0.client == s.client
    ensures !outcome.ClientCreationFails? ==> r.0.client == Some(Session(r.1))
    ensures r.1 ==> r.0.log == s.log + SubscribeRun(SubscribedTopics, outcome.subscribesAccepted)
    ensures !r.1 ==> r.0.log == s.log
  {
    match outcome
    case ClientCreationFails =>
      (s.(connectionStatus := false), false)
    case HandshakeFails =>
      (s.(client := Some(Session(false)), connectionStatus := false), false)
    case HandshakeSucceeds(accepted) =>
      (SubscribeToTopics(s.(client := Some(Session(true)), connectionStatus := true), accepted), true)
  }

  // ---------------------------------------------------------------------------------------
  // Inbound messages

  /** The facet value after storing what Gson returned; a thrown decode keeps the old value. */
  function Stored<T>(previous: Option<T>, d: Decoded<T>): Option<T> {
    match d
    case Malformed => previous
    case JsonNull => None
    case Parsed(v) => Some(v)
  }

  /** A message the handler drops: null, on a topic it does not route, or whose decode throws. */
  predicate Ignored(gson: Codec, topic: Option<string>, message: Option<string>) {
    || message.None?
    || topic.None?
    || (topic.value != TopicGpsResponse && topic.value != TopicDoorsResponse && topic.value != TopicPresenceResponse)
    || (topic.value == TopicGpsResponse && gson.gps(message.value).Malformed?)
    || (topic.value == TopicDoorsResponse && gson.doors(message.value).Malformed?)
    || (topic.value == TopicPresenceResponse && gson.presence(message.value).Malformed?)
  }

  /** `handleIncomingMessage` on the facets: the topic picks at most one facet to replace. */
  function ApplyInbound(f: Facets, gson: Codec, topic: Option<string>, message: Option<string>): (r: Facets)
    ensures Ignored(gson, topic, message) ==> r == f
    ensures topic != Some(TopicGpsResponse) ==> r.gps == f.gps
    ensures topic != Some(TopicDoorsResponse) ==> r.doors == f.doors
    ensures topic != Some(TopicPresenceResponse) ==> r.presence == f.presence
    ensures topic == Some(TopicGpsResponse) && message.Some? ==> r.gps == Stored(f.gps, gson.gps(message.value))
    ensures topic == Some(TopicDoorsResponse) && message.Some? ==> r.doors == Stored(f.doors, gson.doors(message.value))
    ensures topic == Some(TopicPresenceResponse) && message.Some? ==>
      r.presence == Stored(f.presence, gson.presence(message.value))
  {
    if message.None? then f
    else if topic == Some(TopicGpsResponse) then f.(gps := Stored(f.gps, gson.gps(message.value)))
    else if topic == Some(TopicDoorsResponse) then f.(doors := Stored(f.doors, gson.doors(message.value)))
    else if topic == Some(TopicPresenceResponse) then f.(presence := Stored(f.presence, gson.presence(message.value)))
    else f
  }

  function HandleIncomingMessage(s: MqttState, gson: Codec, topic: Option<string>, message: Option<string>): (r: MqttState)
    ensures r.client == s.client && r.connectionStatus == s.connectionStatus && r.log == s.log
    ensures r.facets == ApplyInbound(s.facets, gson, topic, message)
    ensures Ignored(gson, topic, message) ==> r == s
  {
    s.(facets := ApplyInbound(s.facets, gson, topic, message))
  }

  // ---------------------------------------------------------------------------------------
  // Outbound messages

  /** `mqttClient?.publish(topic, message)`: skipped without a client, otherwise one logged call. */
  function Publish(s: MqttState, topic: string, payload: Payload, accepted: bool): MqttState {
    if s.client.None? then s
    else s.(log := s.log + [Published(topic, payload, QosAtLeastOnce, accepted)])
  }

  /** `requestDataUpdate`: one `"update"` publish when there is a client; a throw is swallowed. */
  function RequestDataUpdate(s: MqttState, accepted: bool): (r: MqttState)
    ensures r.client == s.client && r.facets == s.facets && r.connectionStatus == s.connectionStatus
    ensures s.client.None? ==> r == s
    ensures s.client.Some? ==> r.log == s.log + [UpdateRequest(accepted)]
  {
    Publish(s, TopicRequestUpdate, Text(UpdatePayload), accepted)
  }

  /**
   * `sendDoorCommand`: publishes the command and, only if that publish did not throw,
   * one update request. Without a client nothing is published and the result is still true.
   */
  function SendDoorCommand(s: MqttState, command: string, publishAccepted: bool, updateAccepted: bool): (r: (MqttState, bool))
    ensures r.0.client == s.client && r.0.facets == s.facets && r.0.connectionStatus == s.connectionStatus
    ensures s.client.None? ==> r.1 && r.0 == s
    ensures s.client.Some? ==> (r.1 <==> publishAccepted)
    ensures s.client.Some? && publishAccepted ==>
      r.0.log == s.log + [DoorCommand(command, true), UpdateRequest(updateAccepted)]
    ensures s.client.Some? && !publishAccepted ==> r.0.log == s.log + [DoorCommand(command, false)]
  {
    var published := Publish(s, TopicDoorCommand, DoorCommandJson(command), publishAccepted);
    if s.client.Some? && !publishAccepted then (published, false)
    else (RequestDataUpdate(published, updateAccepted), true)
  }

  // ---------------------------------------------------------------------------------------
  // Connection status

  /** `disconnect`: the status becomes false unless the client's `disconnect` throws. */
  function Disconnect(s: MqttState, accepted: bool): (r: MqttState)
    ensures r.facets == s.facets && r.log == s.log && r.client.Some? == s.client.Some?
    ensures s.client.None? || accepted ==> !r.connectionStatus && !IsConnected(r)
    ensures s.client.Some? && !accepted ==> r == s
  {
    if s.client.None? then s.(connectionStatus := false)
    else if accepted then s.(client := Some(Session(false)), connectionStatus := false)
    else s
  }

  /** The `connectionLost` callback. */
  function ConnectionLost(s: MqttState): (r: MqttState)
    ensures !r.connectionStatus && !IsConnected(r)
    ensures r.facets == s.facets && r.log == s.log && r.client.Some? == s.client.Some?
  {
    s.(client := if s.client.Some? then Some(Session(false)) else None, connectionStatus := false)
  }

  /**
   * Paho's automatic reconnect: the client is connected again, but no callback of the
   * service runs, so the status is not set back and nothing is re-subscribed.
   */
  function AutomaticReconnect(s: MqttState): (r: MqttState)
    ensures IsConnected(r) <==> s.client.Some?
    ensures r.connectionStatus == s.connectionStatus && r.facets == s.facets && r.log == s.log
  {
    if s.client.Some? then s.(client := Some(Session(true))) else s
  }

  // ---------------------------------------------------------------------------------------
  // Runs of operations

  datatype Op =
    | ConnectOp(outcome: ConnectOutcome)
    | MessageArrived(topic: Option<string>, message: Option<string>)
    | SendDoorCommandOp(command: string, publishAccepted: bool, updateAccepted: bool)
    | RequestDataUpdateOp(accepted: bool)
    | DisconnectOp(accepted: bool)
    | ConnectionLostOp
    | AutomaticReconnectOp

  predicate SuccessfulConnect(op: Op) {
    op.ConnectOp? && op.outcome.HandshakeSucceeds?
  }

  /** One operation; only a successful connect can make the status true. */
  function Step(s: MqttState, gson: Codec, op: Op): (r: MqttState)
    ensures r.connectionStatus ==> s.connectionStatus || SuccessfulConnect(op)
    ensures op.ConnectionLostOp? ==> !r.connectionStatus
    ensures Inv(s) ==> Inv(r)
  {
    match op
    case ConnectOp(outcome) => Connect(s, outcome).0
    case MessageArrived(topic, message) => HandleIncomingMessage(s, gson, topic, message)
    case SendDoorCommandOp(command, p, u) => SendDoorCommand(s, command, p, u).0
    case RequestDataUpdateOp(accepted) => RequestDataUpdate(s, accepted)
    case DisconnectOp(accepted) => Disconnect(s, accepted)
    case ConnectionLostOp => ConnectionLost(s)
    case AutomaticReconnectOp => AutomaticReconnect(s)
  }

  /** The state after `ops`, applied first to last. */
  function Run(s: MqttState, gson: Codec, ops: seq<Op>): MqttState
    decreases |ops|
  {
    if ops == [] then s else Step(Run(s, gson, ops[..|ops| - 1]), gson, ops[|ops| - 1])
  }

  /** No connection loss among `ops[from..]`. */
  predicate NoLossFrom(ops: seq<Op>, from: nat) {
    forall j :: from <= j < |ops| ==> !ops[j].ConnectionLostOp?
  }

  /**
   * A true status after a run was either there at the start with no loss since, or comes from
   * a successful connect with no loss after it: an automatic reconnect never restores it.
   */
  lemma {:induction false} StatusTrueNeedsConnect(s: MqttState, gson: Codec, ops: seq<Op>)
    ensures Run(s, gson, ops).connectionStatus ==>
      (s.connectionStatus && NoLossFrom(ops, 0)) ||
      exists i :: 0 <= i < |ops| && SuccessfulConnect(ops[i]) && NoLossFrom(ops, i + 1)
  {
    if ops != [] {
      var prefix, last := ops[..|ops| - 1], ops[|ops| - 1];
      var before := Run(s, gson, prefix);
      if Run(s, gson, ops).connectionStatus {
        if SuccessfulConnect(last) {
          assert NoLossFrom(ops, |ops|);
        } else {
          assert before.connectionStatus && !last.ConnectionLostOp?;
          StatusTrueNeedsConnect(s, gson, prefix);
          if s.connectionStatus && NoLossFrom(prefix, 0) {
            assert NoLossFrom(ops, 0);
          } else {
            var i :| 0 <= i < |prefix| && SuccessfulConnect(prefix[i]) && NoLossFrom(prefix, i + 1);
            assert ops[i] == prefix[i];
            assert NoLossFrom(ops, i + 1);
          }
        }
      }
    }
  }

  /** The invariant holds of every state a run reaches from the initial state. */
  lemma {:induction false} RunKeepsInv(s: MqttState, gson: Codec, ops: seq<Op>)
    requires Inv(s)
    ensures Inv(Run(s, gson, ops))
  {
    if ops != [] {
      RunKeepsInv(s, gson, ops[..|ops| - 1]);
    }
  }

  // ---------------------------------------------------------------------------------------
  // Runs of inbound messages

  datatype Inbound = Inbound(topic: Option<string>, message: Option<string>)

  /** The facets after handling `msgs` in arrival order. */
  function ApplyAll(f: Facets, gson: Codec, msgs: seq<Inbound>): Facets
    decreases |msgs|
  {
    if msgs == [] then f
    else ApplyAll(ApplyInbound(f, gson, msgs[0].topic, msgs[0].message), gson, msgs[1..])
  }

  /**
   * Reference definition of one facet after `msgs`: what the last message on `topic` whose
   * decode did not throw stored, or `init` when there is none.
   */
  function LastStored<T>(init: Option<T>, topic: string, decode: string -> Decoded<T>, msgs: seq<Inbound>): Option<T>
    decreases |msgs|
  {
    if msgs == [] then init
    else
      var m := msgs[|msgs| - 1];
      var earlier := LastStored(init, topic, decode, msgs[..|msgs| - 1]);
      if m.topic == Some(topic) && m.message.Some? then Stored(earlier, decode(m.message.value)) else earlier
  }

  lemma {:induction false} ApplyAllSnoc(f: Facets, gson: Codec, msgs: seq<Inbound>, m: Inbound)
    ensures ApplyAll(f, gson, msgs + [m]) == ApplyInbound(ApplyAll(f, gson, msgs), gson, m.topic, m.message)
    decreases |msgs|
  {
    if msgs == [] {
      assert ApplyAll(f, gson, [m]) == ApplyAll(ApplyInbound(f, gson, m.topic, m.message), gson, []);
    } else {
      assert (msgs + [m])[0] == msgs[0];
      assert (msgs + [m])[1..] == msgs[1..] + [m];
      ApplyAllSnoc(ApplyInbound(f, gson, msgs[0].topic, msgs[0].message), gson, msgs[1..], m);
    }
  }

  /** Each facet is exactly the value of the last message routed to it that decoded. */
  lemma {:induction false} ApplyAllIsLastStored(f: Facets, gson: Codec, msgs: seq<Inbound>)
    ensures ApplyAll(f, gson, msgs) == Facets(
      LastStored(f.gps, TopicGpsResponse, gson.gps, msgs),
      LastStored(f.doors, TopicDoorsResponse, gson.doors, msgs),
      LastStored(f.presence, TopicPresenceResponse, gson.presence, msgs))
    decreases |msgs|
  {
    if msgs != [] {
      var prefix, m := msgs[..|msgs| - 1], msgs[|msgs| - 1];
      assert msgs == prefix + [m];
      ApplyAllSnoc(f, gson, prefix, m);
      ApplyAllIsLastStored(f, gson, prefix);
    }
  }

  lemma {:induction false} ApplyAllAppend(f: Facets, gson: Codec, a: seq<Inbound>, b: seq<Inbound>)
    ensures ApplyAll(f, gson, a + b) == ApplyAll(ApplyAll(f, gson, a), gson, b)
    decreases |a|
  {
    if a != [] {
      assert (a + b)[0] == a[0];
      assert (a + b)[1..] == a[1..] + b;
      ApplyAllAppend(ApplyInbound(f, gson, a[0].topic, a[0].message), gson, a[1..], b);
    } else {
      assert a + b == b;
    }
  }

  /**
   * A dropped message (null, unrouted, or failing to decode) anywhere in a run leaves the
   * facets exactly as if it had never arrived.
   */
  lemma {:induction false} IgnoredMessageIsInvisible(f: Facets, gson: Codec, a: seq<Inbound>, m: Inbound, b: seq<Inbound>)
    requires Ignored(gson, m.topic, m.message)
    ensures ApplyAll(f, gson, a + [m] + b) == ApplyAll(f, gson, a + b)
  {
    ApplyAllAppend(f, gson, a + [m], b);
    ApplyAllSnoc(f, gson, a, m);
    ApplyAllAppend(f, gson, a, b);
  }
}
