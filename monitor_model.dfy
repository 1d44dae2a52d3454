/**
 * The proximity monitor of `LocationService` as a state machine over values: the intents it
 * is started with, the anchor (the car's location), the unlocked flag, the monitoring flag,
 * the last distance, and whether location updates are requested from the fused provider.
 * The haversine distance between a fix and the anchor is an input of each fix.
 */
module MonitorModel {
  import opened Models

  /** An alert is raised when the car is unlocked and strictly farther than this. */
  const DistanceThresholdMeters: real := 50.0

  /** Android's `Service.START_STICKY`, what `onStartCommand` always returns. */
  const StartSticky: int := 1

  const ActionStartMonitoring: string := "START_MONITORING"
  const ActionStopMonitoring: string := "STOP_MONITORING"
  const ActionUpdateCarStatus: string := "UPDATE_CAR_STATUS"
  const ExtraCarLat: string := "car_lat"
  const ExtraCarLon: string := "car_lon"
  const ExtraCarUnlocked: string := "car_unlocked"

  /** Bounds of a Kotlin `Int`. */
  const IntMin: int := -0x8000_0000
  const IntMax: int := 0x7fff_ffff

  /** An extra stored in an Android `Intent` by `putExtra`. */
  datatype Extra = DoubleExtra(d: real) | BooleanExtra(b: bool)

  datatype Intent = Intent(action: Option<string>, extras: map<string, Extra>)

  /** The three commands the service understands. */
  datatype ServiceCommand =
    | Start(carLat: real, carLon: real, carUnlocked: bool)
    | UpdateStatus(carUnlocked: bool)
    | Stop

  /** `intent.getDoubleExtra(name, default)`: the default when absent or not a double. */
  function GetDoubleExtra(intent: Intent, name: string, default: real): real {
    if name in intent.extras && intent.extras[name].DoubleExtra? then intent.extras[name].d else default
  }

  /** `intent.getBooleanExtra(name, default)`: the default when absent or not a Boolean. */
  function GetBooleanExtra(intent: Intent, name: string, default: bool): bool {
    if name in intent.extras && intent.extras[name].BooleanExtra? then intent.extras[name].b else default
  }

  /** The `when (intent?.action)` of `onStartCommand`: missing extras read as 0.0, 0.0 and false. */
  function ParseIntent(intent: Option<Intent>): (c: Option<ServiceCommand>)
    ensures c.Some? <==>
      intent.Some? && intent.value.action in {Some(ActionStartMonitoring), Some(ActionStopMonitoring), Some(ActionUpdateCarStatus)}
    ensures c.Some? && c.value.Start? ==>
      && intent.value.action == Some(ActionStartMonitoring)
      && (ExtraCarLat !in intent.value.extras ==> c.value.carLat == 0.0)
      && (ExtraCarLon !in intent.value.extras ==> c.value.carLon == 0.0)
      && (ExtraCarUnlocked !in intent.value.extras ==> !c.value.carUnlocked)
    ensures c.Some? && c.value.UpdateStatus? ==>
      && intent.value.action == Some(ActionUpdateCarStatus)
      && (ExtraCarUnlocked !in intent.value.extras ==> !c.value.carUnlocked)
    ensures c == Some(Stop) <==> intent.Some? && intent.value.action == Some(ActionStopMonitoring)
  {
    if intent.None? || intent.value.action.None? then None
    else
      var i := intent.value;
      var action := i.action.value;
      if action == ActionStartMonitoring then
        Some(Start(GetDoubleExtra(i, ExtraCarLat, 0.0), GetDoubleExtra(i, ExtraCarLon, 0.0),
                   GetBooleanExtra(i, ExtraCarUnlocked, false)))
      else if action == ActionStopMonitoring then Some(Stop)
      else if action == ActionUpdateCarStatus then Some(UpdateStatus(GetBooleanExtra(i, ExtraCarUnlocked, false)))
      else None
  }

  /** Kotlin's `Double.toInt()`: rounds toward zero and saturates at the bounds of `Int`. */
  function ToInt(d: real): (n: int)
    ensures IntMin <= n <= IntMax
    ensures 0.0 <= d < IntMax as real ==> n as real <= d < n as real + 1.0
    ensures IntMin as real < d <= 0.0 ==> n as real - 1.0 < d <= n as real
    ensures IntMax as real <= d ==> n == IntMax
    ensures d <= IntMin as real ==> n == IntMin
  {
    if d >= IntMax as real then IntMax
    else if d <= IntMin as real then IntMin
    else if d >= 0.0 then d.Floor
    else -((-d).Floor)
  }

  /** An Android `Location`, in degrees. */
  datatype Position = Position(latitude: real, longitude: real)

  /**
   * A location result: `lastLocation` may be null; `distance` is the haversine distance in
   * meters from `lastLocation` to the anchor, computed outside the model.
   */
  datatype Fix = Fix(lastLocation: Option<Position>, distance: real)

  /** A raised notification: the distance and the whole meters its text shows. */
  datatype Alert = Alert(distance: real, shownMeters: int)

  datatype MonitorState = MonitorState(
    carLocation: Option<Position>,
    isCarUnlocked: bool,
    isMonitoring: bool,
    currentDistance: Option<real>,
    updatesRequested: bool)

  /** The service just created: no anchor, locked, not monitoring. */
  const Created: MonitorState := MonitorState(None, false, false, None, false)

  /**
   * Reachable states: monitoring exactly while updates are requested, and updates and
   * distances only ever with an anchor.
   */
  predicate Inv(s: MonitorState) {
    && s.isMonitoring == s.updatesRequested
    && (s.updatesRequested ==> s.carLocation.Some?)
    && (s.currentDistance.Some? ==> s.carLocation.Some?)
  }

  /**
   * `startMonitoring`: the anchor and the unlocked flag are set whatever the permission;
   * only with the location permission are updates requested and monitoring set.
   */
  function StartMonitoring(s: MonitorState, carLat: real, carLon: real, carUnlocked: bool, permitted: bool): (r: MonitorState)
    ensures r.carLocation == Some(Position(carLat, carLon)) && r.isCarUnlocked == carUnlocked
    ensures r.currentDistance == s.currentDistance
    ensures permitted ==> r.isMonitoring && r.updatesRequested
    ensures !permitted ==> r.isMonitoring == s.isMonitoring && r.updatesRequested == s.updatesRequested
    ensures Inv(s) ==> Inv(r)
  {
    var anchored := s.(carLocation := Some(Position(carLat, carLon)), isCarUnlocked := carUnlocked);
    if !permitted then anchored
    else anchored.(updatesRequested := true, isMonitoring := true)
  }

  /** `stopMonitoring`: updates removed, monitoring off, distance cleared; the anchor stays. */
  function StopMonitoring(s: MonitorState): (r: MonitorState)
    ensures !r.isMonitoring && !r.updatesRequested && r.currentDistance.None?
    ensures r.carLocation == s.carLocation && r.isCarUnlocked == s.isCarUnlocked
    ensures Inv(s) ==> Inv(r)
  {
    s.(updatesRequested := false, isMonitoring := false, currentDistance := None)
  }

  /** `updateCarStatus`: only the unlocked flag changes. */
  function UpdateCarStatus(s: MonitorState, unlocked: bool): (r: MonitorState)
    ensures r.isCarUnlocked == unlocked
    ensures r.carLocation == s.carLocation && r.isMonitoring == s.isMonitoring
    ensures r.currentDistance == s.currentDistance && r.updatesRequested == s.updatesRequested
    ensures Inv(s) ==> Inv(r)
  {
    s.(isCarUnlocked := unlocked)
  }

  /** `onStartCommand`: dispatch on the action; an unknown or missing action changes nothing. */
  function OnStartCommand(s: MonitorState, intent: Option<Intent>, permitted: bool): (r: MonitorState)
    ensures ParseIntent(intent).None? ==> r == s
    ensures intent.Some? && intent.value.action == Some(ActionStartMonitoring) ==>
      r == StartMonitoring(s, GetDoubleExtra(intent.value, ExtraCarLat, 0.0), GetDoubleExtra(intent.value, ExtraCarLon, 0.0),
                           GetBooleanExtra(intent.value, ExtraCarUnlocked, false), permitted)
    ensures intent.Some? && intent.value.action == Some(ActionStopMonitoring) ==> r == StopMonitoring(s)
    ensures intent.Some? && intent.value.action == Some(ActionUpdateCarStatus) ==>
      r == UpdateCarStatus(s, GetBooleanExtra(intent.value, ExtraCarUnlocked, false))
    ensures Inv(s) ==> Inv(r)
  {
    match ParseIntent(intent)
    case None => s
    case Some(Start(lat, lon, unlocked)) => StartMonitoring(s, lat, lon, unlocked, permitted)
    case Some(Stop) => StopMonitoring(s)
    case Some(UpdateStatus(unlocked)) => UpdateCarStatus(s, unlocked)
  }

  /** Whether a fix at `distance` raises an alert: strictly beyond the threshold, car unlocked. */
  predicate Alerts(unlocked: bool, distance: real) {
    unlocked && distance > DistanceThresholdMeters
  }

  /**
   * The body of `onLocationResult`: with a fix and an anchor the distance is recorded, and an
   * alert is raised exactly when the car is unlocked and strictly more than 50 m away.
   */
  function OnLocationResult(s: MonitorState, fix: Fix): (r: (MonitorState, Option<Alert>))
    ensures fix.lastLocation.None? || s.carLocation.None? ==> r == (s, None)
    ensures fix.lastLocation.Some? && s.carLocation.Some? ==> r.0 == s.(currentDistance := Some(fix.distance))
    ensures r.1.Some? <==> fix.lastLocation.Some? && s.carLocation.Some? && s.isCarUnlocked && fix.distance > 50.0
    ensures r.1.Some? ==> r.1.value.distance == fix.distance
    ensures r.1.Some? && fix.distance < IntMax as real ==> r.1.value.shownMeters == fix.distance.Floor
    ensures Inv(s) ==> Inv(r.0)
  {
    if fix.lastLocation.None? || s.carLocation.None? then (s, None)
    else
      var measured := s.(currentDistance := Some(fix.distance));
      if Alerts(s.isCarUnlocked, fix.distance) then (measured, Some(Alert(fix.distance, ToInt(fix.distance))))
      else (measured, None)
  }

  /** The provider hands a fix to the callback only while updates are requested. */
  function Deliver(s: MonitorState, fix: Fix): (r: (MonitorState, Option<Alert>))
    ensures !s.updatesRequested ==> r == (s, None)
  {
    if s.updatesRequested then OnLocationResult(s, fix) else (s, None)
  }

  /** The state and the alerts after the provider delivers `fixes` in order. */
  function RunFixes(s: MonitorState, fixes: seq<Fix>): (MonitorState, seq<Alert>)
    decreases |fixes|
  {
    if fixes == [] then (s, [])
    else
      var (next, alert) := Deliver(s, fixes[0]);
      var (last, later) := RunFixes(next, fixes[1..]);
      (last, (if alert.Some? then [alert.value] else []) + later)
  }

  predicate Qualifies(fix: Fix) {
    fix.lastLocation.Some? && fix.distance > DistanceThresholdMeters
  }

  /** Reference definition: one alert per fix that has a location and is beyond the threshold. */
  function QualifyingAlerts(fixes: seq<Fix>): (alerts: seq<Alert>)
    ensures |alerts| <= |fixes|
    ensures (forall i :: 0 <= i < |fixes| ==> Qualifies(fixes[i])) ==> |alerts| == |fixes|
    ensures forall a :: a in alerts ==> a.distance > DistanceThresholdMeters
    decreases |fixes|
  {
    if fixes == [] then []
    else
      var f := fixes[0];
      (if Qualifies(f) then [Alert(f.distance, ToInt(f.distance))] else []) + QualifyingAlerts(fixes[1..])
  }

  /**
   * While monitoring an unlocked car, every qualifying fix raises an alert (no debounce); a
   * locked car or a stopped monitor raises none; fixes never move the anchor or the flags.
   */
  lemma {:induction false} RunFixesAlerts(s: MonitorState, fixes: seq<Fix>)
    requires Inv(s)
    ensures RunFixes(s, fixes).1 ==
      (if s.updatesRequested && s.isCarUnlocked then QualifyingAlerts(fixes) else [])
    ensures var r := RunFixes(s, fixes).0;
      r.carLocation == s.carLocation && r.isCarUnlocked == s.isCarUnlocked &&
      r.isMonitoring == s.isMonitoring && r.updatesRequested == s.updatesRequested && Inv(r)
    decreases |fixes|
  {
    if fixes != [] {
      var next := Deliver(s, fixes[0]).0;
      RunFixesAlerts(next, fixes[1..]);
    }
  }

  /** Once monitoring is stopped, no delivered fix changes anything or raises an alert. */
  lemma {:induction false} NothingAfterStop(s: MonitorState, fixes: seq<Fix>)
    ensures RunFixes(StopMonitoring(s), fixes) == (StopMonitoring(s), [])
    decreases |fixes|
  {
    if fixes != [] {
      var stopped := StopMonitoring(s);
      assert Deliver(stopped, fixes[0]) == (stopped, None);
      NothingAfterStop(s, fixes[1..]);
      assert RunFixes(stopped, fixes).1 == [];
      assert RunFixes(stopped, fixes).0 == stopped;
    }
  }

  /**
   * A START_MONITORING intent without extras anchors the service at (0.0, 0.0) with the car
   * considered locked, so no fix raises an alert until the status is updated.
   */
  lemma StartWithoutExtras(s: MonitorState, permitted: bool)
    ensures var r := OnStartCommand(s, Some(Intent(Some(ActionStartMonitoring), map[])), permitted);
      r.carLocation == Some(Position(0.0, 0.0)) && !r.isCarUnlocked && (permitted ==> r.isMonitoring)
  {
  }
}
