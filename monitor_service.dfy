/**
 * The `LocationService` object: the fields its handlers update in place, and one method per
 * handler, each proved to move the object's state exactly as the step of `MonitorModel` does.
 */
module MonitorRuntime {
  import opened Models
  import opened MonitorModel

  class LocationService {
    var carLocation: Option<Position>
    var isCarUnlocked: bool
    var isMonitoring: bool
    var currentDistance: Option<real>
    /** Whether `locationCallback` is registered with the fused location provider. */
    var updatesRequested: bool

    /** Every distance notification posted, in order. */
    ghost var alerts: seq<Alert>

    function State(): MonitorState
      reads this
    {
      MonitorState(carLocation, isCarUnlocked, isMonitoring, currentDistance, updatesRequested)
    }

    ghost predicate Valid()
      reads this
    {
      Inv(State())
    }

    /** `onCreate`. */
    constructor ()
      ensures Valid() && State() == Created && alerts == []
    {
      carLocation, isCarUnlocked, isMonitoring, currentDistance, updatesRequested := None, false, false, None, false;
      alerts := [];
    }

    method OnStartCommand(intent: Option<Intent>, permitted: bool) returns (result: int)
      requires Valid()
      modifies this
      ensures Valid() && State() == MonitorModel.OnStartCommand(old(State()), intent, permitted)
      ensures alerts == old(alerts) && result == StartSticky
    {
      match ParseIntent(intent) {
        case None =>
        case Some(Start(lat, lon, unlocked)) => StartMonitoring(lat, lon, unlocked, permitted);
        case Some(Stop) => StopMonitoring();
        case Some(UpdateStatus(unlocked)) => UpdateCarStatus(unlocked);
      }
      result := StartSticky;
    }

    /** `startMonitoring`; `permitted` is the result of the location permission check. */
    method StartMonitoring(carLat: real, carLon: real, carUnlocked: bool, permitted: bool)
      requires Valid()
      modifies this
      ensures Valid() && State() == MonitorModel.StartMonitoring(old(State()), carLat, carLon, carUnlocked, permitted)
      ensures alerts == old(alerts)
    {
      carLocation := Some(Position(carLat, carLon));
      isCarUnlocked := carUnlocked;
      if !permitted {
        return;
      }
      updatesRequested := true;
      isMonitoring := true;
    }

    method StopMonitoring()
      requires Valid()
      modifies this
      ensures Valid() && State() == MonitorModel.StopMonitoring(old(State()))
      ensures alerts == old(alerts)
    {
      updatesRequested := false;
      isMonitoring := false;
      currentDistance := None;
    }

    method UpdateCarStatus(unlocked: bool)
      requires Valid()
      modifies this
      ensures Valid() && State() == MonitorModel.UpdateCarStatus(old(State()), unlocked)
      ensures alerts == old(alerts)
    {
      isCarUnlocked := unlocked;
    }

    /** The `onLocationResult` callback. */
    method OnLocationResult(fix: Fix)
      requires Valid()
      modifies this
      ensures Valid() && State() == MonitorModel.OnLocationResult(old(State()), fix).0
      ensures var alert := MonitorModel.OnLocationResult(old(State()), fix).1;
        alerts == old(alerts) + (if alert.Some? then [alert.value] else [])
    {
      if fix.lastLocation.None? || carLocation.None? {
        return;
      }
      currentDistance := Some(fix.distance);
      if isCarUnlocked && fix.distance > DistanceThresholdMeters {
        SendDistanceNotification(fix.distance);
      }
    }

    /** `sendDistanceNotification`: the text shows the distance truncated to whole meters. */
    method SendDistanceNotification(distance: real)
      modifies this`alerts
      ensures alerts == old(alerts) + [Alert(distance, ToInt(distance))]
    {
      alerts := alerts + [Alert(distance, ToInt(distance))];
    }
  }
}
