/** Value types shared by the MQTT service, the proximity monitor and the view model. */
module Models {

  /** Kotlin's nullable `T?`. */
  datatype Option<+T> = None | Some(value: T)

  /** Last known position of the car, in degrees, as received on `car/gps/response`. */
  datatype GpsData = GpsData(lat: real, lon: real)

  /** Door sensors of the car; the app reads "both true" as locked and every other pair as unlocked. */
  datatype DoorData = DoorData(front: bool, back: bool)

  /** Whether someone is in the car. */
  datatype PresenceData = PresenceData(presence: bool)
}
