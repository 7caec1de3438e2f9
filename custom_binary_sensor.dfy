/**
 * The on/off readings of the current integration's binary sensors: each is
 * one comparison of a device state against a constant, a lookup with a
 * default, or the time elapsed since the latest motion.
 */
module CustomBinarySensor {
  import opened Wrappers

  datatype BinarySensorDeviceClass = Door | Window | Vibration | Motion | Smoke | Moisture | Battery

  /** The shutter contact state; only OPEN is tested, so `Closed` stands for every other value. */
  datatype ShutterContactState = Open | Closed

  /** The vibration service's state; only a detected vibration is distinguished. */
  datatype VibrationState = VibrationDetected | OtherVibrationState(name: string)

  /** The smoke detector's alarm state; only IDLE_OFF is distinguished. */
  datatype SmokeAlarmState = IdleOff | OtherSmokeAlarmState(name: string)

  /** The water leakage service's state; only NO_LEAKAGE is distinguished. */
  datatype LeakageState = NoLeakage | OtherLeakageState(name: string)

  /** The surveillance alarm of a smoke detection system; only ALARM_OFF is distinguished. */
  datatype SurveillanceAlarmState = AlarmOff | OtherSurveillanceAlarmState(name: string)

  datatype BatteryLevel = Ok | LowBattery | CriticalLow | NotAvailable

  /** The contact's configured type, as the device reports it, to the class shown. */
  const CONTACT_CLASSES: map<string, BinarySensorDeviceClass> := map[
    "ENTRANCE_DOOR" := Door,
    "REGULAR_WINDOW" := Window,
    "FRENCH_WINDOW" := Door,
    "GENERIC" := Window]

  /** A shutter contact is on exactly when it is open. */
  function ShutterContactIsOn(state: ShutterContactState): (on: bool)
    ensures on <==> state == Open
  {
    state == Open
  }

  /** Doors for entrance doors and French windows, windows for everything else, unknown types included. */
  function ShutterContactDeviceClass(deviceClass: string): (c: BinarySensorDeviceClass)
    ensures c == Door <==> deviceClass == "ENTRANCE_DOOR" || deviceClass == "FRENCH_WINDOW"
    ensures c == Window <==> deviceClass != "ENTRANCE_DOOR" && deviceClass != "FRENCH_WINDOW"
    ensures deviceClass !in CONTACT_CLASSES ==> c == Window
  {
    if deviceClass in CONTACT_CLASSES then CONTACT_CLASSES[deviceClass] else Window
  }

  function VibrationIsOn(state: VibrationState): (on: bool)
    ensures on <==> state == VibrationDetected
  {
    state == VibrationDetected
  }

  /** The motion window: four minutes. */
  const MOTION_WINDOW_SECONDS: real := 240.0

  /**
   * A motion detector is on when its latest motion time could be parsed and
   * at most four minutes have elapsed since, a time in the future included.
   * Times are in seconds; `now` stands for the clock reading.
   */
  function MotionIsOn(latestMotion: Option<real>, now: real): (on: bool)
    ensures latestMotion.None? ==> !on
    ensures on <==> latestMotion.Some? && now - latestMotion.value <= MOTION_WINDOW_SECONDS
    ensures latestMotion.Some? && now <= latestMotion.value ==> on
  {
    match latestMotion
    case None => false
    case Some(t) =>
      var elapsed := now - t;
      if elapsed > MOTION_WINDOW_SECONDS then false else true
  }

  /** Once a motion has timed out, it stays off as the clock goes on. */
  lemma MotionStaysOff(latestMotion: Option<real>, now: real, later: real)
    requires now <= later
    requires !MotionIsOn(latestMotion, now)
    ensures !MotionIsOn(latestMotion, later)
  {
  }

  /** The same motion, seen earlier but not before it happened, was on as well. */
  lemma MotionWasOn(latestMotion: Option<real>, earlier: real, now: real)
    requires earlier <= now
    requires MotionIsOn(latestMotion, now)
    ensures MotionIsOn(latestMotion, earlier)
  {
  }

  function SmokeDetectorIsOn(state: SmokeAlarmState): (on: bool)
    ensures on <==> state != IdleOff
  {
    state != IdleOff
  }

  function WaterLeakageIsOn(state: LeakageState): (on: bool)
    ensures on <==> state != NoLeakage
  {
    state != NoLeakage
  }

  function SmokeDetectionSystemIsOn(state: SurveillanceAlarmState): (on: bool)
    ensures on <==> state != AlarmOff
  {
    state != AlarmOff
  }

  /** A battery sensor is on (a problem) for every level but OK, including an unavailable level. */
  function BatteryIsOn(level: BatteryLevel): (on: bool)
    ensures on <==> level != Ok
    ensures level == NotAvailable || level == LowBattery || level == CriticalLow ==> on
  {
    level != Ok
  }
}
