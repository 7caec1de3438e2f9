/**
 * The room climate entity of the current integration. The HVAC mode is
 * derived from the device's summer mode (OFF) and operation mode (AUTO or
 * HEAT); the preset from its boost and low flags. The setters write those
 * flags in a fixed order, are refused for unknown values, and an ECO preset
 * blocks HVAC changes and setpoint changes.
 */
module CustomClimate {
  import opened Wrappers
  import opened PyMath

  datatype HvacMode = Off | Heat | Cool | HeatCool | Auto | Dry | FanOnly

  datatype Preset = NoPreset | Eco | Away | Boost | Comfort | Home | Sleep | Activity

  /** The room climate control service's operation mode; other values the controller may send are kept by name. */
  datatype OperationMode = Automatic | Manual | Unrecognised(name: string)

  datatype Request =
    | WriteSummerMode(on: bool)
    | WriteOperationMode(mode: OperationMode)
    | WriteBoostMode(on: bool)
    | WriteLow(on: bool)
    | WriteSetpoint(temperature: real)

  const MIN_TEMP: real := 5.0
  const MAX_TEMP: real := 30.0

  /** The room climate control device and the requests sent to it. */
  class RoomClimateControl {
    var summerMode: bool
    var operationMode: OperationMode
    var boostMode: bool
    var low: bool
    const supportsBoostMode: bool
    var setpointTemperature: real
    var requests: seq<Request>

    constructor (supportsBoostMode: bool)
      ensures this.supportsBoostMode == supportsBoostMode && requests == []
    {
      this.supportsBoostMode := supportsBoostMode;
      requests := [];
    }
  }

  /** A setpoint the entity can store: within [5, 30] and a whole number of half degrees. */
  predicate IsHalfStep(t: real) {
    (t * 2.0).Floor as real == t * 2.0
  }

  /** `float(round(t * 2.0) / 2.0)`: the nearest half degree. */
  function RoundToHalf(t: real): (r: real)
    ensures IsHalfStep(r)
    ensures -0.25 <= r - t <= 0.25
    ensures MIN_TEMP <= t <= MAX_TEMP ==> MIN_TEMP <= r <= MAX_TEMP
  {
    RoundWithin(t * 2.0, 10, 60);
    var n := Round(t * 2.0);
    var r := n as real / 2.0;
    assert r * 2.0 == n as real;
    r
  }

  /** A temperature already on a half step is stored as it is. */
  lemma RoundToHalfKeepsHalfSteps(t: real)
    requires IsHalfStep(t)
    ensures RoundToHalf(t) == t
  {
    RoundOfInteger((t * 2.0).Floor);
  }

  /** The writes that bring the boost and low flags from their old to their new values, boost first. */
  function FlagWrites(oldBoost: bool, newBoost: bool, oldLow: bool, newLow: bool): seq<Request> {
    (if oldBoost != newBoost then [WriteBoostMode(newBoost)] else [])
    + (if oldLow != newLow then [WriteLow(newLow)] else [])
  }

  class ClimateControl {
    const device: RoomClimateControl

    constructor (device: RoomClimateControl)
      ensures this.device == device
    {
      this.device := device;
    }

    /** OFF in summer mode whatever the operation mode; otherwise AUTO exactly when automatic. */
    function HvacMode(): (m: HvacMode)
      reads device
      ensures device.summerMode ==> m == Off
      ensures m == Auto <==> !device.summerMode && device.operationMode == Automatic
      ensures m == Heat <==> !device.summerMode && device.operationMode != Automatic
      ensures m in HvacModes()
    {
      if device.summerMode then Off
      else if device.operationMode == Automatic then Auto
      else Heat
    }

    function HvacModes(): (modes: seq<HvacMode>)
      ensures forall m :: m in modes <==> m == Auto || m == Heat || m == Off
    {
      [Auto, Heat, Off]
    }

    /** BOOST only where boost is supported, ECO when low, NONE otherwise. */
    function PresetMode(): (p: Preset)
      reads device
      ensures p == Boost <==> device.supportsBoostMode && device.boostMode
      ensures p == Eco <==> !(device.supportsBoostMode && device.boostMode) && device.low
      ensures p == NoPreset <==> !(device.supportsBoostMode && device.boostMode) && !device.low
      ensures p in PresetModes()
    {
      if device.supportsBoostMode && device.boostMode then Boost
      else if device.low then Eco
      else NoPreset
    }

    function PresetModes(): (presets: seq<Preset>)
      reads device
      ensures forall p :: p in presets <==> p == NoPreset || p == Eco || (p == Boost && device.supportsBoostMode)
    {
      [NoPreset, Eco] + (if device.supportsBoostMode then [Boost] else [])
    }

    /**
     * Stores the temperature, rounded to half a degree, only when one is given,
     * the entity is neither OFF nor ECO and it lies within [5, 30]. The HVAC
     * mode passed along is handed to a coroutine that is never awaited, so it
     * has no effect.
     */
    method SetTemperature(temperature: Option<real>, hvacMode: Option<HvacMode>)
      modifies device`setpointTemperature, device`requests
      ensures var accepted := temperature.Some? && old(HvacMode()) != Off && old(PresetMode()) != Eco
                              && MIN_TEMP <= temperature.value <= MAX_TEMP;
              && (accepted ==> device.setpointTemperature == RoundToHalf(temperature.value)
                               && MIN_TEMP <= device.setpointTemperature <= MAX_TEMP
                               && IsHalfStep(device.setpointTemperature)
                               && device.requests == old(device.requests) + [WriteSetpoint(device.setpointTemperature)])
              && (!accepted ==> device.setpointTemperature == old(device.setpointTemperature)
                                && device.requests == old(device.requests))
    {
      if temperature.None? {
        return;
      }
      if HvacMode() == Off || PresetMode() == Eco {
        return;
      }
      var t := temperature.value;
      if MIN_TEMP <= t <= MAX_TEMP {
        device.setpointTemperature := RoundToHalf(t);
        device.requests := device.requests + [WriteSetpoint(device.setpointTemperature)];
      }
    }

    /**
     * AUTO and HEAT clear summer mode, then write the operation mode; OFF only
     * sets summer mode. Unknown modes, and any mode while ECO, change nothing.
     */
    method SetHvacMode(mode: HvacMode)
      modifies device`summerMode, device`operationMode, device`requests
      ensures var applies := mode in HvacModes() && old(PresetMode()) != Eco;
              && (applies ==> HvacMode() == mode && PresetMode() == old(PresetMode()))
              && (!applies ==> HvacMode() == old(HvacMode()) && device.requests == old(device.requests)
                               && device.summerMode == old(device.summerMode)
                               && device.operationMode == old(device.operationMode))
      ensures mode in HvacModes() && old(PresetMode()) != Eco ==>
        device.requests == old(device.requests) + (
          match mode
          case Auto => [WriteSummerMode(false), WriteOperationMode(Automatic)]
          case Heat => [WriteSummerMode(false), WriteOperationMode(Manual)]
          case _ => [WriteSummerMode(true)])
      ensures mode in HvacModes() && old(PresetMode()) != Eco ==>
        match mode
        case Auto => !device.summerMode && device.operationMode == Automatic
        case Heat => !device.summerMode && device.operationMode == Manual
        case _ => device.summerMode
      ensures mode == Off ==> device.operationMode == old(device.operationMode)
    {
      if mode !in HvacModes() {
        return;
      }
      if PresetMode() == Eco {
        return;
      }
      if mode == Auto {
        device.summerMode := false;
        device.requests := device.requests + [WriteSummerMode(false)];
        device.operationMode := Automatic;
        device.requests := device.requests + [WriteOperationMode(Automatic)];
      }
      if mode == Heat {
        device.summerMode := false;
        device.requests := device.requests + [WriteSummerMode(false)];
        device.operationMode := Manual;
        device.requests := device.requests + [WriteOperationMode(Manual)];
      }
      if mode == Off {
        device.summerMode := true;
        device.requests := device.requests + [WriteSummerMode(true)];
      }
    }

    /**
     * An offered preset becomes the reported one; each flag is written only
     * when it changes, boost before low. A preset not offered changes nothing.
     */
    method SetPresetMode(preset: Preset)
      modifies device`boostMode, device`low, device`requests
      ensures preset in old(PresetModes()) ==> PresetMode() == preset
      ensures preset in old(PresetModes()) && preset == Boost ==> device.boostMode && !device.low
      ensures preset in old(PresetModes()) && preset == Eco ==>
        device.low && (device.supportsBoostMode ==> !device.boostMode)
      ensures preset in old(PresetModes()) && preset == NoPreset ==>
        !device.low && (device.supportsBoostMode ==> !device.boostMode)
      ensures preset !in old(PresetModes()) ==>
        device.boostMode == old(device.boostMode) && device.low == old(device.low)
      ensures !device.supportsBoostMode && preset != Boost ==> device.boostMode == old(device.boostMode)
      ensures device.requests == old(device.requests)
        + FlagWrites(old(device.boostMode), device.boostMode, old(device.low), device.low)
    {
      if preset !in PresetModes() {
        return;
      }
      if preset == NoPreset {
        if device.supportsBoostMode {
          if device.boostMode {
            device.boostMode := false;
            device.requests := device.requests + [WriteBoostMode(false)];
          }
        }
        if device.low {
          device.low := false;
          device.requests := device.requests + [WriteLow(false)];
        }
      } else if preset == Boost {
        if !device.boostMode {
          device.boostMode := true;
          device.requests := device.requests + [WriteBoostMode(true)];
        }
        if device.low {
          device.low := false;
          device.requests := device.requests + [WriteLow(false)];
        }
      } else if preset == Eco {
        if device.supportsBoostMode {
          if device.boostMode {
            device.boostMode := false;
            device.requests := device.requests + [WriteBoostMode(false)];
          }
        }
        if !device.low {
          device.low := true;
          device.requests := device.requests + [WriteLow(true)];
        }
      }
    }

    /** From OFF, switches to HEAT unless the ECO guard refuses; otherwise nothing. */
    method TurnOn()
      modifies device`summerMode, device`operationMode, device`requests
      ensures old(HvacMode()) == Off && old(PresetMode()) != Eco ==>
        HvacMode() == Heat && !device.summerMode && device.operationMode == Manual
        && device.requests == old(device.requests) + [WriteSummerMode(false), WriteOperationMode(Manual)]
      ensures !(old(HvacMode()) == Off && old(PresetMode()) != Eco) ==>
        device.summerMode == old(device.summerMode) && device.operationMode == old(device.operationMode)
        && device.requests == old(device.requests)
    {
      if HvacMode() == Off {
        SetHvacMode(Heat);
      }
    }

    /** Switches to OFF unless already OFF or the ECO guard refuses; only summer mode is written. */
    method TurnOff()
      modifies device`summerMode, device`operationMode, device`requests
      ensures old(PresetMode()) != Eco ==> HvacMode() == Off
      ensures old(HvacMode()) != Off && old(PresetMode()) != Eco ==>
        device.summerMode && device.operationMode == old(device.operationMode)
        && device.requests == old(device.requests) + [WriteSummerMode(true)]
      ensures old(HvacMode()) == Off || old(PresetMode()) == Eco ==>
        device.summerMode == old(device.summerMode) && device.operationMode == old(device.operationMode)
        && device.requests == old(device.requests)
    {
      if HvacMode() != Off {
        SetHvacMode(Off);
      }
    }
  }
}
