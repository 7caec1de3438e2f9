/**
 * The room climate entity of the `bosch_shc` generation. There is no summer
 * mode: the HVAC mode is AUTO or HEAT from the operation mode and is unknown
 * for any other operation mode; setpoints are stored unrounded.
 */
module ShcClimate {
  import opened Wrappers
  import opened CustomClimate

  /** The room climate control device of this generation and the requests sent to it. */
  class RoomClimateControl {
    var operationMode: OperationMode
    var boostMode: bool
    var low: bool
    const supportsBoostMode: bool
    var setpointTemperature: real
    var requests: seq<Request>

    constructor (supportsBoostMode: bool)
      ensures this.supportsBoostMode == supportsBoostMode && requests == []
    {
      this.supportsBoostMode := supportsBoostMode;
      requests := [];
    }
  }

  class ClimateControl {
    const device: RoomClimateControl

    constructor (device: RoomClimateControl)
      ensures this.device == device
    {
      this.device := device;
    }

    /** AUTO for automatic, HEAT for manual, no mode (after a warning) for anything else. */
    function HvacMode(): (m: Option<HvacMode>)
      reads device
      ensures m == Some(Auto) <==> device.operationMode == Automatic
      ensures m == Some(Heat) <==> device.operationMode == Manual
      ensures m.None? <==> device.operationMode.Unrecognised?
      ensures m.Some? ==> m.value in HvacModes()
    {
      if device.operationMode == Automatic then Some(Auto)
      else if device.operationMode == Manual then Some(Heat)
      else None
    }

    function HvacModes(): (modes: seq<HvacMode>)
      ensures forall m :: m in modes <==> m == Auto || m == Heat
    {
      [Auto, Heat]
    }

    /** BOOST only where boost is supported, ECO when low, NONE otherwise. */
    function PresetMode(): (p: Preset)
      reads device
      ensures p == Boost <==> device.supportsBoostMode && device.boostMode
      ensures p == Eco <==> !(device.supportsBoostMode && device.boostMode) && device.low
      ensures p == NoPreset <==> !(device.supportsBoostMode && device.boostMode) && !device.low
      ensures p in PresetModes()
    {
      if device.supportsBoostMode && device.boostMode then Boost
      else if device.low then Eco
      else NoPreset
    }

    function PresetModes(): (presets: seq<Preset>)
      reads device
      ensures forall p :: p in presets <==> p == NoPreset || p == Eco || (p == Boost && device.supportsBoostMode)
    {
      [NoPreset, Eco] + (if device.supportsBoostMode then [Boost] else [])
    }

    /** Stores exactly the given temperature when it lies within [5, 30]; otherwise nothing. */
    method SetTemperature(temperature: Option<real>)
      modifies device`setpointTemperature, device`requests
      ensures var accepted := temperature.Some? && MIN_TEMP <= temperature.value <= MAX_TEMP;
              && (accepted ==> device.setpointTemperature == temperature.value
                               && device.requests == old(device.requests) + [WriteSetpoint(temperature.value)])
              && (!accepted ==> device.setpointTemperature == old(device.setpointTemperature)
                                && device.requests == old(device.requests))
    {
      if temperature.None? {
        return;
      }
      var t := temperature.value;
      if MIN_TEMP <= t <= MAX_TEMP {
        device.setpointTemperature := t;
        device.requests := device.requests + [WriteSetpoint(t)];
      }
    }

    /** AUTO and HEAT write the matching operation mode; any other mode changes nothing. */
    method SetHvacMode(mode: HvacMode)
      modifies device`operationMode, device`requests
      ensures mode in HvacModes() ==>
        HvacMode() == Some(mode)
        && device.requests == old(device.requests) + [WriteOperationMode(if mode == Auto then Automatic else Manual)]
      ensures mode !in HvacModes() ==>
        device.operationMode == old(device.operationMode) && device.requests == old(device.requests)
    {
      if mode !in HvacModes() {
        return;
      }
      if mode == Auto {
        device.operationMode := Automatic;
        device.requests := device.requests + [WriteOperationMode(Automatic)];
      } else if mode == Heat {
        device.operationMode := Manual;
        device.requests := device.requests + [WriteOperationMode(Manual)];
      }
    }

    /**
     * An offered preset becomes the reported one; each flag is written only
     * when it changes, boost before low. A preset not offered changes nothing.
     */
    method SetPresetMode(preset: Preset)
      modifies device`boostMode, device`low, device`requests
      ensures preset in old(PresetModes()) ==> PresetMode() == preset
      ensures preset in old(PresetModes()) && preset == Boost ==> device.boostMode && !device.low
      ensures preset in old(PresetModes()) && preset == Eco ==>
        device.low && (device.supportsBoostMode ==> !device.boostMode)
      ensures preset in old(PresetModes()) && preset == NoPreset ==>
        !device.low && (device.supportsBoostMode ==> !device.boostMode)
      ensures preset !in old(PresetModes()) ==>
        device.boostMode == old(device.boostMode) && device.low == old(device.low)
      ensures !device.supportsBoostMode && preset != Boost ==> device.boostMode == old(device.boostMode)
      ensures device.requests == old(device.requests)
        + FlagWrites(old(device.boostMode), device.boostMode, old(device.low), device.low)
    {
      if preset !in PresetModes() {
        return;
      }
      if preset == NoPreset {
        if device.supportsBoostMode {
          if device.boostMode {
            device.boostMode := false;
            device.requests := device.requests + [WriteBoostMode(false)];
          }
        }
        if device.low {
          device.low := false;
          device.requests := device.requests + [WriteLow(false)];
        }
      } else if preset == Boost {
        if !device.boostMode {
          device.boostMode := true;
          device.requests := device.requests + [WriteBoostMode(true)];
        }
        if device.low {
          device.low := false;
          device.requests := device.requests + [WriteLow(false)];
        }
      } else if preset == Eco {
        if device.supportsBoostMode {
          if device.boostMode {
            device.boostMode := false;
            device.requests := device.requests + [WriteBoostMode(false)];
          }
        }
        if !device.low {
          device.low := true;
          device.requests := device.requests + [WriteLow(true)];
        }
      }
    }
  }
}
