/**
 * The room climate entity of the `boschshc` generation. It reads three kinds
 * of services directly: the room climate control service (modes, flags and
 * setpoint), and the valve tappet services of every thermostat in the room,
 * whose positions are averaged into one valve tappet position for the room.
 */
module BoschshcClimate {
  import opened Wrappers
  import opened PyMath
  import opened CustomClimate

  datatype HvacAction = Heating | Idle

  /** The sum of the positions, as Python's `sum`. */
  function Sum(s: seq<int>): int {
    if |s| == 0 then 0 else s[0] + Sum(s[1..])
  }

  predicate AllWithin(s: seq<int>, lo: int, hi: int) {
    forall i :: 0 <= i < |s| ==> lo <= s[i] <= hi
  }

  /** Every position lies in [lo, hi], so their sum lies in [n * lo, n * hi]. */
  lemma {:induction false} SumWithin(s: seq<int>, lo: int, hi: int)
    requires AllWithin(s, lo, hi)
    ensures |s| * lo <= Sum(s) <= |s| * hi
  {
    if |s| > 0 {
      assert AllWithin(s[1..], lo, hi) by {
        forall i | 0 <= i < |s[1..]| ensures lo <= s[1..][i] <= hi {
          assert s[1..][i] == s[i + 1];
        }
      }
      SumWithin(s[1..], lo, hi);
    }
  }

  /** Scaling both sides of an integer inequality by a non-negative factor keeps it. */
  lemma MulMonotone(a: int, b: int, n: int)
    requires a <= b && 0 <= n
    ensures a * n <= b * n
  {
  }

  /** Scaling both sides of a real inequality by a positive factor keeps it, strict or not. */
  lemma RealMulMonotone(a: real, b: real, k: real)
    requires k > 0.0
    ensures a < b ==> a * k < b * k
    ensures a <= b ==> a * k <= b * k
  {
  }

  /** Converting a product of integers to a real is the product of the converted factors. */
  lemma CastMul(a: int, b: int)
    ensures (a * b) as real == a as real * b as real
  {
  }

  /** An integer c with c - 1 < total / n <= c bounds the total by the multiples (c - 1) * n and c * n. */
  lemma ScaleBounds(c: int, q: real, n: int, total: int)
    requires n > 0
    requires q * n as real == total as real
    requires c as real - 1.0 < q <= c as real
    ensures (c - 1) * n < total <= c * n
  {
    RealMulMonotone(c as real - 1.0, q, n as real);
    RealMulMonotone(q, c as real, n as real);
    CastMul(c - 1, n);
    CastMul(c, n);
  }

  /** The mean rounded up, times the count, is the least multiple of the count not below the total. */
  lemma CeilMeanBounds(total: int, n: int)
    requires n > 0
    ensures (Ceil(total as real / n as real) - 1) * n < total <= Ceil(total as real / n as real) * n
  {
    var q := total as real / n as real;
    assert q * n as real == total as real;
    ScaleBounds(Ceil(q), q, n, total);
  }

  /**
   * `min(100, max(0, ceil(total / n)))`, or 0 without any valve: the mean
   * position rounded up, clamped to a percentage.
   */
  function ValveTappetPositionOf(positions: seq<int>): (p: int)
    ensures 0 <= p <= 100
    ensures |positions| == 0 ==> p == 0
    ensures |positions| > 0 && AllWithin(positions, 0, 100) ==>
      (p - 1) * |positions| < Sum(positions) <= p * |positions|
  {
    if |positions| > 0 then
      var c := Ceil(Sum(positions) as real / |positions| as real);
      CeilMeanBounds(Sum(positions), |positions|);
      MeanWithin(positions);
      ClampPercentInt(c)
    else
      0
  }

  /** With every position a percentage, the mean rounded up is one as well. */
  lemma MeanWithin(positions: seq<int>)
    requires |positions| > 0
    ensures AllWithin(positions, 0, 100) ==>
      0 <= Ceil(Sum(positions) as real / |positions| as real) <= 100
  {
    if AllWithin(positions, 0, 100) {
      var n := |positions|;
      var c := Ceil(Sum(positions) as real / n as real);
      SumWithin(positions, 0, 100);
      CeilMeanBounds(Sum(positions), n);
      if c > 100 {
        MulMonotone(100, c - 1, n);
      }
      if c < 0 {
        MulMonotone(c, -1, n);
      }
    }
  }

  /** Rounding the mean up never passes the most open valve nor falls below the most closed one. */
  lemma ValveTappetPositionWithin(positions: seq<int>, lo: int, hi: int)
    requires |positions| > 0
    requires 0 <= lo <= hi <= 100
    requires AllWithin(positions, lo, hi)
    ensures lo <= ValveTappetPositionOf(positions) <= hi
  {
    SumWithin(positions, lo, hi);
    var n := |positions|;
    var p := ValveTappetPositionOf(positions);
    if p > hi {
      MulMonotone(hi, p - 1, n);
    }
    if p < lo {
      MulMonotone(p, lo - 1, n);
    }
  }

  /** Valves all standing at the same position report that position. */
  lemma ValveTappetPositionOfEqual(positions: seq<int>, k: int)
    requires |positions| > 0 && 0 <= k <= 100
    requires forall i :: 0 <= i < |positions| ==> positions[i] == k
    ensures ValveTappetPositionOf(positions) == k
  {
    ValveTappetPositionWithin(positions, k, k);
  }

  /** Valves all at most 5 percent open give the room at most 5; all above 5 give above 5. */
  lemma ActionThresholds(positions: seq<int>)
    ensures |positions| > 0 && AllWithin(positions, 0, 5) ==> ValveTappetPositionOf(positions) <= 5
    ensures |positions| > 0 && AllWithin(positions, 6, 100) ==> ValveTappetPositionOf(positions) > 5
  {
    if |positions| > 0 && AllWithin(positions, 0, 5) {
      ValveTappetPositionWithin(positions, 0, 5);
    }
    if |positions| > 0 && AllWithin(positions, 6, 100) {
      ValveTappetPositionWithin(positions, 6, 100);
    }
  }

  /** The room climate control service and the requests sent to it. */
  class RoomClimateControlService {
    var operationMode: OperationMode
    var boostMode: bool
    var low: bool
    const supportsBoostMode: bool
    var setpointTemperature: real
    var requests: seq<Request>

    constructor (supportsBoostMode: bool)
      ensures this.supportsBoostMode == supportsBoostMode && requests == []
    {
      this.supportsBoostMode := supportsBoostMode;
      requests := [];
    }
  }

  /** A thermostat's valve tappet service: how far its valve is open, in percent. */
  class ValveTappetService {
    var position: int

    constructor (position: int)
      ensures this.position == position
    {
      this.position := position;
    }
  }

  class ClimateControl {
    const roomClimateControl: RoomClimateControlService
    const valveTappets: seq<ValveTappetService>

    constructor (roomClimateControl: RoomClimateControlService, valveTappets: seq<ValveTappetService>)
      ensures this.roomClimateControl == roomClimateControl && this.valveTappets == valveTappets
    {
      this.roomClimateControl := roomClimateControl;
      this.valveTappets := valveTappets;
    }

    /** The positions the room's valve tappet services report, in order. */
    function Positions(): (ps: seq<int>)
      reads valveTappets
      ensures |ps| == |valveTappets|
      ensures forall i :: 0 <= i < |ps| ==> ps[i] == valveTappets[i].position
    {
      seq(|valveTappets|, i reads valveTappets requires 0 <= i < |valveTappets| => valveTappets[i].position)
    }

    /** The room's valve tappet position: the mean of the valves rounded up, as a percentage. */
    function ValveTappetPosition(): (p: int)
      reads valveTappets
      ensures 0 <= p <= 100
      ensures |valveTappets| == 0 ==> p == 0
      ensures |valveTappets| > 0 && AllWithin(Positions(), 0, 100) ==>
        (p - 1) * |valveTappets| < Sum(Positions()) <= p * |valveTappets|
    {
      ValveTappetPositionOf(Positions())
    }

    /** Heating exactly when the room's valve tappet position is above 5 percent. */
    function HvacAction(): (a: HvacAction)
      reads valveTappets
      ensures a == Heating <==> ValveTappetPosition() > 5
      ensures |valveTappets| == 0 ==> a == Idle
      ensures |valveTappets| > 0 && AllWithin(Positions(), 0, 5) ==> a == Idle
      ensures |valveTappets| > 0 && AllWithin(Positions(), 6, 100) ==> a == Heating
    {
      ActionThresholds(Positions());
      if ValveTappetPosition() > 5 then Heating else Idle
    }

    /** AUTO for automatic, HEAT for manual, no mode (after a warning) for anything else. */
    function HvacMode(): (m: Option<HvacMode>)
      reads roomClimateControl
      ensures m == Some(Auto) <==> roomClimateControl.operationMode == Automatic
      ensures m == Some(Heat) <==> roomClimateControl.operationMode == Manual
      ensures m.None? <==> roomClimateControl.operationMode.Unrecognised?
      ensures m.Some? ==> m.value in HvacModes()
    {
      if roomClimateControl.operationMode == Automatic then Some(Auto)
      else if roomClimateControl.operationMode == Manual then Some(Heat)
      else None
    }

    function HvacModes(): (modes: seq<HvacMode>)
      ensures forall m :: m in modes <==> m == Auto || m == Heat
    {
      [Auto, Heat]
    }

    /** BOOST only where boost is supported, ECO when low, NONE otherwise. */
    function PresetMode(): (p: Preset)
      reads roomClimateControl
      ensures p == Boost <==> roomClimateControl.supportsBoostMode && roomClimateControl.boostMode
      ensures p == Eco <==> !(roomClimateControl.supportsBoostMode && roomClimateControl.boostMode) && roomClimateControl.low
      ensures p == NoPreset <==> !(roomClimateControl.supportsBoostMode && roomClimateControl.boostMode) && !roomClimateControl.low
      ensures p in PresetModes()
    {
      if roomClimateControl.supportsBoostMode && roomClimateControl.boostMode then Boost
      else if roomClimateControl.low then Eco
      else NoPreset
    }

    function PresetModes(): (presets: seq<Preset>)
      reads roomClimateControl
      ensures forall p :: p in presets <==> p == NoPreset || p == Eco || (p == Boost && roomClimateControl.supportsBoostMode)
    {
      [NoPreset, Eco] + (if roomClimateControl.supportsBoostMode then [Boost] else [])
    }

    /** Stores exactly the given temperature when it lies within [5, 30]; otherwise nothing. */
    method SetTemperature(temperature: Option<real>)
      modifies roomClimateControl`setpointTemperature, roomClimateControl`requests
      ensures var accepted := temperature.Some? && MIN_TEMP <= temperature.value <= MAX_TEMP;
              && (accepted ==> roomClimateControl.setpointTemperature == temperature.value
                               && roomClimateControl.requests == old(roomClimateControl.requests) + [WriteSetpoint(temperature.value)])
              && (!accepted ==> roomClimateControl.setpointTemperature == old(roomClimateControl.setpointTemperature)
                                && roomClimateControl.requests == old(roomClimateControl.requests))
    {
      if temperature.None? {
        return;
      }
      var t := temperature.value;
      if MIN_TEMP <= t <= MAX_TEMP {
        roomClimateControl.setpointTemperature := t;
        roomClimateControl.requests := roomClimateControl.requests + [WriteSetpoint(t)];
      }
    }

    /** AUTO and HEAT write the matching operation mode; any other mode changes nothing. */
    method SetHvacMode(mode: HvacMode)
      modifies roomClimateControl`operationMode, roomClimateControl`requests
      ensures mode in HvacModes() ==>
        HvacMode() == Some(mode)
        && roomClimateControl.requests == old(roomClimateControl.requests) + [WriteOperationMode(if mode == Auto then Automatic else Manual)]
      ensures mode !in HvacModes() ==>
        roomClimateControl.operationMode == old(roomClimateControl.operationMode)
        && roomClimateControl.requests == old(roomClimateControl.requests)
    {
      if mode !in HvacModes() {
        return;
      }
      if mode == Auto {
        roomClimateControl.operationMode := Automatic;
        roomClimateControl.requests := roomClimateControl.requests + [WriteOperationMode(Automatic)];
      } else if mode == Heat {
        roomClimateControl.operationMode := Manual;
        roomClimateControl.requests := roomClimateControl.requests + [WriteOperationMode(Manual)];
      }
    }

    /**
     * An offered preset becomes the reported one; each flag is written only
     * when it changes, boost before low. A preset not offered changes nothing.
     */
    method SetPresetMode(preset: Preset)
      modifies roomClimateControl`boostMode, roomClimateControl`low, roomClimateControl`requests
      ensures preset in old(PresetModes()) ==> PresetMode() == preset
      ensures preset in old(PresetModes()) && preset == Boost ==> roomClimateControl.boostMode && !roomClimateControl.low
      ensures preset in old(PresetModes()) && preset == Eco ==>
        roomClimateControl.low && (roomClimateControl.supportsBoostMode ==> !roomClimateControl.boostMode)
      ensures preset in old(PresetModes()) && preset == NoPreset ==>
        !roomClimateControl.low && (roomClimateControl.supportsBoostMode ==> !roomClimateControl.boostMode)
      ensures preset !in old(PresetModes()) ==>
        roomClimateControl.boostMode == old(roomClimateControl.boostMode) && roomClimateControl.low == old(roomClimateControl.low)
      ensures !roomClimateControl.supportsBoostMode && preset != Boost ==> roomClimateControl.boostMode == old(roomClimateControl.boostMode)
      ensures roomClimateControl.requests == old(roomClimateControl.requests)
        + FlagWrites(old(roomClimateControl.boostMode), roomClimateControl.boostMode, old(roomClimateControl.low), roomClimateControl.low)
    {
      var service := roomClimateControl;
      if preset !in PresetModes() {
        return;
      }
      if preset == NoPreset {
        if service.supportsBoostMode {
          if service.boostMode {
            service.boostMode := false;
            service.requests := service.requests + [WriteBoostMode(false)];
          }
        }
        if service.low {
          service.low := false;
          service.requests := service.requests + [WriteLow(false)];
        }
      } else if preset == Boost {
        if !service.boostMode {
          service.boostMode := true;
          service.requests := service.requests + [WriteBoostMode(true)];
        }
        if service.low {
          service.low := false;
          service.requests := service.requests + [WriteLow(false)];
        }
      } else if preset == Eco {
        if service.supportsBoostMode {
          if service.boostMode {
            service.boostMode := false;
            service.requests := service.requests + [WriteBoostMode(false)];
          }
        }
        if !service.low {
          service.low := true;
          service.requests := service.requests + [WriteLow(true)];
        }
      }
    }
  }
}
