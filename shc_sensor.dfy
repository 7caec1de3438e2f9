/**
 * The sensors of the `bosch_shc` generation: the battery level as a
 * percentage, energy in kilowatt hours, and the unique ids that keep the
 * several sensors of one device apart.
 */
module ShcSensor {
  import opened Wrappers
  import CustomBinarySensor

  type BatteryLevel = CustomBinarySensor.BatteryLevel

  datatype SensorKind = TemperatureSensor | HumiditySensor | PowerSensor | EnergySensor | BatterySensor

  /** The word a sensor kind appends to the device serial. */
  function Suffix(kind: SensorKind): string {
    match kind
    case TemperatureSensor => "temperature"
    case HumiditySensor => "humidity"
    case PowerSensor => "power"
    case EnergySensor => "energy"
    case BatterySensor => "battery"
  }

  /** `f"{serial}_{suffix}"`: the id ends with the kind's own word after an underscore. */
  function UniqueId(serial: string, kind: SensorKind): (id: string)
    ensures |id| == |serial| + 1 + |Suffix(kind)|
    ensures id[..|serial|] == serial && id[|serial|] == '_' && id[|serial| + 1..] == Suffix(kind)
  {
    serial + "_" + Suffix(kind)
  }

  /** The last two letters of each suffix differ from kind to kind. */
  lemma SuffixEndingsDiffer(k1: SensorKind, k2: SensorKind)
    requires k1 != k2
    ensures Suffix(k1)[|Suffix(k1)| - 2..] != Suffix(k2)[|Suffix(k2)| - 2..]
  {
  }

  /**
   * A unique id names one sensor only: the same id never arises from two
   * kinds, whatever the serials, nor from two serials for one kind.
   */
  lemma {:induction false} UniqueIdInjective(serial1: string, kind1: SensorKind, serial2: string, kind2: SensorKind)
    requires UniqueId(serial1, kind1) == UniqueId(serial2, kind2)
    ensures kind1 == kind2 && serial1 == serial2
  {
    var id := UniqueId(serial1, kind1);
    var s1, s2 := Suffix(kind1), Suffix(kind2);
    assert id == serial1 + "_" + s1 && id == serial2 + "_" + s2;
    assert id[|id| - 2..] == s1[|s1| - 2..] by {
      assert id[|id| - 2..] == (serial1 + "_" + s1)[|id| - 2..];
    }
    assert id[|id| - 2..] == s2[|s2| - 2..] by {
      assert id[|id| - 2..] == (serial2 + "_" + s2)[|id| - 2..];
    }
    if kind1 != kind2 {
      SuffixEndingsDiffer(kind1, kind2);
      assert false;
    }
    assert serial1 == id[..|serial1|] == serial2;
  }

  /** The sensors of one device all have different unique ids. */
  lemma SensorIdsDistinct(serial: string, kind1: SensorKind, kind2: SensorKind)
    requires kind1 != kind2
    ensures UniqueId(serial, kind1) != UniqueId(serial, kind2)
  {
    if UniqueId(serial, kind1) == UniqueId(serial, kind2) {
      UniqueIdInjective(serial, kind1, serial, kind2);
    }
  }

  /** Critically low is 0, low is 20, OK is 100; an unavailable level has no value. */
  function BatteryState(level: BatteryLevel): (percent: Option<int>)
    ensures percent.Some? ==> 0 <= percent.value <= 100
    ensures percent.None? <==> level.NotAvailable?
    ensures percent == Some(0) <==> level == CustomBinarySensor.CriticalLow
    ensures percent == Some(20) <==> level == CustomBinarySensor.LowBattery
    ensures percent == Some(100) <==> level == CustomBinarySensor.Ok
  {
    if level == CustomBinarySensor.CriticalLow then Some(0)
    else if level == CustomBinarySensor.LowBattery then Some(20)
    else if level == CustomBinarySensor.Ok then Some(100)
    else None
  }

  /** How bad a battery level is: critically low is worst, OK is best. */
  function Severity(level: BatteryLevel): nat
    requires level != CustomBinarySensor.NotAvailable
  {
    match level
    case CriticalLow => 2
    case LowBattery => 1
    case Ok => 0
  }

  /** A worse battery level always reports a lower percentage. */
  lemma BatteryStateMonotone(l1: BatteryLevel, l2: BatteryLevel)
    requires l1 != CustomBinarySensor.NotAvailable && l2 != CustomBinarySensor.NotAvailable
    requires Severity(l1) > Severity(l2)
    ensures BatteryState(l1).value < BatteryState(l2).value
  {
  }

  /** The energy consumption, reported in watt hours, in kilowatt hours. */
  function EnergyState(energyConsumption: real): (kwh: real)
    ensures kwh * 1000.0 == energyConsumption
    ensures energyConsumption >= 0.0 ==> 0.0 <= kwh <= energyConsumption
  {
    energyConsumption / 1000.0
  }
}
