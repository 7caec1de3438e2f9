/**
 * The cover platform of the current integration (custom_components/bosch_shc):
 * shutter and awning micromodules and roller shutters (ShutterControlCover),
 * and blinds micromodules (BlindsControlCover), which add a tilt axis.
 *
 * The device reports `level` and `current_angle` in [0, 1]; the entity reports
 * percentages. The tilt axis is inverted: angle 0 is tilt 100.
 */
module CustomCover {
  import opened PyMath

  /** What the entity sends to the controller: a property write or an action. */
  datatype Request =
    | WriteLevel(level: real)
    | WriteBlindsLevel(level: real)
    | WriteTargetAngle(angle: real)
    | Stop
    | StopBlinds

  datatype CoverDeviceClass = Awning | Shutter | Blind

  const MICROMODULE_AWNING: string := "MICROMODULE_AWNING"

  /**
   * A shutter control, micromodule shutter or micromodule blinds device of the
   * device library: the properties the cover entity reads and writes, and the
   * log of every request the entity sent.
   */
  class ShutterControl {
    var level: real
    var blindsLevel: real
    var currentAngle: real
    var targetAngle: real
    const deviceModel: string
    var requests: seq<Request>

    constructor (deviceModel: string)
      ensures this.deviceModel == deviceModel && requests == []
    {
      this.deviceModel := deviceModel;
      requests := [];
    }
  }

  /** `round(level * 100.0)`: the reported position of a device level. */
  function CoverPosition(level: real): (p: int)
    ensures -0.5 <= p as real - level * 100.0 <= 0.5
    ensures 0.0 <= level <= 1.0 ==> 0 <= p <= 100
  {
    Round(level * 100.0)
  }

  /**
   * A cover is reported closed when its rounded position is 0, which (with
   * ties rounding to even) is exactly a level within half a percent of 0.
   */
  function IsClosedAt(level: real): (closed: bool)
    ensures closed <==> -0.005 <= level <= 0.005
  {
    CoverPosition(level) == 0
  }

  /** The device level a position is written as: `position / 100.0`, not clamped. */
  function LevelFor(position: int): (level: real)
    ensures 0 <= position <= 100 ==> 0.0 <= level <= 1.0
    ensures level * 100.0 == position as real
  {
    position as real / 100.0
  }

  /** Writing an integer position and reading it back gives that position. */
  lemma PositionRoundTrip(position: int)
    ensures CoverPosition(LevelFor(position)) == position
  {
    RoundOfInteger(position);
  }

  /** `round((1.0 - current_angle) * 100.0)`: the reported tilt of a slat angle. */
  function TiltPosition(angle: real): (t: int)
    ensures -0.5 <= t as real - (1.0 - angle) * 100.0 <= 0.5
    ensures 0.0 <= angle <= 1.0 ==> 0 <= t <= 100
  {
    Round((1.0 - angle) * 100.0)
  }

  /** The target angle a tilt is written as: `1.0 - tilt / 100.0`. */
  function AngleFor(tilt: int): (angle: real)
    ensures 0 <= tilt <= 100 ==> 0.0 <= angle <= 1.0
    ensures (1.0 - angle) * 100.0 == tilt as real
  {
    1.0 - (tilt as real / 100.0)
  }

  /** Once the slats reach the written target angle, the reported tilt is the one set. */
  lemma TiltRoundTrip(tilt: int)
    ensures TiltPosition(AngleFor(tilt)) == tilt
  {
    RoundOfInteger(tilt);
  }

  /** Open-tilt writes angle 0 (tilt 100); close-tilt writes angle 1 (tilt 0). */
  lemma TiltEndpoints()
    ensures AngleFor(100) == 0.0 && TiltPosition(0.0) == 100
    ensures AngleFor(0) == 1.0 && TiltPosition(1.0) == 0
  {
    TiltRoundTrip(100);
    TiltRoundTrip(0);
  }

  /**
   * The device class both entity classes report: the `device_class` property
   * of ShutterControlCover, which BlindsControlCover inherits.
   */
  function DeviceClassOf(deviceModel: string): (c: CoverDeviceClass)
    ensures c == Awning <==> deviceModel == MICROMODULE_AWNING
    ensures c == Shutter <==> deviceModel != MICROMODULE_AWNING
  {
    if deviceModel == MICROMODULE_AWNING then Awning else Shutter
  }

  /**
   * The device class evidently intended: BlindsControlCover declares
   * `_attr_device_class = BLIND`, which only takes effect if the inherited
   * property does not override it.
   */
  function IntendedDeviceClass(deviceModel: string, blinds: bool): (c: CoverDeviceClass)
    ensures blinds <==> c == Blind
    ensures !blinds ==> c == DeviceClassOf(deviceModel)
  {
    if blinds then Blind else DeviceClassOf(deviceModel)
  }

  /** As written, a blinds cover never reports the BLIND device class it declares. */
  lemma BlindsNeverReportBlind(deviceModel: string)
    ensures DeviceClassOf(deviceModel) != IntendedDeviceClass(deviceModel, true)
  {
  }

  /** A roller shutter, shutter micromodule or awning micromodule cover entity. */
  class ShutterControlCover {
    const device: ShutterControl

    constructor (device: ShutterControl)
      ensures this.device == device
    {
      this.device := device;
    }

    function DeviceClass(): (c: CoverDeviceClass)
      reads device
      ensures c == Awning <==> device.deviceModel == MICROMODULE_AWNING
    {
      DeviceClassOf(device.deviceModel)
    }

    function CurrentCoverPosition(): (p: int)
      reads device
      ensures 0.0 <= device.level <= 1.0 ==> 0 <= p <= 100
      ensures -0.5 <= p as real - device.level * 100.0 <= 0.5
    {
      CoverPosition(device.level)
    }

    function IsClosed(): (closed: bool)
      reads device
      ensures closed <==> CurrentCoverPosition() == 0
      ensures closed <==> -0.005 <= device.level <= 0.005
    {
      IsClosedAt(device.level)
    }

    method StopCover()
      modifies device`requests
      ensures device.requests == old(device.requests) + [Stop]
    {
      device.requests := device.requests + [Stop];
    }

    method OpenCover()
      modifies device`level, device`requests
      ensures device.level == 1.0 && CurrentCoverPosition() == 100 && !IsClosed()
      ensures device.requests == old(device.requests) + [WriteLevel(1.0)]
    {
      device.level := 1.0;
      device.requests := device.requests + [WriteLevel(1.0)];
      PositionRoundTrip(100);
    }

    method CloseCover()
      modifies device`level, device`requests
      ensures device.level == 0.0 && CurrentCoverPosition() == 0 && IsClosed()
      ensures device.requests == old(device.requests) + [WriteLevel(0.0)]
    {
      device.level := 0.0;
      device.requests := device.requests + [WriteLevel(0.0)];
      PositionRoundTrip(0);
    }

    /** Writes `position / 100.0` whatever the position; nothing is clamped. */
    method SetCoverPosition(position: int)
      modifies device`level, device`requests
      ensures device.level == LevelFor(position)
      ensures CurrentCoverPosition() == position
      ensures device.requests == old(device.requests) + [WriteLevel(LevelFor(position))]
    {
      device.level := position as real / 100.0;
      device.requests := device.requests + [WriteLevel(device.level)];
      PositionRoundTrip(position);
    }
  }

  /**
   * A blinds micromodule cover entity: a ShutterControlCover whose vertical
   * commands go to `blinds_level`, with a tilt axis on top.
   */
  class BlindsControlCover {
    const device: ShutterControl

    constructor (device: ShutterControl)
      ensures this.device == device
    {
      this.device := device;
    }

    /** Inherited from ShutterControlCover: the declared BLIND class is never used. */
    function DeviceClass(): (c: CoverDeviceClass)
      reads device
      ensures c != Blind
      ensures c == Awning <==> device.deviceModel == MICROMODULE_AWNING
    {
      DeviceClassOf(device.deviceModel)
    }

    /** Inherited from ShutterControlCover: the position is still read from `level`. */
    function CurrentCoverPosition(): (p: int)
      reads device
      ensures 0.0 <= device.level <= 1.0 ==> 0 <= p <= 100
      ensures -0.5 <= p as real - device.level * 100.0 <= 0.5
    {
      CoverPosition(device.level)
    }

    /** Inherited from ShutterControlCover. */
    function IsClosed(): (closed: bool)
      reads device
      ensures closed <==> CurrentCoverPosition() == 0
      ensures closed <==> -0.005 <= device.level <= 0.005
    {
      IsClosedAt(device.level)
    }

    /** Inherited from ShutterControlCover. */
    method StopCover()
      modifies device`requests
      ensures device.requests == old(device.requests) + [Stop]
    {
      device.requests := device.requests + [Stop];
    }

    method OpenCover()
      modifies device`blindsLevel, device`requests
      ensures device.blindsLevel == 1.0
      ensures device.requests == old(device.requests) + [WriteBlindsLevel(1.0)]
    {
      device.blindsLevel := 1.0;
      device.requests := device.requests + [WriteBlindsLevel(1.0)];
    }

    method CloseCover()
      modifies device`blindsLevel, device`requests
      ensures device.blindsLevel == 0.0
      ensures device.requests == old(device.requests) + [WriteBlindsLevel(0.0)]
    {
      device.blindsLevel := 0.0;
      device.requests := device.requests + [WriteBlindsLevel(0.0)];
    }

    method SetCoverPosition(position: int)
      modifies device`blindsLevel, device`requests
      ensures device.blindsLevel == LevelFor(position)
      ensures device.requests == old(device.requests) + [WriteBlindsLevel(LevelFor(position))]
    {
      device.blindsLevel := position as real / 100.0;
      device.requests := device.requests + [WriteBlindsLevel(device.blindsLevel)];
    }

    /** Stops the slats only: the single request is `stop_blinds`. */
    method StopCoverTilt()
      modifies device`requests
      ensures device.requests == old(device.requests) + [StopBlinds]
    {
      device.requests := device.requests + [StopBlinds];
    }

    function CurrentCoverTiltPosition(): (t: int)
      reads device
      ensures 0.0 <= device.currentAngle <= 1.0 ==> 0 <= t <= 100
      ensures device.currentAngle == 0.0 ==> t == 100
      ensures device.currentAngle == 1.0 ==> t == 0
    {
      TiltEndpoints();
      TiltPosition(device.currentAngle)
    }

    method OpenCoverTilt()
      modifies device`targetAngle, device`requests
      ensures device.targetAngle == 0.0 && TiltPosition(device.targetAngle) == 100
      ensures device.requests == old(device.requests) + [WriteTargetAngle(0.0)]
    {
      device.targetAngle := 1.0 - 1.0;
      device.requests := device.requests + [WriteTargetAngle(device.targetAngle)];
      TiltEndpoints();
    }

    method CloseCoverTilt()
      modifies device`targetAngle, device`requests
      ensures device.targetAngle == 1.0 && TiltPosition(device.targetAngle) == 0
      ensures device.requests == old(device.requests) + [WriteTargetAngle(1.0)]
    {
      device.targetAngle := 1.0 - 0.0;
      device.requests := device.requests + [WriteTargetAngle(device.targetAngle)];
      TiltEndpoints();
    }

    /** Once the slats report the target angle written here, the tilt reads back as `tilt`. */
    method SetCoverTiltPosition(tilt: int)
      modifies device`targetAngle, device`requests
      ensures device.targetAngle == AngleFor(tilt)
      ensures device.currentAngle == device.targetAngle ==> CurrentCoverTiltPosition() == tilt
      ensures device.requests == old(device.requests) + [WriteTargetAngle(AngleFor(tilt))]
    {
      device.targetAngle := 1.0 - (tilt as real / 100.0);
      device.requests := device.requests + [WriteTargetAngle(device.targetAngle)];
      TiltRoundTrip(tilt);
    }
  }
}
