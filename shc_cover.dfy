/**
 * The cover platform of the bosch_shc generation: a roller shutter whose
 * position is `level * 100` unrounded, whose direction comes straight from
 * the device's operation state, and whose position setter clamps.
 */
module ShcCover {
  import opened Wrappers
  import opened PyMath

  /** The shutter control service's operation state. */
  datatype OperationState = Stopped | Opening | Closing

  datatype Request = WriteLevel(level: real) | Stop

  /** The shutter control device: its reported level and state, and the requests sent to it. */
  class ShutterControl {
    var level: real
    var operationState: OperationState
    var requests: seq<Request>

    constructor ()
      ensures requests == []
    {
      requests := [];
    }
  }

  /** The level written for a requested position: clamped to [0, 100], then divided by 100. */
  function ClampedLevel(position: real): (level: real)
    ensures 0.0 <= level <= 1.0
    ensures 0.0 <= position <= 100.0 ==> level * 100.0 == position
    ensures position < 0.0 ==> level == 0.0
    ensures position > 100.0 ==> level == 1.0
  {
    ClampPercent(position) / 100.0
  }

  /** Two requested positions that clamp alike write the same level. */
  lemma ClampedLevelIdempotent(position: real)
    ensures ClampedLevel(ClampedLevel(position) * 100.0) == ClampedLevel(position)
  {
  }

  class ShutterControlCover {
    const device: ShutterControl

    constructor (device: ShutterControl)
      ensures this.device == device
    {
      this.device := device;
    }

    function CurrentCoverPosition(): (p: real)
      reads device
      ensures 0.0 <= device.level <= 1.0 ==> 0.0 <= p <= 100.0
      ensures p == 0.0 <==> device.level == 0.0
    {
      device.level * 100.0
    }

    /**
     * True exactly at position 0.0. The source's None branch cannot be
     * taken: the position is computed from a number and is never None.
     */
    function IsClosed(): (closed: Option<bool>)
      reads device
      ensures closed.Some?
      ensures closed.value <==> device.level == 0.0
    {
      var position := CurrentCoverPosition();
      if position == 0.0 then Some(true) else Some(false)
    }

    function IsOpening(): (opening: bool)
      reads device
      ensures opening <==> device.operationState == Opening
    {
      if device.operationState == Opening then true else false
    }

    function IsClosing(): (closing: bool)
      reads device
      ensures closing <==> device.operationState == Closing
      ensures closing ==> !IsOpening()
    {
      if device.operationState == Closing then true else false
    }

    method StopCover()
      modifies device`requests
      ensures device.requests == old(device.requests) + [Stop]
    {
      device.requests := device.requests + [Stop];
    }

    method OpenCover()
      modifies device`level, device`requests
      ensures device.level == 1.0 && IsClosed() == Some(false)
      ensures device.requests == old(device.requests) + [WriteLevel(1.0)]
    {
      device.level := 1.0;
      device.requests := device.requests + [WriteLevel(1.0)];
    }

    method CloseCover()
      modifies device`level, device`requests
      ensures device.level == 0.0 && IsClosed() == Some(true)
      ensures device.requests == old(device.requests) + [WriteLevel(0.0)]
    {
      device.level := 0.0;
      device.requests := device.requests + [WriteLevel(0.0)];
    }

    /** Without a position nothing is written; otherwise the clamped level is. */
    method SetCoverPosition(position: Option<real>)
      modifies device`level, device`requests
      ensures position.None? ==> device.level == old(device.level) && device.requests == old(device.requests)
      ensures position.Some? ==> device.level == ClampedLevel(position.value)
      ensures position.Some? ==> device.requests == old(device.requests) + [WriteLevel(ClampedLevel(position.value))]
      ensures 0.0 <= old(device.level) <= 1.0 ==> 0.0 <= device.level <= 1.0
    {
      if position.Some? {
        var clamped := ClampPercent(position.value);
        device.level := clamped / 100.0;
        device.requests := device.requests + [WriteLevel(device.level)];
      }
    }
  }
}
