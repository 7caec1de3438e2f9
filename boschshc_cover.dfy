/**
 * The cover platform of the boschshc generation: like the bosch_shc one, but
 * the entity reports availability itself, and its direction getters return
 * True or None (never False).
 */
module BoschshcCover {
  import opened Wrappers
  import opened PyMath

  datatype OperationState = Stopped | Opening | Closing

  datatype Request = WriteLevel(level: real) | Stop

  const AVAILABLE: string := "AVAILABLE"

  /** The shutter control device: reported level, state and status, and the requests sent to it. */
  class ShutterControl {
    var level: real
    var operationState: OperationState
    var status: string
    var requests: seq<Request>

    constructor ()
      ensures requests == []
    {
      requests := [];
    }
  }

  /**
   * The direction flag evidently intended: a plain boolean. The getters below
   * fall off the end of their `else` branch and so return None instead.
   */
  function IntendedFlag(state: OperationState, expected: OperationState): (flag: bool)
    ensures flag <==> state == expected
  {
    state == expected
  }

  class ShutterControlCover {
    const device: ShutterControl

    constructor (device: ShutterControl)
      ensures this.device == device
    {
      this.device := device;
    }

    function Available(): (available: bool)
      reads device
      ensures available <==> device.status == AVAILABLE
    {
      if device.status == AVAILABLE then true else false
    }

    function CurrentCoverPosition(): (p: real)
      reads device
      ensures 0.0 <= device.level <= 1.0 ==> 0.0 <= p <= 100.0
      ensures p == 0.0 <==> device.level == 0.0
    {
      device.level * 100.0
    }

    /** True exactly at position 0.0; the None branch cannot be taken. */
    function IsClosed(): (closed: Option<bool>)
      reads device
      ensures closed.Some?
      ensures closed.value <==> device.level == 0.0
    {
      var position := CurrentCoverPosition();
      if position == 0.0 then Some(true) else Some(false)
    }

    /** True while opening; otherwise None, where False was meant. */
    function IsOpening(): (opening: Option<bool>)
      reads device
      ensures opening != Some(false)
      ensures opening == Some(true) <==> IntendedFlag(device.operationState, Opening)
      ensures opening == None <==> !IntendedFlag(device.operationState, Opening)
    {
      if device.operationState == Opening then Some(true) else None
    }

    /** True while closing; otherwise None, where False was meant. */
    function IsClosing(): (closing: Option<bool>)
      reads device
      ensures closing != Some(false)
      ensures closing == Some(true) <==> IntendedFlag(device.operationState, Closing)
      ensures closing == None <==> !IntendedFlag(device.operationState, Closing)
    {
      if device.operationState == Closing then Some(true) else None
    }

    method StopCover()
      modifies device`requests
      ensures device.requests == old(device.requests) + [Stop]
    {
      device.requests := device.requests + [Stop];
    }

    method OpenCover()
      modifies device`level, device`requests
      ensures device.level == 1.0 && IsClosed() == Some(false)
      ensures device.requests == old(device.requests) + [WriteLevel(1.0)]
    {
      device.level := 1.0;
      device.requests := device.requests + [WriteLevel(1.0)];
    }

    method CloseCover()
      modifies device`level, device`requests
      ensures device.level == 0.0 && IsClosed() == Some(true)
      ensures device.requests == old(device.requests) + [WriteLevel(0.0)]
    {
      device.level := 0.0;
      device.requests := device.requests + [WriteLevel(0.0)];
    }

    /** Without a position nothing is written; otherwise `clamp(p, 0, 100) / 100`. */
    method SetCoverPosition(position: Option<real>)
      modifies device`level, device`requests
      ensures position.None? ==> device.level == old(device.level) && device.requests == old(device.requests)
      ensures position.Some? ==> 0.0 <= device.level <= 1.0
      ensures position.Some? ==> device.level == ClampPercent(position.value) / 100.0
      ensures position.Some? ==> device.requests == old(device.requests) + [WriteLevel(device.level)]
    {
      if position.Some? {
        var clamped := ClampPercent(position.value);
        device.level := clamped / 100.0;
        device.requests := device.requests + [WriteLevel(device.level)];
      }
    }
  }

  /** The direction getters as written never claim opening and closing at once. */
  lemma NeverOpeningAndClosing(cover: ShutterControlCover)
    ensures !(cover.IsOpening() == Some(true) && cover.IsClosing() == Some(true))
  {
  }
}
