/**
 * The cover platform of the first generation (top-level cover.py), built on
 * the BoschShcPy library. Unlike the later ones, the entity caches position,
 * state and name in its own fields: the constructor stores the values it is
 * given and `update()` overwrites them when the library refreshes.
 */
module LegacyCover {
  import opened Wrappers
  import opened PyMath

  datatype Request = SetLevel(level: real) | Stop

  /** What `update()` can raise: `get_level * 100.` with no level is a TypeError. */
  datatype UpdateError = LevelMissing

  /** The library's shutter control representation, as the entity reads it. */
  class Representation {
    var level: Option<real>
    var state: string
    var name: string
    var availability: bool
    var requests: seq<Request>

    constructor ()
      ensures requests == []
    {
      requests := [];
    }
  }

  /** The level written for a requested position: clamped to [0, 100], then divided by 100. */
  function LevelFor(position: real): (level: real)
    ensures 0.0 <= level <= 1.0
    ensures 0.0 <= position <= 100.0 ==> level * 100.0 == position
  {
    ClampPercent(position) / 100.0
  }

  class ShutterControlCover {
    const representation: Representation
    var currentCoverPosition: Option<real>
    var state: string
    var name: string

    /** Caches the level it is given as it is, not multiplied by 100 as `update` does. */
    constructor (cover: Representation, name: string, state: string, level: Option<real>)
      ensures representation == cover
      ensures currentCoverPosition == level && this.state == state && this.name == name
    {
      representation := cover;
      currentCoverPosition := level;
      this.state := state;
      this.name := name;
    }

    function Available(): (available: bool)
      reads representation
      ensures available == representation.availability
    {
      representation.availability
    }

    /** Read from the library, not from the cache: None, True at level 0, else False. */
    function IsClosed(): (closed: Option<bool>)
      reads representation
      ensures closed.None? <==> representation.level.None?
      ensures closed == Some(true) <==> representation.level == Some(0.0)
    {
      if representation.level == None then None
      else if representation.level.value == 0.0 then Some(true)
      else Some(false)
    }

    /**
     * `refreshed` is what the library's `update()` returned. On a refresh the
     * cache takes the library's values; without one nothing changes. A
     * refresh that leaves no level raises before anything is stored.
     */
    method Update(refreshed: bool) returns (outcome: Result<(), UpdateError>)
      modifies this
      ensures !refreshed ==> outcome.Success?
      ensures outcome.Failure? <==> refreshed && representation.level.None?
      ensures outcome.Success? && refreshed ==>
        currentCoverPosition == Some(representation.level.value * 100.0)
        && state == representation.state && name == representation.name
      ensures !(outcome.Success? && refreshed) ==>
        currentCoverPosition == old(currentCoverPosition) && state == old(state) && name == old(name)
    {
      if refreshed {
        if representation.level.None? {
          return Failure(LevelMissing);
        }
        currentCoverPosition := Some(representation.level.value * 100.0);
        state := representation.state;
        name := representation.name;
      }
      outcome := Success(());
    }

    method StopCover()
      modifies representation`requests
      ensures representation.requests == old(representation.requests) + [Stop]
    {
      representation.requests := representation.requests + [Stop];
    }

    method OpenCover()
      modifies representation`requests
      ensures representation.requests == old(representation.requests) + [SetLevel(1.0)]
    {
      var level := 1.0;
      representation.requests := representation.requests + [SetLevel(level)];
    }

    method CloseCover()
      modifies representation`requests
      ensures representation.requests == old(representation.requests) + [SetLevel(0.0)]
    {
      var level := 0.0;
      representation.requests := representation.requests + [SetLevel(level)];
    }

    /** Without a position nothing is sent; otherwise `set_level` of the clamped level. */
    method SetCoverPosition(position: Option<real>)
      modifies representation`requests
      ensures position.None? ==> representation.requests == old(representation.requests)
      ensures position.Some? ==> representation.requests == old(representation.requests) + [SetLevel(LevelFor(position.value))]
    {
      if position.Some? {
        var clamped := ClampPercent(position.value);
        var level := clamped / 100.0;
        representation.requests := representation.requests + [SetLevel(level)];
      }
    }
  }
}
