/** The process-wide settings record `PathSearchGlobals`: the minimum tile radius
    and a word of display flags, made an explicit object instead of a singleton. */
module Flags {

  /** The only flag the application defines: the worker keeps advancing the search while it is on. */
  const SHOW_SEARCH_RUNNING: bv32 := 1

  /** `flags_ |= flag`: every bit of `flag` is set, every other bit is kept. */
  function TurnedOn(flags: bv32, flag: bv32): (r: bv32)
    ensures r & flag == flag
    ensures r & !flag == flags & !flag
  {
    flags | flag
  }

  /** `flags_ &= ~flag`: every bit of `flag` is cleared, every other bit is kept. */
  function TurnedOff(flags: bv32, flag: bv32): (r: bv32)
    ensures r & flag == 0
    ensures r & !flag == flags & !flag
  {
    flags & !flag
  }

  /** Setting a flag twice is the same as setting it once, and likewise for clearing. */
  lemma TurnOnOffIdempotent(flags: bv32, flag: bv32)
    ensures TurnedOn(TurnedOn(flags, flag), flag) == TurnedOn(flags, flag)
    ensures TurnedOff(TurnedOff(flags, flag), flag) == TurnedOff(flags, flag)
  {
  }

  /** Clearing the running flag after setting it gives back a word where it was
      off, and setting it after clearing it gives back a word where it was on. */
  lemma ToggleRestores(flags: bv32)
    ensures flags & SHOW_SEARCH_RUNNING == 0 ==>
              TurnedOff(TurnedOn(flags, SHOW_SEARCH_RUNNING), SHOW_SEARCH_RUNNING) == flags
    ensures flags & SHOW_SEARCH_RUNNING != 0 ==>
              TurnedOn(TurnedOff(flags, SHOW_SEARCH_RUNNING), SHOW_SEARCH_RUNNING) == flags
  {
  }

  class Globals {
    var minRadius: real
    var flags: bv32

    /** The constructor starts with the minimum radius 4.0 and every flag off. */
    constructor ()
      ensures minRadius == 4.0 && flags == 0
    {
      minRadius := 4.0;
      flags := 0;
    }

    function GetMinTileRadius(): real
      reads this
    {
      minRadius
    }

    method SetMinTileRadius(radius: real)
      modifies this
      ensures GetMinTileRadius() == radius
      ensures flags == old(flags)
    {
      minRadius := radius;
    }

    /** The bits of `flag` that are on; callers test the result against zero. */
    function IsFlagOn(flag: bv32): bv32
      reads this
    {
      flags & flag
    }

    method TurnOn(flag: bv32)
      modifies this
      ensures flags == TurnedOn(old(flags), flag)
      ensures IsFlagOn(flag) == flag
      ensures minRadius == old(minRadius)
    {
      flags := flags | flag;
    }

    method TurnOff(flag: bv32)
      modifies this
      ensures flags == TurnedOff(old(flags), flag)
      ensures IsFlagOn(flag) == 0
      ensures minRadius == old(minRadius)
    {
      flags := flags & !flag;
    }
  }
}
