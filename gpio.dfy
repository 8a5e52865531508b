/**
 * An abstract digital output pin. The hardware library behind it is not part
 * of this model: a pin is its current level, whether it has been released,
 * and a ghost log of every level written to it.
 */
module Gpio {

  class Pin {
    /** true is high, false is low */
    var level: bool
    var released: bool
    /** every level written, oldest first */
    ghost var writes: seq<bool>

    constructor (initial: bool)
      ensures level == initial && !released && writes == []
    {
      level, released, writes := initial, false, [];
    }

    method High()
      modifies this
      ensures level && released == old(released)
      ensures writes == old(writes) + [true]
    {
      level := true;
      writes := writes + [true];
    }

    method Low()
      modifies this
      ensures !level && released == old(released)
      ensures writes == old(writes) + [false]
    {
      level := false;
      writes := writes + [false];
    }

    /** Drives the pin low, then gives it back to the system. */
    method Release()
      modifies this
      ensures !level && released
      ensures writes == old(writes) + [false]
    {
      Low();
      released := true;
    }
  }
}
