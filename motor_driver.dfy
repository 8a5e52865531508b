/** The two-pin H-bridge motor driver. */
module Motor {
  import opened Types
  import opened Gpio

  /**
   * The levels (pin1, pin2) that drive the motor in `direction`:
   * retract is (high, low), extend is (low, high).
   */
  function DrivePattern(direction: Direction): (levels: (bool, bool))
    ensures levels.0 != levels.1
    ensures levels.0 <==> direction == Retract
  {
    match direction
    case Retract => (true, false)
    case Extend => (false, true)
  }

  class MotorDriver {
    const pin1: Pin
    const pin2: Pin
    var isMoving: bool

    /** The two pins are never high together. */
    ghost predicate Safe()
      reads pin1, pin2
    {
      !(pin1.level && pin2.level)
    }

    /** Safe, and one pin is high exactly while a move is in progress. */
    ghost predicate Valid()
      reads this, pin1, pin2
    {
      pin1 != pin2 && Safe() && (isMoving <==> pin1.level || pin2.level)
    }

    constructor ()
      ensures Valid() && fresh(pin1) && fresh(pin2)
      ensures !isMoving
      ensures !pin1.level && !pin2.level && !pin1.released && !pin2.released
    {
      pin1 := new Pin(false);
      pin2 := new Pin(false);
      isMoving := false;
    }

    method Move(direction: Direction) returns (outcome: Outcome)
      requires Valid()
      modifies this, pin1, pin2
      ensures Valid()
      ensures outcome == if old(isMoving) then Fail(AlreadyMoving) else Pass
      ensures old(isMoving) ==> unchanged(this, pin1, pin2)
      ensures !old(isMoving) ==>
        isMoving && (pin1.level, pin2.level) == DrivePattern(direction) &&
        pin1.writes == old(pin1.writes) + [DrivePattern(direction).0] &&
        pin2.writes == old(pin2.writes) + [DrivePattern(direction).1] &&
        pin1.released == old(pin1.released) && pin2.released == old(pin2.released)
    {
      if isMoving {
        return Fail(AlreadyMoving);
      }
      isMoving := true;
      if direction == Retract {
        pin1.High();
        pin2.Low();
      } else {
        pin1.Low();
        pin2.High();
      }
      outcome := Pass;
    }

    method Stop()
      requires Valid()
      modifies this, pin1, pin2
      ensures Valid() && !isMoving
      ensures !old(isMoving) ==> unchanged(this, pin1, pin2)
      ensures old(isMoving) ==>
        !pin1.level && !pin2.level &&
        pin1.writes == old(pin1.writes) + [false] &&
        pin2.writes == old(pin2.writes) + [false] &&
        pin1.released == old(pin1.released) && pin2.released == old(pin2.released)
    {
      if !isMoving {
        return;
      }
      pin1.Low();
      pin2.Low();
      isMoving := false;
    }

    method Cleanup()
      requires Valid()
      modifies this, pin1, pin2
      ensures Valid() && !isMoving
      ensures pin1.released && pin2.released && !pin1.level && !pin2.level
      ensures pin1.writes == old(pin1.writes) + (if old(isMoving) then [false, false] else [false])
      ensures pin2.writes == old(pin2.writes) + (if old(isMoving) then [false, false] else [false])
    {
      Stop();
      pin1.Release();
      pin2.Release();
    }
  }
}
