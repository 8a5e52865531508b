/**
 * The open-loop linear actuator: a relay picks the polarity, a MOSFET switches
 * the power, and the position (in mm) is estimated from the commanded
 * duration and the nominal speed, with no sensor.
 */
module Actuator {
  import opened Types
  import opened Utils
  import opened Gpio

  /** Overtravel allowed past the stroke, as a factor of it (exactly 11/10). */
  const Factor: real := 1.1

  /** The least integer not below `x`. */
  function Ceil(x: real): (c: int)
    ensures x <= c as real < x + 1.0
  {
    if x.Floor as real == x then x.Floor else x.Floor + 1
  }

  /** Distance bound fixed at construction: the stroke with overtravel. */
  function MaxDistance(strokeLength: real): (d: real)
    requires strokeLength > 0.0
    ensures strokeLength < d
  {
    strokeLength * Factor
  }

  /**
   * Milliseconds needed to cover `distance` mm at `speed` mm/s, rounded up:
   * the least whole number of ms whose travel reaches the distance.
   */
  function ToDurationMs(distance: real, speed: real): (ms: int)
    requires speed > 0.0
    ensures distance * 1000.0 <= ms as real * speed < distance * 1000.0 + speed
  {
    CeilScaled(distance * 1000.0, speed);
    Ceil(distance * 1000.0 / speed)
  }

  /** Duration bound fixed at construction. */
  function MaxDuration(strokeLength: real, speed: real): (ms: int)
    requires strokeLength > 0.0 && speed > 0.0
    ensures 1000.0 * strokeLength < ms as real * speed
  {
    ToDurationMs(MaxDistance(strokeLength), speed)
  }

  // ScaleLe, ScaleLt, OnePlus, DivMul, DivMonotone and CeilMonotone are small
  // arithmetic facts, stated separately to steer the solver's nonlinear
  // reasoning in the proofs below.

  lemma ScaleLe(a: real, b: real, k: real)
    requires a <= b && k > 0.0
    ensures a * k <= b * k
  {
  }

  lemma ScaleLt(a: real, b: real, k: real)
    requires a < b && k > 0.0
    ensures a * k < b * k
  {
  }

  lemma OnePlus(a: real, k: real)
    ensures (a + 1.0) * k == a * k + k
  {
  }

  lemma DivMul(x: real, k: real)
    requires k > 0.0
    ensures (x / k) * k == x
  {
  }

  /** Rounding `x / k` up, then scaling back by `k`, overshoots `x` by less than `k`. */
  lemma CeilScaled(x: real, k: real)
    requires k > 0.0
    ensures x <= Ceil(x / k) as real * k < x + k
  {
    var q := x / k;
    var c := Ceil(q) as real;
    ScaleLe(q, c, k);
    ScaleLt(c, q + 1.0, k);
    OnePlus(q, k);
    DivMul(x, k);
    assert q * k == x;
    assert c * k < x + k;
  }

  lemma DivMonotone(a: real, b: real, k: real)
    requires a <= b && k > 0.0
    ensures a / k <= b / k
  {
  }

  lemma CeilMonotone(x: real, y: real)
    requires x <= y
    ensures Ceil(x) <= Ceil(y)
  {
  }

  /** A longer distance never needs a shorter duration. */
  lemma DurationMonotone(d1: real, d2: real, speed: real)
    requires speed > 0.0 && d1 <= d2
    ensures ToDurationMs(d1, speed) <= ToDurationMs(d2, speed)
  {
    DivMonotone(d1 * 1000.0, d2 * 1000.0, speed);
    CeilMonotone(d1 * 1000.0 / speed, d2 * 1000.0 / speed);
  }

  /**
   * Every distance moveActuatorByDistance accepts converts to a duration that
   * moveActuator accepts.
   */
  lemma AcceptedDistanceFitsDuration(distance: real, speed: real, strokeLength: real)
    requires speed > 0.0 && strokeLength > 0.0
    requires 0.0 <= distance <= MaxDistance(strokeLength)
    ensures 0 <= ToDurationMs(distance, speed) <= MaxDuration(strokeLength, speed)
    ensures distance > 0.0 ==> ToDurationMs(distance, speed) > 0
  {
    DurationMonotone(distance, MaxDistance(strokeLength), speed);
    var ms := ToDurationMs(distance, speed);
    assert 0.0 <= distance * 1000.0 <= ms as real * speed;
    if ms < 0 {
      ScaleLe(ms as real, -1.0, speed);
      assert false;
    }
    if distance > 0.0 && ms == 0 {
      assert false;
    }
  }

  /** The unclamped position after travelling `distance` from `position`. */
  function Displace(position: real, direction: Direction, distance: real): real
  {
    match direction
    case Extend => position + distance
    case Retract => position - distance
  }

  /**
   * The position estimate after a move of `durationMs` ms: the travel is
   * `durationMs * speed` (with no conversion from ms to s), then clamped to
   * the stroke.
   */
  function Moved(position: real, direction: Direction, durationMs: real, speed: real, strokeLength: real): (p: real)
    requires strokeLength > 0.0
    ensures 0.0 <= p <= strokeLength
  {
    InBounds(Displace(position, direction, durationMs * speed), 0.0, strokeLength).value
  }

  /**
   * From an in-bounds start, extending never lowers and retracting never
   * raises the estimate, and a move that stays within the stroke travels
   * exactly `durationMs * speed`.
   */
  lemma MovedIsMonotone(position: real, direction: Direction, durationMs: real, speed: real, strokeLength: real)
    requires strokeLength > 0.0 && speed > 0.0 && durationMs >= 0.0
    requires 0.0 <= position <= strokeLength
    ensures direction == Extend ==> position <= Moved(position, direction, durationMs, speed, strokeLength)
    ensures direction == Retract ==> Moved(position, direction, durationMs, speed, strokeLength) <= position
    ensures 0.0 <= Displace(position, direction, durationMs * speed) <= strokeLength ==>
      Moved(position, direction, durationMs, speed, strokeLength) == Displace(position, direction, durationMs * speed)
  {
    ScaleLe(0.0, durationMs, speed);
  }

  /** Travel of a move by `distance`: at least 1000 times that distance. */
  lemma TravelCoversDistance(distance: real, speed: real)
    requires speed > 0.0 && distance >= 0.0
    ensures distance * 1000.0 <= ToDurationMs(distance, speed) as real * speed
    ensures distance <= ToDurationMs(distance, speed) as real * speed
  {
  }

  /** fullyExtend from an in-bounds position short of the end lands on the stroke. */
  lemma FullyExtendReachesStroke(position: real, speed: real, strokeLength: real)
    requires speed > 0.0 && strokeLength > 0.0 && 0.0 <= position < strokeLength
    ensures Moved(position, Extend, ToDurationMs((strokeLength - position) * Factor, speed) as real, speed, strokeLength)
            == strokeLength
  {
    var d := (strokeLength - position) * Factor;
    TravelCoversDistance(d, speed);
  }

  /** fullyRetract from an in-bounds position above zero lands on zero. */
  lemma FullyRetractReachesZero(position: real, speed: real, strokeLength: real)
    requires speed > 0.0 && strokeLength > 0.0 && 0.0 < position <= strokeLength
    ensures Moved(position, Retract, ToDurationMs(position * Factor, speed) as real, speed, strokeLength) == 0.0
  {
    TravelCoversDistance(position * Factor, speed);
  }

  /**
   * calibrate lands on zero from any estimate up to 1000 times the distance
   * bound, including negative ones.
   */
  lemma CalibrateReachesZero(position: real, speed: real, strokeLength: real)
    requires speed > 0.0 && strokeLength > 0.0
    requires position <= 1000.0 * MaxDistance(strokeLength)
    ensures Moved(position, Retract, MaxDuration(strokeLength, speed) as real, speed, strokeLength) == 0.0
  {
  }

  /** The direction setPositionAsync picks, from the sign of the difference. */
  function DirectionTo(position: real, target: real): (direction: Direction)
    ensures direction == Extend <==> target > position
  {
    if target - position > 0.0 then Extend else Retract
  }

  /**
   * setPositionAsync between in-bounds positions never falls short of its
   * target: it ends at or past the target in the direction of travel.
   */
  lemma SetPositionNeverFallsShort(position: real, target: real, speed: real, strokeLength: real)
    requires speed > 0.0 && strokeLength > 0.0
    requires 0.0 <= position <= strokeLength && 0.0 <= target <= strokeLength && target != position
    ensures var p := Moved(position, DirectionTo(position, target),
                           ToDurationMs(Abs(target - position), speed) as real, speed, strokeLength);
            (target > position ==> target <= p) && (target < position ==> p <= target)
  {
    TravelCoversDistance(Abs(target - position), speed);
  }

  /**
   * With a 150 mm stroke at 5 mm/s, setPositionAsync(100) from 0 asks for
   * 20000 ms and ends on the stroke end, 150, not on 100.
   */
  lemma SetPositionOvershootExample()
    ensures ToDurationMs(100.0, 5.0) == 20000
    ensures Moved(0.0, DirectionTo(0.0, 100.0), ToDurationMs(100.0, 5.0) as real, 5.0, 150.0) == 150.0
  {
  }

  /** The power switch state of the MOSFET. */
  datatype CurrentFlowMode = PowerOn | PowerOff

  /** The two outputs of the actuator, as named in its pin-write trace. */
  datatype PinRole = Relay | Mosfet

  class LinearActuator {
    const speed: real          // mm per second
    const strokeLength: real   // mm
    const hasPositionCallback: bool
    const maxMovementDistance: real
    const maxMovementDuration: int
    const relay: Pin
    const mosfet: Pin
    var currentPosition: real  // mm
    /** the positions passed to the change callback, oldest first */
    ghost var notified: seq<real>
    /** every level written to the relay or the MOSFET, in order (true is high) */
    ghost var trace: seq<(PinRole, bool)>

    ghost predicate Valid()
    {
      speed > 0.0 && strokeLength > 0.0 && relay != mosfet &&
      maxMovementDistance == MaxDistance(strokeLength) &&
      maxMovementDuration == MaxDuration(strokeLength, speed)
    }

    /** What a position change passes to the callback, if there is one. */
    ghost function Notice(position: real): seq<real>
    {
      if hasPositionCallback then [position] else []
    }

    /** The initial position is taken as given, unchecked. */
    constructor (speed: real, strokeLength: real, initialPosition: real, hasPositionCallback: bool)
      requires speed > 0.0 && strokeLength > 0.0
      ensures Valid() && fresh(relay) && fresh(mosfet)
      ensures this.speed == speed && this.strokeLength == strokeLength
      ensures this.hasPositionCallback == hasPositionCallback
      ensures currentPosition == initialPosition && notified == [] && trace == []
      ensures !relay.level && !relay.released && relay.writes == []
      ensures !mosfet.level && !mosfet.released && mosfet.writes == []
    {
      this.speed := speed;
      this.strokeLength := strokeLength;
      this.hasPositionCallback := hasPositionCallback;
      currentPosition := initialPosition;
      notified := [];
      trace := [];
      relay := new Pin(false);
      mosfet := new Pin(false);
      maxMovementDistance := MaxDistance(strokeLength);
      maxMovementDuration := MaxDuration(strokeLength, speed);
    }

    /** The current estimate, read without side effects. */
    function GetPosition(): (position: real)
      reads this
      ensures position == currentPosition
    {
      currentPosition
    }

    /** Nothing observable changed: position, notices and both pins. */
    twostate predicate Untouched()
      reads this, relay, mosfet
    {
      unchanged(this, relay, mosfet)
    }

    /**
     * A completed move: the relay was set for the direction (low to extend,
     * high to retract) while the MOSFET was switched on, then the MOSFET and
     * the relay were both driven low, and the estimate moved and was reported.
     */
    twostate predicate CompletedMove(direction: Direction, durationMs: real)
      reads this, relay, mosfet
    {
      strokeLength > 0.0 &&
      currentPosition == Moved(old(currentPosition), direction, durationMs, speed, strokeLength) &&
      notified == old(notified) + Notice(currentPosition) &&
      trace == old(trace) + [(Relay, direction == Retract), (Mosfet, true), (Mosfet, false), (Relay, false)] &&
      relay.writes == old(relay.writes) + [direction == Retract, false] &&
      mosfet.writes == old(mosfet.writes) + [true, false] &&
      !relay.level && !mosfet.level &&
      relay.released == old(relay.released) && mosfet.released == old(mosfet.released)
    }

    method SetMovementDirection(direction: Direction)
      requires Valid()
      modifies this, relay
      ensures currentPosition == old(currentPosition) && notified == old(notified)
      ensures trace == old(trace) + [(Relay, direction == Retract)]
      ensures relay.level == (direction == Retract) && relay.released == old(relay.released)
      ensures relay.writes == old(relay.writes) + [direction == Retract]
    {
      if direction == Extend {
        relay.Low();    // normal polarity
      } else {
        relay.High();   // reversed polarity
      }
      trace := trace + [(Relay, direction == Retract)];
    }

    method SetCurrentFlow(mode: CurrentFlowMode)
      requires Valid()
      modifies this, mosfet
      ensures currentPosition == old(currentPosition) && notified == old(notified)
      ensures trace == old(trace) + [(Mosfet, mode == PowerOn)]
      ensures mosfet.level == (mode == PowerOn) && mosfet.released == old(mosfet.released)
      ensures mosfet.writes == old(mosfet.writes) + [mode == PowerOn]
    {
      if mode == PowerOn {
        mosfet.High();
      } else {
        mosfet.Low();
      }
      trace := trace + [(Mosfet, mode == PowerOn)];
    }

    /** Clamps `position` into the stroke, stores it and reports it. */
    method SetPositionValue(position: real)
      requires Valid()
      modifies this
      ensures Valid()
      ensures currentPosition == InBounds(position, 0.0, strokeLength).value
      ensures notified == old(notified) + Notice(currentPosition) && trace == old(trace)
    {
      var clamped := InBounds(position, 0.0, strokeLength);
      currentPosition := clamped.value;
      if hasPositionCallback {
        notified := notified + [currentPosition];
      }
    }

    /** Cuts the power, then puts the relay back to normal polarity. */
    method Stop()
      requires Valid()
      modifies this, relay, mosfet
      ensures currentPosition == old(currentPosition) && notified == old(notified)
      ensures trace == old(trace) + [(Mosfet, false), (Relay, false)]
      ensures !relay.level && !mosfet.level
      ensures relay.released == old(relay.released) && mosfet.released == old(mosfet.released)
      ensures relay.writes == old(relay.writes) + [false]
      ensures mosfet.writes == old(mosfet.writes) + [false]
    {
      SetCurrentFlow(PowerOff);
      RelayLow();
    }

    /** Puts the relay back to normal polarity. */
    method RelayLow()
      requires Valid()
      modifies this, relay
      ensures currentPosition == old(currentPosition) && notified == old(notified)
      ensures trace == old(trace) + [(Relay, false)]
      ensures !relay.level && relay.released == old(relay.released)
      ensures relay.writes == old(relay.writes) + [false]
    {
      relay.Low();
      trace := trace + [(Relay, false)];
    }

    /** Flushes the relay: drives it low, then releases it. */
    method ReleaseRelay()
      requires Valid()
      modifies this, relay
      ensures currentPosition == old(currentPosition) && notified == old(notified)
      ensures trace == old(trace) + [(Relay, false)]
      ensures !relay.level && relay.released
      ensures relay.writes == old(relay.writes) + [false]
    {
      relay.Release();
      trace := trace + [(Relay, false)];
    }

    /** Flushes the MOSFET: drives it low, then releases it. */
    method ReleaseMosfet()
      requires Valid()
      modifies this, mosfet
      ensures currentPosition == old(currentPosition) && notified == old(notified)
      ensures trace == old(trace) + [(Mosfet, false)]
      ensures !mosfet.level && mosfet.released
      ensures mosfet.writes == old(mosfet.writes) + [false]
    {
      mosfet.Release();
      trace := trace + [(Mosfet, false)];
    }

    method MoveActuator(direction: Direction, durationMs: real) returns (outcome: Outcome)
      requires Valid()
      modifies this, relay, mosfet
      ensures Valid()
      ensures outcome == if 0.0 <= durationMs <= maxMovementDuration as real then Pass else Fail(InvalidDuration)
      ensures outcome.Fail? || durationMs == 0.0 ==> Untouched()
      ensures outcome.Pass? && durationMs != 0.0 ==> CompletedMove(direction, durationMs)
    {
      if !(0.0 <= durationMs <= maxMovementDuration as real) {
        return Fail(InvalidDuration);
      }
      if durationMs == 0.0 {
        return Pass;
      }
      SetMovementDirection(direction);
      SetCurrentFlow(PowerOn);
      // The motor runs for durationMs here; elapsed time is not modelled.
      Stop();
      var distance := durationMs * speed;
      var newPosition := currentPosition;
      if direction == Extend {
        newPosition := newPosition + distance;
      } else {
        newPosition := newPosition - distance;
      }
      SetPositionValue(newPosition);
      outcome := Pass;
    }

    method MoveActuatorByDistance(direction: Direction, distance: real) returns (outcome: Outcome)
      requires Valid()
      modifies this, relay, mosfet
      ensures Valid()
      ensures outcome == if 0.0 <= distance <= maxMovementDistance then Pass else Fail(InvalidDistance)
      ensures outcome.Fail? || distance == 0.0 ==> Untouched()
      ensures outcome.Pass? && distance != 0.0 ==>
        CompletedMove(direction, ToDurationMs(distance, speed) as real)
    {
      if !(0.0 <= distance <= maxMovementDistance) {
        return Fail(InvalidDistance);
      }
      if distance == 0.0 {
        return Pass;
      }
      var duration := ToDurationMs(distance, speed);
      AcceptedDistanceFitsDuration(distance, speed, strokeLength);
      outcome := MoveActuator(direction, duration as real);
    }

    method FullyExtend() returns (outcome: Outcome)
      requires Valid()
      modifies this, relay, mosfet
      ensures Valid()
      ensures outcome == if 0.0 <= old(currentPosition) <= strokeLength then Pass else Fail(InvalidDistance)
      ensures outcome.Pass? ==> currentPosition == strokeLength
      ensures outcome.Fail? || old(currentPosition) == strokeLength ==> Untouched()
      ensures outcome.Pass? && old(currentPosition) != strokeLength ==>
        CompletedMove(Extend, ToDurationMs((strokeLength - old(currentPosition)) * Factor, speed) as real)
    {
      var distance := (strokeLength - currentPosition) * Factor;
      if 0.0 <= currentPosition < strokeLength {
        FullyExtendReachesStroke(currentPosition, speed, strokeLength);
      }
      outcome := MoveActuatorByDistance(Extend, distance);
    }

    method FullyRetract() returns (outcome: Outcome)
      requires Valid()
      modifies this, relay, mosfet
      ensures Valid()
      ensures outcome == if 0.0 <= old(currentPosition) <= strokeLength then Pass else Fail(InvalidDistance)
      ensures outcome.Pass? ==> currentPosition == 0.0
      ensures outcome.Fail? || old(currentPosition) == 0.0 ==> Untouched()
      ensures outcome.Pass? && old(currentPosition) != 0.0 ==>
        CompletedMove(Retract, ToDurationMs(old(currentPosition) * Factor, speed) as real)
    {
      var distance := currentPosition * Factor;
      if 0.0 < currentPosition <= strokeLength {
        FullyRetractReachesZero(currentPosition, speed, strokeLength);
      }
      outcome := MoveActuatorByDistance(Retract, distance);
    }

    method SetPositionAsync(position: real) returns (outcome: Outcome)
      requires Valid()
      modifies this, relay, mosfet
      ensures Valid()
      ensures !(0.0 <= position <= strokeLength) ==> outcome == Fail(InvalidPosition) && Untouched()
      ensures 0.0 <= position <= strokeLength && position == old(currentPosition) ==>
        outcome == Pass && Untouched()
      ensures 0.0 <= position <= strokeLength && position != old(currentPosition) ==>
        var distance := Abs(position - old(currentPosition));
        && outcome == (if distance <= maxMovementDistance then Pass else Fail(InvalidDistance))
        && (outcome.Fail? ==> Untouched())
        && (outcome.Pass? ==> CompletedMove(DirectionTo(old(currentPosition), position),
                                            ToDurationMs(distance, speed) as real))
      ensures 0.0 <= position <= strokeLength && position > old(currentPosition) && outcome.Pass? ==>
        CompletedMove(Extend, ToDurationMs(position - old(currentPosition), speed) as real)
      ensures 0.0 <= position <= strokeLength && position < old(currentPosition) && outcome.Pass? ==>
        CompletedMove(Retract, ToDurationMs(old(currentPosition) - position, speed) as real)
      ensures 0.0 <= old(currentPosition) <= strokeLength && 0.0 <= position <= strokeLength ==>
        && outcome == Pass
        && (position > old(currentPosition) ==> position <= currentPosition)
        && (position < old(currentPosition) ==> currentPosition <= position)
    {
      if !(0.0 <= position <= strokeLength) {
        return Fail(InvalidPosition);
      }
      if position == GetPosition() {
        return Pass;
      }
      var distance := position - GetPosition();
      if 0.0 <= currentPosition <= strokeLength {
        SetPositionNeverFallsShort(currentPosition, position, speed, strokeLength);
      }
      if distance > 0.0 {
        outcome := MoveActuatorByDistance(Extend, distance);
      } else {
        outcome := MoveActuatorByDistance(Retract, -distance);
      }
    }

    /** Retracts by the whole distance bound; the clamp brings the estimate to 0. */
    method Calibrate() returns (outcome: Outcome)
      requires Valid()
      modifies this, relay, mosfet
      ensures Valid() && outcome == Pass
      ensures CompletedMove(Retract, maxMovementDuration as real)
      ensures old(currentPosition) <= 1000.0 * maxMovementDistance ==> currentPosition == 0.0
    {
      if currentPosition <= 1000.0 * maxMovementDistance {
        CalibrateReachesZero(currentPosition, speed, strokeLength);
      }
      outcome := MoveActuatorByDistance(Retract, maxMovementDistance);
    }

    /** Releases both pins; the estimate is kept. */
    method Cleanup()
      requires Valid()
      modifies this, relay, mosfet
      ensures currentPosition == old(currentPosition) && notified == old(notified)
      ensures trace == old(trace) + [(Relay, false), (Mosfet, false)]
      ensures relay.released && mosfet.released && !relay.level && !mosfet.level
      ensures relay.writes == old(relay.writes) + [false]
      ensures mosfet.writes == old(mosfet.writes) + [false]
    {
      ReleaseRelay();
      ReleaseMosfet();
    }
  }
}
