/** The active-low indicator LED: the pin is low while the LED is on. */
module Indicator {
  import opened Types
  import opened Gpio

  /** The pin level that shows `state` on an active-low output. */
  function LevelFor(state: LedState): (high: bool)
    ensures high <==> state == Off
  {
    state == Off
  }

  class Led {
    const mosfet: Pin
    const hasStateCallback: bool
    var currentState: LedState
    /** the states passed to the change callback, oldest first */
    ghost var notified: seq<LedState>

    /** While the pin is held, it is low exactly when the state is on. */
    ghost predicate Valid()
      reads this, mosfet
    {
      !mosfet.released ==> mosfet.level == LevelFor(currentState)
    }

    /** What a state change passes to the callback, if there is one. */
    ghost function Notice(state: LedState): seq<LedState>
    {
      if hasStateCallback then [state] else []
    }

    constructor (initialState: LedState, hasStateCallback: bool)
      ensures Valid() && fresh(mosfet)
      ensures currentState == initialState && this.hasStateCallback == hasStateCallback
      ensures !mosfet.released && mosfet.level == LevelFor(initialState) && mosfet.writes == []
      ensures notified == []
    {
      mosfet := new Pin(LevelFor(initialState));
      this.hasStateCallback := hasStateCallback;
      currentState := initialState;
      notified := [];
    }

    /** A change of state to `state`: one pin write and one notice. */
    twostate predicate Switched(state: LedState)
      reads this, mosfet
    {
      currentState == state &&
      mosfet.level == LevelFor(state) && mosfet.released == old(mosfet.released) &&
      mosfet.writes == old(mosfet.writes) + [LevelFor(state)] &&
      notified == old(notified) + Notice(state)
    }

    method On()
      requires Valid()
      modifies this, mosfet
      ensures Valid()
      ensures old(currentState) == LedState.On ==> unchanged(this, mosfet)
      ensures old(currentState) == LedState.Off ==> Switched(LedState.On)
    {
      if currentState == LedState.On {
        return;
      }
      mosfet.Low();
      currentState := LedState.On;
      if hasStateCallback {
        notified := notified + [LedState.On];
      }
    }

    method Off()
      requires Valid()
      modifies this, mosfet
      ensures Valid()
      ensures old(currentState) == LedState.Off ==> unchanged(this, mosfet)
      ensures old(currentState) == LedState.On ==> Switched(LedState.Off)
    {
      if currentState == LedState.Off {
        return;
      }
      mosfet.High();
      currentState := LedState.Off;
      if hasStateCallback {
        notified := notified + [LedState.Off];
      }
    }

    method Toggle()
      requires Valid()
      modifies this, mosfet
      ensures Valid()
      ensures currentState != old(currentState)
      ensures Switched(currentState)
    {
      if currentState == LedState.On {
        Off();
      } else {
        On();
      }
    }

    method SetState(state: LedState)
      requires Valid()
      modifies this, mosfet
      ensures Valid() && currentState == state
      ensures old(currentState) == state ==> unchanged(this, mosfet)
      ensures old(currentState) != state ==> Switched(state)
    {
      if state == LedState.On {
        On();
      } else {
        Off();
      }
    }

    /** The state; while the pin is held, the pin level shows it. */
    function GetState(): (state: LedState)
      reads this, mosfet
      requires Valid()
      ensures state == currentState
      ensures !mosfet.released ==> (state == LedState.On <==> !mosfet.level)
    {
      currentState
    }

    method Calibrate()
      requires Valid()
      modifies this, mosfet
      ensures Valid() && currentState == LedState.Off
      ensures old(currentState) == LedState.Off ==> unchanged(this, mosfet)
      ensures old(currentState) == LedState.On ==> Switched(LedState.Off)
    {
      Off();
    }

    /** Releases the pin and keeps the state. */
    method Cleanup()
      requires Valid()
      modifies mosfet
      ensures Valid()
      ensures mosfet.released && !mosfet.level && mosfet.writes == old(mosfet.writes) + [false]
    {
      mosfet.Release();
    }
  }
}
