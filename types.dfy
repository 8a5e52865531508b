/** Value types shared by the motion and indicator components. */
module Types {

  /** Direction of travel of the actuator (and of the motor driver). */
  datatype Direction = Extend | Retract

  /** On/off state of the indicator LED. */
  datatype LedState = On | Off

  /** The failed assertions and thrown errors of the components. */
  datatype Error =
    | InvalidDuration   // moveActuator: duration outside [0, MAX_MOVEMENT_DURATION]
    | InvalidDistance   // moveActuatorByDistance: distance outside [0, MAX_MOVEMENT_DISTANCE]
    | InvalidPosition   // setPositionAsync: target outside [0, strokeLength]
    | MinAboveMax       // inBounds: 'min' must be less than or equal 'max'
    | AlreadyMoving     // MotorDriver.move: motor is already moving

  /** Outcome of an operation that returns nothing but may fail. */
  datatype Outcome = Pass | Fail(error: Error)

  /** Outcome of an operation that returns a value but may fail. */
  datatype Result<T> = Ok(value: T) | Err(error: Error)
}
