/**
 * The fixed configuration of the steering controller: hardware addressing
 * (output pins and analog input channels), the analog calibration constants,
 * the integral time step, and the literal limits used by the control step.
 * All of these are constants: nothing in the controller reassigns them.
 */
module SteeringConfig {

  newtype uint16 = x: int | 0 <= x < 0x1_0000
  newtype uint32 = x: int | 0 <= x < 0x1_0000_0000

  /** Output pin that receives the direction flag. */
  const GpioPinSteerRight: uint16 := 46
  /** Output pin that receives the PWM duty cycle. */
  const PwmPinSteer: uint16 := 40

  /** Sender stamps of the three analog channels. */
  const AnalogPinSteerCurrent: uint16 := 4
  const AnalogPinSteerPosition: uint16 := 0
  const AnalogPinSteerVoltage: uint16 := 6

  /** Calibration: a reading is divided by its channel's scale; the position
      channel also subtracts an offset. */
  const AnalogConvSteerCurrent: real := 1.0
  const AnalogConvSteerPosition: real := 82.362
  const AnalogConvSteerVoltage: real := 1.0
  const AnalogOffsetSteerPosition: real := 25.0

  /** Integral time step of the PI controller (seconds per tick). */
  const IConstTS: real := 0.03

  /** A steering request is accepted only strictly inside (-21, 21). */
  const SteeringRequestLimit: real := 21.0
  /** The integral term is used only while |(int) pControl| is below this. */
  const PSaturationThreshold: nat := 10000
  /** The integral term is clamped to [-IntegralCeiling, IntegralCeiling]. */
  const IntegralCeiling: real := 25000.0
  /** The duty cycle is clamped to [0, DutyCeiling]. */
  const DutyCeiling: uint32 := 50000

  /** Calibrated steering current for a raw reading. */
  function CalibrateCurrent(torque: real): (current: real)
    ensures current * AnalogConvSteerCurrent == torque
  {
    torque / AnalogConvSteerCurrent
  }

  /** Calibrated steering-column position for a raw reading. */
  function CalibratePosition(torque: real): (position: real)
    ensures (position + AnalogOffsetSteerPosition) * AnalogConvSteerPosition == torque
  {
    torque / AnalogConvSteerPosition - AnalogOffsetSteerPosition
  }

  /** Calibrated supply voltage for a raw reading. */
  function CalibrateVoltage(torque: real): (voltage: real)
    ensures voltage * AnalogConvSteerVoltage == torque
  {
    torque / AnalogConvSteerVoltage
  }

  /** The three analog channels have different sender stamps, and the two
      outputs go to different pins, so no reading or command is ambiguous. */
  lemma AddressesDistinct()
    ensures AnalogPinSteerCurrent != AnalogPinSteerPosition
    ensures AnalogPinSteerCurrent != AnalogPinSteerVoltage
    ensures AnalogPinSteerPosition != AnalogPinSteerVoltage
    ensures GpioPinSteerRight != PwmPinSteer
  {
  }

  /** Calibration is strictly increasing on every channel: a larger raw
      reading always means a larger calibrated value. */
  lemma CalibrationMonotonic(a: real, b: real)
    requires a < b
    ensures CalibrateCurrent(a) < CalibrateCurrent(b)
    ensures CalibratePosition(a) < CalibratePosition(b)
    ensures CalibrateVoltage(a) < CalibrateVoltage(b)
  {
  }
}
