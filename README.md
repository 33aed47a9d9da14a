# Steering actuator controller — a Dafny model

This project models the `Steering` class of the lynx steering micro-service: a
controller that ingests a steering setpoint (`GroundSteeringRequest`) and
analog sensor readings (`VoltageReading`), and on every 30 ms tick runs a
proportional-integral step. The step turns the error between setpoint and
measured steering-column position into an actuator command: a direction flag
(GPIO pin 46) and a PWM duty cycle (pin 40).

Files:

- `cmath.dfy` (module `CMath`) holds the C numeric conversions the controller
  relies on, over mathematical reals and integers. `(int)` truncates toward
  zero, `round` rounds half away from zero, and `abs` is integer `abs`.
- `steering_config.dfy` (module `SteeringConfig`) holds the constants of
  `src/logic-steering.hpp`. These are the pins, the analog channel stamps
  4/0/6, the calibration scales 1, 82.362 and 1 with position offset 25, and
  the integral time step 0.03. It also holds the literal limits of the control
  step (±21, 10000, ±25000, 50000) and the three calibration formulas.
- `logic_steering.dfy` (module `LogicSteering`) is the controller itself:
  - the message, command and state datatypes;
  - the pure step functions `Receive` (ingestion) and `TickState` (one PI
    tick), and `Run` over any interleaving of messages and ticks;
  - the class `Steering`, whose methods update its fields in place and are
    proved to follow those functions;
  - the lemmas about them.

Each `Steering` method's `ensures` says that the object's new `Snapshot()`
equals the step function applied to the old one. The lemmas about the step
functions therefore hold for the object. The object invariant `Valid()` says
three things about every reachable state: the setpoint passed the range gate,
the accumulator is within ±25000 and the duty is within [0, 50000].
`ReachableBounded` shows that this invariant survives any sequence of messages
and ticks.

Two points where the code is more specific than the textbook PI step
(`|pControl| < 10000`, `round(|controlSignal|)`):

- The anti-windup gate compares `|(int) pControl|` with 10000, not `|pControl|`.
  `CMath.TruncAbsBelowIff` shows that the two agree on every real value:
  truncation cannot carry a value across an integer threshold. So the gate is
  open exactly when `-10000 < pControl < 10000`.
- The duty is computed as `abs(round(controlSignal))`. `ShapeDutyRoundsMagnitude`
  shows that this equals `round(|controlSignal|)`, because rounding half away
  from zero is symmetric.

The stored accumulator is written before the deadband override. A tick inside
the deadband therefore still updates the accumulator, and `DeadbandOnlySilencesDuty`
states this behaviour as the code has it.

Several functions only name a sub-expression of the code, and the rows of the
members that use them state their properties:
- `Admissible` is the range test of src/logic-steering.cpp:68 (see `Receive`).
- `SteerError`, `Proportional`, `PControl`, `IntegralCandidate` and
  `ControlSignal` are the expressions of src/logic-steering.cpp:96, 97, 101 and
  112 (see `IControl`, `IntegralAccumulates`, `Duty` and `TickState`).
- `InDeadband` is the test of src/logic-steering.cpp:122 (see `Duty`).
- `CMath.Abs` is C's integer `abs` at src/logic-steering.cpp:100 and 114, and
  `CMath.Min` is the saturation at src/logic-steering.cpp:116-118 (see
  `IntegralGateOpen` and `ShapeDuty`).
- `Step` is one callback invocation: a message delivered to `callOnReceive`, or
  a call to `body`. `Run` is a sequence of such invocations. `RunAppend` and
  the `Bounded` lemmas state their properties.

## Model

| member | source | states |
|---|---|---|
| `CMath.Trunc` | src/logic-steering.cpp:100 | The `(int)` cast drops the fractional part toward zero: the result lies within 1 of the input, on the zero side. |
| `CMath.Round` | src/logic-steering.cpp:114 | `round` gives an integer within 1/2 of the input, with the same sign; a halfway value goes away from zero. |
| `CMath.TruncAbsBelowIff` | src/logic-steering.cpp:100 | `abs((int) x) < k` holds exactly when `-k < x < k`, for every real `x` and natural `k`. |
| `CMath.RoundOdd` | src/logic-steering.cpp:114 | `round(-x) == -round(x)`. |
| `SteeringConfig.CalibrateCurrent` | src/logic-steering.cpp:76 | The current reading divides the raw torque by scale 1; multiplying back by the scale recovers the raw value. |
| `SteeringConfig.CalibratePosition` | src/logic-steering.cpp:80 | The position is `torque/82.362 - 25`; adding the offset and multiplying by the scale recovers the raw value. |
| `SteeringConfig.CalibrateVoltage` | src/logic-steering.cpp:84 | The voltage reading divides the raw torque by scale 1; multiplying back by the scale recovers the raw value. |
| `SteeringConfig.AddressesDistinct` | src/logic-steering.hpp:64-69 | The channel stamps 4, 0 and 6 are pairwise distinct, and the output pins 46 and 40 differ. |
| `SteeringConfig.CalibrationMonotonic` | src/logic-steering.hpp:70-73 | On every channel a larger raw reading gives a larger calibrated value. |
| `LogicSteering.Receive` | src/logic-steering.cpp:62-91 | Before setUp nothing changes. A steering request replaces the setpoint only when `-21 < v < 21`, else the setpoint is kept. A reading with stamp 4, 0 or 6 sets exactly current, position or voltage through its calibration. Any other stamp or message changes nothing. Duty, direction and accumulator are never touched. |
| `LogicSteering.ReadingsCommute` | src/logic-steering.cpp:71-85 | Two analog readings with different sender stamps give the same state in either arrival order. |
| `LogicSteering.ReceiveTouchesOneField` | src/logic-steering.cpp:62-91 | One message changes at most one of the setpoint, current, position and voltage. |
| `LogicSteering.ReceiveIdempotent` | src/logic-steering.cpp:62-91 | Delivering the same message twice leaves the same state as delivering it once. |
| `LogicSteering.IntegralGateOpen` | src/logic-steering.cpp:100 | The gate `abs((int) pControl) < 10000` is open exactly when `-10000 < pControl < 10000`. |
| `LogicSteering.ClampIntegral` | src/logic-steering.cpp:104-108 | The result is within ±25000. It equals the input inside that range and the nearer bound outside it. |
| `LogicSteering.IControl` | src/logic-steering.cpp:98-110 | The integral term, which is also the new accumulator, is within ±25000. It is exactly 0 when the gate is closed. |
| `LogicSteering.IntegralAccumulates` | src/logic-steering.cpp:100-110 | While the gate is open, the new accumulator is `old + pControl·0.03/iconst` when that lies within ±25000. Above 25000 it is 25000, and below -25000 it is -25000. |
| `LogicSteering.ShapeDuty` | src/logic-steering.cpp:114-118 | The shaped duty is at most 50000. Below the ceiling it is within 1/2 of the control signal's magnitude; at or above it, it is 50000. |
| `LogicSteering.ShapeDutyRoundsMagnitude` | src/logic-steering.cpp:114-118 | The shaped duty equals `min(round(abs(controlSignal)), 50000)`. |
| `LogicSteering.Duty` | src/logic-steering.cpp:114-125 | The commanded duty is in [0, 50000]. It is 0 whenever `-tolerance < error < tolerance`, and the shaped control signal otherwise. |
| `LogicSteering.TickState` | src/logic-steering.cpp:93-125 | A tick leaves the setpoint, the three measurements and the initialised flag unchanged. It stores the integral term as the accumulator, the deadband-gated duty and the direction "control signal negative". Afterwards the accumulator is within ±25000 and the duty within [0, 50000]. |
| `LogicSteering.TickCommands` | src/logic-steering.cpp:141-152 | A tick emits two commands: first the direction flag `steerRight` to pin 46, then the stored duty to pin 40. |
| `LogicSteering.RunAppend` | src/logic-steering.cpp:62-125 | Running two event sequences one after the other is the same as running their concatenation. |
| `LogicSteering.StepPreservesBounded` | src/logic-steering.cpp:62-125 | One message or one tick keeps the setpoint admissible, the accumulator within ±25000 and the duty within [0, 50000]. |
| `LogicSteering.RunPreservesBounded` | src/logic-steering.cpp:62-125 | The same holds after any sequence of messages and ticks, by induction on the sequence. |
| `LogicSteering.ReachableBounded` | src/logic-steering.cpp:37-55 | Every state reachable from construction through any interleaving of messages and ticks satisfies those bounds. |
| `LogicSteering.AntiWindupReset` | src/logic-steering.cpp:98-110 | When `abs(pControl) >= 10000`, the integral term and the stored accumulator are 0. The whole tick is then the same whatever the previous accumulator was. |
| `LogicSteering.DeadbandOnlySilencesDuty` | src/logic-steering.cpp:110-125 | The direction is true exactly when the pre-deadband control signal is negative. The tick agrees with a controller without deadband in everything but the duty, so the deadband changes neither the direction nor the stored accumulator. |
| `LogicSteering.ScenarioInsideDeadband` | src/logic-steering.cpp:122-125 | With pconst 5000, iconst 0.5 and tolerance 0.1, setpoint 10 and position 10.05 give duty 0, whatever the accumulator held. |
| `LogicSteering.ScenarioSaturated` | src/logic-steering.cpp:96-120 | With the same gains, setpoint 15 and position 0 give integral term 0, direction false and duty 50000, whatever the accumulator held. |
| `LogicSteering.Steering.constructor` | src/logic-steering.cpp:37-55 | After construction the object is initialised; setpoint, measurements, accumulator and duty are 0; the direction flag is true. The gains are the constructor's arguments, and the invariant holds. |
| `LogicSteering.Steering.SetUp` | src/logic-steering.cpp:157-160 | Sets `initialised` and changes nothing else. |
| `LogicSteering.Steering.CallOnReceive` | src/logic-steering.cpp:62-91 | Updates the fields in place exactly as `Receive` prescribes and keeps the invariant. |
| `LogicSteering.Steering.Body` | src/logic-steering.cpp:93-155 | Updates accumulator, duty and direction in place exactly as `TickState` prescribes, and keeps the invariant. Returns the two commands in sending order. |

## Left out

- `Steering::decode` (src/logic-steering.cpp:31-35) is left out. It wraps `std::stof` and prints to the console, and `std::stof` is a foreign library call.
- `src/steering.cpp` is not part of this model: command-line parsing, the bus session, the UDP listener and the 30 ms loop. `Run` over a sequence of events stands in for the loop and the callbacks.
- Concurrency is left out. The bus callback (`callOnReceive`) and the periodic tick (`body`) write the `Steering` fields from different threads without a lock. The UDP callback writes no field: it decodes the datagram and republishes it on the bus. Here each `CallOnReceive` and `Body` is one atomic step, which is why an `Event` is either a delivered message or a tick.
- Floating point is modelled with `real` and mathematical integers. Float rounding, `float`/`double` mixing, infinities and NaN are not modelled.
- The `(int)` casts of out-of-range floats are undefined behaviour in C and are not modelled. `Body` computes the duty's magnitude as an unbounded integer and saturates it at 50000 before storing it in the 32-bit field; the code stores first, then saturates. The two orders agree whenever the C code is defined.
- The gain `iconst` must be non-zero (constructor requirement). Dividing by a zero `float` gives infinity or NaN, which reals cannot express.
- Transport details are left out: envelope extraction, the `dataType` dispatch beyond the three message kinds, the send timestamps and every `std::cout` trace. `Body` returns its two commands instead of sending them. Its local `iControl` is still reset in the deadband branch, but only the trace read it.
- The unused `m_debug` flag is kept only as a constant set to true. `tearDown` has an empty body and is not modelled.
