/**
 * The steering actuator controller: a state machine that ingests steering
 * requests and analog readings, and on every tick runs one proportional-
 * integral step that produces a direction flag and a PWM duty cycle.
 *
 * The pure functions below (Receive, TickState, Run) are the specification;
 * the class Steering updates its fields in place and is proved to follow them.
 */
module LogicSteering {
  import opened CMath
  import opened SteeringConfig

  /** An incoming bus message, reduced to what the controller reads. */
  datatype Message =
    | GroundSteeringRequest(groundSteering: real)
    | VoltageReading(senderStamp: int, torque: real)
    | Other

  /** An outgoing actuator command, addressed by the pin it drives. */
  datatype Command =
    | SwitchStateRequest(senderStamp: uint16, state: bool)
    | PulseWidthModulationRequest(senderStamp: uint16, dutyCycleNs: uint32)

  /** The gains supplied at construction. */
  datatype Gains = Gains(pConst: real, iConstTI: real, tolerance: real)

  /** The controller's mutable state. */
  datatype State = State(
    initialised: bool,
    groundSteeringRequest: real,
    steeringCurrentDuty: uint32,
    steerRight: bool,
    steerCurrent: real,
    steerPosition: real,
    steerVoltage: real,
    iControlOld: real)

  /** The state right after construction. */
  const Initial: State := State(true, 0.0, 0, true, 0.0, 0.0, 0.0, 0.0)

  /** The range gate on steering requests. */
  predicate Admissible(v: real) {
    -SteeringRequestLimit < v < SteeringRequestLimit
  }

  /** What every reachable state satisfies: the setpoint passed the range
      gate, the accumulator and the duty are within their ceilings. */
  predicate Bounded(s: State) {
    && Admissible(s.groundSteeringRequest)
    && -IntegralCeiling <= s.iControlOld <= IntegralCeiling
    && s.steeringCurrentDuty <= DutyCeiling
  }

  // ---------------------------------------------------------------------
  // Ingestion

  /** The effect of one received message. */
  function Receive(s: State, m: Message): (r: State)
    // ingestion never touches the controller's outputs or the accumulator
    ensures r.initialised == s.initialised
    ensures r.steeringCurrentDuty == s.steeringCurrentDuty
    ensures r.steerRight == s.steerRight
    ensures r.iControlOld == s.iControlOld
    // range gate: accepted requests replace the setpoint, all others keep it
    ensures r.groundSteeringRequest ==
      if s.initialised && m.GroundSteeringRequest? && Admissible(m.groundSteering)
      then m.groundSteering else s.groundSteeringRequest
    // routing by sender stamp to one calibration formula
    ensures r.steerCurrent ==
      if s.initialised && m.VoltageReading? && m.senderStamp == AnalogPinSteerCurrent as int
      then CalibrateCurrent(m.torque) else s.steerCurrent
    ensures r.steerPosition ==
      if s.initialised && m.VoltageReading? && m.senderStamp == AnalogPinSteerPosition as int
      then CalibratePosition(m.torque) else s.steerPosition
    ensures r.steerVoltage ==
      if s.initialised && m.VoltageReading? && m.senderStamp == AnalogPinSteerVoltage as int
      then CalibrateVoltage(m.torque) else s.steerVoltage
  {
    if !s.initialised then s
    else match m
      case GroundSteeringRequest(v) =>
        if Admissible(v) then s.(groundSteeringRequest := v) else s
      case VoltageReading(stamp, torque) =>
        if stamp == AnalogPinSteerCurrent as int then
          s.(steerCurrent := CalibrateCurrent(torque))
        else if stamp == AnalogPinSteerPosition as int then
          s.(steerPosition := CalibratePosition(torque))
        else if stamp == AnalogPinSteerVoltage as int then
          s.(steerVoltage := CalibrateVoltage(torque))
        else s
      case Other => s
  }

  // ---------------------------------------------------------------------
  // The periodic PI step

  /** The error between the setpoint and the measured position. */
  function SteerError(s: State): (e: real) {
    s.groundSteeringRequest - s.steerPosition
  }

  /** The proportional term for a gain and an error. */
  function Proportional(pConst: real, steerError: real): (p: real) {
    pConst * steerError
  }

  // PControl is the state-level view; Body calls Proportional on its locals,
  // so both sides of its proof name the same nonlinear product.
  function PControl(g: Gains, s: State): (p: real) {
    Proportional(g.pConst, SteerError(s))
  }

  /** Anti-windup gate: the integral term is used only while the truncated
      proportional term is below the saturation threshold in magnitude. */
  predicate IntegralGateOpen(p: real)
    ensures IntegralGateOpen(p) <==>
      -(PSaturationThreshold as real) < p < PSaturationThreshold as real
  {
    TruncAbsBelowIff(p, PSaturationThreshold);
    Abs(Trunc(p)) < PSaturationThreshold
  }

  /** Clamp an integral term to the integral ceiling. */
  function ClampIntegral(i: real): (r: real)
    ensures -IntegralCeiling <= r <= IntegralCeiling
    ensures -IntegralCeiling <= i <= IntegralCeiling ==> r == i
    ensures IntegralCeiling < i ==> r == IntegralCeiling
    ensures i < -IntegralCeiling ==> r == -IntegralCeiling
  {
    if i > IntegralCeiling then IntegralCeiling
    else if i < -IntegralCeiling then -IntegralCeiling
    else i
  }

  /** The integral candidate: the scaled proportional term added to the
      previous accumulator. */
  function IntegralCandidate(p: real, iConstTI: real, iControlOld: real): (c: real)
    requires iConstTI != 0.0
  {
    p * IConstTS / iConstTI + iControlOld
  }

  /** The integral term of a tick, which is also the new accumulator. */
  function IControl(g: Gains, s: State): (r: real)
    requires g.iConstTI != 0.0
    ensures -IntegralCeiling <= r <= IntegralCeiling
    ensures !IntegralGateOpen(PControl(g, s)) ==> r == 0.0
  {
    var p := PControl(g, s);
    ClampIntegral(if IntegralGateOpen(p) then IntegralCandidate(p, g.iConstTI, s.iControlOld) else 0.0)
  }

  /** The control signal before output shaping: P term plus I term. */
  function ControlSignal(g: Gains, s: State): (cs: real)
    requires g.iConstTI != 0.0
  {
    PControl(g, s) + IControl(g, s)
  }

  /** The error lies strictly inside the deadband. */
  predicate InDeadband(g: Gains, s: State) {
    -g.tolerance < SteerError(s) < g.tolerance
  }

  function AbsReal(x: real): (r: real)
    ensures 0.0 <= r && (r == x || r == -x)
  {
    if x < 0.0 then -x else x
  }

  /** Output shaping: the rounded magnitude of a control signal, saturated
      at the duty ceiling. */
  function ShapeDuty(cs: real): (r: uint32)
    ensures r <= DutyCeiling
    ensures AbsReal(cs) < DutyCeiling as real ==>
      AbsReal(cs) - 0.5 <= r as real <= AbsReal(cs) + 0.5
    ensures DutyCeiling as real <= AbsReal(cs) ==> r == DutyCeiling
  {
    var rounded := Round(cs);
    TruncOfInt(rounded);
    RoundKeepsMagnitude(cs, DutyCeiling as nat);
    Min(Abs(Trunc(rounded as real)), DutyCeiling as int) as uint32
  }

  /** The duty is the control signal's magnitude rounded to the nearest
      integer and saturated at the ceiling: rounding then taking the absolute
      value, as the controller does, is the same as rounding the magnitude. */
  lemma ShapeDutyRoundsMagnitude(cs: real)
    ensures ShapeDuty(cs) as int == Min(Round(AbsReal(cs)), DutyCeiling as int)
  {
    TruncOfInt(Round(cs));
    RoundOdd(cs);
  }

  /** The commanded duty cycle of a tick: zero inside the deadband, the
      shaped control signal outside it. */
  function Duty(g: Gains, s: State): (r: uint32)
    requires g.iConstTI != 0.0
    ensures r <= DutyCeiling
    ensures InDeadband(g, s) ==> r == 0
    ensures !InDeadband(g, s) ==> r == ShapeDuty(ControlSignal(g, s))
  {
    if InDeadband(g, s) then 0 else ShapeDuty(ControlSignal(g, s))
  }

  /** The state after one tick. */
  function TickState(g: Gains, s: State): (r: State)
    requires g.iConstTI != 0.0
    // the tick only reads the setpoint and the measurements
    ensures r.initialised == s.initialised
    ensures r.groundSteeringRequest == s.groundSteeringRequest
    ensures r.steerCurrent == s.steerCurrent
    ensures r.steerPosition == s.steerPosition
    ensures r.steerVoltage == s.steerVoltage
    // it stores the integral term, the deadband-gated duty and the direction
    ensures r.iControlOld == IControl(g, s)
    ensures r.steeringCurrentDuty == Duty(g, s)
    ensures r.steerRight == (ControlSignal(g, s) < 0.0)
    // and always leaves the accumulator and the duty within their ceilings
    ensures -IntegralCeiling <= r.iControlOld <= IntegralCeiling
    ensures r.steeringCurrentDuty <= DutyCeiling
  {
    s.(iControlOld := IControl(g, s),
       steeringCurrentDuty := Duty(g, s),
       steerRight := ControlSignal(g, s) < 0.0)
  }

  /** The two commands a tick emits for the state it leaves: direction first,
      then duty. */
  function TickCommands(s: State): (cmds: seq<Command>)
    ensures |cmds| == 2
    ensures cmds[0].SwitchStateRequest? && cmds[0].senderStamp == GpioPinSteerRight
    ensures cmds[1].PulseWidthModulationRequest? && cmds[1].senderStamp == PwmPinSteer
    // the first carries the direction, the second the duty
    ensures cmds[0].state == s.steerRight
    ensures cmds[1].dutyCycleNs == s.steeringCurrentDuty
  {
    [SwitchStateRequest(GpioPinSteerRight, s.steerRight),
     PulseWidthModulationRequest(PwmPinSteer, s.steeringCurrentDuty)]
  }

  // ---------------------------------------------------------------------
  // Any interleaving of messages and ticks

  datatype Event = Deliver(msg: Message) | Tick

  /** One callback invocation: a delivered message or a timer tick. */
  function Step(g: Gains, s: State, e: Event): (r: State)
    requires g.iConstTI != 0.0
  {
    match e
    case Deliver(m) => Receive(s, m)
    case Tick => TickState(g, s)
  }

  /** The state after a sequence of callback invocations, in order. */
  function Run(g: Gains, s: State, events: seq<Event>): (r: State)
    requires g.iConstTI != 0.0
    decreases |events|
  {
    if events == [] then s else Run(g, Step(g, s, events[0]), events[1..])
  }

  /** A property of Run: running two sequences one after the other is
      running their concatenation. */
  lemma {:induction false} RunAppend(g: Gains, s: State, a: seq<Event>, b: seq<Event>)
    requires g.iConstTI != 0.0
    ensures Run(g, s, a + b) == Run(g, Run(g, s, a), b)
    decreases |a|
  {
    if a != [] {
      assert (a + b)[0] == a[0];
      assert (a + b)[1..] == a[1..] + b;
      RunAppend(g, Step(g, s, a[0]), a[1..], b);
    } else {
      assert a + b == b;
    }
  }

  /** Two analog readings with different sender stamps update different
      measurement fields, so their arrival order does not matter. */
  lemma ReadingsCommute(s: State, a: Message, b: Message)
    requires a.VoltageReading? && b.VoltageReading? && a.senderStamp != b.senderStamp
    ensures Receive(Receive(s, a), b) == Receive(Receive(s, b), a)
  {
  }

  /** A message changes at most one of the setpoint and the three
      measurements. */
  lemma ReceiveTouchesOneField(s: State, m: Message)
    ensures var r := Receive(s, m);
      (r.groundSteeringRequest != s.groundSteeringRequest ==>
         r.steerCurrent == s.steerCurrent && r.steerPosition == s.steerPosition && r.steerVoltage == s.steerVoltage)
      && (r.steerCurrent != s.steerCurrent ==>
         r.steerPosition == s.steerPosition && r.steerVoltage == s.steerVoltage)
      && (r.steerPosition != s.steerPosition ==> r.steerVoltage == s.steerVoltage)
  {
  }

  /** Every step keeps the state bounded. */
  lemma StepPreservesBounded(g: Gains, s: State, e: Event)
    requires g.iConstTI != 0.0
    requires Bounded(s)
    ensures Bounded(Step(g, s, e))
  {
  }

  /** Every sequence of steps keeps the state bounded. */
  lemma {:induction false} RunPreservesBounded(g: Gains, s: State, events: seq<Event>)
    requires g.iConstTI != 0.0
    requires Bounded(s)
    ensures Bounded(Run(g, s, events))
    decreases |events|
  {
    if events != [] {
      StepPreservesBounded(g, s, events[0]);
      RunPreservesBounded(g, Step(g, s, events[0]), events[1..]);
    }
  }

  /** From construction on, whatever arrives and however ticks interleave,
      the setpoint is admissible, |accumulator| <= 25000 and duty <= 50000. */
  lemma ReachableBounded(g: Gains, events: seq<Event>)
    requires g.iConstTI != 0.0
    ensures Bounded(Run(g, Initial, events))
  {
    RunPreservesBounded(g, Initial, events);
  }

  // ---------------------------------------------------------------------
  // Properties of a single tick

  /** Anti-windup reset: once the proportional term saturates, the tick's
      integral term and stored accumulator are 0 and the whole tick is
      independent of the previous accumulator. */
  lemma AntiWindupReset(g: Gains, s: State, previous: real)
    requires g.iConstTI != 0.0
    requires PControl(g, s) <= -(PSaturationThreshold as real)
          || PSaturationThreshold as real <= PControl(g, s)
    ensures IControl(g, s) == 0.0
    ensures TickState(g, s).iControlOld == 0.0
    ensures TickState(g, s.(iControlOld := previous)) == TickState(g, s)
  {
    assert PControl(g, s.(iControlOld := previous)) == PControl(g, s);
  }

  /** The direction is "right" exactly when the control signal is negative,
      and the deadband override changes neither the direction nor the stored
      accumulator: only the duty differs from a controller with no deadband. */
  lemma DeadbandOnlySilencesDuty(g: Gains, s: State)
    requires g.iConstTI != 0.0
    ensures TickState(g, s).steerRight <==> ControlSignal(g, s) < 0.0
    ensures TickState(g, s).(steeringCurrentDuty := 0)
         == TickState(g.(tolerance := 0.0), s).(steeringCurrentDuty := 0)
  {
    var g0 := g.(tolerance := 0.0);
    assert PControl(g0, s) == PControl(g, s);
    assert IControl(g0, s) == IControl(g, s);
    assert ControlSignal(g0, s) == ControlSignal(g, s);
  }

  /** Integration: while the gate is open, the new accumulator is the old one
      plus the proportional term scaled by IConstTS / iConstTI, clamped to the
      integral ceiling. */
  lemma IntegralAccumulates(g: Gains, s: State)
    requires g.iConstTI != 0.0
    ensures IntegralGateOpen(PControl(g, s)) &&
      -IntegralCeiling <= s.iControlOld + PControl(g, s) * IConstTS / g.iConstTI <= IntegralCeiling
      ==> TickState(g, s).iControlOld == s.iControlOld + PControl(g, s) * IConstTS / g.iConstTI
    ensures IntegralGateOpen(PControl(g, s)) &&
      IntegralCeiling < s.iControlOld + PControl(g, s) * IConstTS / g.iConstTI
      ==> TickState(g, s).iControlOld == IntegralCeiling
    ensures IntegralGateOpen(PControl(g, s)) &&
      s.iControlOld + PControl(g, s) * IConstTS / g.iConstTI < -IntegralCeiling
      ==> TickState(g, s).iControlOld == -IntegralCeiling
  {
    var p := PControl(g, s);
    assert IntegralCandidate(p, g.iConstTI, s.iControlOld)
        == s.iControlOld + p * IConstTS / g.iConstTI;
  }

  /** Delivering the same message twice has the effect of delivering it once:
      every message sets fields to values that depend on the message alone. */
  lemma ReceiveIdempotent(s: State, m: Message)
    ensures Receive(Receive(s, m), m) == Receive(s, m)
  {
  }

  /** The gains used in the scenarios below. */
  const ScenarioGains: Gains := Gains(5000.0, 0.5, 0.1)

  /** Scenario: setpoint 10, position 10.05, error -0.05 inside the deadband:
      the duty is 0 whatever the accumulator holds. */
  lemma ScenarioInsideDeadband(s: State)
    requires s.groundSteeringRequest == 10.0 && s.steerPosition == 10.05
    ensures TickState(ScenarioGains, s).steeringCurrentDuty == 0
  {
  }

  /** Scenario: setpoint 15, position 0, pControl 75000 saturates: the
      integral term is 0, the direction flag is false and the duty is 50000,
      whatever the accumulator held. */
  lemma ScenarioSaturated(s: State)
    requires s.groundSteeringRequest == 15.0 && s.steerPosition == 0.0
    ensures IControl(ScenarioGains, s) == 0.0
    ensures !TickState(ScenarioGains, s).steerRight
    ensures TickState(ScenarioGains, s).steeringCurrentDuty == 50000
  {
    assert PControl(ScenarioGains, s) == 75000.0;
    assert ControlSignal(ScenarioGains, s) == 75000.0;
  }

  // ---------------------------------------------------------------------
  // The controller object

  class Steering {
    const debug: bool
    var initialised: bool
    var groundSteeringRequest: real
    var steeringCurrentDuty: uint32
    var steerRight: bool
    var steerCurrent: real
    var steerPosition: real
    var steerVoltage: real
    var iControlOld: real
    const pConst: real
    const iConstTI: real
    const tolerance: real

    function Config(): (g: Gains) {
      Gains(pConst, iConstTI, tolerance)
    }

    /** The abstract value of the object's mutable fields. */
    function Snapshot(): (s: State)
      reads this
    {
      State(initialised, groundSteeringRequest, steeringCurrentDuty, steerRight,
            steerCurrent, steerPosition, steerVoltage, iControlOld)
    }

    ghost predicate Valid()
      reads this
    {
      iConstTI != 0.0 && Bounded(Snapshot())
    }

    constructor (pconst: real, iconst: real, tolerance: real)
      requires iconst != 0.0
      ensures Valid()
      ensures debug
      ensures Config() == Gains(pconst, iconst, tolerance)
      ensures Snapshot() == Initial
    {
      debug := true;
      initialised := false;
      groundSteeringRequest := 0.0;
      steeringCurrentDuty := 0;
      steerRight := true;
      steerCurrent := 0.0;
      steerPosition := 0.0;
      steerVoltage := 0.0;
      iControlOld := 0.0;
      pConst := pconst;
      iConstTI := iconst;
      this.tolerance := tolerance;
      new;
      SetUp();
    }

    method SetUp()
      modifies this
      ensures Snapshot() == old(Snapshot()).(initialised := true)
    {
      initialised := true;
    }

    /** Ingest one bus message. */
    method CallOnReceive(m: Message)
      requires Valid()
      modifies this
      ensures Valid()
      ensures Snapshot() == Receive(old(Snapshot()), m)
    {
      if !initialised {
        return;
      }
      match m
      case GroundSteeringRequest(v) =>
        if v > -SteeringRequestLimit && v < SteeringRequestLimit {
          groundSteeringRequest := v;
        }
      case VoltageReading(stamp, torque) =>
        if stamp == AnalogPinSteerCurrent as int {
          steerCurrent := torque / AnalogConvSteerCurrent;
        } else if stamp == AnalogPinSteerPosition as int {
          steerPosition := torque / AnalogConvSteerPosition - AnalogOffsetSteerPosition;
        } else if stamp == AnalogPinSteerVoltage as int {
          steerVoltage := torque / AnalogConvSteerVoltage;
        }
      case Other =>
    }

    /** One control tick: returns the commands it sends, in order. */
    method Body() returns (cmds: seq<Command>)
      requires Valid()
      modifies this
      ensures Snapshot() == TickState(Config(), old(Snapshot()))
      ensures Valid()
      ensures cmds == TickCommands(Snapshot())
    {
      ghost var s := Snapshot();
      ghost var g := Config();
      var steerError := groundSteeringRequest - steerPosition;
      var pControl := Proportional(pConst, steerError);
      var iControl := 0.0;
      assert pControl == PControl(g, s);

      if Abs(Trunc(pControl)) < PSaturationThreshold {
        iControl := IntegralCandidate(pControl, iConstTI, iControlOld);
      }

      if iControl > IntegralCeiling {
        iControl := IntegralCeiling;
      } else if iControl < -IntegralCeiling {
        iControl := -IntegralCeiling;
      }
      assert iControl == IControl(g, s);

      iControlOld := iControl;

      var controlSignal := pControl + iControl;

      var duty := Abs(Trunc(Round(controlSignal) as real));
      if duty > DutyCeiling as int {
        duty := DutyCeiling as int;
      }
      steeringCurrentDuty := duty as uint32;

      assert controlSignal == ControlSignal(g, s);
      assert duty as uint32 == ShapeDuty(controlSignal);
      steerRight := controlSignal < 0.0;

      if steerError > -tolerance && steerError < tolerance {
        steeringCurrentDuty := 0;
        iControl := 0.0;  // only the trace reads this
      }
      assert steeringCurrentDuty == Duty(g, s);

      cmds := [SwitchStateRequest(GpioPinSteerRight, steerRight)];
      cmds := cmds + [PulseWidthModulationRequest(PwmPinSteer, steeringCurrentDuty)];
    }

  }
}
