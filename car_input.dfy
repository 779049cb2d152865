/**
 * The driver's inputs: the `VehicleInputStates` record and the
 * `CarInputHandler` that fills it, clamps every axis to its range, and works
 * out the throttle and brake values the car uses once the axes are swapped
 * for reverse.
 *
 * The engine's input devices are read in `Update`; here their readings are
 * the fields of a `DeviceReadings` parameter. The current gear, which the
 * handler reads from the car's transmission, is a parameter too.
 */
module CarInputs {
  import opened Common

  /** What `ShiftInto` holds when no gear is requested. */
  const NoShiftInto: int := -999

  /** `VehicleInputStates`, a value type. */
  datatype InputStates = InputStates(
    steering: real,
    throttle: real,
    brakes: real,
    clutch: real,
    engineStartStop: bool,
    handbrake: real,
    shiftDown: bool,
    shiftInto: int,
    shiftUp: bool,
    boost: bool,
    flipOver: bool)

  /** Every axis inside its declared range: steering in [-1, 1], the others in [0, 1]. */
  predicate AxesInRange(s: InputStates)
  {
    && -1.0 <= s.steering <= 1.0
    && 0.0 <= s.throttle <= 1.0
    && 0.0 <= s.brakes <= 1.0
    && 0.0 <= s.clutch <= 1.0
    && 0.0 <= s.handbrake <= 1.0
  }

  /**
   * The state `Reset` leaves: steering, throttle, clutch and handbrake at 0,
   * no gear requested and every flag down. The brake axis is not part of it.
   */
  predicate AtRest(s: InputStates)
  {
    && s.steering == 0.0 && s.throttle == 0.0 && s.clutch == 0.0 && s.handbrake == 0.0
    && s.shiftInto == NoShiftInto
    && !s.shiftUp && !s.shiftDown && !s.engineStartStop && !s.boost && !s.flipOver
  }

  /** `VehicleInputStates.Reset`: back to rest, with the brake axis kept. */
  function Reset(s: InputStates): (r: InputStates)
    ensures AtRest(r)
    ensures r.brakes == s.brakes
  {
    InputStates(0.0, 0.0, s.brakes, 0.0, false, 0.0, false, NoShiftInto, false, false, false)
  }

  /** `Reset` changes a state exactly when it is not already at rest, so a second reset does nothing. */
  lemma ResetFixesExactlyTheRestStates(s: InputStates)
    ensures Reset(s) == s <==> AtRest(s)
    ensures Reset(Reset(s)) == Reset(s)
  {
  }

  /** Two states that differ only in the brake axis reset to states that differ only there. */
  lemma ResetForgetsAllButBrakes(s: InputStates, t: InputStates)
    requires s.brakes == t.brakes
    ensures Reset(s) == Reset(t)
  {
  }

  /** A reset state has its axes in range whenever the kept brake axis is. */
  lemma ResetKeepsRanges(s: InputStates)
    requires 0.0 <= s.brakes <= 1.0
    ensures AxesInRange(Reset(s))
  {
  }

  /** What `ResetShiftFlags` does to the states: both shift flags down and no gear requested. */
  function ClearShiftFlags(s: InputStates): (r: InputStates)
    ensures !r.shiftUp && !r.shiftDown && r.shiftInto == NoShiftInto
    ensures r.(shiftUp := s.shiftUp, shiftDown := s.shiftDown, shiftInto := s.shiftInto) == s
  {
    s.(shiftUp := false, shiftDown := false, shiftInto := NoShiftInto)
  }

  /** `Reset` includes `ResetShiftFlags`: clearing the flags before or after a reset changes nothing. */
  lemma ResetSubsumesShiftReset(s: InputStates)
    ensures Reset(ClearShiftFlags(s)) == Reset(s)
    ensures ClearShiftFlags(Reset(s)) == Reset(s)
    ensures ClearShiftFlags(ClearShiftFlags(s)) == ClearShiftFlags(s)
  {
  }

  /** The throttle the `Vertical` setter stores: the value clamped to [0, 1] when positive, else 0. */
  function VerticalThrottle(value: real): (t: real)
    ensures 0.0 <= t <= 1.0
    ensures value > 0.0 ==> t == Min(value, 1.0)
    ensures value <= 0.0 ==> t == 0.0
  {
    if value > 0.0 then Clamp(value, 0.0, 1.0) else 0.0
  }

  /**
   * The brake value the `Vertical` setter stores, as written: minus the value
   * clamped to [0, 1], which is -0 for every value that reaches that branch.
   */
  function VerticalBrakes(value: real): (b: real)
  {
    if value > 0.0 then 0.0 else -Clamp(value, 0.0, 1.0)
  }

  /**
   * As written, the setter never brakes: a negative value (say -0.5) stores
   * brakes 0 and throttle 0, so reading `Vertical` back gives 0, not -0.5.
   */
  lemma VerticalNeverBrakes(value: real)
    ensures VerticalBrakes(value) == 0.0
    ensures value < 0.0 ==> VerticalThrottle(value) - VerticalBrakes(value) == 0.0 != value
  {
  }

  /**
   * The brake value the setter's own description promises: the magnitude of a
   * negative value, clamped to [0, 1].
   */
  function VerticalBrakesCorrected(value: real): (b: real)
  {
    if value > 0.0 then 0.0 else Clamp(-value, 0.0, 1.0)
  }

  /**
   * With the corrected brake value, reading `Vertical` back gives the value
   * clamped to [-1, 1], and at most one of the two axes is non-zero.
   */
  lemma VerticalCorrectedRoundTrip(value: real)
    ensures 0.0 <= VerticalBrakesCorrected(value) <= 1.0
    ensures VerticalThrottle(value) - VerticalBrakesCorrected(value) == Clamp(value, -1.0, 1.0)
    ensures VerticalThrottle(value) == 0.0 || VerticalBrakesCorrected(value) == 0.0
  {
  }

  /** `IsInputSwapped`: the axes trade places while the swap option is on and a reverse gear is in. */
  function IsInputSwapped(swapInputInReverse: bool, gear: int): bool
  {
    swapInputInReverse && gear < 0
  }

  /** The device readings `Update` polls. */
  datatype DeviceReadings = DeviceReadings(
    rightTrigger: real,
    leftTrigger: real,
    analogMoveX: real,
    analogMoveY: real,
    handBrakeDown: bool,
    clutchDown: bool,
    attack1Pressed: bool,
    attack2Pressed: bool)

  /** The states `Update` writes from the device readings, before the swapped values are worked out. */
  function PolledStates(s: InputStates, d: DeviceReadings): (r: InputStates)
    ensures AxesInRange(r)
    ensures r.handbrake == (if d.handBrakeDown then 1.0 else 0.0)
    ensures r.clutch == (if d.clutchDown || d.handBrakeDown then 1.0 else 0.0)
    ensures r.shiftUp == (s.shiftUp || d.attack1Pressed) && r.shiftDown == (s.shiftDown || d.attack2Pressed)
    ensures r.engineStartStop == s.engineStartStop && r.shiftInto == s.shiftInto
    ensures r.boost == s.boost && r.flipOver == s.flipOver
  {
    s.(throttle := Clamp(Max(d.rightTrigger, d.analogMoveX), 0.0, 1.0),
       brakes := Clamp(Max(d.leftTrigger, -d.analogMoveX), 0.0, 1.0),
       handbrake := Clamp(if d.handBrakeDown then 1.0 else 0.0, 0.0, 1.0),
       steering := Clamp(d.analogMoveY, -1.0, 1.0),
       clutch := Clamp(if d.clutchDown || d.handBrakeDown then 1.0 else 0.0, 0.0, 1.0),
       shiftUp := s.shiftUp || d.attack1Pressed,
       shiftDown := s.shiftDown || d.attack2Pressed)
  }

  /**
   * With both triggers released, pushing the stick forward asks for throttle
   * (capped at 1) and no brakes.
   */
  lemma StickSplitsIntoAxes(s: InputStates, d: DeviceReadings)
    requires d.rightTrigger <= 0.0 && d.leftTrigger <= 0.0 && d.analogMoveX >= 0.0
    ensures PolledStates(s, d).throttle == Min(d.analogMoveX, 1.0)
    ensures PolledStates(s, d).brakes == 0.0
  {
  }

  class CarInputHandler {
    var swapInputInReverse: bool
    var autoSetInput: bool
    var states: InputStates
    /** `_inputSwappedThrottle` and `_inputSwappedBrakes`. */
    var inputSwappedThrottle: real
    var inputSwappedBrakes: real

    /** The property defaults: swapping and polling on, and the zero state. */
    constructor()
      ensures swapInputInReverse && autoSetInput
      ensures states == InputStates(0.0, 0.0, 0.0, 0.0, false, 0.0, false, 0, false, false, false)
      ensures AxesInRange(states)
      ensures inputSwappedThrottle == 0.0 && inputSwappedBrakes == 0.0
    {
      swapInputInReverse := true;
      autoSetInput := true;
      states := InputStates(0.0, 0.0, 0.0, 0.0, false, 0.0, false, 0, false, false, false);
      inputSwappedThrottle := 0.0;
      inputSwappedBrakes := 0.0;
    }

    /** The `Vertical` getter: throttle minus brakes. */
    function Vertical(): real
      reads this
    {
      states.throttle - states.brakes
    }

    /**
     * The `Vertical` setter as written: a positive value becomes throttle
     * (clamped to 1) with brakes released; anything else releases both. Read
     * back, `Vertical` is the value clamped to [0, 1].
     */
    method SetVertical(value: real)
      modifies this`states
      ensures states == old(states).(throttle := VerticalThrottle(value), brakes := VerticalBrakes(value))
      ensures Vertical() == Clamp(value, 0.0, 1.0)
      ensures old(AxesInRange(states)) ==> AxesInRange(states)
    {
      var clampedValue := Clamp(value, 0.0, 1.0);
      if value > 0.0 {
        states := states.(throttle := clampedValue, brakes := 0.0);
      } else {
        states := states.(throttle := 0.0, brakes := -clampedValue);
      }
    }

    /** The `Vertical` setter with the brake branch storing the magnitude of a negative value. */
    method SetVerticalCorrected(value: real)
      modifies this`states
      ensures states == old(states).(throttle := VerticalThrottle(value), brakes := VerticalBrakesCorrected(value))
      ensures Vertical() == Clamp(value, -1.0, 1.0)
      ensures old(AxesInRange(states)) ==> AxesInRange(states)
    {
      VerticalCorrectedRoundTrip(value);
      if value > 0.0 {
        states := states.(throttle := Clamp(value, 0.0, 1.0), brakes := 0.0);
      } else {
        states := states.(throttle := 0.0, brakes := Clamp(-value, 0.0, 1.0));
      }
    }

    /** The `Throttle` setter: the stored value is the request clamped to [0, 1]. */
    method SetThrottle(value: real)
      modifies this`states
      ensures states == old(states).(throttle := Clamp(value, 0.0, 1.0))
      ensures 0.0 <= states.throttle <= 1.0 && (0.0 <= value <= 1.0 ==> states.throttle == value)
      ensures old(AxesInRange(states)) ==> AxesInRange(states)
    {
      states := states.(throttle := Clamp(value, 0.0, 1.0));
    }

    /** The `Brakes` setter: the stored value is the request clamped to [0, 1]. */
    method SetBrakes(value: real)
      modifies this`states
      ensures states == old(states).(brakes := Clamp(value, 0.0, 1.0))
      ensures 0.0 <= states.brakes <= 1.0 && (0.0 <= value <= 1.0 ==> states.brakes == value)
      ensures old(AxesInRange(states)) ==> AxesInRange(states)
    {
      states := states.(brakes := Clamp(value, 0.0, 1.0));
    }

    /** The `Steering` setter: the stored value is the request clamped to [-1, 1]. */
    method SetSteering(value: real)
      modifies this`states
      ensures states == old(states).(steering := Clamp(value, -1.0, 1.0))
      ensures -1.0 <= states.steering <= 1.0 && (-1.0 <= value <= 1.0 ==> states.steering == value)
      ensures old(AxesInRange(states)) ==> AxesInRange(states)
    {
      states := states.(steering := Clamp(value, -1.0, 1.0));
    }

    /** The `Clutch` setter: the stored value is the request clamped to [0, 1]. */
    method SetClutch(value: real)
      modifies this`states
      ensures states == old(states).(clutch := Clamp(value, 0.0, 1.0))
      ensures 0.0 <= states.clutch <= 1.0 && (0.0 <= value <= 1.0 ==> states.clutch == value)
      ensures old(AxesInRange(states)) ==> AxesInRange(states)
    {
      states := states.(clutch := Clamp(value, 0.0, 1.0));
    }

    /** The `Handbrake` setter: the stored value is the request clamped to [0, 1]. */
    method SetHandbrake(value: real)
      modifies this`states
      ensures states == old(states).(handbrake := Clamp(value, 0.0, 1.0))
      ensures 0.0 <= states.handbrake <= 1.0 && (0.0 <= value <= 1.0 ==> states.handbrake == value)
      ensures old(AxesInRange(states)) ==> AxesInRange(states)
    {
      states := states.(handbrake := Clamp(value, 0.0, 1.0));
    }

    /**
     * `CalculateInputSwappedValues`: throttle and brakes, exchanged while the
     * input is swapped. The pair is always the two axes in some order.
     */
    method CalculateInputSwappedValues(gear: int)
      modifies this`inputSwappedThrottle, this`inputSwappedBrakes
      ensures IsInputSwapped(swapInputInReverse, gear) ==>
                inputSwappedThrottle == states.brakes && inputSwappedBrakes == states.throttle
      ensures !IsInputSwapped(swapInputInReverse, gear) ==>
                inputSwappedThrottle == states.throttle && inputSwappedBrakes == states.brakes
      ensures multiset{inputSwappedThrottle, inputSwappedBrakes} == multiset{states.throttle, states.brakes}
      ensures AxesInRange(states) ==> 0.0 <= inputSwappedThrottle <= 1.0 && 0.0 <= inputSwappedBrakes <= 1.0
    {
      var isInputSwapped := IsInputSwapped(swapInputInReverse, gear);
      inputSwappedThrottle := if isInputSwapped then states.brakes else states.throttle;
      inputSwappedBrakes := if isInputSwapped then states.throttle else states.brakes;
    }

    /**
     * `Update`: with polling off only the swapped values are recomputed;
     * otherwise the axes and shift flags are first taken from the devices.
     */
    method Update(gear: int, d: DeviceReadings)
      modifies this`states, this`inputSwappedThrottle, this`inputSwappedBrakes
      ensures !autoSetInput ==> states == old(states)
      ensures autoSetInput ==> states == PolledStates(old(states), d)
      ensures autoSetInput || old(AxesInRange(states)) ==> AxesInRange(states)
      ensures IsInputSwapped(swapInputInReverse, gear) ==>
                inputSwappedThrottle == states.brakes && inputSwappedBrakes == states.throttle
      ensures !IsInputSwapped(swapInputInReverse, gear) ==>
                inputSwappedThrottle == states.throttle && inputSwappedBrakes == states.brakes
    {
      if !autoSetInput {
        CalculateInputSwappedValues(gear);
        return;
      }
      // The five clamping setters and the two shift flags, in one write.
      states := PolledStates(states, d);
      CalculateInputSwappedValues(gear);
    }

    /** `ResetShiftFlags`. */
    method ResetShiftFlags()
      modifies this`states
      ensures states == ClearShiftFlags(old(states))
      ensures old(AxesInRange(states)) ==> AxesInRange(states)
    {
      states := states.(shiftUp := false, shiftDown := false, shiftInto := NoShiftInto);
    }
  }
}
