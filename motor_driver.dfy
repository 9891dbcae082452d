/**
 * The actuation model of src/motor_driver.py: a TB6612-style dual H-bridge
 * driven through one PWM duty and two direction pins per wheel, a standby
 * line, and a ramp tracker used by the throttle path.
 *
 * The gpiozero devices become plain fields of `MotorDriver`; a ghost log of
 * every speed passed to `_apply_speed` records what the ramp puts on the wheels.
 */
module Motor {
  import opened Config

  function Abs(x: real): (r: real)
    ensures r >= 0.0 && (r == x || r == -x)
  {
    if x < 0.0 then -x else x
  }

  /** `max(lo, min(x, hi))`, as the driver writes its clamps. */
  function Clamp(x: real, lo: real, hi: real): (r: real)
    ensures lo <= hi ==> lo <= r <= hi
    ensures lo <= x <= hi ==> r == x
    ensures x < lo ==> r == lo
    ensures lo <= hi < x ==> r == hi
  {
    var m := if x <= hi then x else hi;
    if lo > m then lo else m
  }

  /** True when `x` lies on the closed segment between `a` and `b`. */
  predicate Between(a: real, b: real, x: real)
  {
    (a <= x <= b) || (b <= x <= a)
  }

  /** The state of one H-bridge channel: PWM duty and the two direction pins. */
  datatype Signal = Signal(pwm: real, in1: bool, in2: bool)

  /** The wheel a channel drives: A is the left motor, B the right one. */
  datatype Wheel = A | B

  /** The signed speed a channel state stands for (forward positive). */
  function SignedDuty(s: Signal): real
  {
    if s.in1 && !s.in2 then s.pwm else if s.in2 && !s.in1 then -s.pwm else 0.0
  }

  /** The channel state `_set_motor` writes for a signed speed. */
  function MotorSignal(speed: real): (s: Signal)
    ensures s.pwm == Abs(speed)
    ensures s.in1 <==> speed > 0.0
    ensures s.in2 <==> speed < 0.0
    ensures !(s.in1 && s.in2)
    ensures SignedDuty(s) == speed
  {
    if speed > 0.0 then Signal(speed, true, false)
    else if speed < 0.0 then Signal(-speed, false, true)
    else Signal(0.0, false, false)
  }

  /** Inputs whose magnitude is below this are treated as a request to stop. */
  const DEAD_ZONE: real := 0.05

  /** The dead-zone / stall remap nested inside `drive`. */
  function DriveRemap(s: real): (r: real)
    ensures Abs(s) < DEAD_ZONE ==> r == 0.0
    ensures Abs(s) >= DEAD_ZONE ==> Abs(r) == STALL_THRESHOLD + Abs(s) * (1.0 - STALL_THRESHOLD)
    ensures r > 0.0 ==> s > 0.0
    ensures r < 0.0 ==> s < 0.0
    ensures Abs(s) >= DEAD_ZONE ==> r != 0.0
  {
    if Abs(s) < DEAD_ZONE then 0.0
    else
      var val := STALL_THRESHOLD + Abs(s) * (1.0 - STALL_THRESHOLD);
      if s > 0.0 then val else -val
  }

  /** The final signed duty `drive` puts on one wheel for a requested speed. */
  function WheelCommand(s: real): (r: real)
    ensures MIN_SPEED <= r <= MAX_SPEED
    ensures r == 0.0 || STALL_THRESHOLD <= Abs(r) <= 1.0
    ensures Abs(s) < DEAD_ZONE ==> r == 0.0
    ensures s >= MAX_SPEED ==> r == 1.0
    ensures s <= MIN_SPEED ==> r == -1.0
    ensures r > 0.0 <==> s >= DEAD_ZONE
    ensures r < 0.0 <==> s <= -DEAD_ZONE
  {
    DriveRemap(Clamp(s, MIN_SPEED, MAX_SPEED))
  }

  /**
   * The remap `set_speed` applies to its clamped target; it scales by
   * MAX_SPEED - STALL_THRESHOLD where `drive` scales by 1 - STALL_THRESHOLD.
   */
  function ThrottleRemap(t: real): (r: real)
    ensures Abs(t) < DEAD_ZONE ==> r == 0.0
    ensures Abs(t) >= DEAD_ZONE ==> Abs(r) == STALL_THRESHOLD + Abs(t) * (MAX_SPEED - STALL_THRESHOLD)
    ensures r < 0.0 <==> (t < 0.0 && Abs(t) >= DEAD_ZONE)
  {
    if Abs(t) < DEAD_ZONE then 0.0
    else
      var finalPwm := STALL_THRESHOLD + Abs(t) * (MAX_SPEED - STALL_THRESHOLD);
      if t < 0.0 then -finalPwm else finalPwm
  }

  /** The value `set_speed` ramps to (its `final_pwm`). */
  function ThrottleTarget(t: real): (r: real)
    ensures MIN_SPEED <= r <= MAX_SPEED
    ensures Abs(t) < DEAD_ZONE ==> r == 0.0
  {
    ThrottleRemap(Clamp(t, MIN_SPEED, MAX_SPEED))
  }

  /** The fixed increment of the throttle ramp. */
  const RAMP_STEP: real := 0.05

  /** How many whole ramp steps fit between `cur` and `target`. */
  function StepsLeft(cur: real, target: real): int
  {
    (Abs(cur - target) / RAMP_STEP).Floor
  }

  /** One ramp step from `cur` toward `target`. */
  function RampNext(cur: real, target: real): (next: real)
    ensures Abs(next - cur) == RAMP_STEP
    ensures cur < target ==> next > cur
    ensures cur >= target ==> next < cur
    ensures Abs(cur - target) > RAMP_STEP ==>
      Between(cur, target, next) && Abs(next - target) == Abs(cur - target) - RAMP_STEP
  {
    if cur < target then cur + RAMP_STEP else cur - RAMP_STEP
  }

  lemma RampNextDecreases(cur: real, target: real)
    requires Abs(cur - target) > RAMP_STEP
    ensures Abs(RampNext(cur, target) - target) == Abs(cur - target) - RAMP_STEP
    ensures 0 <= StepsLeft(RampNext(cur, target), target) < StepsLeft(cur, target)
  {
    var d := Abs(cur - target);
    var d' := Abs(RampNext(cur, target) - target);
    assert d' == d - RAMP_STEP;
    assert d' / RAMP_STEP == d / RAMP_STEP - 1.0;
  }

  /** One ramp step from `prev` to `x`: exactly RAMP_STEP long, toward `target`. */
  predicate StepToward(prev: real, x: real, target: real)
  {
    Abs(x - prev) == RAMP_STEP && Abs(x - target) == Abs(prev - target) - RAMP_STEP
  }

  /** The value before entry `i` of a walk from `cur`. */
  function Before(cur: real, steps: seq<real>, i: nat): real
    requires i < |steps|
  {
    if i == 0 then cur else steps[i - 1]
  }

  /**
   * `steps` walks from `cur` toward `target`: each entry lies between the two
   * and is one step toward `target` from the entry before it (from `cur` for
   * the first); the last is within RAMP_STEP of `target`.
   */
  ghost predicate RampWalk(cur: real, target: real, steps: seq<real>)
  {
    && (forall i :: 0 <= i < |steps| ==>
          Between(cur, target, steps[i]) && StepToward(Before(cur, steps, i), steps[i], target))
    && (|steps| > 0 ==> Abs(steps[|steps| - 1] - target) <= RAMP_STEP)
  }

  /** The first step of a ramp from `cur` stays between `cur` and `target`. */
  lemma FirstStep(cur: real, target: real)
    requires Abs(cur - target) > RAMP_STEP
    ensures Between(cur, target, RampNext(cur, target))
    ensures StepToward(cur, RampNext(cur, target), target)
  {
  }

  /** An entry of the walk from `next` is, one place later, an entry of the walk from `cur`. */
  lemma LaterStep(cur: real, target: real, steps: seq<real>, i: nat)
    requires Abs(cur - target) > RAMP_STEP
    requires 0 < i < |steps| && steps[0] == RampNext(cur, target)
    requires Between(steps[0], target, steps[i])
    requires StepToward(Before(steps[0], steps[1..], i - 1), steps[i], target)
    ensures Between(cur, target, steps[i]) && StepToward(Before(cur, steps, i), steps[i], target)
  {
    FirstStep(cur, target);
    assert Before(cur, steps, i) == Before(steps[0], steps[1..], i - 1);
  }

  /** A walk from one step further on, with that step put in front, is a walk from `cur`. */
  lemma RampWalkCons(cur: real, target: real, rest: seq<real>)
    requires Abs(cur - target) > RAMP_STEP
    requires RampWalk(RampNext(cur, target), target, rest)
    requires |rest| == 0 ==> Abs(RampNext(cur, target) - target) <= RAMP_STEP
    ensures RampWalk(cur, target, [RampNext(cur, target)] + rest)
  {
    var next := RampNext(cur, target);
    var steps := [next] + rest;
    assert steps[1..] == rest;
    forall i | 0 <= i < |steps|
      ensures Between(cur, target, steps[i]) && StepToward(Before(cur, steps, i), steps[i], target)
    {
      if i == 0 {
        FirstStep(cur, target);
      } else {
        assert steps[i] == rest[i - 1];
        LaterStep(cur, target, steps, i);
      }
    }
    if |rest| > 0 {
      assert steps[|steps| - 1] == rest[|rest| - 1];
    }
  }

  /**
   * The speeds the `while` loop of `set_speed` applies, one per iteration,
   * when the tracker starts at `cur` and the remapped target is `target`.
   */
  function RampSteps(cur: real, target: real): (steps: seq<real>)
    ensures |steps| == 0 <==> Abs(cur - target) <= RAMP_STEP
    decreases StepsLeft(cur, target)
  {
    if Abs(cur - target) > RAMP_STEP then
      var next := RampNext(cur, target);
      RampNextDecreases(cur, target);
      [next] + RampSteps(next, target)
    else
      []
  }

  /** The ramp loop walks monotonically toward its target in exact RAMP_STEP increments. */
  lemma {:induction false} RampStepsWalk(cur: real, target: real)
    ensures RampWalk(cur, target, RampSteps(cur, target))
    decreases StepsLeft(cur, target)
  {
    if Abs(cur - target) > RAMP_STEP {
      var next := RampNext(cur, target);
      RampNextDecreases(cur, target);
      RampStepsWalk(next, target);
      RampWalkCons(cur, target, RampSteps(next, target));
    }
  }

  /** One iteration of the ramp loop takes the first of the remaining steps. */
  lemma RampStepsUnfold(cur: real, target: real)
    requires Abs(cur - target) > RAMP_STEP
    ensures RampSteps(cur, target) == [RampNext(cur, target)] + RampSteps(RampNext(cur, target), target)
  {
  }

  /** `drive` and `set_speed` remap every request to the same duty. */
  lemma ThrottleAgreesWithDrive(t: real)
    ensures ThrottleTarget(t) == WheelCommand(t)
  {
    var c := Clamp(t, MIN_SPEED, MAX_SPEED);
    assert MAX_SPEED - STALL_THRESHOLD == 1.0 - STALL_THRESHOLD;
    if Abs(c) >= DEAD_ZONE {
      assert c > 0.0 || c < 0.0;
    }
  }

  /** The remap is odd, so opposite requests give mirrored duties. */
  lemma WheelCommandOdd(s: real)
    ensures WheelCommand(-s) == -WheelCommand(s)
  {
    var c := Clamp(s, MIN_SPEED, MAX_SPEED);
    assert Clamp(-s, MIN_SPEED, MAX_SPEED) == -c;
    assert Abs(-c) == Abs(c);
  }

  /** `drive(0.03, 0.03)`: both channels end idle. */
  lemma DeadZoneStops()
    ensures MotorSignal(WheelCommand(0.03)) == Signal(0.0, false, false)
  {
  }

  /** `drive(1.0, 1.0)`: full duty forward on each wheel. */
  lemma FullForward()
    ensures WheelCommand(1.0) == 1.0
    ensures MotorSignal(WheelCommand(1.0)) == Signal(1.0, true, false)
  {
  }

  /** `drive(0.5, -0.5)`: equal magnitudes, opposite directions. */
  lemma SpinInPlace()
    ensures WheelCommand(0.5) == STALL_THRESHOLD + 0.5 * (1.0 - STALL_THRESHOLD)
    ensures WheelCommand(-0.5) == -WheelCommand(0.5)
    ensures MotorSignal(WheelCommand(0.5)).in1 && MotorSignal(WheelCommand(-0.5)).in2
    ensures MotorSignal(WheelCommand(0.5)).pwm == MotorSignal(WheelCommand(-0.5)).pwm
  {
    WheelCommandOdd(0.5);
  }

  /** A request to the driver's `stop` (with its `force_stop` flag) or `drive` entry point. */
  datatype Request = StopRequest(force: bool) | DriveRequest(left: real, right: real)

  /** The motor driver board: both H-bridge channels, STBY and the ramp tracker. */
  class MotorDriver {
    // Left motor (group A).
    var pwmA: real
    var ain1: bool
    var ain2: bool
    // Right motor (group B).
    var pwmB: real
    var bin1: bool
    var bin2: bool
    // Standby (enable) line of the driver chip, and whether it has been closed.
    var stby: bool
    var stbyClosed: bool
    /** The last speed the throttle path applied (`current_speed_val`). */
    var currentSpeed: real
    /** Every speed passed to `_apply_speed`, oldest first. */
    ghost var applied: seq<real>
    /** Every `stop` and `drive` request received, oldest first. */
    ghost var requests: seq<Request>
    /** TURN_SPEED, which src/constants.py does not define. */
    const turnSpeed: real

    ghost predicate Valid()
      reads this
    {
      turnSpeed > 0.0
      && !(ain1 && ain2) && !(bin1 && bin2)
      && pwmA >= 0.0 && pwmB >= 0.0
      && (stbyClosed ==> !stby)
    }

    /** The state of a wheel's channel. */
    function Channel(w: Wheel): Signal
      reads this
    {
      match w
      case A => Signal(pwmA, ain1, ain2)
      case B => Signal(pwmB, bin1, bin2)
    }

    /** The wheels show what `drive(left, right)` puts on them. */
    ghost predicate Driving(left: real, right: real)
      reads this
    {
      Channel(A) == MotorSignal(WheelCommand(left)) && Channel(B) == MotorSignal(WheelCommand(right))
    }

    /** Both wheels are idle: no duty, both direction pins off. */
    ghost predicate Stopped()
      reads this
    {
      Channel(A) == MotorSignal(0.0) && Channel(B) == MotorSignal(0.0)
    }

    /** The devices start off (duty 0, pins low); STBY is switched on at once. */
    constructor (turnSpeed: real)
      requires turnSpeed > 0.0
      ensures Valid() && Stopped()
      ensures stby && !stbyClosed && currentSpeed == 0.0 && applied == [] && requests == []
      ensures this.turnSpeed == turnSpeed
    {
      this.turnSpeed := turnSpeed;
      pwmA, ain1, ain2 := 0.0, false, false;
      pwmB, bin1, bin2 := 0.0, false, false;
      stby, stbyClosed := true, false;
      currentSpeed := 0.0;
      applied, requests := [], [];
    }

    /** `_set_motor`: writes one channel's pins and duty for a signed speed. */
    method SetMotor(w: Wheel, speed: real)
      requires Valid()
      modifies this
      ensures Valid()
      ensures Channel(w) == MotorSignal(speed)
      ensures w == A ==> Channel(B) == old(Channel(B))
      ensures w == B ==> Channel(A) == old(Channel(A))
      ensures stby == old(stby) && stbyClosed == old(stbyClosed) && currentSpeed == old(currentSpeed)
      ensures applied == old(applied) && requests == old(requests)
    {
      var s := MotorSignal(speed);
      match w
      case A => pwmA, ain1, ain2 := s.pwm, s.in1, s.in2;
      case B => pwmB, bin1, bin2 := s.pwm, s.in1, s.in2;
    }

    /** `_apply_speed`: puts the same speed on both wheels. */
    method ApplySpeed(speed: real)
      requires Valid()
      modifies this
      ensures Valid()
      ensures Channel(A) == MotorSignal(speed) && Channel(B) == MotorSignal(speed)
      ensures applied == old(applied) + [speed]
      ensures stby == old(stby) && stbyClosed == old(stbyClosed) && currentSpeed == old(currentSpeed)
      ensures requests == old(requests)
    {
      SetMotor(A, speed);
      SetMotor(B, speed);
      applied := applied + [speed];
    }

    /** One iteration of the ramp loop of `set_speed`: step the tracker and apply it. */
    method RampOnce(finalPwm: real)
      requires Valid() && Abs(currentSpeed - finalPwm) > RAMP_STEP
      modifies this
      ensures Valid()
      ensures currentSpeed == RampNext(old(currentSpeed), finalPwm)
      ensures Channel(A) == MotorSignal(currentSpeed) && Channel(B) == MotorSignal(currentSpeed)
      ensures applied == old(applied) + [currentSpeed]
      ensures stby == old(stby) && stbyClosed == old(stbyClosed) && requests == old(requests)
    {
      if currentSpeed < finalPwm {
        currentSpeed := currentSpeed + RAMP_STEP;
      } else {
        currentSpeed := currentSpeed - RAMP_STEP;
      }
      ApplySpeed(currentSpeed);
    }

    /**
     * `set_speed`: clamps and remaps the target, walks the tracker toward it
     * in RAMP_STEP increments applying each intermediate value, then lands
     * exactly on it.
     */
    method SetSpeed(targetSpeed: real)
      requires Valid()
      modifies this
      ensures Valid()
      ensures currentSpeed == ThrottleTarget(targetSpeed)
      ensures Channel(A) == MotorSignal(currentSpeed) && Channel(B) == MotorSignal(currentSpeed)
      ensures applied == old(applied) + RampSteps(old(currentSpeed), currentSpeed) + [currentSpeed]
      ensures stby == old(stby) && stbyClosed == old(stbyClosed) && requests == old(requests)
    {
      var target := Clamp(targetSpeed, MIN_SPEED, MAX_SPEED);
      var finalPwm := ThrottleRemap(target);
      ghost var start := currentSpeed;
      while Abs(currentSpeed - finalPwm) > RAMP_STEP
        invariant Valid()
        invariant old(applied) + RampSteps(start, finalPwm) == applied + RampSteps(currentSpeed, finalPwm)
        invariant stby == old(stby) && stbyClosed == old(stbyClosed) && requests == old(requests)
        decreases StepsLeft(currentSpeed, finalPwm)
      {
        ghost var prev := currentSpeed;
        ghost var before := applied;
        RampNextDecreases(prev, finalPwm);
        RampStepsUnfold(prev, finalPwm);
        RampOnce(finalPwm);
        assert before + ([currentSpeed] + RampSteps(currentSpeed, finalPwm))
          == (before + [currentSpeed]) + RampSteps(currentSpeed, finalPwm);
      }
      assert RampSteps(currentSpeed, finalPwm) == [];
      currentSpeed := finalPwm;
      ApplySpeed(currentSpeed);
    }

    /** `move`: the ramped throttle path. */
    method Move(speed: real)
      requires Valid()
      modifies this
      ensures Valid()
      ensures currentSpeed == ThrottleTarget(speed)
      ensures Channel(A) == MotorSignal(currentSpeed) && Channel(B) == MotorSignal(currentSpeed)
      ensures applied == old(applied) + RampSteps(old(currentSpeed), currentSpeed) + [currentSpeed]
      ensures stby == old(stby) && stbyClosed == old(stbyClosed) && requests == old(requests)
    {
      SetSpeed(speed);
    }

    /** `turn_left`: tank turn, left wheel back and right wheel forward. */
    method TurnLeft()
      requires Valid()
      modifies this
      ensures Valid()
      ensures Channel(A) == MotorSignal(-turnSpeed) && Channel(B) == MotorSignal(turnSpeed)
      ensures currentSpeed == 0.0
      ensures stby == old(stby) && stbyClosed == old(stbyClosed)
      ensures applied == old(applied) && requests == old(requests)
    {
      SetMotor(A, -turnSpeed);
      SetMotor(B, turnSpeed);
      currentSpeed := 0.0;
    }

    /** `turn_right`: tank turn, left wheel forward and right wheel back. */
    method TurnRight()
      requires Valid()
      modifies this
      ensures Valid()
      ensures Channel(A) == MotorSignal(turnSpeed) && Channel(B) == MotorSignal(-turnSpeed)
      ensures currentSpeed == 0.0
      ensures stby == old(stby) && stbyClosed == old(stbyClosed)
      ensures applied == old(applied) && requests == old(requests)
    {
      SetMotor(A, turnSpeed);
      SetMotor(B, -turnSpeed);
      currentSpeed := 0.0;
    }

    /** `stop`: instantly when forced, otherwise through the ramp. */
    method Stop(forceStop: bool)
      requires Valid()
      modifies this
      ensures Valid() && Stopped()
      ensures currentSpeed == 0.0
      ensures forceStop ==> applied == old(applied) + [0.0]
      ensures !forceStop ==> applied == old(applied) + RampSteps(old(currentSpeed), 0.0) + [0.0]
      ensures requests == old(requests) + [StopRequest(forceStop)]
      ensures stby == old(stby) && stbyClosed == old(stbyClosed)
    {
      if forceStop {
        currentSpeed := 0.0;
        ApplySpeed(0.0);
      } else {
        SetSpeed(0.0);
      }
      requests := requests + [StopRequest(forceStop)];
    }

    /**
     * `drive`: clamps and remaps each wheel's request and applies it at once,
     * bypassing the ramp; the ramp tracker is left as it was.
     */
    method Drive(leftSpeed: real, rightSpeed: real)
      requires Valid()
      modifies this
      ensures Valid()
      ensures Channel(A) == MotorSignal(WheelCommand(leftSpeed))
      ensures Channel(B) == MotorSignal(WheelCommand(rightSpeed))
      ensures requests == old(requests) + [DriveRequest(leftSpeed, rightSpeed)]
      ensures stby == old(stby) && stbyClosed == old(stbyClosed)
      ensures currentSpeed == old(currentSpeed) && applied == old(applied)
    {
      var l := Clamp(leftSpeed, MIN_SPEED, MAX_SPEED);
      var r := Clamp(rightSpeed, MIN_SPEED, MAX_SPEED);
      var finalLeft := DriveRemap(l);
      var finalRight := DriveRemap(r);
      SetMotor(A, finalLeft);
      SetMotor(B, finalRight);
      requests := requests + [DriveRequest(leftSpeed, rightSpeed)];
    }

    /**
     * `cleanup`: ramps to a stop, then switches STBY off and closes it.
     * On a driver already cleaned up, switching the closed STBY device off
     * raises (gpiozero's `GPIODeviceClosed`); `closedError` reports that.
     */
    method Cleanup() returns (closedError: bool)
      requires Valid()
      modifies this
      ensures Valid() && Stopped()
      ensures currentSpeed == 0.0 && !stby && stbyClosed
      ensures closedError <==> old(stbyClosed)
      ensures applied == old(applied) + RampSteps(old(currentSpeed), 0.0) + [0.0]
      ensures requests == old(requests)
    {
      SetSpeed(0.0);
      if stbyClosed {
        return true;
      }
      stby := false;
      stbyClosed := true;
      return false;
    }
  }

  /**
   * `cleanup` twice: the second call ramps nothing (the tracker is already 0)
   * and applies 0 once more, then raises on the closed STBY device.
   */
  method CleanupTwice(d: MotorDriver) returns (first: bool, second: bool)
    requires d.Valid() && !d.stbyClosed
    modifies d
    ensures !first && second
    ensures d.Valid() && d.Stopped() && d.currentSpeed == 0.0 && !d.stby
    ensures d.applied == old(d.applied) + RampSteps(old(d.currentSpeed), 0.0) + [0.0, 0.0]
  {
    first := d.Cleanup();
    second := d.Cleanup();
    assert RampSteps(0.0, 0.0) == [];
  }
}
