/**
 * The controller of main.py: the mode check of `get_strategy`, and one
 * iteration of the `while True` loop of `main` — a proportional base speed
 * from the front distance, a steering term from the side cushions, the
 * differential mix, and the fixed escape sequence on an unsafe reading.
 *
 * `is_safe` and the three distances arrive as a `Reading`, the four-value
 * shape src/interfaces.py documents for `check_path`.
 */
module Rover {
  import opened Config
  import opened Wrappers
  import Motor

  /** The obstacle strategies `get_strategy` can build. Only the lidar one exists. */
  datatype Strategy = LidarOnly

  datatype StartupError = InvalidMode

  /** `get_strategy`: "lidar" selects the lidar strategy; every other mode raises. */
  function GetStrategy(mode: string): (r: Result<Strategy, StartupError>)
    ensures r.Ok? <==> mode == "lidar"
    ensures r.Ok? ==> r.value == LidarOnly
    ensures r.Err? ==> r.error == InvalidMode
  {
    if mode == "lidar" then Ok(LidarOnly) else Err(InvalidMode)
  }

  /** Modes the command line advertises but `get_strategy` rejects. */
  lemma CameraAndFusionRejected()
    ensures GetStrategy("camera") == Err(InvalidMode)
    ensures GetStrategy("fusion") == Err(InvalidMode)
  {
  }

  /**
   * The two configuration names main.py uses that src/constants.py does not
   * define: STOPPING_DIST_CM and TURN_SPEED.
   */
  datatype Params = Params(stoppingDistCm: real, turnSpeed: real)

  predicate ValidParams(p: Params)
  {
    p.stoppingDistCm < SLOWDOWN_DIST_CM && p.turnSpeed > 0.0
  }

  /** `speed_factor`: 0 at the stopping distance, 1 at the slowdown distance. */
  function SpeedFactor(front: real, stopping: real): (f: real)
    requires stopping < SLOWDOWN_DIST_CM
    ensures f * (SLOWDOWN_DIST_CM - stopping) == front - stopping
  {
    (front - stopping) / (SLOWDOWN_DIST_CM - stopping)
  }

  /** The factor is 0 at the stopping distance and 1 at the slowdown distance. */
  lemma SpeedFactorEnds(stopping: real)
    requires stopping < SLOWDOWN_DIST_CM
    ensures SpeedFactor(stopping, stopping) == 0.0
    ensures SpeedFactor(SLOWDOWN_DIST_CM, stopping) == 1.0
  {
    var d := SLOWDOWN_DIST_CM - stopping;
    var f := SpeedFactor(SLOWDOWN_DIST_CM, stopping);
    if f > 1.0 {
      MulPositive(f - 1.0, d);
    } else if f < 1.0 {
      MulPositive(1.0 - f, d);
    }
  }

  /** The factor grows strictly with the front distance. */
  lemma SpeedFactorIncreasing(front1: real, front2: real, stopping: real)
    requires stopping < SLOWDOWN_DIST_CM && front1 < front2
    ensures SpeedFactor(front1, stopping) < SpeedFactor(front2, stopping)
  {
    var d := SLOWDOWN_DIST_CM - stopping;
    var f1 := SpeedFactor(front1, stopping);
    var f2 := SpeedFactor(front2, stopping);
    if f1 > f2 {
      MulPositive(f1 - f2, d);
    }
  }

  /** `base_speed`: the P-only law, clamped to [MIN_APPROACH_SPEED, DEFAULT_SPEED]. */
  function BaseSpeed(front: real, stopping: real): (v: real)
    requires stopping < SLOWDOWN_DIST_CM
    ensures MIN_APPROACH_SPEED <= v <= DEFAULT_SPEED
  {
    Motor.Clamp(SpeedFactor(front, stopping) * DEFAULT_SPEED, MIN_APPROACH_SPEED, DEFAULT_SPEED)
  }

  lemma MulPositive(a: real, b: real)
    requires a > 0.0 && b > 0.0
    ensures a * b > 0.0
  {
  }

  /** At or beyond the slowdown distance the rover cruises at DEFAULT_SPEED. */
  lemma BaseSpeedCruise(front: real, stopping: real)
    requires stopping < SLOWDOWN_DIST_CM && front >= SLOWDOWN_DIST_CM
    ensures BaseSpeed(front, stopping) == DEFAULT_SPEED
  {
    var d := SLOWDOWN_DIST_CM - stopping;
    var f := SpeedFactor(front, stopping);
    if f < 1.0 {
      MulPositive(1.0 - f, d);
    }
  }

  /** At or inside the stopping distance the rover creeps at MIN_APPROACH_SPEED. */
  lemma BaseSpeedCreep(front: real, stopping: real)
    requires stopping < SLOWDOWN_DIST_CM && front <= stopping
    ensures BaseSpeed(front, stopping) == MIN_APPROACH_SPEED
  {
    var d := SLOWDOWN_DIST_CM - stopping;
    var f := SpeedFactor(front, stopping);
    if f > 0.0 {
      MulPositive(f, d);
    }
  }

  /** A closer obstacle never makes the rover faster. */
  lemma BaseSpeedMonotone(front1: real, front2: real, stopping: real)
    requires stopping < SLOWDOWN_DIST_CM && front1 <= front2
    ensures BaseSpeed(front1, stopping) <= BaseSpeed(front2, stopping)
  {
    var d := SLOWDOWN_DIST_CM - stopping;
    var f1 := SpeedFactor(front1, stopping);
    var f2 := SpeedFactor(front2, stopping);
    if f1 > f2 {
      MulPositive(f1 - f2, d);
    }
    assert f1 * DEFAULT_SPEED <= f2 * DEFAULT_SPEED;
  }

  /** front = 120 cm: cruising at 0.55 whatever the stopping distance. */
  lemma BaseSpeedAt120(stopping: real)
    requires stopping < SLOWDOWN_DIST_CM
    ensures BaseSpeed(120.0, stopping) == 0.55
  {
    BaseSpeedCruise(120.0, stopping);
  }

  /** Midway between stopping (25 cm) and slowdown: half of DEFAULT_SPEED. */
  lemma BaseSpeedMidway()
    ensures SpeedFactor(40.0, 25.0) == 0.5
    ensures BaseSpeed(40.0, 25.0) == 0.5 * DEFAULT_SPEED
  {
  }

  /** How far a side reading intrudes into the cushion, as a fraction of it. */
  function Push(d: real): (q: real)
    requires d < SIDE_CUSHION_DIST_CM
    ensures q > 0.0
    ensures d >= 0.0 ==> q <= 1.0
  {
    (SIDE_CUSHION_DIST_CM - d) / SIDE_CUSHION_DIST_CM
  }

  /** `turn_val`: steer right (positive) away from a left wall, left away from a right one. */
  function TurnValue(left: real, right: real, turnSpeed: real): (t: real)
    ensures left >= SIDE_CUSHION_DIST_CM && right >= SIDE_CUSHION_DIST_CM ==> t == 0.0
    ensures turnSpeed > 0.0 && left < SIDE_CUSHION_DIST_CM <= right ==> t > 0.0
    ensures turnSpeed > 0.0 && right < SIDE_CUSHION_DIST_CM <= left ==> t < 0.0
  {
    var fromLeft := if left < SIDE_CUSHION_DIST_CM then Push(left) * turnSpeed else 0.0;
    var fromRight := if right < SIDE_CUSHION_DIST_CM then Push(right) * turnSpeed else 0.0;
    0.0 + fromLeft - fromRight
  }

  lemma ScaleBound(a: real, t: real)
    requires 0.0 <= a <= 1.0 && t >= 0.0
    ensures 0.0 <= a * t <= t
  {
    assert a * t <= 1.0 * t;
  }

  /** Clear of both cushions, or equally far from both walls: no steering. */
  lemma TurnZeroWhenClearOrCentred(left: real, right: real, turnSpeed: real)
    requires (left >= SIDE_CUSHION_DIST_CM && right >= SIDE_CUSHION_DIST_CM) || left == right
    ensures TurnValue(left, right, turnSpeed) == 0.0
  {
  }

  /** The steering term never exceeds TURN_SPEED in magnitude. */
  lemma TurnBounded(left: real, right: real, turnSpeed: real)
    requires left >= 0.0 && right >= 0.0 && turnSpeed > 0.0
    ensures -turnSpeed <= TurnValue(left, right, turnSpeed) <= turnSpeed
  {
    var fromLeft := 0.0;
    if left < SIDE_CUSHION_DIST_CM {
      var q := Push(left);
      ScaleBound(q, turnSpeed);
      fromLeft := q * turnSpeed;
    }
    var fromRight := 0.0;
    if right < SIDE_CUSHION_DIST_CM {
      var q := Push(right);
      ScaleBound(q, turnSpeed);
      fromRight := q * turnSpeed;
    }
    assert TurnValue(left, right, turnSpeed) == 0.0 + fromLeft - fromRight;
  }

  /** Mirroring the walls mirrors the steering. */
  lemma TurnAntisymmetric(left: real, right: real, turnSpeed: real)
    ensures TurnValue(right, left, turnSpeed) == -TurnValue(left, right, turnSpeed)
  {
  }

  /** The differential mix: the two wheel commands and what they average to. */
  function Mix(baseSpeed: real, turn: real): (m: (real, real))
    ensures m.0 + m.1 == 2.0 * baseSpeed
    ensures m.0 - m.1 == 2.0 * turn
  {
    (baseSpeed + turn, baseSpeed - turn)
  }

  /** What `check_path` hands the loop each tick. */
  datatype Reading = Reading(isSafe: bool, front: real, left: real, right: real)

  /** The motor calls `main` issues. */
  type MotorCall = Motor.Request

  /** `stop(force_stop=True)`, `stop()` and `drive(left, right)`. */
  const ForceStop: MotorCall := Motor.StopRequest(true)
  const RampedStop: MotorCall := Motor.StopRequest(false)
  function DriveCall(left: real, right: real): MotorCall
  {
    Motor.DriveRequest(left, right)
  }

  /** The reverse speed of the escape sequence. */
  const ESCAPE_SPEED: real := -0.3

  /** What one tick decides: a differential drive, or the escape sequence. */
  datatype TickAction = Drive(left: real, right: real) | Escape

  /** One iteration of the loop in `main`. */
  function Tick(r: Reading, p: Params): (a: TickAction)
    requires ValidParams(p)
    ensures a.Escape? <==> !r.isSafe
  {
    var baseSpeed := BaseSpeed(r.front, p.stoppingDistCm);
    var turnVal := TurnValue(r.left, r.right, p.turnSpeed);
    if !r.isSafe then Escape
    else
      var (l, rt) := Mix(baseSpeed, turnVal);
      Drive(l, rt)
  }

  /**
   * A safe tick drives the wheels at the mix of the base speed and the
   * steering term: they average to the base speed and differ by twice the turn.
   */
  lemma TickDrives(r: Reading, p: Params)
    requires ValidParams(p) && r.isSafe
    ensures var a := Tick(r, p);
      && a.Drive?
      && a.left + a.right == 2.0 * BaseSpeed(r.front, p.stoppingDistCm)
      && a.left - a.right == 2.0 * TurnValue(r.left, r.right, p.turnSpeed)
  {
    var m := Mix(BaseSpeed(r.front, p.stoppingDistCm), TurnValue(r.left, r.right, p.turnSpeed));
    assert Tick(r, p) == Drive(m.0, m.1);
  }

  /** The motor calls of one tick, in the order they are issued. */
  function Calls(a: TickAction): (c: seq<MotorCall>)
    ensures |c| > 0
    ensures |c| == 1 <==> a.Drive?
    ensures c[|c| - 1] == if a.Drive? then DriveCall(a.left, a.right) else RampedStop
    ensures a.Escape? ==> && c[0] == ForceStop
                          && c[1].DriveRequest? && c[1].left == c[1].right < 0.0
  {
    match a
    case Drive(l, r) => [DriveCall(l, r)]
    case Escape => [ForceStop, DriveCall(ESCAPE_SPEED, ESCAPE_SPEED), RampedStop]
  }

  /**
   * A safe tick issues exactly one `drive`, with wheel commands inside
   * [MIN_APPROACH_SPEED - TURN_SPEED, DEFAULT_SPEED + TURN_SPEED]; an unsafe one
   * issues force stop, reverse, ramped stop and no normal `drive`.
   */
  lemma TickCalls(r: Reading, p: Params)
    requires ValidParams(p) && r.left >= 0.0 && r.right >= 0.0
    ensures r.isSafe ==> |Calls(Tick(r, p))| == 1 && Calls(Tick(r, p))[0].DriveRequest?
    ensures r.isSafe ==> var c := Calls(Tick(r, p))[0];
      && MIN_APPROACH_SPEED - p.turnSpeed <= c.left <= DEFAULT_SPEED + p.turnSpeed
      && MIN_APPROACH_SPEED - p.turnSpeed <= c.right <= DEFAULT_SPEED + p.turnSpeed
    ensures !r.isSafe ==> Calls(Tick(r, p)) == [ForceStop, DriveCall(-0.3, -0.3), RampedStop]
  {
    TurnBounded(r.left, r.right, p.turnSpeed);
  }

  /** How the loop ended: normally once the readings run out, or with an exception. */
  datatype LoopError = UnboundMotorSpeed(tick: nat)

  /** The calls the loop issued, and the exception that ended it if one did. */
  datatype Trace = Trace(calls: seq<MotorCall>, failure: Option<LoopError>)

  /** What each tick decides, reading by reading. */
  function Decisions(readings: seq<Reading>, p: Params): (acts: seq<TickAction>)
    requires ValidParams(p)
    ensures |acts| == |readings|
    ensures forall i :: 0 <= i < |readings| ==> acts[i] == Tick(readings[i], p)
  {
    seq(|readings|, i requires 0 <= i < |readings| => Tick(readings[i], p))
  }

  /**
   * The loop from tick `k` on, given what every tick decides. `lastMix` holds
   * `left_motor_speed` and `right_motor_speed` once a safe tick has assigned
   * them; the unsafe branch formats them into its log line before any motor
   * call, so an escape with nothing assigned yet raises.
   */
  function Run(acts: seq<TickAction>, k: nat, lastMix: Option<(real, real)>): (t: Trace)
    requires k <= |acts|
    ensures t.failure.Some? ==>
      && lastMix.None? && k < |acts| && acts[k].Escape?
      && t == Trace([], Some(UnboundMotorSpeed(k)))
    decreases |acts| - k
  {
    if k == |acts| then Trace([], None)
    else
      var a := acts[k];
      if a.Escape? && lastMix.None? then Trace([], Some(UnboundMotorSpeed(k)))
      else
        var rest := Run(acts, k + 1, NextMix(a, lastMix));
        Trace(Calls(a) + rest.calls, rest.failure)
  }

  /** The loop over the readings from tick `k` on. */
  function RunFrom(readings: seq<Reading>, p: Params, k: nat, lastMix: Option<(real, real)>): (t: Trace)
    requires ValidParams(p) && k <= |readings|
    ensures t.failure.Some? ==>
      && lastMix.None? && k < |readings| && !readings[k].isSafe
      && t == Trace([], Some(UnboundMotorSpeed(k)))
  {
    Run(Decisions(readings, p), k, lastMix)
  }

  /** The wheel speeds assigned after a tick: a safe tick's mix, otherwise the previous ones. */
  function NextMix(a: TickAction, lastMix: Option<(real, real)>): (m: Option<(real, real)>)
    ensures a.Drive? ==> m == Some((a.left, a.right))
    ensures a.Escape? ==> m == lastMix
    ensures lastMix.Some? ==> m.Some?
    ensures m.None? <==> lastMix.None? && a.Escape?
  {
    match a
    case Drive(l, r) => Some((l, r))
    case Escape => lastMix
  }

  /** The pair of wheel speeds, once both are assigned. */
  function MixOf(left: Option<real>, right: Option<real>): Option<(real, real)>
  {
    if left.Some? && right.Some? then Some((left.value, right.value)) else None
  }

  /** Every tick's calls, one tick after another, from tick `k` on. */
  function AllCalls(readings: seq<Reading>, p: Params, k: nat): seq<MotorCall>
    requires ValidParams(p) && k <= |readings|
    decreases |readings| - k
  {
    if k == |readings| then [] else Calls(Tick(readings[k], p)) + AllCalls(readings, p, k + 1)
  }

  /** Once a safe tick has assigned the wheel speeds, the loop never raises. */
  lemma {:induction false} RunWithMixNeverFails(readings: seq<Reading>, p: Params, k: nat, m: (real, real))
    requires ValidParams(p) && k <= |readings|
    ensures RunFrom(readings, p, k, Some(m)) == Trace(AllCalls(readings, p, k), None)
    decreases |readings| - k
  {
    if k < |readings| {
      match Tick(readings[k], p)
      case Escape =>
        RunWithMixNeverFails(readings, p, k + 1, m);
      case Drive(l, r) =>
        RunWithMixNeverFails(readings, p, k + 1, (l, r));
    }
  }

  /**
   * The loop raises exactly when its very first reading is unsafe, and then
   * before issuing any motor call; otherwise it issues every tick's calls.
   */
  lemma LoopFailsIffFirstTickUnsafe(readings: seq<Reading>, p: Params)
    requires ValidParams(p)
    ensures var t := RunFrom(readings, p, 0, None);
      && (t.failure.Some? <==> |readings| > 0 && !readings[0].isSafe)
      && (t.failure.Some? ==> t == Trace([], Some(UnboundMotorSpeed(0))))
      && (t.failure.None? ==> t.calls == AllCalls(readings, p, 0))
  {
    if |readings| > 0 && readings[0].isSafe {
      match Tick(readings[0], p)
      case Drive(l, r) =>
        RunWithMixNeverFails(readings, p, 1, (l, r));
    }
  }

  /**
   * The escape sequence on the driver. `drive` leaves the ramp tracker at the
   * 0 the forced stop set, so the closing `stop()` applies 0 with no ramp.
   */
  method EscapeManoeuvre(rover: Motor.MotorDriver)
    requires rover.Valid()
    modifies rover
    ensures rover.Valid() && rover.Stopped()
    ensures rover.currentSpeed == 0.0 && rover.stby == old(rover.stby)
    ensures rover.applied == old(rover.applied) + [0.0, 0.0]
    ensures rover.requests == old(rover.requests) + Calls(Escape)
  {
    rover.Stop(true);
    rover.Drive(ESCAPE_SPEED, ESCAPE_SPEED);
    rover.Stop(false);
    assert Motor.RampSteps(0.0, 0.0) == [];
  }

  /** Carries out one tick's decision on the driver. */
  method Execute(rover: Motor.MotorDriver, a: TickAction)
    requires rover.Valid()
    modifies rover
    ensures rover.Valid() && rover.stby == old(rover.stby)
    ensures a.Drive? ==>
      && rover.Channel(Motor.A) == Motor.MotorSignal(Motor.WheelCommand(a.left))
      && rover.Channel(Motor.B) == Motor.MotorSignal(Motor.WheelCommand(a.right))
      && rover.currentSpeed == old(rover.currentSpeed) && rover.applied == old(rover.applied)
    ensures a.Escape? ==>
      rover.Stopped() && rover.currentSpeed == 0.0 && rover.applied == old(rover.applied) + [0.0, 0.0]
    ensures rover.requests == old(rover.requests) + Calls(a)
  {
    match a
    case Drive(l, r) => rover.Drive(l, r);
    case Escape => EscapeManoeuvre(rover);
  }

  /**
   * One iteration of the `while True` loop of `main`, given the wheel speeds
   * the previous iterations left assigned (None while unbound). Reports
   * whether it raised and the calls it issued.
   */
  method LoopIteration(reading: Reading, p: Params, leftMotorSpeed: Option<real>, rightMotorSpeed: Option<real>,
                       rover: Motor.MotorDriver)
    returns (raised: bool, issued: seq<MotorCall>, newLeft: Option<real>, newRight: Option<real>)
    requires ValidParams(p) && rover.Valid() && p.turnSpeed == rover.turnSpeed
    requires leftMotorSpeed.Some? <==> rightMotorSpeed.Some?
    modifies rover
    ensures raised <==> !reading.isSafe && leftMotorSpeed.None?
    ensures raised ==> issued == [] && unchanged(rover)
    ensures !raised ==> issued == Calls(Tick(reading, p))
    ensures MixOf(newLeft, newRight) == NextMix(Tick(reading, p), MixOf(leftMotorSpeed, rightMotorSpeed))
    ensures newLeft.Some? <==> newRight.Some?
    ensures reading.isSafe ==> newLeft.Some?
    ensures !reading.isSafe ==> newLeft == leftMotorSpeed
    ensures rover.Valid() && rover.stby == old(rover.stby)
    ensures !reading.isSafe && !raised ==> rover.Stopped() && rover.currentSpeed == 0.0
    ensures !raised ==> rover.requests == old(rover.requests) + issued
    ensures reading.isSafe ==> issued == [DriveCall(newLeft.value, newRight.value)]
    ensures !reading.isSafe && !raised ==> issued == Calls(Escape)
    ensures !reading.isSafe && !raised ==> rover.applied == old(rover.applied) + [0.0, 0.0]
    ensures reading.isSafe ==>
      && rover.Channel(Motor.A) == Motor.MotorSignal(Motor.WheelCommand(newLeft.value))
      && rover.Channel(Motor.B) == Motor.MotorSignal(Motor.WheelCommand(newRight.value))
      && rover.currentSpeed == old(rover.currentSpeed) && rover.applied == old(rover.applied)
  {
    newLeft, newRight := leftMotorSpeed, rightMotorSpeed;
    var baseSpeed := BaseSpeed(reading.front, p.stoppingDistCm);
    var turnVal := TurnValue(reading.left, reading.right, p.turnSpeed);
    if !reading.isSafe {
      if leftMotorSpeed.None? {
        return true, [], newLeft, newRight;
      }
      Execute(rover, Escape);
      return false, Calls(Escape), newLeft, newRight;
    }
    var l := baseSpeed + turnVal;
    var r := baseSpeed - turnVal;
    newLeft, newRight := Some(l), Some(r);
    Execute(rover, Drive(l, r));
    return false, Calls(Drive(l, r)), newLeft, newRight;
  }

  /**
   * `acts` holds what each tick decides for `readings`. The quantifier fires
   * only where a tick's decision is computed, so the decisions can be handed
   * around without unfolding the control law.
   */
  ghost predicate Decided(acts: seq<TickAction>, readings: seq<Reading>, p: Params)
    requires ValidParams(p)
  {
    && |acts| == |readings|
    && forall i {:trigger Tick(readings[i], p)} :: 0 <= i < |readings| ==> acts[i] == Tick(readings[i], p)
  }

  lemma DecisionsDecided(readings: seq<Reading>, p: Params) returns (acts: seq<TickAction>)
    requires ValidParams(p)
    ensures Decided(acts, readings, p)
  {
    acts := Decisions(readings, p);
  }

  lemma DecidedIsDecisions(acts: seq<TickAction>, readings: seq<Reading>, p: Params)
    requires ValidParams(p) && Decided(acts, readings, p)
    ensures acts == Decisions(readings, p)
  {
    var d := Decisions(readings, p);
    assert forall i | 0 <= i < |acts| :: acts[i] == d[i];
  }

  /**
   * The loop has issued `calls` over the first `k` ticks, leaving the wheel
   * speeds `mix`, and the rest of the run `whole` is still ahead of it; the
   * last call is the last tick's `drive`, or the ramped stop of its escape.
   */
  ghost predicate Progress(acts: seq<TickAction>, k: nat, whole: Trace, calls: seq<MotorCall>,
                           mix: Option<(real, real)>)
  {
    && k <= |acts|
    && (k > 0 ==> mix.Some? && |calls| > 0)
    && whole.calls == calls + Run(acts, k, mix).calls
    && whole.failure == Run(acts, k, mix).failure
    && (k > 0 && acts[k - 1].Drive? ==> calls[|calls| - 1] == DriveCall(mix.value.0, mix.value.1))
    && (k > 0 && acts[k - 1].Escape? ==> calls[|calls| - 1] == RampedStop)
  }

  /** A tick that does not raise carries the loop's progress one tick further. */
  lemma ProgressStep(acts: seq<TickAction>, k: nat, whole: Trace, calls: seq<MotorCall>,
                     mix: Option<(real, real)>, issued: seq<MotorCall>, newMix: Option<(real, real)>)
    requires Progress(acts, k, whole, calls, mix) && k < |acts|
    requires !(acts[k].Escape? && mix.None?)
    requires issued == Calls(acts[k]) && newMix == NextMix(acts[k], mix)
    ensures Progress(acts, k + 1, whole, calls + issued, newMix)
  {
    var rest := Run(acts, k + 1, newMix);
    assert (calls + issued) + rest.calls == calls + (issued + rest.calls);
    assert (calls + issued)[|calls + issued| - 1] == issued[|issued| - 1];
  }

  /**
   * The driver, whose request log read `log0` and whose STBY line was `stby0`,
   * has since received `calls`: its wheels show the last call when that is a
   * `drive`, and are idle when it is a ramped stop.
   */
  ghost predicate CarriedOut(rover: Motor.MotorDriver, log0: seq<MotorCall>, stby0: bool, calls: seq<MotorCall>)
    reads rover
  {
    && rover.Valid() && rover.stby == stby0
    && rover.requests == log0 + calls
    && (|calls| > 0 && calls[|calls| - 1].DriveRequest? ==>
      rover.Driving(calls[|calls| - 1].left, calls[|calls| - 1].right))
    && (|calls| > 0 && calls[|calls| - 1] == RampedStop ==> rover.Stopped() && rover.currentSpeed == 0.0)
  }

  /** Receiving `issued` after `calls` is receiving `calls + issued`. */
  lemma CarriedOutStep(rover: Motor.MotorDriver, log0: seq<MotorCall>, stby0: bool,
                       calls: seq<MotorCall>, issued: seq<MotorCall>)
    requires rover.Valid() && rover.stby == stby0 && |issued| > 0
    requires rover.requests == (log0 + calls) + issued
    requires issued[|issued| - 1].DriveRequest? ==>
      && rover.Channel(Motor.A) == Motor.MotorSignal(Motor.WheelCommand(issued[|issued| - 1].left))
      && rover.Channel(Motor.B) == Motor.MotorSignal(Motor.WheelCommand(issued[|issued| - 1].right))
    requires issued[|issued| - 1] == RampedStop ==> rover.Stopped() && rover.currentSpeed == 0.0
    ensures CarriedOut(rover, log0, stby0, calls + issued)
  {
    assert (calls + issued)[|calls + issued| - 1] == issued[|issued| - 1];
    assert (log0 + calls) + issued == log0 + (calls + issued);
  }

  /**
   * One iteration of the loop, together with what it means for the run:
   * either it raises at the very first reading, or the loop's progress and
   * what the driver has received both move one reading on.
   */
  method Iterate(readings: seq<Reading>, p: Params, k: nat, rover: Motor.MotorDriver,
                 leftMotorSpeed: Option<real>, rightMotorSpeed: Option<real>, ghost acts: seq<TickAction>,
                 ghost whole: Trace, ghost calls: seq<MotorCall>, ghost log0: seq<MotorCall>, ghost stby0: bool)
    returns (raised: bool, issued: seq<MotorCall>, newLeft: Option<real>, newRight: Option<real>)
    requires ValidParams(p) && k < |readings| && p.turnSpeed == rover.turnSpeed
    requires leftMotorSpeed.Some? <==> rightMotorSpeed.Some?
    requires Decided(acts, readings, p)
    requires Progress(acts, k, whole, calls, MixOf(leftMotorSpeed, rightMotorSpeed))
    requires CarriedOut(rover, log0, stby0, calls)
    modifies rover
    ensures newLeft.Some? <==> newRight.Some?
    ensures raised ==> leftMotorSpeed.None? && unchanged(rover)
    ensures raised ==> newLeft == leftMotorSpeed && newRight == rightMotorSpeed
    ensures raised ==> Run(acts, k, None) == Trace([], Some(UnboundMotorSpeed(k)))
    ensures !raised ==> newLeft.Some?
    ensures !raised ==> Progress(acts, k + 1, whole, calls + issued, MixOf(newLeft, newRight))
    ensures !raised ==> CarriedOut(rover, log0, stby0, calls + issued)
  {
    ghost var m := MixOf(leftMotorSpeed, rightMotorSpeed);
    raised, issued, newLeft, newRight := LoopIteration(readings[k], p, leftMotorSpeed, rightMotorSpeed, rover);
    assert acts[k] == Tick(readings[k], p);
    if raised {
      return;
    }
    ProgressStep(acts, k, whole, calls, m, issued, MixOf(newLeft, newRight));
    CarriedOutStep(rover, log0, stby0, calls, issued);
  }

  /**
   * The `while True` loop of `main` over a finite series of readings. It
   * returns the motor calls issued, in order, and the exception that ended
   * it, if any; the rover carries the calls out as they are decided.
   */
  method ControlLoop(readings: seq<Reading>, p: Params, rover: Motor.MotorDriver)
    returns (calls: seq<MotorCall>, failure: Option<LoopError>)
    requires ValidParams(p) && rover.Valid() && p.turnSpeed == rover.turnSpeed
    modifies rover
    ensures Trace(calls, failure) == RunFrom(readings, p, 0, None)
    ensures rover.requests == old(rover.requests) + calls
    ensures |calls| > 0 && calls[|calls| - 1].DriveRequest? ==>
      rover.Driving(calls[|calls| - 1].left, calls[|calls| - 1].right)
    ensures rover.Valid() && rover.stby == old(rover.stby)
    ensures failure.Some? ==> unchanged(rover)
    ensures failure.None? && |readings| > 0 && !readings[|readings| - 1].isSafe ==>
      rover.Stopped() && rover.currentSpeed == 0.0
  {
    calls, failure := [], None;
    var leftMotorSpeed: Option<real> := None;
    var rightMotorSpeed: Option<real> := None;
    var k := 0;
    ghost var acts := DecisionsDecided(readings, p);
    ghost var whole := Run(acts, 0, None);
    while k < |readings| && failure.None?
      invariant k <= |readings|
      invariant Progress(acts, k, whole, calls, MixOf(leftMotorSpeed, rightMotorSpeed))
      invariant CarriedOut(rover, old(rover.requests), old(rover.stby), calls)
      invariant leftMotorSpeed.Some? <==> rightMotorSpeed.Some?
      invariant k == 0 ==> leftMotorSpeed.None? && calls == [] && unchanged(rover)
      invariant k > 0 ==> leftMotorSpeed.Some?
      invariant failure.Some? ==> k == 0 && whole == Trace([], failure)
      decreases |readings| - k, if failure.None? then 1 else 0
    {
      var raised, issued;
      raised, issued, leftMotorSpeed, rightMotorSpeed := Iterate(readings, p, k, rover,
        leftMotorSpeed, rightMotorSpeed, acts, whole, calls, old(rover.requests), old(rover.stby));
      if raised {
        failure := Some(UnboundMotorSpeed(k));
      } else {
        calls := calls + issued;
        k := k + 1;
      }
    }
    DecidedIsDecisions(acts, readings, p);
  }
}
