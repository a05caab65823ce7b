/** The swerve drivetrain's command pipeline (DriveSubsystem): the speed gate that
    picks the full or the limited speed profile, the polar slew-rate limiter that
    smooths the translation command, the pass-through used when rate limiting is
    off, the scaling into physical units, and the hand-off of four module targets.

    `DriveCycle` states in one expression what a call of `drive` does to the
    subsystem's state; `DriveSubsystem.Drive` is the step-by-step method, proved to
    agree with it, and the lemmas below state the source's promises about it. */
module Drivetrain {
  import opened WpiLib

  /** The robot's DriveConstants, OIConstants and the two safe-envelope bounds of
      AltitudeConstants and ExtensionConstants. Their values are configuration,
      supplied at construction. */
  datatype DriveConstants = DriveConstants(
    kMaxSpeedMetersPerSecond: real,
    kMaxLimitedSpeedMetersPerSecond: real,
    kMaxAngularSpeed: real,
    kMaxLimitedAngularSpeed: real,
    kDirectionSlewRate: real,
    kMagnitudeSlewRate: real,
    kRotationalSlewRate: real,
    kAltitudeSafeMin: real,
    kExtensionSafeMax: real)

  /** What one control cycle reads from outside the drivetrain: the clock
      (`WPIUtilJNI.now()`, microseconds), the gyro's angle and pitch (degrees),
      `RobotState.isAutonomous()`, and the positions reported by the separate
      Altitude and Extension subsystems, which are not part of this model. */
  datatype RobotInputs = RobotInputs(
    nowMicros: real,
    gyroAngle: real,
    gyroPitch: real,
    isAutonomous: bool,
    altitude: real,
    extensionPosition: real)

  /** The arguments of one `drive` call. */
  datatype DriveRequest = DriveRequest(
    speedLimit: bool,
    inputSpeed: real,
    forwardDirection: real,
    sidewaysDirection: real,
    rotDirection: real,
    fieldRelative: bool,
    rateLimit: bool)

  /** The slew-rate state `drive` carries from one call to the next. */
  datatype SlewState = SlewState(
    currentTranslationDir: real,
    currentTranslationMag: real,
    currentRotation: real,
    prevTime: real,
    magLimiter: Limiter,
    rotLimiter: Limiter)

  /** The desired states last handed to the four swerve modules. */
  datatype ModuleTargets = ModuleTargets(
    frontLeft: ModuleState,
    frontRight: ModuleState,
    rearLeft: ModuleState,
    rearRight: ModuleState)

  /** A translation command: forward and sideways fractions. */
  datatype Translation = Translation(forward: real, sideways: real)

  /** The speed and rotation after scaling by the selected profile. */
  datatype Profile = Profile(speed: real, rotation: real)

  /** Everything one `drive` call produces: the new slew state, the chassis
      speeds before any frame change, the speeds given to the kinematics, and the
      module targets. */
  datatype DriveOutcome = DriveOutcome(
    slew: SlewState,
    delivered: ChassisSpeeds,
    chassis: ChassisSpeeds,
    targets: ModuleTargets)

  /** One cycle of a sequence of `drive` calls. */
  datatype Cycle = Cycle(request: DriveRequest, inputs: RobotInputs)

  /** Converts `WPIUtilJNI.now()` microseconds to seconds. */
  const MICROS_TO_SECONDS: real := 0.000001
  /** Direction slew rate used when the robot is not translating. */
  const INSTANT_DIRECTION_SLEW_RATE: real := 500.0
  /** Magnitudes at or below this count as stopped. */
  const MAGNITUDE_EPSILON: real := 0.0001

  function Abs(x: real): real {
    if x < 0.0 then -x else x
  }

  /** The clock reading in seconds, as `drive` and the limiters use it. */
  function Seconds(io: RobotInputs): real {
    io.nowMicros * MICROS_TO_SECONDS
  }

  /** Whether the superstructure lets the robot drive at full speed: always in
      autonomous; in teleop only while the altitude is strictly above its safe
      minimum and the extension strictly below its safe maximum. */
  function IsWithinSafeDrivingLimits(k: DriveConstants, io: RobotInputs): (r: bool)
    ensures io.isAutonomous ==> r
    ensures !io.isAutonomous ==>
      (r <==> io.altitude > k.kAltitudeSafeMin && io.extensionPosition < k.kExtensionSafeMax)
  {
    var altitudeInSafeLimit := io.altitude > k.kAltitudeSafeMin;
    var extensionInSafeLimit := io.extensionPosition < k.kExtensionSafeMax;
    io.isAutonomous || (altitudeInSafeLimit && extensionInSafeLimit)
  }

  /** The speed gate: the limited maxima apply when the caller asks for a speed
      limit or the superstructure is outside its safe envelope, the full maxima
      otherwise; autonomous mode never forces the limited profile. */
  function ScaleToProfile(k: DriveConstants, req: DriveRequest, io: RobotInputs): (p: Profile)
    ensures req.speedLimit || !IsWithinSafeDrivingLimits(k, io) ==>
      p.speed == req.inputSpeed * k.kMaxLimitedSpeedMetersPerSecond &&
      p.rotation == req.rotDirection * k.kMaxLimitedAngularSpeed
    ensures !req.speedLimit && IsWithinSafeDrivingLimits(k, io) ==>
      p.speed == req.inputSpeed * k.kMaxSpeedMetersPerSecond &&
      p.rotation == req.rotDirection * k.kMaxAngularSpeed
    ensures !req.speedLimit && io.isAutonomous ==>
      p == Profile(req.inputSpeed * k.kMaxSpeedMetersPerSecond, req.rotDirection * k.kMaxAngularSpeed)
  {
    var speed :=
      if req.speedLimit || !IsWithinSafeDrivingLimits(k, io)
      then req.inputSpeed * k.kMaxLimitedSpeedMetersPerSecond
      else req.inputSpeed * k.kMaxSpeedMetersPerSecond;
    var rotation :=
      if req.speedLimit || !IsWithinSafeDrivingLimits(k, io)
      then req.rotDirection * k.kMaxLimitedAngularSpeed
      else req.rotDirection * k.kMaxAngularSpeed;
    Profile(speed, rotation)
  }

  /** How fast the translation direction may turn: inversely proportional to the
      current magnitude, and a large constant when the robot is not translating,
      so that there is never a division by zero. */
  function DirectionSlewRate(k: DriveConstants, currentMag: real): (r: real)
    ensures r >= 0.0
    ensures currentMag == 0.0 ==> r == INSTANT_DIRECTION_SLEW_RATE
    ensures currentMag != 0.0 ==> r * Abs(currentMag) == Abs(k.kDirectionSlewRate)
  {
    if currentMag != 0.0 then
      var r := Abs(k.kDirectionSlewRate / currentMag);
      assert r * Abs(currentMag) == Abs(k.kDirectionSlewRate) by {
        assert (k.kDirectionSlewRate / currentMag) * currentMag == k.kDirectionSlewRate;
      }
      r
    else
      INSTANT_DIRECTION_SLEW_RATE
  }

  /** The largest change of direction allowed in this cycle: the direction slew
      rate times the time elapsed since the previous rate-limited call. */
  function DirectionStep(k: DriveConstants, s: SlewState, currentTime: real): real {
    var directionSlewRate := DirectionSlewRate(k, s.currentTranslationMag);
    var elapsedTime := currentTime - s.prevTime;
    directionSlewRate * elapsedTime
  }

  /** The translation half of the polar rate limiter: the new direction, the new
      magnitude (the magnitude limiter's output) and the new time stamp. The
      magnitude is ramped towards the input only while steering gently or right
      after a flip, and slowed towards zero otherwise. */
  function PolarStep(k: DriveConstants, lib: Library, s: SlewState,
                     inputDir: real, inputMag: real, currentTime: real): SlewState
  {
    var step := DirectionStep(k, s, currentTime);
    var angleDif := lib.angleDifference(inputDir, s.currentTranslationDir);
    var dir :=
      if angleDif < 0.45 * PI then
        lib.stepTowardsCircular(s.currentTranslationDir, inputDir, step)
      else if angleDif > 0.85 * PI then
        (if s.currentTranslationMag > MAGNITUDE_EPSILON then s.currentTranslationDir
         else lib.wrapAngle(s.currentTranslationDir + PI))
      else
        lib.stepTowardsCircular(s.currentTranslationDir, inputDir, step);
    var target :=
      if angleDif < 0.45 * PI then inputMag
      else if angleDif > 0.85 * PI then
        (if s.currentTranslationMag > MAGNITUDE_EPSILON then 0.0 else inputMag)
      else 0.0;
    var mag := lib.calculate(s.magLimiter, target, currentTime);
    s.(currentTranslationDir := dir, currentTranslationMag := mag.prevVal, magLimiter := mag, prevTime := currentTime)
  }

  /** The rate-limited path of `drive`: the polar limiter on the translation
      and the rotation limiter on the (already scaled) rotation. */
  function RateLimitedStep(k: DriveConstants, lib: Library, s: SlewState,
                           forward: real, sideways: real, rotation: real, currentTime: real): SlewState
  {
    var inputDir := lib.atan2(sideways, forward);
    var inputMag := lib.hypot(forward, sideways);
    var polar := PolarStep(k, lib, s, inputDir, inputMag, currentTime);
    var rot := lib.calculate(s.rotLimiter, rotation, currentTime);
    polar.(currentRotation := rot.prevVal, rotLimiter := rot)
  }

  /** The translation a polar state commands, in Cartesian form. */
  function PolarToCartesian(lib: Library, s: SlewState): Translation {
    Translation(s.currentTranslationMag * lib.cos(s.currentTranslationDir),
                s.currentTranslationMag * lib.sin(s.currentTranslationDir))
  }

  /** The slew state after one `drive` call and the translation it commands. */
  function SlewUpdate(k: DriveConstants, lib: Library, s: SlewState,
                      req: DriveRequest, io: RobotInputs): (SlewState, Translation)
  {
    var p := ScaleToProfile(k, req, io);
    if req.rateLimit then
      var s' := RateLimitedStep(k, lib, s, req.forwardDirection, req.sidewaysDirection, p.rotation, Seconds(io));
      (s', PolarToCartesian(lib, s'))
    else
      (s.(currentRotation := p.rotation), Translation(req.forwardDirection, req.sidewaysDirection))
  }

  /** One `drive` call: slew update, conversion to physical units (rotation is
      scaled by the angular maximum a second time, as the source does), the frame
      change, kinematics and desaturation. */
  function DriveCycle(k: DriveConstants, lib: Library, s: SlewState,
                      req: DriveRequest, io: RobotInputs): DriveOutcome
    requires lib.WellFormed()
  {
    var (s', t) := SlewUpdate(k, lib, s, req, io);
    var p := ScaleToProfile(k, req, io);
    var delivered := ChassisSpeeds(t.forward * p.speed, t.sideways * p.speed,
                                   s'.currentRotation * k.kMaxAngularSpeed);
    var chassis :=
      if req.fieldRelative
      then lib.fromFieldRelativeSpeeds(delivered.vx, delivered.vy, delivered.omega, -io.gyroAngle)
      else delivered;
    var states := lib.desaturateWheelSpeeds(lib.toSwerveModuleStates(chassis), k.kMaxSpeedMetersPerSecond);
    DriveOutcome(s', delivered, chassis, ModuleTargets(states[0], states[1], states[2], states[3]))
  }

  /** The arguments of `stop()`. */
  function StopRequest(): DriveRequest {
    DriveRequest(false, 0.0, 0.0, 0.0, 0.0, true, false)
  }

  /** The arguments of `turn(speed)`. */
  function TurnRequest(speed: real): DriveRequest {
    DriveRequest(false, 0.0, 0.0, 0.0, speed, true, false)
  }

  /** The X formation `lock()` sets: every wheel stopped, the front-left and
      rear-right wheels at 45 degrees, the other two at -45 degrees. */
  function XFormation(): (m: ModuleTargets)
    ensures m.frontLeft.speed == m.frontRight.speed == m.rearLeft.speed == m.rearRight.speed == 0.0
    ensures 4.0 * m.frontLeft.angle == PI && m.rearRight.angle == m.frontLeft.angle
    ensures m.frontRight.angle == m.rearLeft.angle == -m.frontLeft.angle
  {
    ModuleTargets(ModuleState(0.0, Degrees(45.0)), ModuleState(0.0, Degrees(-45.0)),
                  ModuleState(0.0, Degrees(-45.0)), ModuleState(0.0, Degrees(45.0)))
  }

  // ---------------------------------------------------------------------------
  // Properties of one call

  /** Without rate limiting the raw forward and sideways inputs are commanded
      unchanged, the rotation becomes the profile-scaled input, and the
      translation direction, magnitude, time stamp and both limiters are untouched. */
  lemma BypassPassesInputsThrough(k: DriveConstants, lib: Library, s: SlewState, req: DriveRequest, io: RobotInputs)
    requires !req.rateLimit
    ensures SlewUpdate(k, lib, s, req, io).1 == Translation(req.forwardDirection, req.sidewaysDirection)
    ensures SlewUpdate(k, lib, s, req, io).0 ==
      s.(currentRotation := ScaleToProfile(k, req, io).rotation)
  {
  }

  /** The four branches of the polar limiter, as the source orders them. */
  lemma PolarStepBranches(k: DriveConstants, lib: Library, s: SlewState,
                          inputDir: real, inputMag: real, currentTime: real)
    ensures var s' := PolarStep(k, lib, s, inputDir, inputMag, currentTime);
      var angleDif := lib.angleDifference(inputDir, s.currentTranslationDir);
      var step := DirectionStep(k, s, currentTime);
      && s'.prevTime == currentTime
      && s'.currentRotation == s.currentRotation && s'.rotLimiter == s.rotLimiter
      && s'.currentTranslationMag == s'.magLimiter.prevVal
      && (angleDif < 0.45 * PI ==>
            s'.currentTranslationDir == lib.stepTowardsCircular(s.currentTranslationDir, inputDir, step) &&
            s'.magLimiter == lib.calculate(s.magLimiter, inputMag, currentTime))
      && (0.45 * PI <= angleDif <= 0.85 * PI ==>
            s'.currentTranslationDir == lib.stepTowardsCircular(s.currentTranslationDir, inputDir, step) &&
            s'.magLimiter == lib.calculate(s.magLimiter, 0.0, currentTime))
      && (angleDif > 0.85 * PI && s.currentTranslationMag > MAGNITUDE_EPSILON ==>
            s'.currentTranslationDir == s.currentTranslationDir &&
            s'.magLimiter == lib.calculate(s.magLimiter, 0.0, currentTime))
      && (angleDif > 0.85 * PI && s.currentTranslationMag <= MAGNITUDE_EPSILON ==>
            s'.currentTranslationDir == lib.wrapAngle(s.currentTranslationDir + PI) &&
            s'.magLimiter == lib.calculate(s.magLimiter, inputMag, currentTime))
  {
  }

  /** On the rate-limited path the time stamp becomes the current time, the
      commanded translation is the polar state in Cartesian form, and the rotation
      is the rotation limiter's output for the profile-scaled input. */
  lemma RateLimitedCommandIsPolar(k: DriveConstants, lib: Library, s: SlewState, req: DriveRequest, io: RobotInputs)
    requires req.rateLimit
    ensures var (s', t) := SlewUpdate(k, lib, s, req, io);
      && s'.prevTime == Seconds(io)
      && t == Translation(s'.currentTranslationMag * lib.cos(s'.currentTranslationDir),
                          s'.currentTranslationMag * lib.sin(s'.currentTranslationDir))
      && s'.rotLimiter == lib.calculate(s.rotLimiter, ScaleToProfile(k, req, io).rotation, Seconds(io))
      && s'.currentRotation == s'.rotLimiter.prevVal
  {
  }

  /** Translation is scaled by the selected profile's speed; rotation is scaled by
      the selected angular maximum and then by the full angular maximum again. */
  lemma DeliveredScaling(k: DriveConstants, lib: Library, s: SlewState, req: DriveRequest, io: RobotInputs)
    requires lib.WellFormed()
    ensures var out := DriveCycle(k, lib, s, req, io);
      && out.delivered.vx == SlewUpdate(k, lib, s, req, io).1.forward * ScaleToProfile(k, req, io).speed
      && out.delivered.vy == SlewUpdate(k, lib, s, req, io).1.sideways * ScaleToProfile(k, req, io).speed
      && out.delivered.omega == out.slew.currentRotation * k.kMaxAngularSpeed
      && (!req.rateLimit ==>
            out.delivered.omega == ScaleToProfile(k, req, io).rotation * k.kMaxAngularSpeed)
      && (!req.fieldRelative ==> out.chassis == out.delivered)
  {
  }

  /** `stop()` commands no motion at all and leaves the current rotation at zero,
      without touching the translation state. */
  lemma StopCommandsNoMotion(k: DriveConstants, lib: Library, s: SlewState, io: RobotInputs)
    requires lib.WellFormed()
    ensures var out := DriveCycle(k, lib, s, StopRequest(), io);
      && out.slew == s.(currentRotation := 0.0)
      && out.delivered == ChassisSpeeds(0.0, 0.0, 0.0)
  {
  }

  /** `turn(speed)` commands no translation; its rotation is `speed` scaled by the
      selected angular maximum. */
  lemma TurnCommandsNoTranslation(k: DriveConstants, lib: Library, s: SlewState, speed: real, io: RobotInputs)
    requires lib.WellFormed()
    ensures var out := DriveCycle(k, lib, s, TurnRequest(speed), io);
      && out.delivered.vx == 0.0 && out.delivered.vy == 0.0
      && out.slew == s.(currentRotation := ScaleToProfile(k, TurnRequest(speed), io).rotation)
  {
  }

  /** Near reversal while still moving, one cycle keeps the direction and, with a
      limiter that behaves as WPILib documents, strictly reduces the magnitude
      without passing zero. */
  lemma NearReversalDecelerates(k: DriveConstants, lib: Library, s: SlewState,
                                inputDir: real, inputMag: real, currentTime: real)
    requires lib.ClampsLikeWpi()
    requires s.currentTranslationMag == s.magLimiter.prevVal
    requires s.magLimiter.rate > 0.0 && currentTime > s.magLimiter.prevTime
    requires lib.angleDifference(inputDir, s.currentTranslationDir) > 0.85 * PI
    requires s.currentTranslationMag > MAGNITUDE_EPSILON
    ensures var s' := PolarStep(k, lib, s, inputDir, inputMag, currentTime);
      && s'.currentTranslationDir == s.currentTranslationDir
      && 0.0 <= s'.currentTranslationMag < s.currentTranslationMag
  {
    var l := s.magLimiter;
    var e := currentTime - l.prevTime;
    assert l.rate * e > 0.0;
    var l' := lib.calculate(l, 0.0, currentTime);
    assert l' == Limiter(l.rate, l.prevVal + Clamp(0.0 - l.prevVal, -l.rate * e, l.rate * e), currentTime);
  }

  // ---------------------------------------------------------------------------
  // Properties of a sequence of calls

  /** The slew state after one `drive` call per cycle, oldest first. */
  function DriveRun(k: DriveConstants, lib: Library, s: SlewState, cycles: seq<Cycle>): SlewState
    decreases |cycles|
  {
    if cycles == [] then s
    else DriveRun(k, lib, SlewUpdate(k, lib, s, cycles[0].request, cycles[0].inputs).0, cycles[1..])
  }

  /** Calls without rate limiting, however many, never move the translation
      direction, magnitude, time stamp or either limiter. */
  lemma {:induction false} BypassRunKeepsTranslation(k: DriveConstants, lib: Library, s: SlewState, cycles: seq<Cycle>)
    requires forall i :: 0 <= i < |cycles| ==> !cycles[i].request.rateLimit
    ensures var s' := DriveRun(k, lib, s, cycles);
      && s'.currentTranslationDir == s.currentTranslationDir
      && s'.currentTranslationMag == s.currentTranslationMag
      && s'.prevTime == s.prevTime
      && s'.magLimiter == s.magLimiter && s'.rotLimiter == s.rotLimiter
    decreases |cycles|
  {
    if cycles != [] {
      var c := cycles[0];
      BypassPassesInputsThrough(k, lib, s, c.request, c.inputs);
      BypassRunKeepsTranslation(k, lib, SlewUpdate(k, lib, s, c.request, c.inputs).0, cycles[1..]);
    }
  }

  /** With a magnitude limiter that behaves as WPILib documents and a clock that
      never runs backwards, the translation magnitude stays between zero and any
      bound on the requested magnitudes: neither the ramp, nor the deceleration,
      nor the flip drives it outside. */
  lemma {:induction false} MagnitudeStaysBounded(k: DriveConstants, lib: Library, s: SlewState,
                                                 cycles: seq<Cycle>, bound: real)
    requires lib.ClampsLikeWpi()
    requires s.magLimiter.rate >= 0.0
    requires s.currentTranslationMag == s.magLimiter.prevVal
    requires 0.0 <= s.currentTranslationMag <= bound
    requires forall i :: 0 <= i < |cycles| ==> Seconds(cycles[i].inputs) >= s.magLimiter.prevTime
    requires forall i, j :: 0 <= i < j < |cycles| ==> Seconds(cycles[i].inputs) <= Seconds(cycles[j].inputs)
    requires forall i :: 0 <= i < |cycles| ==>
      var r := cycles[i].request;
      r.rateLimit ==> 0.0 <= lib.hypot(r.forwardDirection, r.sidewaysDirection) <= bound
    ensures var s' := DriveRun(k, lib, s, cycles);
      && s'.currentTranslationMag == s'.magLimiter.prevVal
      && 0.0 <= s'.currentTranslationMag <= bound
    decreases |cycles|
  {
    if cycles != [] {
      var c := cycles[0];
      var next := SlewUpdate(k, lib, s, c.request, c.inputs).0;
      if c.request.rateLimit {
        var currentTime := Seconds(c.inputs);
        var inputDir := lib.atan2(c.request.sidewaysDirection, c.request.forwardDirection);
        var inputMag := lib.hypot(c.request.forwardDirection, c.request.sidewaysDirection);
        PolarStepBranches(k, lib, s, inputDir, inputMag, currentTime);
        var polar := PolarStep(k, lib, s, inputDir, inputMag, currentTime);
        assert next.magLimiter == polar.magLimiter;
        assert 0.0 <= inputMag <= bound by {
          assert cycles[0] == c;
        }
        assert currentTime >= s.magLimiter.prevTime by {
          assert cycles[0] == c;
        }
        LimiterMovesTowardTarget(lib, s.magLimiter, inputMag, currentTime);
        LimiterMovesTowardTarget(lib, s.magLimiter, 0.0, currentTime);
        assert next.magLimiter.prevTime == currentTime;
      } else {
        BypassPassesInputsThrough(k, lib, s, c.request, c.inputs);
      }
      assert forall i :: 0 <= i < |cycles[1..]| ==> Seconds(cycles[1..][i].inputs) >= next.magLimiter.prevTime by {
        forall i | 0 <= i < |cycles[1..]|
          ensures Seconds(cycles[1..][i].inputs) >= next.magLimiter.prevTime
        {
          assert cycles[1..][i] == cycles[i + 1];
          assert Seconds(cycles[0].inputs) <= Seconds(cycles[i + 1].inputs);
        }
      }
      assert forall i, j :: 0 <= i < j < |cycles[1..]| ==>
        Seconds(cycles[1..][i].inputs) <= Seconds(cycles[1..][j].inputs) by {
        forall i, j | 0 <= i < j < |cycles[1..]|
          ensures Seconds(cycles[1..][i].inputs) <= Seconds(cycles[1..][j].inputs)
        {
          assert cycles[1..][i] == cycles[i + 1] && cycles[1..][j] == cycles[j + 1];
        }
      }
      MagnitudeStaysBounded(k, lib, next, cycles[1..], bound);
    }
  }

  // ---------------------------------------------------------------------------
  // The subsystem

  class DriveSubsystem {
    const k: DriveConstants
    const lib: Library

    var currentRotation: real
    var currentTranslationDir: real
    var currentTranslationMag: real
    var magLimiter: Limiter
    var rotLimiter: Limiter
    var prevTime: real

    var frontLeft: ModuleState
    var frontRight: ModuleState
    var rearLeft: ModuleState
    var rearRight: ModuleState

    /** The library calls are well formed, and the translation magnitude is the
        magnitude limiter's last output. */
    ghost predicate Valid()
      reads this
    {
      lib.WellFormed() && currentTranslationMag == magLimiter.prevVal
    }

    ghost function Slew(): SlewState
      reads this
    {
      SlewState(currentTranslationDir, currentTranslationMag, currentRotation, prevTime, magLimiter, rotLimiter)
    }

    ghost function Targets(): ModuleTargets
      reads this
    {
      ModuleTargets(frontLeft, frontRight, rearLeft, rearRight)
    }

    /** What a `drive` call with these arguments would do now. */
    ghost function Next(req: DriveRequest, io: RobotInputs): DriveOutcome
      reads this
      requires Valid()
    {
      DriveCycle(k, lib, Slew(), req, io)
    }

    /** Zero slew state and limiters created at the construction time. No module
        target is sent at construction, so the targets start at an arbitrary
        value. */
    constructor (k: DriveConstants, lib: Library, io: RobotInputs)
      requires lib.WellFormed()
      ensures Valid() && this.k == k && this.lib == lib
      ensures Slew() == SlewState(0.0, 0.0, 0.0, Seconds(io),
                                  Limiter(k.kMagnitudeSlewRate, 0.0, Seconds(io)),
                                  Limiter(k.kRotationalSlewRate, 0.0, Seconds(io)))
    {
      this.k := k;
      this.lib := lib;
      currentRotation := 0.0;
      currentTranslationDir := 0.0;
      currentTranslationMag := 0.0;
      magLimiter := Limiter(k.kMagnitudeSlewRate, 0.0, Seconds(io));
      rotLimiter := Limiter(k.kRotationalSlewRate, 0.0, Seconds(io));
      prevTime := io.nowMicros * MICROS_TO_SECONDS;
    }

    /** Steps the magnitude limiter towards `target` and records its output. */
    method CalculateMagnitude(target: real, currentTime: real)
      modifies this
      ensures magLimiter == lib.calculate(old(magLimiter), target, currentTime)
      ensures currentTranslationMag == magLimiter.prevVal
      ensures currentTranslationDir == old(currentTranslationDir) && currentRotation == old(currentRotation)
      ensures prevTime == old(prevTime) && rotLimiter == old(rotLimiter) && Targets() == old(Targets())
    {
      magLimiter := lib.calculate(magLimiter, target, currentTime);
      currentTranslationMag := magLimiter.prevVal;
    }

    /** The rate-limited path of `drive` (the source's `if (rateLimit)` block):
        updates the slew state and returns the commanded forward and sideways
        values. */
    method RateLimit(forwardDirection: real, sidewaysDirection: real, rotDirection: real, io: RobotInputs)
      returns (forwardDirectionCommanded: real, sidewaysDirectionCommanded: real)
      requires Valid()
      modifies this
      ensures Valid() && Targets() == old(Targets())
      ensures Slew() == RateLimitedStep(k, lib, old(Slew()), forwardDirection, sidewaysDirection, rotDirection, Seconds(io))
      ensures Translation(forwardDirectionCommanded, sidewaysDirectionCommanded) == PolarToCartesian(lib, Slew())
    {
      ghost var s0 := Slew();
      // the requested translation as a direction and a magnitude
      var inputTranslationDir := lib.atan2(sidewaysDirection, forwardDirection);
      var inputTranslationMag := lib.hypot(forwardDirection, sidewaysDirection);

      var directionSlewRate: real;
      if currentTranslationMag != 0.0 {
        directionSlewRate := Abs(k.kDirectionSlewRate / currentTranslationMag);
      } else {
        directionSlewRate := INSTANT_DIRECTION_SLEW_RATE;
      }

      var currentTime := io.nowMicros * MICROS_TO_SECONDS;
      var elapsedTime := currentTime - prevTime;
      var step := directionSlewRate * elapsedTime;
      assert step == DirectionStep(k, s0, currentTime);
      var angleDif := lib.angleDifference(inputTranslationDir, currentTranslationDir);
      if angleDif < 0.45 * PI {
        currentTranslationDir := lib.stepTowardsCircular(currentTranslationDir, inputTranslationDir, step);
        CalculateMagnitude(inputTranslationMag, currentTime);
      } else if angleDif > 0.85 * PI {
        if currentTranslationMag > MAGNITUDE_EPSILON {
          // keep the direction until the robot has slowed down
          CalculateMagnitude(0.0, currentTime);
        } else {
          currentTranslationDir := lib.wrapAngle(currentTranslationDir + PI);
          CalculateMagnitude(inputTranslationMag, currentTime);
        }
      } else {
        currentTranslationDir := lib.stepTowardsCircular(currentTranslationDir, inputTranslationDir, step);
        CalculateMagnitude(0.0, currentTime);
      }
      prevTime := currentTime;
      assert Slew() == PolarStep(k, lib, s0, inputTranslationDir, inputTranslationMag, currentTime).(
        currentRotation := s0.currentRotation, rotLimiter := s0.rotLimiter);

      forwardDirectionCommanded := currentTranslationMag * lib.cos(currentTranslationDir);
      sidewaysDirectionCommanded := currentTranslationMag * lib.sin(currentTranslationDir);
      rotLimiter := lib.calculate(rotLimiter, rotDirection, currentTime);
      currentRotation := rotLimiter.prevVal;
    }

    /** Drives the robot from driver or autonomous intent: the new slew state and
        module targets are those `DriveCycle` gives. */
    method Drive(req: DriveRequest, io: RobotInputs)
      requires Valid()
      modifies this
      ensures Valid()
      ensures Slew() == old(Next(req, io)).slew && Targets() == old(Next(req, io)).targets
    {
      ghost var s0 := Slew();
      ghost var out := Next(req, io);
      var speed :=
        if req.speedLimit || !IsWithinSafeDrivingLimits(k, io)
        then req.inputSpeed * k.kMaxLimitedSpeedMetersPerSecond
        else req.inputSpeed * k.kMaxSpeedMetersPerSecond;
      var rotDirection :=
        if req.speedLimit || !IsWithinSafeDrivingLimits(k, io)
        then req.rotDirection * k.kMaxLimitedAngularSpeed
        else req.rotDirection * k.kMaxAngularSpeed;

      var forwardDirectionCommanded: real;
      var sidewaysDirectionCommanded: real;
      if req.rateLimit {
        forwardDirectionCommanded, sidewaysDirectionCommanded :=
          RateLimit(req.forwardDirection, req.sidewaysDirection, rotDirection, io);
      } else {
        forwardDirectionCommanded := req.forwardDirection;
        sidewaysDirectionCommanded := req.sidewaysDirection;
        currentRotation := rotDirection;
      }
      assert speed == ScaleToProfile(k, req, io).speed && rotDirection == ScaleToProfile(k, req, io).rotation;
      assert Slew() == SlewUpdate(k, lib, s0, req, io).0;
      assert Translation(forwardDirectionCommanded, sidewaysDirectionCommanded) == SlewUpdate(k, lib, s0, req, io).1;

      var forwardDirectionDelivered := forwardDirectionCommanded * speed;
      var sidewaysDirectionDelivered := sidewaysDirectionCommanded * speed;
      var rotDelivered := currentRotation * k.kMaxAngularSpeed;

      var chassis :=
        if req.fieldRelative
        then lib.fromFieldRelativeSpeeds(forwardDirectionDelivered, sidewaysDirectionDelivered,
                                         rotDelivered, -io.gyroAngle)
        else ChassisSpeeds(forwardDirectionDelivered, sidewaysDirectionDelivered, rotDelivered);
      var swerveModuleStates := lib.desaturateWheelSpeeds(lib.toSwerveModuleStates(chassis),
                                                          k.kMaxSpeedMetersPerSecond);
      assert ChassisSpeeds(forwardDirectionDelivered, sidewaysDirectionDelivered, rotDelivered) == out.delivered;
      assert chassis == out.chassis;
      frontLeft := swerveModuleStates[0];
      frontRight := swerveModuleStates[1];
      rearLeft := swerveModuleStates[2];
      rearRight := swerveModuleStates[3];
    }

    /** `drive(false, 0, 0, 0, 0, true, false)`. */
    method Stop(io: RobotInputs)
      requires Valid()
      modifies this
      ensures Valid()
      ensures Slew() == old(Slew()).(currentRotation := 0.0)
      ensures Targets() == old(Next(StopRequest(), io)).targets
    {
      StopCommandsNoMotion(k, lib, Slew(), io);
      Drive(StopRequest(), io);
    }

    /** `drive(false, 0, 0, 0, speed, true, false)`: rotate in place. */
    method Turn(speed: real, io: RobotInputs)
      requires Valid()
      modifies this
      ensures Valid()
      ensures Slew() == old(Slew()).(currentRotation := ScaleToProfile(k, TurnRequest(speed), io).rotation)
      ensures Targets() == old(Next(TurnRequest(speed), io)).targets
    {
      TurnCommandsNoTranslation(k, lib, Slew(), speed, io);
      Drive(TurnRequest(speed), io);
    }

    /** Sets the wheels into an X formation; nothing else changes. */
    method Lock()
      requires Valid()
      modifies this
      ensures Valid()
      ensures Targets() == XFormation()
      ensures Slew() == old(Slew())
    {
      frontLeft := ModuleState(0.0, Degrees(45.0));
      frontRight := ModuleState(0.0, Degrees(-45.0));
      rearLeft := ModuleState(0.0, Degrees(-45.0));
      rearRight := ModuleState(0.0, Degrees(45.0));
    }

    /** Desaturates the caller's states in place and forwards the first four to
        the front-left, front-right, rear-left and rear-right modules. */
    method SetModuleStates(desiredStates: array<ModuleState>)
      requires Valid()
      requires desiredStates.Length >= 4
      modifies this, desiredStates
      ensures desiredStates[..] == lib.desaturateWheelSpeeds(old(desiredStates[..]), k.kMaxSpeedMetersPerSecond)
      ensures Targets() == ModuleTargets(desiredStates[0], desiredStates[1], desiredStates[2], desiredStates[3])
      ensures Slew() == old(Slew()) && Valid()
    {
      var desaturated := lib.desaturateWheelSpeeds(desiredStates[..], k.kMaxSpeedMetersPerSecond);
      forall i | 0 <= i < desiredStates.Length {
        desiredStates[i] := desaturated[i];
      }
      frontLeft := desiredStates[0];
      frontRight := desiredStates[1];
      rearLeft := desiredStates[2];
      rearRight := desiredStates[3];
    }
  }
}
