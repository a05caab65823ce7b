/** Stand-ins for the library calls the robot code makes and whose code is not part
    of this model: Java's trigonometry, the SwerveUtils angle helpers, WPILib's
    SlewRateLimiter, swerve kinematics and wheel-speed desaturation. Each is a
    function-valued field of `Library`, so every property proved about the robot
    code holds whatever those functions compute, unless a lemma states a
    hypothesis about them (`WellFormed`, `ClampsLikeWpi`). */
module WpiLib {

  /** Java's `Math.PI`, as written in decimal. */
  const PI: real := 3.141592653589793

  /** A swerve module target: signed wheel speed (m/s) and steering angle (radians). */
  datatype ModuleState = ModuleState(speed: real, angle: real)

  /** A robot-frame chassis velocity: forward, sideways (m/s) and angular (rad/s). */
  datatype ChassisSpeeds = ChassisSpeeds(vx: real, vy: real, omega: real)

  /** What a WPILib SlewRateLimiter keeps between calls: its rate, its last output
      and the time (seconds) of its last call. */
  datatype Limiter = Limiter(rate: real, prevVal: real, prevTime: real)

  /** `Rotation2d.fromDegrees(d)` as an angle in radians. */
  function Degrees(d: real): (r: real)
    ensures d == 45.0 ==> 4.0 * r == PI
    ensures d == -45.0 ==> 4.0 * r == -PI
  {
    d * PI / 180.0
  }

  /** `MathUtil.clamp(value, low, high)`: `max(low, min(value, high))`. */
  function Clamp(value: real, low: real, high: real): (r: real)
    requires low <= high
    ensures low <= r <= high
    ensures low <= value <= high ==> r == value
  {
    if value > high then high else if value < low then low else value
  }

  datatype Library = Library(
    /** `Math.atan2(y, x)`. */
    atan2: (real, real) -> real,
    /** `Math.sqrt(x*x + y*y)`. */
    hypot: (real, real) -> real,
    cos: real -> real,
    sin: real -> real,
    /** `SwerveUtils.AngleDifference(a, b)`. */
    angleDifference: (real, real) -> real,
    /** `SwerveUtils.StepTowardsCircular(current, target, stepsize)`. */
    stepTowardsCircular: (real, real, real) -> real,
    /** `SwerveUtils.WrapAngle(angle)`. */
    wrapAngle: real -> real,
    /** `SlewRateLimiter.calculate(input)` on a limiter, at a time in seconds:
        the limiter afterwards, whose `prevVal` is the value returned. */
    calculate: (Limiter, real, real) -> Limiter,
    /** `ChassisSpeeds.fromFieldRelativeSpeeds(vx, vy, omega, Rotation2d.fromDegrees(deg))`. */
    fromFieldRelativeSpeeds: (real, real, real, real) -> ChassisSpeeds,
    /** `kDriveKinematics.toSwerveModuleStates(speeds)`, in the order FL, FR, RL, RR. */
    toSwerveModuleStates: ChassisSpeeds -> seq<ModuleState>,
    /** `SwerveDriveKinematics.desaturateWheelSpeeds(states, max)`: the states after
        the call (the library updates the array in place). */
    desaturateWheelSpeeds: (seq<ModuleState>, real) -> seq<ModuleState>)
  {
    /** What the drivetrain relies on: a four-module kinematics object yields four
        states, and desaturation keeps the number of states. */
    ghost predicate WellFormed() {
      && (forall c :: |toSwerveModuleStates(c)| == 4)
      && (forall s, m :: |desaturateWheelSpeeds(s, m)| == |s|)
    }

    /** The limiter behaves as WPILib documents it: it moves towards the input by at
        most `rate` times the time elapsed since its last call, and records the time. */
    ghost predicate ClampsLikeWpi() {
      forall l: Limiter, x: real, t: real | l.rate >= 0.0 && t >= l.prevTime ::
        calculate(l, x, t) ==
          Limiter(l.rate,
                  l.prevVal + Clamp(x - l.prevVal, -l.rate * (t - l.prevTime), l.rate * (t - l.prevTime)),
                  t)
    }
  }

  /** A limiter that behaves as WPILib documents, called no earlier than its last
      call, never overshoots: its new output lies between its previous output and
      the requested input. It keeps its rate and records the time of the call. */
  lemma LimiterMovesTowardTarget(lib: Library, l: Limiter, x: real, t: real)
    requires lib.ClampsLikeWpi()
    requires l.rate >= 0.0 && t >= l.prevTime
    ensures var l' := lib.calculate(l, x, t);
      && l'.rate == l.rate && l'.prevTime == t
      && ((l.prevVal <= l'.prevVal <= x) || (x <= l'.prevVal <= l.prevVal))
  {
    var e := t - l.prevTime;
    assert l.rate * e >= 0.0;
    assert lib.calculate(l, x, t) == Limiter(l.rate, l.prevVal + Clamp(x - l.prevVal, -l.rate * e, l.rate * e), t);
  }
}
