/** The charge-station balance command (AutoDriveToBalance): three booleans driven
    by the gyro's pitch. `tippedOver` is recomputed every cycle, `timeToSlowDown`
    is a latch set by the first tip, and `isBalanced` is the near-level band
    check gated by that latch. Every cycle issues one `drive` call whose speed
    depends on the latch and whose direction depends on this cycle's tip. */
module BalanceCommand {
  import opened WpiLib
  import opened Latches
  import opened Drivetrain

  /** The robot's AutoConstants used by the command; configuration, supplied at
      construction. */
  datatype AutoConstants = AutoConstants(
    kDriveOnStationMaxSpeed: real,
    kDriveToBalanceFactor: real,
    kTravelForwards: real,
    kTravelBackwards: real)

  /** The command's three flags. */
  datatype BalanceFlags = BalanceFlags(isBalanced: bool, timeToSlowDown: bool, tippedOver: bool)

  /** Pitch (degrees) below which the robot counts as tipped over. */
  const TIP_PITCH: real := -10.0
  /** Upper end (degrees) of the near-level band. */
  const LEVEL_PITCH: real := -0.5

  /** The flags when the command is created. */
  function Start(): BalanceFlags {
    BalanceFlags(false, false, false)
  }

  /** The flags after one `execute` that reads `pitch`: `tippedOver` is this
      cycle's tip, `timeToSlowDown` the set-only latch of the tips, and
      `isBalanced` the near-level band gated by that latch. */
  function BalanceStep(f: BalanceFlags, pitch: real): (g: BalanceFlags)
    ensures g.tippedOver <==> pitch < TIP_PITCH
    ensures g.timeToSlowDown == Latch(f.timeToSlowDown, pitch < TIP_PITCH)
    ensures g.isBalanced <==> g.timeToSlowDown && TIP_PITCH <= pitch <= LEVEL_PITCH
  {
    var tippedOver := pitch < TIP_PITCH;
    var timeToSlowDown := f.timeToSlowDown || (!f.timeToSlowDown && tippedOver);
    var isBalanced := timeToSlowDown && (pitch >= TIP_PITCH && pitch <= LEVEL_PITCH);
    BalanceFlags(isBalanced, timeToSlowDown, tippedOver)
  }

  /** The arguments of the `drive` call an `execute` makes once its flags are `f`:
      reduced speed once latched, forwards while tipped and backwards otherwise,
      no sideways motion or rotation, field relative, no rate limiting. */
  function BalanceDriveCall(c: AutoConstants, maxSpeed: real, f: BalanceFlags): (req: DriveRequest)
    ensures !req.speedLimit && req.fieldRelative && !req.rateLimit
    ensures req.sidewaysDirection == 0.0 && req.rotDirection == 0.0
    ensures req.inputSpeed == (if f.timeToSlowDown then maxSpeed * c.kDriveToBalanceFactor else maxSpeed)
    ensures req.forwardDirection == (if f.tippedOver then c.kTravelForwards else c.kTravelBackwards)
  {
    DriveRequest(
      false,
      if f.timeToSlowDown then maxSpeed * c.kDriveToBalanceFactor else maxSpeed,
      if f.tippedOver then c.kTravelForwards else c.kTravelBackwards,
      0.0,
      0.0,
      true,
      false)
  }

  /** The flags after one `execute` per pitch reading, oldest first. */
  function BalanceRun(f: BalanceFlags, pitches: seq<real>): BalanceFlags
    decreases |pitches|
  {
    if pitches == [] then f else BalanceRun(BalanceStep(f, pitches[0]), pitches[1..])
  }

  /** Which cycles read a tip. */
  function Tips(pitches: seq<real>): (tips: seq<bool>)
    ensures |tips| == |pitches|
    ensures forall i :: 0 <= i < |pitches| ==> (tips[i] <==> pitches[i] < TIP_PITCH)
  {
    seq(|pitches|, i requires 0 <= i < |pitches| => pitches[i] < TIP_PITCH)
  }

  // ---------------------------------------------------------------------------
  // Properties

  /** `timeToSlowDown` is the set-only latch of the cycles' tips. */
  lemma {:induction false} SlowDownIsTipLatch(f: BalanceFlags, pitches: seq<real>)
    ensures BalanceRun(f, pitches).timeToSlowDown == LatchedAfter(f.timeToSlowDown, Tips(pitches))
    decreases |pitches|
  {
    if pitches != [] {
      var next := BalanceStep(f, pitches[0]);
      assert next.timeToSlowDown == Latch(f.timeToSlowDown, Tips(pitches)[0]);
      assert Tips(pitches)[1..] == Tips(pitches[1..]);
      SlowDownIsTipLatch(next, pitches[1..]);
    }
  }

  /** After any run of cycles `timeToSlowDown` holds exactly when it held at the
      start or some cycle read a pitch below -10 degrees: it is set on the first
      tip and never cleared. */
  lemma SlowDownIffTipped(f: BalanceFlags, pitches: seq<real>)
    ensures BalanceRun(f, pitches).timeToSlowDown <==>
      f.timeToSlowDown || exists i :: 0 <= i < |pitches| && pitches[i] < TIP_PITCH
  {
    SlowDownIsTipLatch(f, pitches);
    LatchedAfterIff(f.timeToSlowDown, Tips(pitches));
    if exists i :: 0 <= i < |pitches| && pitches[i] < TIP_PITCH {
      var i :| 0 <= i < |pitches| && pitches[i] < TIP_PITCH;
      assert Tips(pitches)[i];
    }
  }

  /** After at least one cycle, `tippedOver` and `isBalanced` depend only on the
      last pitch read (and the latch): neither is remembered from earlier cycles. */
  lemma {:induction false} LastCycleDecides(f: BalanceFlags, pitches: seq<real>)
    requires |pitches| > 0
    ensures var g := BalanceRun(f, pitches);
      var last := pitches[|pitches| - 1];
      && (g.tippedOver <==> last < TIP_PITCH)
      && (g.isBalanced <==> g.timeToSlowDown && TIP_PITCH <= last <= LEVEL_PITCH)
    decreases |pitches|
  {
    if |pitches| > 1 {
      LastCycleDecides(BalanceStep(f, pitches[0]), pitches[1..]);
      assert pitches[1..][|pitches[1..]| - 1] == pitches[|pitches| - 1];
    }
  }

  /** From the start, the command is balanced only in a cycle whose pitch lies in
      the near-level band [-10, -0.5] and after an earlier cycle tipped: never
      before the first tip, never in a cycle that is itself tipped. */
  lemma BalancedOnlyAfterEarlierTip(pitches: seq<real>)
    requires |pitches| > 0
    ensures var last := pitches[|pitches| - 1];
      BalanceRun(Start(), pitches).isBalanced <==>
        TIP_PITCH <= last <= LEVEL_PITCH &&
        exists i :: 0 <= i < |pitches| - 1 && pitches[i] < TIP_PITCH
  {
    var last := pitches[|pitches| - 1];
    LastCycleDecides(Start(), pitches);
    SlowDownIffTipped(Start(), pitches);
    if TIP_PITCH <= last && exists i :: 0 <= i < |pitches| && pitches[i] < TIP_PITCH {
      var i :| 0 <= i < |pitches| && pitches[i] < TIP_PITCH;
      assert i < |pitches| - 1;
    }
  }

  /** One more cycle at the end of a run is one more step. */
  lemma {:induction false} BalanceRunAppend(f: BalanceFlags, pitches: seq<real>, pitch: real)
    ensures BalanceRun(f, pitches + [pitch]) == BalanceStep(BalanceRun(f, pitches), pitch)
    decreases |pitches|
  {
    if pitches == [] {
      assert [] + [pitch] == [pitch];
    } else {
      assert (pitches + [pitch])[1..] == pitches[1..] + [pitch];
      BalanceRunAppend(BalanceStep(f, pitches[0]), pitches[1..], pitch);
    }
  }

  /** The pitch trace [0, 0, -15, -15, -8, -3]: the latch first sets on the third
      reading, and the command first reports finished on the fifth. */
  lemma ChargeStationScenario()
    ensures var p := [0.0, 0.0, -15.0, -15.0, -8.0, -3.0];
      && !BalanceRun(Start(), p[..2]).timeToSlowDown
      && BalanceRun(Start(), p[..3]).timeToSlowDown
      && (forall n :: 1 <= n <= 4 ==> !BalanceRun(Start(), p[..n]).isBalanced)
      && BalanceRun(Start(), p[..5]).isBalanced
  {
    var p := [0.0, 0.0, -15.0, -15.0, -8.0, -3.0];
    var f1 := BalanceStep(Start(), p[0]);
    var f2 := BalanceStep(f1, p[1]);
    var f3 := BalanceStep(f2, p[2]);
    var f4 := BalanceStep(f3, p[3]);
    var f5 := BalanceStep(f4, p[4]);
    assert !f1.isBalanced && !f2.isBalanced && !f2.timeToSlowDown;
    assert f3.timeToSlowDown && !f3.isBalanced && !f4.isBalanced && f5.isBalanced;
    assert p[..1] == [] + [p[0]];
    BalanceRunAppend(Start(), [], p[0]);
    forall n | 1 <= n < 5 ensures BalanceRun(Start(), p[..n + 1]) == BalanceStep(BalanceRun(Start(), p[..n]), p[n]) {
      assert p[..n + 1] == p[..n] + [p[n]];
      BalanceRunAppend(Start(), p[..n], p[n]);
    }
  }

  /** The drive call of every cycle passes straight through the drivetrain's
      limiter: it commands no rotation and leaves the translation state alone,
      and its forward speed is the travel direction times the gated speed. */
  lemma BalanceDriveIsPassThrough(k: DriveConstants, lib: Library, s: SlewState,
                                  c: AutoConstants, maxSpeed: real, f: BalanceFlags, io: RobotInputs)
    requires lib.WellFormed()
    ensures var req := BalanceDriveCall(c, maxSpeed, f);
      var out := DriveCycle(k, lib, s, req, io);
      && out.slew == s.(currentRotation := 0.0)
      && out.delivered.vx == req.forwardDirection * ScaleToProfile(k, req, io).speed
      && out.delivered.vy == 0.0 && out.delivered.omega == 0.0
  {
  }

  // ---------------------------------------------------------------------------
  // The command

  class AutoDriveToBalance {
    const drive: DriveSubsystem
    const consts: AutoConstants
    const maxSpeed: real

    var isBalanced: bool
    var timeToSlowDown: bool
    var tippedOver: bool

    ghost function Flags(): BalanceFlags
      reads this
    {
      BalanceFlags(isBalanced, timeToSlowDown, tippedOver)
    }

    constructor (drive: DriveSubsystem, consts: AutoConstants)
      ensures this.drive == drive && this.consts == consts
      ensures maxSpeed == consts.kDriveOnStationMaxSpeed
      ensures Flags() == Start()
    {
      this.drive := drive;
      this.consts := consts;
      maxSpeed := consts.kDriveOnStationMaxSpeed;
      isBalanced, timeToSlowDown, tippedOver := false, false, false;
    }

    /** One scheduler cycle: update the flags from the pitch, then make the one
        `drive` call they call for. */
    method Execute(io: RobotInputs)
      requires drive.Valid()
      modifies this, drive
      ensures drive.Valid()
      ensures Flags() == BalanceStep(old(Flags()), io.gyroPitch)
      ensures var req := BalanceDriveCall(consts, maxSpeed, Flags());
        drive.Slew() == old(drive.Next(req, io)).slew &&
        drive.Targets() == old(drive.Next(req, io)).targets
    {
      var currentPitch := io.gyroPitch;
      tippedOver := currentPitch < TIP_PITCH;
      timeToSlowDown := timeToSlowDown || (!timeToSlowDown && tippedOver);
      isBalanced := timeToSlowDown && (currentPitch >= TIP_PITCH && currentPitch <= LEVEL_PITCH);

      var request := DriveRequest(
        false,
        if timeToSlowDown then maxSpeed * consts.kDriveToBalanceFactor else maxSpeed,
        if tippedOver then consts.kTravelForwards else consts.kTravelBackwards,
        0.0,
        0.0,
        true,
        false);
      assert request == BalanceDriveCall(consts, maxSpeed, Flags());
      drive.Drive(request, io);
    }

    /** Stops the drivetrain whether the command finished or was interrupted. */
    method End(interrupted: bool, io: RobotInputs)
      requires drive.Valid()
      modifies drive
      ensures drive.Valid()
      ensures drive.Slew() == old(drive.Slew()).(currentRotation := 0.0)
      ensures drive.Targets() == old(drive.Next(StopRequest(), io)).targets
    {
      drive.Stop(io);
    }

    /** The command is finished exactly when it is balanced. */
    method IsFinished() returns (finished: bool)
      ensures finished == isBalanced
    {
      finished := isBalanced;
    }
  }
}
