/** The elevator subsystem (Elevator): the elevator (altitude) motor and the
    elevator's arm motor, their encoders, the travel-position latch, and the
    encoder zeroing done every cycle at the limit switches. Limit-switch states
    are inputs; motor outputs and encoder positions are plain fields. */
module ElevatorSubsystem {
  import opened Latches
  import opened Encoders

  /** The robot's ElevatorConstants used here; configuration, supplied at
      construction. The stop speed is not assumed to be zero. */
  datatype ElevatorConstants = ElevatorConstants(
    kElevatorArmSpeed: real,
    kElevatorSpeed: real,
    kElevatorStopSpeed: real)

  /** The two limit switches the elevator's logic reads in a cycle. */
  datatype ElevatorSwitches = ElevatorSwitches(armRetraction: bool, elevatorTop: bool)

  /** Everything an Elevator holds that its methods change. */
  datatype ElevatorSnapshot = ElevatorSnapshot(
    travelPosition: bool,
    elevatorEncoder: real,
    armEncoder: real,
    elevatorOutput: real,
    armOutput: real)

  /** The cycles in which a travel-position check sees the elevator at the top
      and the arm fully retracted. */
  function TravelTriggers(readings: seq<ElevatorSwitches>): (triggers: seq<bool>)
    ensures |triggers| == |readings|
    ensures forall i :: 0 <= i < |readings| ==>
      (triggers[i] <==> readings[i].elevatorTop && readings[i].armRetraction)
  {
    seq(|readings|, i requires 0 <= i < |readings| => readings[i].elevatorTop && readings[i].armRetraction)
  }

  /** After one travel-position check per reading, the flag is set exactly when it
      was set before or some check saw both limit switches pressed together; no
      run of checks clears it. */
  lemma TravelPositionIffBothPressed(latched: bool, readings: seq<ElevatorSwitches>)
    ensures LatchedAfter(latched, TravelTriggers(readings)) <==>
      latched || exists i :: 0 <= i < |readings| && readings[i].elevatorTop && readings[i].armRetraction
  {
    LatchedAfterIff(latched, TravelTriggers(readings));
    if exists i :: 0 <= i < |readings| && readings[i].elevatorTop && readings[i].armRetraction {
      var i :| 0 <= i < |readings| && readings[i].elevatorTop && readings[i].armRetraction;
      assert TravelTriggers(readings)[i];
    }
  }

  class Elevator {
    const consts: ElevatorConstants

    var travelPosition: bool
    var elevatorEncoder: real
    var armEncoder: real
    var elevatorOutput: real
    var armOutput: real

    ghost function Snapshot(): ElevatorSnapshot
      reads this
    {
      ElevatorSnapshot(travelPosition, elevatorEncoder, armEncoder, elevatorOutput, armOutput)
    }

    /** Not in travel position to start; the encoders read whatever the motor
        controllers report, and no output has been set. */
    constructor (consts: ElevatorConstants, elevatorEncoder: real, armEncoder: real)
      ensures this.consts == consts
      ensures Snapshot() == ElevatorSnapshot(false, elevatorEncoder, armEncoder, 0.0, 0.0)
    {
      this.consts := consts;
      travelPosition := false;
      this.elevatorEncoder := elevatorEncoder;
      this.armEncoder := armEncoder;
      elevatorOutput := 0.0;
      armOutput := 0.0;
    }

    /** Reads the travel-position flag. */
    method TravelPosition() returns (r: bool)
      ensures r == travelPosition
    {
      r := travelPosition;
    }

    /** Sets the travel-position flag when the elevator is at the top and the arm
        fully retracted; never clears it. */
    method ElevatorIsInTravelPosition(switches: ElevatorSwitches)
      modifies this
      ensures old(travelPosition) ==> travelPosition
      ensures Snapshot() == old(Snapshot()).(
        travelPosition := Latch(old(travelPosition), switches.elevatorTop && switches.armRetraction))
    {
      if switches.elevatorTop && switches.armRetraction {
        travelPosition := true;
      }
    }

    /** Every cycle: zero each encoder whose limit switch is pressed. */
    method Periodic(switches: ElevatorSwitches)
      modifies this
      ensures Snapshot() == old(Snapshot()).(
        armEncoder := ZeroIfPressed(old(armEncoder), switches.armRetraction),
        elevatorEncoder := ZeroIfPressed(old(elevatorEncoder), switches.elevatorTop))
    {
      ResetArmEncoderAtRetractionLimit(switches);
      ResetElevatorEncoderAtTopLimit(switches);
    }

    /** Sets both encoder positions to zero. */
    method Reset()
      modifies this
      ensures Snapshot() == old(Snapshot()).(armEncoder := 0.0, elevatorEncoder := 0.0)
    {
      armEncoder := 0.0;
      elevatorEncoder := 0.0;
    }

    method ExtendElevatorArm()
      modifies this
      ensures Snapshot() == old(Snapshot()).(armOutput := consts.kElevatorArmSpeed)
    {
      armOutput := consts.kElevatorArmSpeed;
    }

    /** The opposite output of `ExtendElevatorArm`. */
    method RetractElevatorArm()
      modifies this
      ensures Snapshot() == old(Snapshot()).(armOutput := -consts.kElevatorArmSpeed)
    {
      armOutput := -consts.kElevatorArmSpeed;
    }

    method StopArm()
      modifies this
      ensures Snapshot() == old(Snapshot()).(armOutput := 0.0)
    {
      armOutput := 0.0;
    }

    method ResetArmEncoderAtRetractionLimit(switches: ElevatorSwitches)
      modifies this
      ensures Snapshot() == old(Snapshot()).(armEncoder := ZeroIfPressed(old(armEncoder), switches.armRetraction))
    {
      if switches.armRetraction {
        armEncoder := 0.0;
      }
    }

    method ResetElevatorEncoderAtTopLimit(switches: ElevatorSwitches)
      modifies this
      ensures Snapshot() == old(Snapshot()).(elevatorEncoder := ZeroIfPressed(old(elevatorEncoder), switches.elevatorTop))
    {
      if switches.elevatorTop {
        elevatorEncoder := 0.0;
      }
    }

    method RaiseElevator()
      modifies this
      ensures Snapshot() == old(Snapshot()).(elevatorOutput := consts.kElevatorSpeed)
    {
      elevatorOutput := consts.kElevatorSpeed;
    }

    /** The opposite output of `RaiseElevator`. */
    method LowerElevator()
      modifies this
      ensures Snapshot() == old(Snapshot()).(elevatorOutput := -consts.kElevatorSpeed)
    {
      elevatorOutput := -consts.kElevatorSpeed;
    }

    /** Holds the elevator with the configured stop speed, which need not be zero. */
    method StopElevator()
      modifies this
      ensures Snapshot() == old(Snapshot()).(elevatorOutput := consts.kElevatorStopSpeed)
    {
      elevatorOutput := consts.kElevatorStopSpeed;
    }

    /** Stops the arm (output zero) and the elevator (the stop speed). */
    method Stop()
      modifies this
      ensures Snapshot() == old(Snapshot()).(armOutput := 0.0, elevatorOutput := consts.kElevatorStopSpeed)
    {
      StopArm();
      StopElevator();
    }

    /** The altitude is the elevator encoder's position, unchanged. */
    method GetCurrentAltitude() returns (altitude: real)
      ensures altitude == elevatorEncoder
    {
      altitude := elevatorEncoder;
    }

    /** Drives the elevator motor with exactly the given output. */
    method Maintain(altitude: real)
      modifies this
      ensures Snapshot() == old(Snapshot()).(elevatorOutput := altitude)
    {
      elevatorOutput := altitude;
    }
  }
}
