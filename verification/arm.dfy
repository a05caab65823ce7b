/** The arm subsystem (Arm): one motor, its encoder, and the retraction limit
    switch that both defines the travel position and zeroes the encoder. The
    switch state is an input; the motor output and the encoder position are
    plain fields. */
module ArmSubsystem {
  import opened Encoders

  /** The robot's ArmConstants used here; configuration, supplied at construction. */
  datatype ArmConstants = ArmConstants(kElevatorArmSpeed: real, kMaxArmSpeedMetersPerSecond: real)

  class Arm {
    const consts: ArmConstants

    var armEncoder: real
    var armOutput: real

    /** The encoder reads whatever the motor controller reports; no output has
        been set. */
    constructor (consts: ArmConstants, armEncoder: real)
      ensures this.consts == consts && this.armEncoder == armEncoder && armOutput == 0.0
    {
      this.consts := consts;
      this.armEncoder := armEncoder;
      armOutput := 0.0;
    }

    /** The arm is in travel position exactly when it is fully retracted. */
    method ArmIsInTravelPosition(retractionPressed: bool) returns (inTravel: bool)
      ensures inTravel <==> retractionPressed
    {
      inTravel := retractionPressed;
    }

    /** Every cycle: zero the encoder while the retraction switch is pressed. The
        travel-position check it also makes has no effect. */
    method Periodic(retractionPressed: bool)
      modifies this
      ensures armEncoder == ZeroIfPressed(old(armEncoder), retractionPressed)
      ensures armOutput == old(armOutput)
    {
      ResetArmEncoderAtRetractionLimit(retractionPressed);
      var _ := ArmIsInTravelPosition(retractionPressed);
    }

    /** Sets the encoder position to zero. */
    method Reset()
      modifies this
      ensures armEncoder == 0.0 && armOutput == old(armOutput)
    {
      armEncoder := 0.0;
    }

    method ExtendElevatorArm()
      modifies this
      ensures armOutput == consts.kElevatorArmSpeed && armEncoder == old(armEncoder)
    {
      armOutput := consts.kElevatorArmSpeed;
    }

    /** The opposite output of `ExtendElevatorArm`. */
    method RetractElevatorArm()
      modifies this
      ensures armOutput == -consts.kElevatorArmSpeed && armEncoder == old(armEncoder)
    {
      armOutput := -consts.kElevatorArmSpeed;
    }

    method StopArm()
      modifies this
      ensures armOutput == 0.0 && armEncoder == old(armEncoder)
    {
      armOutput := 0.0;
    }

    method ResetArmEncoderAtRetractionLimit(retractionPressed: bool)
      modifies this
      ensures armEncoder == ZeroIfPressed(old(armEncoder), retractionPressed)
      ensures armOutput == old(armOutput)
    {
      if retractionPressed {
        armEncoder := 0.0;
      }
    }

    /** The arm's position is the encoder's position, unchanged. */
    method GetCurrentArmPosition() returns (position: real)
      ensures position == armEncoder
    {
      position := armEncoder;
    }

    /** Drives the arm at `speed` times the arm's maximum speed. */
    method SetArm(speed: real)
      modifies this
      ensures armOutput == speed * consts.kMaxArmSpeedMetersPerSecond && armEncoder == old(armEncoder)
    {
      armOutput := speed * consts.kMaxArmSpeedMetersPerSecond;
    }
  }
}
