/** An encoder position that its motor moves and that the subsystem's periodic
    check zeroes whenever its limit switch reads pressed, as the elevator and the
    arm do: the step of one control cycle, its fold over a sequence of cycles, and
    lemmas that say in closed form what that fold yields. */
module Encoders {

  /** One cycle of "zero the encoder while its limit switch is pressed". */
  function ZeroIfPressed(position: real, pressed: bool): (r: real)
    ensures pressed ==> r == 0.0
    ensures !pressed ==> r == position
  {
    if pressed then 0.0 else position
  }

  /** What happens to an encoder in one control cycle: its motor turns it by
      `move` (read in encoder units), then the subsystem's periodic check zeroes
      it if its limit switch reads `pressed`. */
  datatype EncoderCycle = EncoderCycle(move: real, pressed: bool)

  /** One cycle of an encoder: moved by its motor, then zeroed at the limit. */
  function EncoderStep(position: real, c: EncoderCycle): (r: real)
    ensures c.pressed ==> r == 0.0
    ensures !c.pressed ==> r == position + c.move
  {
    ZeroIfPressed(position + c.move, c.pressed)
  }

  /** The encoder position after one cycle per element, oldest first. */
  function EncoderAfter(position: real, cycles: seq<EncoderCycle>): real
    decreases |cycles|
  {
    if cycles == [] then position else EncoderAfter(EncoderStep(position, cycles[0]), cycles[1..])
  }

  /** The total motion of the encoder over some cycles. */
  function TotalMove(cycles: seq<EncoderCycle>): real
    decreases |cycles|
  {
    if cycles == [] then 0.0 else cycles[0].move + TotalMove(cycles[1..])
  }

  /** Running two stretches of cycles one after the other is running their
      concatenation. */
  lemma {:induction false} EncoderAfterConcat(position: real, first: seq<EncoderCycle>, second: seq<EncoderCycle>)
    ensures EncoderAfter(position, first + second) == EncoderAfter(EncoderAfter(position, first), second)
    decreases |first|
  {
    if first == [] {
      assert first + second == second;
    } else {
      assert (first + second)[0] == first[0];
      assert (first + second)[1..] == first[1..] + second;
      EncoderAfterConcat(EncoderStep(position, first[0]), first[1..], second);
    }
  }

  /** While the limit switch is never pressed the encoder simply accumulates its
      motor's motion. */
  lemma {:induction false} EncoderNeverZeroed(position: real, cycles: seq<EncoderCycle>)
    requires forall i :: 0 <= i < |cycles| ==> !cycles[i].pressed
    ensures EncoderAfter(position, cycles) == position + TotalMove(cycles)
    decreases |cycles|
  {
    if cycles != [] {
      assert !cycles[0].pressed;
      EncoderNeverZeroed(position + cycles[0].move, cycles[1..]);
    }
  }

  /** The encoder reads exactly the motion made since the last cycle whose limit
      switch was pressed, whatever it read before; in particular it reads zero
      right after such a cycle. */
  lemma EncoderSinceLastPress(position: real, cycles: seq<EncoderCycle>, last: nat)
    requires last < |cycles| && cycles[last].pressed
    requires forall i :: last < i < |cycles| ==> !cycles[i].pressed
    ensures EncoderAfter(position, cycles) == TotalMove(cycles[last + 1..])
    ensures last == |cycles| - 1 ==> EncoderAfter(position, cycles) == 0.0
  {
    var upTo, since := cycles[..last + 1], cycles[last + 1..];
    assert cycles == upTo + since;
    assert upTo == cycles[..last] + [cycles[last]];
    EncoderAfterConcat(position, cycles[..last], [cycles[last]]);
    EncoderAfterConcat(position, upTo, since);
    assert EncoderAfter(position, upTo) == 0.0;
    EncoderNeverZeroed(0.0, since);
  }
}
