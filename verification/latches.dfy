/** The set-only latch the elevator's travel flag and the balance command's
    slow-down flag share: a boolean that is set by a condition and never cleared,
    the fold of its step over a sequence of control cycles, and a lemma that says
    in closed form what that fold yields. */
module Latches {

  /** One cycle of a set-only latch: it stays set once set, and is set by `trigger`. */
  function Latch(latched: bool, trigger: bool): (r: bool)
    ensures latched ==> r
    ensures r <==> latched || trigger
  {
    latched || trigger
  }

  /** The latch after one cycle per trigger reading, oldest first. */
  function LatchedAfter(latched: bool, triggers: seq<bool>): bool
    decreases |triggers|
  {
    if triggers == [] then latched else LatchedAfter(Latch(latched, triggers[0]), triggers[1..])
  }

  /** After any number of cycles the latch is set exactly when it was set at the
      start or some cycle's trigger fired: it is never cleared. */
  lemma {:induction false} LatchedAfterIff(latched: bool, triggers: seq<bool>)
    ensures LatchedAfter(latched, triggers) <==> latched || exists i :: 0 <= i < |triggers| && triggers[i]
    decreases |triggers|
  {
    if triggers != [] {
      LatchedAfterIff(Latch(latched, triggers[0]), triggers[1..]);
      if exists i :: 0 <= i < |triggers[1..]| && triggers[1..][i] {
        var i :| 0 <= i < |triggers[1..]| && triggers[1..][i];
        assert triggers[i + 1];
      }
      if exists i :: 0 <= i < |triggers| && triggers[i] {
        var i :| 0 <= i < |triggers| && triggers[i];
        assert i == 0 || triggers[1..][i - 1];
      }
    }
  }
}
