/** The pulse-timing ranger: turning the measured echo pulse width of an
    ultrasonic sensor into a distance in whole centimetres (`distance` in main.h).
    Driving the trigger pin and timing the echo with `pulseIn` are hardware and
    are not modelled; the measured duration, in microseconds, is the input. */
module Ranger {
  import Ratio

  /** Microseconds of round trip per centimetre of distance, as the sketch
      writes it (a `double` literal). */
  const MicrosPerCm: real := 29.1

  /** `cm = (duration / 2) / 29.1`: the duration is halved with integer
      division on a `long`, divided by the real constant, and the quotient is
      truncated on assignment to the `long` `cm`. For a non-negative duration
      truncation is the floor; the body computes the same value without reals. */
  function Centimetres(duration: nat): (cm: nat)
    ensures cm == ((duration / 2) as real / MicrosPerCm).Floor
  {
    var half := duration / 2;
    assert (half as real) / MicrosPerCm == ((half * 10) as real) / (291 as real);
    Ratio.FloorOfQuotient(half * 10, 291);
    half * 10 / 291
  }

  /** An echo of no duration (what `pulseIn` also reports when it times out)
      reads as 0 cm. */
  lemma CentimetresOfNoEcho()
    ensures Centimetres(0) == 0
  {
  }

  /** A reading is 0 cm exactly when the echo is shorter than 60 microseconds:
      half of it is then under 29.1. */
  lemma CentimetresZeroIff(duration: nat)
    ensures Centimetres(duration) == 0 <==> duration < 60
  {
  }

  /** A longer echo never reads as a shorter distance. */
  lemma CentimetresMonotone(d1: nat, d2: nat)
    requires d1 <= d2
    ensures Centimetres(d1) <= Centimetres(d2)
  {
  }

  /** Each further 291 microseconds of half round trip (582 of echo) add
      exactly 10 cm: the conversion is linear with slope 10/582 cm per
      microsecond, up to the truncation. */
  lemma CentimetresStep(duration: nat)
    ensures Centimetres(duration + 582) == Centimetres(duration) + 10
  {
  }
}
