/** `UKF::NormalizeAngle` (src/ukf.cpp:378-387). */
module Angles {

  /** `M_PI`, taken at the exact value of its decimal literal. */
  const Pi: real := 3.14159265358979323846

  /** The step of the normalising loop. The source declares `two_pi` as `long`,
      so `2 * M_PI` is truncated to the integer 6, not 2π. */
  const TwoPiTruncated: int := (2.0 * Pi).Floor

  lemma TwoPiTruncatedIsSix()
    ensures TwoPiTruncated == 6
    ensures 6.0 < 2.0 * Pi
  {
  }

  function Abs(x: real): real {
    if x < 0.0 then -x else x
  }

  function Ceiling(x: real): int {
    -((-x).Floor)
  }

  lemma CeilingUnique(x: real, k: int)
    requires (k - 1) as real < x <= k as real
    ensures Ceiling(x) == k
  {
  }

  /** `to_add`: the loop only ever moves its angle towards zero, in one direction
      fixed by the sign of the input. */
  function StepToAdd(phi: real): int {
    if phi < 0.0 then TwoPiTruncated else -TwoPiTruncated
  }

  /** The number of times the loop body runs. */
  function Turns(phi: real): (k: nat)
    ensures k > 0 <==> Abs(phi) > Pi
  {
    if phi > Pi then Ceiling((phi - Pi) / TwoPiTruncated as real)
    else if phi < -Pi then Ceiling((-Pi - phi) / TwoPiTruncated as real)
    else 0
  }

  /** `phi` after `k` runs of the loop body. */
  function Stepped(phi: real, k: nat): real {
    phi + (StepToAdd(phi) * k) as real
  }

  /** The value `NormalizeAngle` returns, in closed form: `phi` moved by whole
      steps of `to_add`. It is the FIRST such value whose magnitude is at most π,
      since the one before it (if any) lies outside that range. */
  function NormalizedAngle(phi: real): (r: real)
    ensures -Pi <= r <= Pi
    ensures Abs(phi) <= Pi ==> r == phi
    ensures Abs(phi) > Pi ==> exists k: nat :: k > 0 && r == Stepped(phi, k)
    ensures Abs(phi) > Pi ==> Abs(r - StepToAdd(phi) as real) > Pi
  {
    Stepped(phi, Turns(phi))
  }

  /** The loop, as written: repeatedly add `to_add` while `|phi| > π`. */
  method NormalizeAngle(phi: real) returns (r: real)
    ensures r == NormalizedAngle(phi)
  {
    TwoPiTruncatedIsSix();
    var twoPi: int := TwoPiTruncated;
    var toAdd: int := if phi < 0.0 then twoPi else -twoPi;
    r := phi;
    ghost var k: nat := 0;
    while Abs(r) > Pi
      invariant toAdd == StepToAdd(phi) == (if phi < 0.0 then 6 else -6)
      invariant r == phi + (toAdd * k) as real
      invariant phi < 0.0 ==> r < Pi
      invariant phi >= 0.0 ==> r > -Pi
      invariant k > 0 ==> Abs(r - toAdd as real) > Pi
      decreases if phi < 0.0 then (Pi - r).Floor else (r + Pi).Floor
    {
      r := r + toAdd as real;
      k := k + 1;
    }
    TurnsOfLoop(phi, k);
  }

  /** The loop's iteration count is `Turns(phi)`: a loop that stops at the first
      in-range value has run exactly that often. */
  lemma TurnsOfLoop(phi: real, k: nat)
    requires Abs(phi + (StepToAdd(phi) * k) as real) <= Pi
    requires k > 0 ==> Abs(phi + (StepToAdd(phi) * (k - 1)) as real) > Pi
    ensures k == Turns(phi)
  {
    if k > 0 {
      if phi < 0.0 {
        CeilingUnique((-Pi - phi) / 6.0, k);
      } else {
        CeilingUnique((phi - Pi) / 6.0, k);
      }
    }
  }

  /** Normalising twice is normalising once. */
  lemma NormalizeAngleIdempotent(phi: real)
    ensures NormalizedAngle(NormalizedAngle(phi)) == NormalizedAngle(phi)
  {
  }

  /** Because the step is 6 and not 2π, the result is in general not the input
      angle modulo 2π: 4 radians comes back as -2, which differs from 4 by no
      whole number of turns. */
  lemma NormalizeAngleLosesTurns(k: int)
    ensures NormalizedAngle(4.0) == -2.0
    ensures NormalizedAngle(4.0) != 4.0 + 2.0 * Pi * k as real
  {
  }
}
