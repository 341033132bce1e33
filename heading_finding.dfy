/**
 * `_normalize_heading` on headings that are not whole degrees, counted in
 * TENTHS of a degree (3595 stands for 359.5°).
 *
 * The loop in src/node/simulator.py:80 runs while `heading < 0 or heading > 359`
 * with the sign chosen once from the input. For a heading in (359, 360) the
 * guard stays true: 359.5 steps to -0.5, -360.5, ... and -0.5 steps to 359.5,
 * 719.5, ... for ever. The bound evidently meant is `heading >= 360`.
 */
module HeadingFinding {
  import opened Wrappers

  /** The loop guard as written, in tenths: heading < 0 or heading > 359. */
  predicate AsWrittenGuard(t: int) {
    t < 0 || t > 3590
  }

  /** The loop guard evidently intended: heading < 0 or heading >= 360. */
  predicate IntendedGuard(t: int) {
    t < 0 || t >= 3600
  }

  /** On whole degrees the two guards agree, so the integer-heading model is unaffected. */
  lemma GuardsAgreeOnWholeDegrees(t: int)
    requires t % 10 == 0
    ensures AsWrittenGuard(t) <==> IntendedGuard(t)
  {
  }

  /**
   * The loop as written, run for at most `fuel` iterations with a fixed sign:
   * `Some` of the result when the guard turns false, `None` when the fuel runs out.
   */
  function AsWrittenLoop(t: int, sign: int, fuel: nat): (r: Option<int>)
    ensures r.Some? ==> !AsWrittenGuard(r.value)
    decreases fuel
  {
    if !AsWrittenGuard(t) then Some(t)
    else if fuel == 0 then None
    else AsWrittenLoop(t + sign * 3600, sign, fuel - 1)
  }

  /** `_normalize_heading` as written: sign −1 for a non-negative input, +1 otherwise. */
  function AsWrittenNormalize(t: int, fuel: nat): Option<int> {
    AsWrittenLoop(t, if t >= 0 then -1 else 1, fuel)
  }

  /** Once negative while subtracting, the loop never leaves. */
  lemma {:induction false} StuckBelowZero(t: int, fuel: nat)
    requires t < 0
    ensures AsWrittenLoop(t, -1, fuel) == None
    decreases fuel
  {
    if fuel > 0 {
      StuckBelowZero(t - 3600, fuel - 1);
    }
  }

  /** Once above 359 while adding, the loop never leaves. */
  lemma {:induction false} StuckAbove359(t: int, fuel: nat)
    requires t > 3590
    ensures AsWrittenLoop(t, 1, fuel) == None
    decreases fuel
  {
    if fuel > 0 {
      StuckAbove359(t + 3600, fuel - 1);
    }
  }

  /** For 359.5° and for −0.5° the loop as written runs out of every fuel bound. */
  lemma AsWrittenDiverges(fuel: nat)
    ensures AsWrittenNormalize(3595, fuel) == None
    ensures AsWrittenNormalize(-5, fuel) == None
  {
    if fuel > 0 {
      StuckBelowZero(3595 - 3600, fuel - 1);
      StuckAbove359(-5 + 3600, fuel - 1);
    }
  }

  /** The corrected normalisation, on tenths of a degree: terminates on every input. */
  method NormalizeHeadingTenths(t: int) returns (r: int)
    ensures 0 <= r < 3600
    ensures (r - t) % 3600 == 0
    ensures 0 <= t < 3600 ==> r == t
  {
    var sign := if t >= 0 then -1 else 1;
    r := t;
    while IntendedGuard(r)
      invariant r % 3600 == t % 3600
      invariant sign == -1 ==> r >= 0
      invariant sign == 1 ==> r < 3600
      decreases if sign == -1 then r else -r
    {
      r := r + sign * 3600;
    }
  }
}
