/**
  Control of the Newton-Raphson loop of calculateElements (lines 136-148) that
  refines the eccentric anomaly E, in degrees, from the mean anomaly M and the
  eccentricity e. The facts proved are about the loop's shape (how many passes,
  which corrections are applied, why it stops), not about numeric accuracy.
*/
module Kepler {
  import opened Numerics
  import opened Angles

  /** Lines 10-11. */
  const MAX_ITERATIONS: nat := 10
  const MAX_DE: real := 0.000000000000001

  /** The largest number of passes the do-while loop can make. */
  const MAX_PASSES: nat := MAX_ITERATIONS + 1

  /** What the loop needs so that `1 - e cos E` is never zero: a bound orbit and a bounded cosine. */
  ghost predicate Solvable(rt: Runtime, e: real) {
    CosineBounded(rt) && -1.0 < e < 1.0
  }

  lemma DenominatorPositive(rt: Runtime, e: real, x: real)
    requires Solvable(rt, e)
    ensures 1.0 - e * DegCos(rt, x) > 0.0
  {
    var c := DegCos(rt, x);
    assert -1.0 <= c <= 1.0;
    if e >= 0.0 {
      assert e * c <= e * 1.0;
    } else {
      assert e * c <= e * -1.0;
    }
  }

  /** Line 137: the starting estimate E0 = M + e' sin M (1 + e cos M), with e' = e in degrees. */
  function Seed(rt: Runtime, M: real, e: real): (E0: real)
    ensures e == 0.0 ==> E0 == M
  {
    M + RAD_TO_DEG * e * DegSin(rt, M) * (1.0 + e * DegCos(rt, M))
  }

  /** Lines 145-146: the Newton-Raphson correction dE a pass computes at the estimate `En`. */
  function Correction(rt: Runtime, M: real, e: real, En: real): (dE: real)
    requires Solvable(rt, e)
    ensures e == 0.0 ==> En + dE == M
  {
    DenominatorPositive(rt, e, En);
    (M - (En - RAD_TO_DEG * e * DegSin(rt, En))) / (1.0 - e * DegCos(rt, En))
  }

  /** The estimate after `j` corrections have been added to `E0`. */
  function Iterate(rt: Runtime, M: real, e: real, E0: real, j: nat): real
    requires Solvable(rt, e)
  {
    if j == 0 then E0
    else
      var prev := Iterate(rt, M, e, E0, j - 1);
      prev + Correction(rt, M, e, prev)
  }

  /**
    Line 148: the loop stops after pass `j` (the counter then holds `j`) when that
    pass's correction is within the tolerance or the counter exceeds the maximum.
  */
  predicate Stops(rt: Runtime, M: real, e: real, E0: real, j: nat)
    requires Solvable(rt, e) && 1 <= j
  {
    Abs(Correction(rt, M, e, Iterate(rt, M, e, E0, j - 1))) <= MAX_DE || j > MAX_ITERATIONS
  }

  /** The pass the loop stops at, looking from pass `j` onward. */
  function PassesFrom(rt: Runtime, M: real, e: real, E0: real, j: nat): (k: nat)
    requires Solvable(rt, e) && 1 <= j <= MAX_PASSES
    ensures j <= k <= MAX_PASSES
    ensures Stops(rt, M, e, E0, k)
    ensures forall p :: j <= p < k ==> !Stops(rt, M, e, E0, p)
    decreases MAX_PASSES - j
  {
    if Stops(rt, M, e, E0, j) then j else PassesFrom(rt, M, e, E0, j + 1)
  }

  /** The number of passes the loop makes for mean anomaly `M` and eccentricity `e`. */
  function Passes(rt: Runtime, M: real, e: real): nat
    requires Solvable(rt, e)
  {
    PassesFrom(rt, M, e, Seed(rt, M, e), 1)
  }

  /** The eccentric anomaly, in degrees, that the loop leaves in `En`. */
  function EccentricAnomaly(rt: Runtime, M: real, e: real): real
    requires Solvable(rt, e)
  {
    Iterate(rt, M, e, Seed(rt, M, e), Passes(rt, M, e) - 1)
  }

  /** A loop that stops at pass `k` and at no earlier pass makes exactly `k` passes. */
  lemma PassesUnique(rt: Runtime, M: real, e: real, k: nat)
    requires Solvable(rt, e) && 1 <= k <= MAX_PASSES
    requires Stops(rt, M, e, Seed(rt, M, e), k)
    requires forall p :: 1 <= p < k ==> !Stops(rt, M, e, Seed(rt, M, e), p)
    ensures Passes(rt, M, e) == k
  {
  }

  /** When the loop exits after pass `i`, that pass is where it stops, and nothing earlier is. */
  lemma LoopExit(rt: Runtime, M: real, e: real, i: nat, En: real, dE: real)
    requires Solvable(rt, e) && 1 <= i <= MAX_PASSES
    requires En == Iterate(rt, M, e, Seed(rt, M, e), i - 1) && dE == Correction(rt, M, e, En)
    requires !(Abs(dE) > MAX_DE && i <= MAX_ITERATIONS)
    requires forall p :: 1 <= p < i ==> !Stops(rt, M, e, Seed(rt, M, e), p)
    ensures Passes(rt, M, e) == i && En == EccentricAnomaly(rt, M, e)
  {
    assert Stops(rt, M, e, Seed(rt, M, e), i);
    PassesUnique(rt, M, e, i);
  }

  /**
    Lines 136-148. The body runs at least once and at most MAX_ITERATIONS + 1
    times, and stops at the first pass whose correction is within MAX_DE. After
    `passes` passes exactly `passes - 1` corrections have been added to the seed;
    the correction `dE` computed in the last pass is never added.
  */
  method SolveEccentricAnomaly(rt: Runtime, M: real, e: real) returns (En: real, passes: nat, dE: real)
    requires Solvable(rt, e)
    ensures 1 <= passes <= MAX_PASSES
    ensures En == Iterate(rt, M, e, Seed(rt, M, e), passes - 1)
    ensures dE == Correction(rt, M, e, En)
    ensures Abs(dE) <= MAX_DE || passes == MAX_PASSES
    ensures forall p :: 1 <= p < passes ==> !Stops(rt, M, e, Seed(rt, M, e), p)
    ensures passes == Passes(rt, M, e) && En == EccentricAnomaly(rt, M, e)
  {
    var E0 := Seed(rt, M, e);
    En := E0;
    dE := 0.0;
    var i: nat := 0;
    while true
      invariant i <= MAX_ITERATIONS
      invariant En + dE == Iterate(rt, M, e, E0, i)
      invariant forall p :: 1 <= p <= i ==> !Stops(rt, M, e, E0, p)
      decreases MAX_ITERATIONS - i
    {
      En := En + dE;
      dE := Correction(rt, M, e, En);
      i := i + 1;
      if !(Abs(dE) > MAX_DE && i <= MAX_ITERATIONS) {
        break;
      }
    }
    passes := i;
    LoopExit(rt, M, e, passes, En, dE);
  }

  /** A circular orbit (e = 0) is solved in one pass, with E equal to M. */
  lemma CircularOrbitOnePass(rt: Runtime, M: real)
    requires Solvable(rt, 0.0)
    ensures Passes(rt, M, 0.0) == 1
    ensures EccentricAnomaly(rt, M, 0.0) == M
  {
    assert Seed(rt, M, 0.0) == M;
    assert Correction(rt, M, 0.0, M) == 0.0;
    assert Stops(rt, M, 0.0, M, 1);
  }

  /** A seed already within tolerance is kept as it is: one pass, no correction added. */
  lemma ConvergedSeedKept(rt: Runtime, M: real, e: real)
    requires Solvable(rt, e)
    requires Abs(Correction(rt, M, e, Seed(rt, M, e))) <= MAX_DE
    ensures Passes(rt, M, e) == 1
    ensures EccentricAnomaly(rt, M, e) == Seed(rt, M, e)
  {
    assert Stops(rt, M, e, Seed(rt, M, e), 1);
  }
}
