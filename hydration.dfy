/**
 * Arithmetic that both HydraTrack front ends share: JavaScript's Math.round,
 * the 33 ml-per-kg goal formula, the rounded progress percentage, the
 * remaining amount and the newest-first ordering of the drink log.
 *
 * Numbers that are JavaScript doubles in the program (body weight, the
 * percentage quotient) are Dafny reals here: exact, with no IEEE-754 rounding.
 */
module Hydration {

  /** A value that may be missing: an absent storage key, or a parse that gave NaN. */
  datatype Option<T> = None | Some(value: T)

  /** Millilitres of water per kilogram of body weight. */
  const MlPerKg: real := 33.0

  /**
   * JavaScript's Math.round: the nearest integer, halves rounded up
   * (towards +infinity, so -2.5 rounds to -2).
   */
  function Round(x: real): (n: int)
    ensures n as real - 0.5 <= x < n as real + 0.5
  {
    (x + 0.5).Floor
  }

  lemma RoundOfInt(k: int)
    ensures Round(k as real) == k
  {
  }

  function Min(a: int, b: int): int { if a < b then a else b }

  function Max(a: int, b: int): int { if a < b then b else a }

  /** The daily goal in ml for a body weight in kg: Math.round(weight * 33). */
  function GoalFor(weight: real): (goal: int)
    ensures goal as real - 0.5 <= weight * MlPerKg < goal as real + 0.5
  {
    Round(weight * MlPerKg)
  }

  /** A heavier body never gets a smaller goal. */
  lemma GoalMonotone(w1: real, w2: real)
    requires w1 <= w2
    ensures GoalFor(w1) <= GoalFor(w2)
  {
  }

  /** Every weight the 30-200 kg validation accepts gives a goal between 990 and 6600 ml. */
  lemma GoalInValidRange(weight: real)
    requires 30.0 <= weight <= 200.0
    ensures 990 <= GoalFor(weight) <= 6600
  {
  }

  /** `Math.max(0, goal - intake)`: what is still to drink today. */
  function Remaining(goal: int, intake: int): (r: int)
    ensures r >= 0
    ensures r == 0 <==> intake >= goal
    ensures r > 0 ==> intake + r == goal
  {
    Max(0, goal - intake)
  }

  /**
   * The rounded progress percentage, capped at 100, and 0 when no goal is set:
   * `goal > 0 ? Math.min(100, Math.round(amount / goal * 100)) : 0`.
   */
  function RoundedPercent(amount: int, goal: int): (p: int)
    ensures goal <= 0 ==> p == 0
    ensures p <= 100
    ensures amount >= 0 ==> p >= 0
    ensures goal > 0 && p < 100 ==> 2 * goal * p - goal <= 200 * amount < 2 * goal * p + goal
    ensures goal > 0 ==> (p == 100 <==> 200 * amount >= 199 * goal)
  {
    if goal > 0 then
      var n := Round(amount as real / goal as real * 100.0);
      QuotientBounds(amount, goal, n);
      NearestPercent(amount, goal, n);
      Min(100, n)
    else
      0
  }

  /**
   * The percentage quotient `amount / goal * 100` lies in the half-open
   * interval around the integer `n` exactly when the integer inequalities do.
   */
  lemma QuotientBounds(amount: int, goal: int, n: int)
    requires goal > 0
    ensures var q := amount as real / goal as real * 100.0;
      (n as real - 0.5 <= q <==> 2 * goal * n - goal <= 200 * amount) &&
      (q < n as real + 0.5 <==> 200 * amount < 2 * goal * n + goal)
  {
    var g, a, m := goal as real, amount as real, n as real;
    var q := a / g * 100.0;
    var lo, hi, t := 2 * goal * n - goal, 2 * goal * n + goal, 200 * amount;
    assert (goal * n) as real == g * m;
    // Both sides of each comparison are multiplied by the positive 2 * goal.
    ScaledLe(m - 0.5, q, 2.0 * g, lo as real, t as real);
    ScaledLt(q, m + 0.5, 2.0 * g, t as real, hi as real);
  }

  /** What the integer bounds on a rounded percentage `n` imply about it. */
  lemma NearestPercent(amount: int, goal: int, n: int)
    requires goal > 0
    requires 2 * goal * n - goal <= 200 * amount < 2 * goal * n + goal
    ensures amount >= 0 ==> n >= 0
    ensures n >= 100 <==> 200 * amount >= 199 * goal
  {
  }

  lemma ScaledLe(x: real, y: real, k: real, kx: real, ky: real)
    requires k > 0.0 && kx == x * k && ky == y * k
    ensures x <= y <==> kx <= ky
  {
  }

  lemma ScaledLt(x: real, y: real, k: real, kx: real, ky: real)
    requires k > 0.0 && kx == x * k && ky == y * k
    ensures x < y <==> kx < ky
  {
  }

  /** The sequence in the opposite order, `[...s].reverse()`. */
  function Reverse<T>(s: seq<T>): (r: seq<T>)
    ensures |r| == |s|
    ensures forall i :: 0 <= i < |s| ==> r[i] == s[|s| - 1 - i]
  {
    if |s| == 0 then [] else [s[|s| - 1]] + Reverse(s[..|s| - 1])
  }
}
