/** What the two provider clients share: `Math.round`, the letter-grade table
    and the Core Web Vitals record. */
module Metrics {

  /** `Math.round` over the reals: the nearest integer, halves rounded up. */
  function Round(x: real): (r: int)
    ensures r as real - 0.5 <= x < r as real + 0.5
  {
    (x + 0.5).Floor
  }

  lemma RoundMonotone(x: real, y: real)
    requires x <= y
    ensures Round(x) <= Round(y)
  {
  }

  /** Rounding is the identity on whole numbers. */
  lemma RoundWhole(n: int)
    ensures Round(n as real) == n
  {
  }

  /** A percentage obtained from a fraction in [0, 1] lies in [0, 100]. */
  lemma {:induction false} RoundPercentInRange(fraction: real)
    requires 0.0 <= fraction <= 1.0
    ensures 0 <= Round(fraction * 100.0) <= 100
  {
    RoundMonotone(0.0, fraction * 100.0);
    RoundMonotone(fraction * 100.0, 100.0);
    RoundWhole(0);
    RoundWhole(100);
  }

  datatype Grade = A | B | C | D | F

  /** Position of a grade, best first. */
  function Rank(g: Grade): nat {
    match g
    case A => 0
    case B => 1
    case C => 2
    case D => 3
    case F => 4
  }

  /** `getGrade`: every lower bound is inclusive. */
  function GetGrade(score: int): (g: Grade)
    ensures g == A <==> score >= 90
    ensures g == B <==> 80 <= score < 90
    ensures g == C <==> 70 <= score < 80
    ensures g == D <==> 60 <= score < 70
    ensures g == F <==> score < 60
  {
    if score >= 90 then A
    else if score >= 80 then B
    else if score >= 70 then C
    else if score >= 60 then D
    else F
  }

  /** A higher score never earns a worse grade. */
  lemma GradeMonotone(lower: int, higher: int)
    requires lower <= higher
    ensures Rank(GetGrade(higher)) <= Rank(GetGrade(lower))
  {
  }

  /** The Core Web Vitals block of a normalized result (milliseconds, except the
      unit-less CLS). */
  datatype WebVitals = WebVitals(LCP: real, FID: real, CLS: real, TTFB: real, FCP: real, SI: real)
}
