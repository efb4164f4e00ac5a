/**
 * Numeric helpers the engine relies on: absolute value, Python's
 * `round(x, 2)` on exact decimals, the first maximum that `max(..., key=)`
 * and a stable `sorted(..., reverse=True)[0]` both pick, and the severity
 * levels of the report.
 */
module Metrics {

  /** Severity labels of spike and high-cost events. */
  datatype Severity = Info | Medium | High | Critical

  function Abs(x: real): (r: real)
    ensures r >= 0.0 && (r == x || r == -x)
  {
    if x < 0.0 then -x else x
  }

  /** Round to the nearest integer, ties to the even neighbour (Python's rule). */
  function RoundHalfEven(x: real): (n: int)
    ensures x - 0.5 <= n as real <= x + 0.5
    ensures n as real - x == 0.5 || x - n as real == 0.5 ==> n % 2 == 0
  {
    var f := x.Floor;
    var frac := x - f as real;
    if frac < 0.5 then f
    else if frac > 0.5 then f + 1
    else if f % 2 == 0 then f
    else f + 1
  }

  /** `round(x, 2)` on an exact decimal: never off by more than half a cent. */
  function Round2(x: real): (r: real)
    ensures Abs(r - x) <= 0.005
    ensures (r * 100.0).Floor as real == r * 100.0
  {
    RoundHalfEven(x * 100.0) as real / 100.0
  }

  lemma RoundZero()
    ensures Round2(0.0) == 0.0
  {
    assert RoundHalfEven(0.0) == 0;
  }

  /**
   * Rounding to cents never crosses a whole-cent bound: a value at or above
   * (at or below) `m` cents rounds to at or above (at or below) it.
   */
  lemma RoundKeepsBound(x: real, m: int)
    ensures x >= m as real / 100.0 ==> Round2(x) >= m as real / 100.0
    ensures x <= m as real / 100.0 ==> Round2(x) <= m as real / 100.0
  {
    var n := RoundHalfEven(x * 100.0);
    assert Round2(x) == n as real / 100.0;
    if x >= m as real / 100.0 {
      assert n as real >= m as real - 0.5;
      assert n >= m;
    }
    if x <= m as real / 100.0 {
      assert n as real <= m as real + 0.5;
      assert n <= m;
    }
  }

  /**
   * A value at least `m` cents away from zero (`m > 0`) keeps that distance
   * and its sign when rounded to cents.
   */
  lemma RoundKeepsMagnitude(x: real, m: nat)
    requires m > 0 && Abs(x) >= m as real / 100.0
    ensures Abs(Round2(x)) >= m as real / 100.0
    ensures Round2(x) > 0.0 <==> x > 0.0
  {
    if x > 0.0 {
      RoundKeepsBound(x, m);
    } else {
      RoundKeepsBound(x, -(m as int));
    }
  }

  /**
   * The index `max(range(len(xs)), key=xs.__getitem__)` returns: the first
   * position holding the largest value.
   */
  function FirstMaxIndex(xs: seq<real>): (k: nat)
    requires |xs| > 0
    ensures k < |xs|
    ensures forall j :: 0 <= j < |xs| ==> xs[j] <= xs[k]
    ensures forall j :: 0 <= j < k ==> xs[j] < xs[k]
  {
    if |xs| == 1 then 0
    else
      var k := FirstMaxIndex(xs[..|xs| - 1]);
      if xs[|xs| - 1] > xs[k] then |xs| - 1 else k
  }

  function Min(a: int, b: int): int { if a <= b then a else b }

  function Max(a: int, b: int): int { if a >= b then a else b }
}
