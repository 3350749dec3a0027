/** Arithmetic of internal/rules/helpers.go. */
module Helpers {

  /** math.Round: to the nearest integer, halves away from zero. */
  function RoundHalfAway(x: real): real {
    if x >= 0.0 then (x + 0.5).Floor as real else -((-x + 0.5).Floor as real)
  }

  function Round2(f: real): real {
    RoundHalfAway(f * 100.0) / 100.0
  }

  function Ceil(x: real): int {
    -(-x).Floor
  }

  function MaxI(a: int, b: int): int {
    if a > b then a else b
  }

  function MinR(a: real, b: real): real {
    if a < b then a else b
  }

  function GB(bytes: int): real {
    bytes as real / 1000000000.0
  }

  /** Go's integer division by two truncates toward zero. */
  function Half(x: int): int {
    if x >= 0 then x / 2 else -(-x / 2)
  }

  /** A non-negative factor keeps order, a positive one keeps it strictly. */
  lemma Scaling(c: real, x: real, y: real)
    requires c >= 0.0 && x <= y
    ensures c * x <= c * y && x * c <= y * c
    ensures c > 0.0 && x < y ==> c * x < c * y && x * c < y * c
  {
  }

  lemma Unscaled(c: real, x: real, y: real)
    requires c > 0.0 && x * c <= y * c
    ensures x <= y
  {
    if x > y {
      Scaling(c, y, x);
    }
  }

  /** Rounding to a whole number stays within a half and respects sign and order. */
  lemma RoundBounds(x: real)
    ensures x - 0.5 <= RoundHalfAway(x) <= x + 0.5
    ensures x >= 0.0 ==> RoundHalfAway(x) >= 0.0
    ensures RoundHalfAway(-x) == -RoundHalfAway(x)
  {
  }

  /** A rounded figure is within half a cent of the exact one, on the same side of zero. */
  lemma Round2Exact(f: real)
    ensures f - 0.005 <= Round2(f) <= f + 0.005
    ensures f >= 0.0 ==> Round2(f) >= 0.0
    ensures Round2(-f) == -Round2(f)
  {
    hide RoundHalfAway;
    RoundBounds(f * 100.0);
    assert (-f) * 100.0 == -(f * 100.0);
  }

  predicate WholeCents(x: real) { (x * 100.0).Floor as real == x * 100.0 }

  lemma FloorIs(x: real, k: int)
    ensures k == x.Floor <==> k as real <= x < k as real + 1.0
  {
    var d := k - x.Floor;
    assert k as real == x.Floor as real + d as real;
  }

  lemma NearestWhole(f: real, k: int)
    ensures k as real == RoundHalfAway(f)
            <==> if f >= 0.0 then k as real - 0.5 <= f < k as real + 0.5 else k as real - 0.5 < f <= k as real + 0.5
  {
    FloorIs(f + 0.5, k);
    FloorIs(-f + 0.5, -k);
  }

  lemma WholePart(x: real) returns (k: int)
    ensures x.Floor as real == x ==> k as real == x
    ensures RoundHalfAway(x).Floor as real == RoundHalfAway(x)
  {
    k := x.Floor;
    FloorIs(RoundHalfAway(x), (x + 0.5).Floor);
    FloorIs(RoundHalfAway(x), -((-x + 0.5).Floor));
  }

  /** What round2 returns is the one figure in whole cents nearest to its argument, halves going away from zero. */
  lemma Round2IsNearestCent(f: real, x: real)
    ensures x == Round2(f)
            <==> && WholeCents(x)
                 && (if f >= 0.0 then x - 0.005 <= f < x + 0.005 else x - 0.005 < f <= x + 0.005)
  {
    var k := WholePart(x * 100.0);
    var n := WholePart(f * 100.0);
    assert x == Round2(f) <==> x * 100.0 == RoundHalfAway(f * 100.0);
    if WholeCents(x) {
      NearestWhole(f * 100.0, k);
    }
    hide RoundHalfAway;
  }
}
