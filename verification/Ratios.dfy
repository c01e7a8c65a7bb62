/** Quotients of counters, as the evaluation suites report them, in exact arithmetic. */
module Ratios {

  function Ratio(numerator: nat, denominator: nat, otherwise: real): real {
    if denominator != 0 then numerator as real / denominator as real else otherwise
  }

  /** The rate is the count's share of the whole. */
  predicate IsShare(rate: real, count: nat, whole: nat, otherwise: real) {
    if whole == 0 then rate == otherwise else rate * whole as real == count as real
  }

  lemma RatioIsShare(count: nat, whole: nat, otherwise: real)
    ensures IsShare(Ratio(count, whole, otherwise), count, whole, otherwise)
  {
  }

  /** The count is at least the asked share of the whole; of nothing, only a share of 0 is reached. */
  predicate IsReached(share: real, count: nat, whole: nat) {
    if whole == 0 then share <= 0.0 else share * whole as real <= count as real
  }

  lemma RatioReaches(count: nat, whole: nat, threshold: real)
    ensures Ratio(count, whole, 0.0) >= threshold <==> IsReached(threshold, count, whole)
  {
    if whole > 0 {
      CompareScaled(Ratio(count, whole, 0.0), threshold, whole as real);
    }
  }

  lemma CompareScaled(x: real, y: real, scale: real)
    requires scale > 0.0
    ensures x >= y <==> y * scale <= x * scale
  {
    if x >= y {
      assert (x - y) * scale >= 0.0;
    } else {
      assert (y - x) * scale > 0.0;
    }
  }

  lemma RealProduct(a: nat, b: nat)
    ensures (a * b) as real == a as real * b as real
  {
    if a != 0 {
      RealProduct(a - 1, b);
      assert a * b == (a - 1) * b + b;
    }
  }

  lemma Cross(x: real, y: real, b: real, d: real)
    requires b > 0.0 && d > 0.0
    ensures x <= y <==> (x * b) * d <= (y * d) * b
  {
    var p := b * d;
    assert p > 0.0;
    assert (x * b) * d == x * p && (y * d) * b == y * p;
    if x <= y {
      assert (y - x) * p >= 0.0;
    } else {
      assert (x - y) * p > 0.0;
    }
  }

  /** Comparing two ratios is comparing the cross products. */
  lemma CrossMultiply(a: nat, b: nat, c: nat, d: nat)
    requires b > 0 && d > 0
    ensures Ratio(a, b, 0.0) <= Ratio(c, d, 0.0) <==> a * d <= c * b
  {
    var x, y := a as real / b as real, c as real / d as real;
    assert x * b as real == a as real && y * d as real == c as real;
    RealProduct(a, d);
    RealProduct(c, b);
    Cross(x, y, b as real, d as real);
  }

  lemma Distribute(x: real, y: real, p: real, q: real, b: real)
    requires b > 0.0 && p * b == x && q * b == y && x + y == b
    ensures p == 1.0 - q
  {
    assert (p + q) * b == p * b + q * b;
    var r := p + q - 1.0;
    assert r * b == 0.0;
  }

  lemma Complement(a: nat, b: nat)
    requires a <= b && b > 0
    ensures Ratio(b - a, b, 0.0) == 1.0 - Ratio(a, b, 0.0)
  {
    var x, y, d := (b - a) as real, a as real, b as real;
    var p, q := x / d, y / d;
    assert p * d == x && q * d == y;
    Distribute(x, y, p, q, d);
  }

  lemma Bounds(a: nat, b: nat, otherwise: real)
    requires a <= b && 0.0 <= otherwise <= 1.0
    ensures 0.0 <= Ratio(a, b, otherwise) <= 1.0
    ensures b > 0 ==> (Ratio(a, b, otherwise) == 1.0 <==> a == b)
  {
    if b > 0 {
      var x := a as real / b as real;
      assert x * b as real == a as real;
    }
  }
}
