/**
  Exact-real counterparts of the two rounding primitives the bid arithmetic uses.
  Every float64 quantity of the program is modelled as a real number.
*/
module Numeric {

  datatype Option<+T> = None | Some(value: T)

  function Min(a: int, b: int): int {
    if a <= b then a else b
  }

  function Max(a: int, b: int): int {
    if a <= b then b else a
  }

  /** Rounds half away from zero, as `math.Round` does. */
  function Round(x: real): int {
    if x >= 0.0 then (x + 0.5).Floor else -(-x + 0.5).Floor
  }

  function Ceil(x: real): int {
    -(-x).Floor
  }

  lemma RoundMonotone(x: real, y: real)
    requires x <= y
    ensures Round(x) <= Round(y)
  {
  }

  lemma RoundOfInt(n: int)
    ensures Round(n as real) == n
  {
  }

  /** Rounding is off by at most one half, and a half moves away from zero. */
  lemma RoundNearest(x: real)
    ensures x - 0.5 <= Round(x) as real <= x + 0.5
    ensures x >= 0.0 ==> x - 0.5 < Round(x) as real
  {
  }

  /** A bid times a ratio, rounded to a whole bid. */
  function Scaled(bid: int, ratio: real): int {
    Round(bid as real * ratio)
  }

  /** A ratio of at least one never lowers a bid, a ratio of at most one never raises it. */
  lemma ScaledSide(bid: int, ratio: real)
    requires bid >= 0
    ensures ratio >= 1.0 ==> Scaled(bid, ratio) >= bid
    ensures ratio <= 1.0 ==> Scaled(bid, ratio) <= bid
  {
    RoundOfInt(bid);
    if ratio >= 1.0 {
      assert bid as real * ratio >= bid as real * 1.0;
      RoundMonotone(bid as real, bid as real * ratio);
    }
    if ratio <= 1.0 {
      assert bid as real * ratio <= bid as real * 1.0;
      RoundMonotone(bid as real * ratio, bid as real);
    }
  }

  lemma ScaledMonotone(bid: int, r1: real, r2: real)
    requires bid >= 0
    requires r1 <= r2
    ensures Scaled(bid, r1) <= Scaled(bid, r2)
  {
    ProductNonNegative(bid as real, r2 - r1);
    assert bid as real * r2 - bid as real * r1 == bid as real * (r2 - r1);
    RoundMonotone(bid as real * r1, bid as real * r2);
  }

  // Comparisons of products and quotients by a positive factor.

  lemma ProductNonNegative(x: real, y: real)
    requires x >= 0.0 && y >= 0.0
    ensures x * y >= 0.0
  {
  }

  lemma Cancel(x: real, y: real, k: real)
    requires k > 0.0
    ensures x * k < y * k <==> x < y
    ensures x * k == y * k <==> x == y
  {
  }

  lemma Quotient(x: real, d: real, y: real)
    requires d > 0.0
    ensures x / d < y <==> x < y * d
    ensures x / d == y <==> x == y * d
  {
    var q := x / d;
    assert q * d == x;
    Cancel(q, y, d);
  }

  lemma QuotientMonotone(x: real, y: real, d: real)
    requires x <= y && d > 0.0
    ensures x / d <= y / d
  {
    var q := y / d;
    assert q * d == y;
    Quotient(x, d, q);
  }

  /** A larger divisor gives a smaller quotient. */
  lemma QuotientAntitone(n: real, x: real, y: real)
    requires n > 0.0 && 0.0 < x <= y
    ensures 0.0 < n / y <= n / x
  {
    var q := n / x;
    assert q * x == n;
    Quotient(n, x, 0.0);
    Quotient(n, y, 0.0);
    Cancel(x, y, q);
    assert q * y >= n;
    Quotient(n, y, q);
  }

  /** Of two pairs with equal product, the one with the larger first factor has the smaller second. */
  lemma CompareProducts(x: real, y: real, a: real, b: real)
    requires x > 0.0 && y > 0.0 && a > 0.0 && b > 0.0 && x * y == a * b
    ensures x > a <==> y < b
    ensures x < a <==> y > b
  {
    Cancel(x, a, y);
    Cancel(y, b, a);
    assert b * a == x * y && y * a == a * y;
  }

  lemma Associate(x: real, y: real, z: real)
    ensures x * y * z == x * (y * z)
  {
  }

  lemma Substitute(k: real, x: real, y: real)
    requires x == y
    ensures k * x == k * y
  {
  }

  /** A scaled bid rounds to zero exactly when it is below one half. */
  lemma ScaledZeroIff(bid: int, ratio: real)
    requires bid >= 0 && ratio >= 0.0
    ensures Scaled(bid, ratio) >= 0
    ensures Scaled(bid, ratio) == 0 <==> bid as real * ratio < 0.5
  {
    assert bid as real * ratio >= 0.0;
    RoundNearest(bid as real * ratio);
  }
}
