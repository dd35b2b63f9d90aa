/** Exact money amounts and the two-decimal rounding of the running balance. */
module Money {

  /** `x` is a whole number of cents. */
  predicate IsCent(x: real)
  {
    (x * 100.0).Floor as real == x * 100.0
  }

  /** The nearest whole number of cents to a non-negative amount `m`, halves rounded up. */
  function CentsOf(m: real): (k: int)
    requires m >= 0.0
    ensures k >= 0
    ensures -0.5 <= m * 100.0 - k as real < 0.5
    ensures IsCent(m) ==> k as real == m * 100.0
  {
    FloorHalfUp(m * 100.0);
    (m * 100.0 + 0.5).Floor
  }

  lemma FloorHalfUp(y: real)
    ensures -0.5 <= y - (y + 0.5).Floor as real < 0.5
    ensures y.Floor as real == y ==> (y + 0.5).Floor == y.Floor
  {
    var k := (y + 0.5).Floor;
    assert k as real <= y + 0.5 < k as real + 1.0;
    if y.Floor as real == y {
      var n := y.Floor;
      assert n as real <= y + 0.5 < n as real + 1.0;
    }
  }

  /** Rounding to two decimals, half away from zero, as `toFixed(2)` does on an exact decimal
      (it rounds the magnitude and keeps the sign). */
  function Round2(x: real): (r: real)
    ensures -0.005 <= x - r <= 0.005
    ensures x >= 0.0 ==> r >= 0.0
    ensures x <= 0.0 ==> r <= 0.0
  {
    if x >= 0.0 then CentsOf(x) as real / 100.0 else -(CentsOf(-x) as real) / 100.0
  }

  /** Rounding lands on whole cents and leaves whole-cent amounts unchanged. */
  lemma Round2Cents(x: real)
    ensures IsCent(Round2(x))
    ensures IsCent(x) ==> Round2(x) == x
  {
    if x >= 0.0 {
      CentsExact(CentsOf(x));
    } else {
      NegatedCent(x);
      CentsExact(-CentsOf(-x));
    }
  }

  /** A whole number of cents, expressed in currency units, is a whole-cent amount. */
  lemma CentsExact(k: int)
    ensures IsCent(k as real / 100.0)
  {
    assert (k as real / 100.0) * 100.0 == k as real;
  }

  /** The floor of a real that is an integer is that integer. */
  lemma FloorOfWhole(y: real, m: int)
    requires y == m as real
    ensures y.Floor == m
  {
  }

  lemma NegatedCent(x: real)
    ensures IsCent(x) ==> IsCent(-x)
  {
    if IsCent(x) {
      var m := (x * 100.0).Floor;
      assert -x * 100.0 == (-m) as real;
      FloorOfWhole(-x * 100.0, -m);
    }
  }

  lemma SameCents(a: real, b: real)
    requires IsCent(a) && a == b
    ensures IsCent(b)
  {
  }

  /** Sums and differences of whole-cent amounts are whole cents. */
  lemma CentsClosed(a: real, b: real)
    requires IsCent(a) && IsCent(b)
    ensures IsCent(a + b) && IsCent(a - b)
  {
    var m := (a * 100.0).Floor;
    var n := (b * 100.0).Floor;
    assert (a + b) * 100.0 == (m + n) as real;
    FloorOfWhole((a + b) * 100.0, m + n);
    assert (a - b) * 100.0 == (m - n) as real;
    FloorOfWhole((a - b) * 100.0, m - n);
  }
}
