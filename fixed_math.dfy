/**
  The arithmetic the toolkit builds on: GLib's MAX, MIN and CLAMP macros and
  Clutter's 16.16 fixed-point numbers (ClutterFixed), modelled over unbounded
  integers. A fixed-point number is an integer counting 1/65536ths.
 */
module FixedMath {

  /** CLUTTER_INT_TO_FIXED: the number of 1/65536ths in a whole number. */
  const FixedOne: int := 65536

  function IntToFixed(n: int): (r: int)
    ensures r / FixedOne == n && r % FixedOne == 0
  {
    n * FixedOne
  }

  /** GLib's MAX. */
  function Max(a: int, b: int): (r: int)
    ensures r >= a && r >= b
    ensures r == a || r == b
  {
    if a > b then a else b
  }

  /** GLib's MIN. */
  function Min(a: int, b: int): (r: int)
    ensures r <= a && r <= b
    ensures r == a || r == b
  {
    if a < b then a else b
  }

  /**
    GLib's CLAMP(x, low, high). The test against `high` comes first, so when
    `low > high` a value above `high` yields `high`, one below `low` (and not
    above `high`) yields `low`, and one in between is left alone.
   */
  function Clamp(x: int, low: int, high: int): (r: int)
    ensures low <= high ==> low <= r <= high
    ensures low <= x <= high ==> r == x
    ensures x > high ==> r == high
    ensures x <= high && x < low ==> r == low
    ensures r == x || r == low || r == high
  {
    if x > high then high else if x < low then low else x
  }

  /** Absolute value, used to state how C's division rounds. */
  function Abs(a: int): (r: nat)
    ensures r == a || r == -a
  {
    if a < 0 then -a else a
  }

  /**
    C99 integer division: the quotient is truncated toward zero, so its
    magnitude is the floor of |a| / |b| and its sign is the product of the
    operands' signs (unlike Dafny's Euclidean `/`).
   */
  function TruncDiv(a: int, b: int): (q: int)
    requires b != 0
    ensures Abs(q) * Abs(b) <= Abs(a) < (Abs(q) + 1) * Abs(b)
    ensures (a >= 0) == (b > 0) ==> q >= 0
    ensures (a >= 0) != (b > 0) ==> q <= 0
  {
    var x: nat, d: nat := Abs(a), Abs(b);
    var m := x / d;
    DivBounds(x, d);
    var q := if (a < 0) == (b < 0) then m else -m;
    assert Abs(q) == m;
    q
  }

  /** The floor quotient of two naturals brackets the dividend. */
  lemma DivBounds(x: nat, d: nat)
    requires d > 0
    ensures (x / d) * d <= x < (x / d + 1) * d
  {
    assert x == (x / d) * d + x % d;
  }

  /**
    clutter_qmulx: the 64-bit product of two fixed-point numbers shifted
    right by 16 bits. An arithmetic shift rounds toward minus infinity, which
    is what Dafny's `/` does for a positive divisor.
   */
  function FixedMul(a: int, b: int): (r: int)
    ensures r * FixedOne <= a * b < (r + 1) * FixedOne
  {
    (a * b) / FixedOne
  }

  /**
    clutter_qdivx: the dividend widened to 64 bits and shifted left by 16,
    then divided with C's truncating division.
   */
  function FixedDiv(a: int, b: int): (r: int)
    requires b != 0
    ensures Abs(r) * Abs(b) <= Abs(a) * FixedOne < (Abs(r) + 1) * Abs(b)
    ensures (a >= 0) == (b > 0) ==> r >= 0
    ensures (a >= 0) != (b > 0) ==> r <= 0
  {
    assert (a * FixedOne >= 0) == (a >= 0);
    TruncDiv(a * FixedOne, b)
  }

  /** Euclidean division has exactly one quotient-remainder pair. */
  lemma DivUnique(x: int, d: int, q: int, r: int)
    requires 0 < d && 0 <= r < d && x == q * d + r
    ensures x / d == q && x % d == r
  {
    var q', r' := x / d, x % d;
    assert q' * d + r' == q * d + r;
    assert (q - q') * d == r' - r;
    if q > q' {
      assert (q - q') * d >= d by { MulAtLeast(q - q', d); }
    } else if q < q' {
      assert (q' - q) * d >= d by { MulAtLeast(q' - q, d); }
    }
  }

  lemma MulAtLeast(k: int, d: int)
    requires k >= 1 && d > 0
    ensures k * d >= d
  {
  }

  /**
    Multiplying a whole frame number, converted to fixed point, by a fixed
    step with qmulx gives exactly the integer multiple of the step: no
    rounding happens.
   */
  lemma {:induction false} MulIntToFixed(k: int, d: int)
    ensures FixedMul(IntToFixed(k), d) == k * d
  {
    assert IntToFixed(k) * d == (k * d) * FixedOne;
    DivUnique((k * d) * FixedOne, FixedOne, k * d, 0);
  }

  /**
    Dividing a fixed-point distance by a whole frame count converted to fixed
    point with qdivx is C's truncating division of the distance by the count.
   */
  lemma {:induction false} DivIntToFixed(a: int, n: int)
    requires n > 0
    ensures FixedDiv(a, IntToFixed(n)) == TruncDiv(a, n)
  {
    var m := Abs(a) / n;
    var r := Abs(a) % n;
    assert Abs(a) == m * n + r;
    assert Abs(a * FixedOne) == m * (n * FixedOne) + r * FixedOne;
    assert 0 <= r * FixedOne < n * FixedOne;
    DivUnique(Abs(a * FixedOne), n * FixedOne, m, r * FixedOne);
    assert (a * FixedOne < 0) == (a < 0);
    assert FixedDiv(a, IntToFixed(n)) == TruncDiv(a * FixedOne, n * FixedOne);
    assert TruncDiv(a * FixedOne, n * FixedOne) == (if a < 0 then -m else m);
    assert TruncDiv(a, n) == (if a < 0 then -m else m);
  }
}
