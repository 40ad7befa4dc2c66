/** Java integer helpers and `BigDecimal` rounding, over unbounded `int` and
    exact `real`. */
module Arith {

  /** `Integer.MAX_VALUE`, the stand-in the BXGY distributor uses for a
      missing buy count. */
  const IntMax: int := 2147483647

  function Min(a: int, b: int): (m: int)
    ensures m <= a && m <= b && (m == a || m == b)
  {
    if a <= b then a else b
  }

  function Abs(a: int): nat {
    if a < 0 then -a else a
  }

  lemma DivNonNegative(x: int, y: int)
    requires x >= 0 && y > 0
    ensures x / y >= 0
  {
    assert x == y * (x / y) + x % y && 0 <= x % y < y;
  }

  /** Java's `int` division, which truncates toward zero (Dafny's `/` is
      Euclidean). */
  function JavaDiv(a: int, b: int): (q: int)
    requires b != 0
    ensures a >= 0 && b > 0 ==> q == a / b
    ensures (a < 0) != (b < 0) ==> q <= 0
    ensures (a < 0) == (b < 0) ==> q >= 0
  {
    DivNonNegative(Abs(a), Abs(b));
    var m := Abs(a) / Abs(b);
    if (a < 0) == (b < 0) then m else -m
  }

  lemma MulNonNegative(x: real, y: real)
    requires x >= 0.0 && y >= 0.0
    ensures x * y >= 0.0
  {
  }

  lemma MulMonotone(x: real, y: real, k: real)
    requires x <= y && k >= 0.0
    ensures x * k <= y * k
  {
    MulNonNegative(y - x, k);
  }

  /** Units split in two parts cost the same as all of them. */
  lemma SplitUnits(price: real, a: real, g: real)
    ensures price * a + (g - a) * price == price * g
  {
  }

  /** The exchange step of a greedy argument: moving `g - a` units to a
      line priced `price`, from lines worth at most `price` each, does not
      lower the total. */
  lemma ExchangeStep(price: real, a: int, g: int, d: int, worthA: real, worthG: real,
                     rest: real, afterA: real, afterG: real)
    requires worthA == price * a as real && worthG == price * g as real && d == g - a
    requires rest <= afterA && afterA <= afterG + d as real * price
    ensures worthA + rest <= worthG + afterG
  {
    SplitUnits(price, a as real, g as real);
  }

  /** A fraction `f` of `e <= q` units at a non-negative price is at most
      the price of `q` units. */
  lemma FractionOfUnitsBounds(price: real, e: real, q: real, f: real)
    requires price >= 0.0 && 0.0 <= e <= q && 0.0 <= f <= 1.0
    ensures 0.0 <= price * e * f <= price * q
  {
    MulMonotone(e, q, price);
    MulNonNegative(price, e);
    MulMonotone(f, 1.0, price * e);
    MulNonNegative(price * e, f);
  }

  /** Rounding to 8 decimals and then to cents moves a value by at most
      half a cent and half a unit of the eighth decimal. */
  lemma RoundedTwice(x: real, r8: real, r2: real)
    requires x * 100000000.0 - 0.5 <= r8 * 100000000.0 <= x * 100000000.0 + 0.5
    requires r8 * 100.0 - 0.5 <= r2 * 100.0 <= r8 * 100.0 + 0.5
    ensures x - 0.005000005 <= r2 <= x + 0.005000005
  {
  }

  /** One step of a sum of price times units: freeing at most `q` units of
      a line adds at most the line's worth. */
  lemma StepWithinTotal(price: real, f: real, q: real, g: real, c: real)
    requires price >= 0.0 && 0.0 <= f <= q && 0.0 <= g <= c
    ensures 0.0 <= price * f + g <= price * q + c
  {
    MulMonotone(f, q, price);
    MulNonNegative(f, price);
  }

  /** One step of a sum of price times units against a top price. */
  lemma StepWithinRate(price: real, top: real, f: real, r: real, g: real)
    requires 0.0 <= price <= top && 0.0 <= f <= r && g <= (r - f) * top
    ensures price * f + g <= r * top
  {
    MulMonotone(price, top, f);
  }

  /** Raising the units on a line from `b` to `f` costs at most the top
      price per unit. */
  lemma StepIncrement(price: real, top: real, b: real, f: real, e: real, g: real)
    requires 0.0 <= price <= top && b <= f && g <= e * top
    ensures price * f + g <= price * b + (f - b + e) * top
  {
    MulMonotone(price, top, f - b);
  }

  /** A quotient of at least one whole divisor is at least one. */
  lemma DivAtLeastOne(x: int, y: int)
    requires y > 0 && x >= y
    ensures x / y >= 1
  {
    assert x == y * (x / y) + x % y && 0 <= x % y < y;
  }

  /** The whole number nearest to `y`, a tie going away from zero: the
      rounding step of `RoundingMode.HALF_UP`. */
  function RoundToInt(y: real): (n: int)
    ensures y - 0.5 <= n as real <= y + 0.5
    ensures 0.0 <= y ==> 0 <= n
    ensures y <= 0.0 ==> n <= 0
  {
    if y >= 0.0 then (y + 0.5).Floor else -((-y + 0.5).Floor)
  }

  lemma RoundToIntWhole(k: int)
    ensures RoundToInt(k as real) == k
  {
  }

  lemma RoundToIntMonotone(y: real, z: real)
    requires y <= z
    ensures RoundToInt(y) <= RoundToInt(z)
  {
    if 0.0 <= y {
      assert (y + 0.5).Floor <= (z + 0.5).Floor;
    } else if z < 0.0 {
      assert (-z + 0.5).Floor <= (-y + 0.5).Floor;
    }
  }

  /** `x` is a whole number of cents (has at most 2 decimals). */
  predicate IsCents(x: real) {
    (x * 100.0).Floor as real == x * 100.0
  }

  /** `setScale(2, HALF_UP)`: `x` rounded to whole cents, a tie going away
      from zero. */
  function Round2(x: real): (r: real)
    ensures IsCents(r)
    ensures x * 100.0 - 0.5 <= r * 100.0 <= x * 100.0 + 0.5
    ensures 0.0 <= x ==> 0.0 <= r
    ensures x <= 0.0 ==> r <= 0.0
  {
    var n := RoundToInt(x * 100.0);
    assert (n as real / 100.0) * 100.0 == n as real;
    n as real / 100.0
  }

  /** `divide(d, 8, HALF_UP)`: a quotient rounded to 8 decimals, a tie going
      away from zero. */
  function Round8(x: real): (r: real)
    ensures x * 100000000.0 - 0.5 <= r * 100000000.0 <= x * 100000000.0 + 0.5
    ensures 0.0 <= x ==> 0.0 <= r
    ensures x <= 0.0 ==> r <= 0.0
  {
    RoundToInt(x * 100000000.0) as real / 100000000.0
  }

  /** Rounding a whole number of cents to cents changes nothing. */
  lemma {:induction false} Round2Idempotent(x: real)
    requires IsCents(x)
    ensures Round2(x) == x
  {
    RoundToIntWhole((x * 100.0).Floor);
  }

  /** Rounding to cents is monotone. */
  lemma {:induction false} Round2Monotone(x: real, y: real)
    requires x <= y
    ensures Round2(x) <= Round2(y)
  {
    RoundToIntMonotone(x * 100.0, y * 100.0);
  }

  /** Rounding to 8 decimals is monotone. */
  lemma {:induction false} Round8Monotone(x: real, y: real)
    requires x <= y
    ensures Round8(x) <= Round8(y)
  {
    RoundToIntMonotone(x * 100000000.0, y * 100000000.0);
  }

  /** A tie is rounded away from zero (HALF_UP, not HALF_EVEN): a value
      exactly half a cent above a whole number of cents rounds up, and its
      negation rounds down. */
  lemma Round2TieAwayFromZero(n: int)
    requires n >= 0
    ensures Round2((n as real + 0.5) / 100.0) == (n + 1) as real / 100.0
    ensures Round2(-(n as real + 0.5) / 100.0) == -(n + 1) as real / 100.0
  {
    assert ((n as real + 0.5) / 100.0) * 100.0 + 0.5 == (n + 1) as real;
    assert -(-(n as real + 0.5) / 100.0) * 100.0 + 0.5 == (n + 1) as real;
  }

  /** Whole cents are closed under addition and subtraction. */
  lemma CentsAddSub(x: real, y: real)
    requires IsCents(x) && IsCents(y)
    ensures IsCents(x + y) && IsCents(x - y)
  {
    var a, b := (x * 100.0).Floor, (y * 100.0).Floor;
    assert x * 100.0 == a as real && y * 100.0 == b as real;
    assert (x + y) * 100.0 == (a + b) as real;
    assert ((a + b) as real).Floor == a + b;
    assert (x - y) * 100.0 == (a - b) as real;
    assert ((a - b) as real).Floor == a - b;
  }
}
