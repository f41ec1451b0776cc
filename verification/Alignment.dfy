/** alignUp, alignDown, isAligned and prevPowerOfTwo, written with the remainder instead of
    a bit mask: for the powers of two the driver passes the two forms agree. */
module Alignment {

  predicate IsAligned(x: int, a: int)
    requires a > 0
  {
    x % a == 0
  }

  function AlignDown(x: int, a: int): (r: int)
    requires a > 0
    ensures r <= x < r + a
  {
    x - x % a
  }

  function AlignUp(x: int, a: int): (r: int)
    requires a > 0
    ensures x <= r < x + a
  {
    if x % a == 0 then x else x + (a - x % a)
  }

  lemma {:induction false} NonzeroMultiple(d: int, a: int)
    requires a > 0 && d != 0
    ensures d > 0 ==> d * a >= a
    ensures d < 0 ==> d * a <= -a
    decreases if d < 0 then -d else d
  {
  }

  /** Quotient and remainder are unique. */
  lemma UniqueRemainder(x: int, q: int, r: int, a: int)
    requires a > 0 && 0 <= r < a
    requires x == q * a + r
    ensures x % a == r
  {
    var p := x / a;
    assert x == p * a + x % a;
    var d := q - p;
    assert d * a == q * a - p * a;
    if d != 0 {
      NonzeroMultiple(d, a);
    }
  }

  lemma AddModulus(x: int, a: int)
    requires a > 0
    ensures (x + a) % a == x % a
  {
    var q := x / a;
    assert x == q * a + x % a;
    assert (q + 1) * a == q * a + a;
    UniqueRemainder(x + a, q + 1, x % a, a);
  }

  lemma AlignDownIsAligned(x: int, a: int)
    requires a > 0
    ensures IsAligned(AlignDown(x, a), a)
  {
    assert x == (x / a) * a + x % a;
    UniqueRemainder(AlignDown(x, a), x / a, 0, a);
  }

  lemma AlignUpIsAligned(x: int, a: int)
    requires a > 0
    ensures IsAligned(AlignUp(x, a), a)
  {
    AlignDownIsAligned(x, a);
    AddModulus(AlignDown(x, a), a);
  }

  /** An aligned lower bound stays a lower bound after rounding down. */
  lemma AlignDownKeepsFloor(floor: int, x: int, a: int)
    requires a > 0 && IsAligned(floor, a) && floor <= x
    ensures floor <= AlignDown(x, a)
  {
    assert x == (x / a) * a + x % a;
    assert floor == (floor / a) * a;
    var d := x / a - floor / a;
    assert d * a == (x / a) * a - (floor / a) * a;
    if d != 0 {
      NonzeroMultiple(d, a);
    }
  }

  /** An aligned upper bound stays an upper bound after rounding up. */
  lemma AlignUpKeepsCeiling(x: int, ceiling: int, a: int)
    requires a > 0 && IsAligned(ceiling, a) && x <= ceiling
    ensures AlignUp(x, a) <= ceiling
  {
    AlignUpIsAligned(x, a);
    var up := AlignUp(x, a);
    assert up == (up / a) * a && ceiling == (ceiling / a) * a;
    var d := up / a - ceiling / a;
    assert d * a == up - ceiling;
    if d > 0 {
      NonzeroMultiple(d, a);
    }
  }

  /** The largest power of two that does not exceed `n`. */
  function PrevPowerOfTwo(n: nat): (r: nat)
    requires n > 0
    ensures 0 < r <= n < 2 * r
  {
    if n == 1 then 1 else 2 * PrevPowerOfTwo(n / 2)
  }

  function Pow2(k: nat): (r: nat)
    ensures r > 0
  {
    if k == 0 then 1 else 2 * Pow2(k - 1)
  }

  /** The result is a power of two, and it is the one that brackets `n`. */
  lemma {:induction false} PrevPowerOfTwoBrackets(n: nat, k: nat)
    requires Pow2(k) <= n < 2 * Pow2(k)
    ensures PrevPowerOfTwo(n) == Pow2(k)
  {
    if k > 0 {
      PrevPowerOfTwoBrackets(n / 2, k - 1);
    }
  }

  ghost predicate PowerOfTwo(n: nat) {
    exists k :: n == Pow2(k)
  }

  function AlignUpNonZero(x: nat, a: nat): (r: nat)
    requires a > 0
    ensures r > 0 && (x == 0 ==> r == a) && (x > 0 ==> x <= r < x + a)
  {
    if x == 0 then a else AlignUp(x, a)
  }

  lemma MultipleOfMultiple(x: int, a: int, b: int)
    requires a > 0 && b > 0 && x % a == 0 && a % b == 0
    ensures x % b == 0
  {
    assert x == (x / a) * a && a == (a / b) * b;
    assert x == ((x / a) * (a / b)) * b;
    UniqueRemainder(x, (x / a) * (a / b), 0, b);
  }

  lemma {:induction false} PowersDivide(j: nat, k: nat)
    requires j <= k
    ensures Pow2(k) % Pow2(j) == 0
  {
    if j == k {
      UniqueRemainder(Pow2(k), 1, 0, Pow2(j));
    } else {
      PowersDivide(j, k - 1);
      var q := Pow2(k - 1) / Pow2(j);
      assert Pow2(k) == (2 * q) * Pow2(j);
      UniqueRemainder(Pow2(k), 2 * q, 0, Pow2(j));
    }
  }

  /** Rounding a power of two up to pages keeps it a divisor. */
  lemma RoundedPower(alignment: nat, page: nat)
    requires PowerOfTwo(alignment) && PowerOfTwo(page)
    ensures AlignUpNonZero(alignment, page) % alignment == 0
  {
    var j :| alignment == Pow2(j);
    var k :| page == Pow2(k);
    if k <= j {
      PowersDivide(k, j);
      UniqueRemainder(alignment, 1, 0, alignment);
    } else {
      PowersDivide(j, k);
      PowersGrow(j, k);
      UniqueRemainder(alignment, 0, alignment, page);
    }
  }

  lemma {:induction false} PowersGrow(j: nat, k: nat)
    requires j < k
    ensures Pow2(j) < Pow2(k)
  {
    if j + 1 < k {
      PowersGrow(j, k - 1);
    }
  }
}
