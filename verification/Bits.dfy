/** Bitwise operators on unsigned integers of any width, defined digit by digit, and
    the two bit tricks the ring buffers rely on: the power-of-two test and masking. */
module Bits {
  /** Number of values of a `size_t`. */
  const SIZE_T_VALUES: nat := 0x1_0000_0000_0000_0000

  function Pow2(k: nat): (r: nat)
    ensures r >= 1
  {
    if k == 0 then 1 else 2 * Pow2(k - 1)
  }

  /** The `i`-th binary digit of `a`. */
  predicate Bit(a: nat, i: nat)
    decreases i
  {
    if i == 0 then a % 2 == 1 else Bit(a / 2, i - 1)
  }

  /** The `&` operator. */
  function And(a: nat, b: nat): nat {
    if a == 0 || b == 0 then 0
    else 2 * And(a / 2, b / 2) + (if a % 2 == 1 && b % 2 == 1 then 1 else 0)
  }

  /** The `|` operator. */
  function Or(a: nat, b: nat): nat {
    if a == 0 then b else if b == 0 then a
    else 2 * Or(a / 2, b / 2) + (if a % 2 == 1 || b % 2 == 1 then 1 else 0)
  }

  lemma {:induction false} ZeroBits(i: nat)
    ensures !Bit(0, i)
  {
    if i > 0 { ZeroBits(i - 1); }
  }

  /** `And` is the digit-wise conjunction. */
  lemma {:induction false} AndBits(a: nat, b: nat, i: nat)
    ensures Bit(And(a, b), i) <==> Bit(a, i) && Bit(b, i)
    decreases i
  {
    if a == 0 || b == 0 {
      ZeroBits(i);
    } else {
      var low := if a % 2 == 1 && b % 2 == 1 then 1 else 0;
      assert And(a, b) / 2 == And(a / 2, b / 2) && And(a, b) % 2 == low;
      if i > 0 { AndBits(a / 2, b / 2, i - 1); }
    }
  }

  /** `Or` is the digit-wise disjunction. */
  lemma {:induction false} OrBits(a: nat, b: nat, i: nat)
    ensures Bit(Or(a, b), i) <==> Bit(a, i) || Bit(b, i)
    decreases i
  {
    if a == 0 || b == 0 {
      ZeroBits(i);
    } else {
      var low := if a % 2 == 1 || b % 2 == 1 then 1 else 0;
      assert Or(a, b) / 2 == Or(a / 2, b / 2) && Or(a, b) % 2 == low;
      if i > 0 { OrBits(a / 2, b / 2, i - 1); }
    }
  }

  lemma {:induction false} AndSelf(a: nat)
    ensures And(a, a) == a
  {
    if a > 0 { AndSelf(a / 2); }
  }

  /** The test `(n & (n - 1)) == 0` on a `size_t`, where `0 - 1` wraps around. */
  predicate PowerOfTwoTest(n: nat)
    requires n < SIZE_T_VALUES
  {
    And(n, (n + SIZE_T_VALUES - 1) % SIZE_T_VALUES) == 0
  }

  ghost predicate IsPow2(n: nat) {
    exists k: nat :: n == Pow2(k)
  }

  lemma {:induction false} IsPow2Doubles(m: nat)
    requires m > 0
    ensures IsPow2(2 * m) <==> IsPow2(m)
  {
    if IsPow2(2 * m) {
      var k: nat :| 2 * m == Pow2(k);
      assert k > 0 && m == Pow2(k - 1);
    }
    if IsPow2(m) {
      var k: nat :| m == Pow2(k);
      assert 2 * m == Pow2(k + 1);
    }
  }

  lemma OddIsNoPow2(n: nat)
    requires n > 1 && n % 2 == 1
    ensures !IsPow2(n)
  {
    forall k: nat ensures n != Pow2(k) {
      if k > 0 { assert Pow2(k) == 2 * Pow2(k - 1); }
    }
  }

  lemma {:induction false} ClearLowestBit(n: nat)
    requires n > 0
    ensures And(n, n - 1) == 0 <==> IsPow2(n)
  {
    if n == 1 {
      assert n == Pow2(0);
    } else if n % 2 == 0 {
      assert (n - 1) / 2 == n / 2 - 1;
      ClearLowestBit(n / 2);
      IsPow2Doubles(n / 2);
      assert n == 2 * (n / 2);
    } else {
      assert (n - 1) / 2 == n / 2;
      AndSelf(n / 2);
      OddIsNoPow2(n);
    }
  }

  /** The bit test accepts exactly zero and the powers of two. */
  lemma PowerOfTwoTestIsExact(n: nat)
    requires n < SIZE_T_VALUES
    ensures PowerOfTwoTest(n) <==> n == 0 || IsPow2(n)
  {
    if n > 0 {
      assert (n + SIZE_T_VALUES - 1) % SIZE_T_VALUES == n - 1;
      ClearLowestBit(n);
    }
  }

  lemma AndOdd(x: nat, m: nat, mask: nat)
    requires x > 0 && mask == 2 * m + 1
    ensures And(x, mask) == 2 * And(x / 2, m) + x % 2
  {
    assert mask / 2 == m;
  }

  lemma ProductAtLeast(d: int, t: int)
    requires d >= 0 && t >= 1
    ensures d * t >= d
  {
  }

  lemma RemainderIsUnique(d: int, q: int, r: int, q': int, r': int)
    requires 0 <= r < d && 0 <= r' < d
    requires d * q + r == q' * d + r'
    ensures q == q' && r == r'
  {
    assert d * (q - q') == r' - r;
    if q > q' {
      ProductAtLeast(d, q - q');
    } else if q < q' {
      assert d * (q' - q) == r - r';
      ProductAtLeast(d, q' - q);
    }
  }

  /** Quotient and remainder are determined by the division equation. */
  lemma DivisionIsUnique(x: int, d: int, q: int, r: int)
    requires 0 <= r < d && x == q * d + r
    ensures x / d == q && x % d == r
  {
    RemainderIsUnique(d, x / d, x % d, q, r);
  }

  lemma HalveRemainder(x: nat, h: nat, size: nat)
    requires h > 0 && size == 2 * h
    ensures x % size == 2 * ((x / 2) % h) + x % 2
  {
    var y := x / 2;
    var q, r := y / h, y % h;
    var qh := q * h;
    assert y == qh + r;
    assert q * size == 2 * qh;
    DivisionIsUnique(x, size, q, 2 * r + x % 2);
  }

  lemma MaskStep(x: nat, h: nat, mask: nat, size: nat)
    requires x > 0 && h > 0 && size == 2 * h && mask == size - 1
    requires And(x / 2, h - 1) == (x / 2) % h
    ensures And(x, mask) == x % size
  {
    var r := (x / 2) % h;
    assert And(x, mask) == 2 * r + x % 2 by { AndOdd(x, h - 1, mask); }
    assert x % size == 2 * r + x % 2 by { HalveRemainder(x, h, size); }
  }

  /** Masking by `2^k - 1` is the remainder by `2^k`. */
  lemma {:induction false} MaskIsRemainder(x: nat, k: nat)
    ensures And(x, Pow2(k) - 1) == x % Pow2(k)
    decreases k
  {
    if x == 0 {
      DivisionIsUnique(0, Pow2(k), 0, 0);
    } else if k > 0 {
      MaskIsRemainder(x / 2, k - 1);
      MaskStep(x, Pow2(k - 1), Pow2(k) - 1, Pow2(k));
    }
  }

  lemma {:induction false} Pow2Adds(a: nat, b: nat)
    ensures Pow2(a + b) == Pow2(a) * Pow2(b)
  {
    if b > 0 { Pow2Adds(a, b - 1); }
  }

  lemma Regroup(n: nat, m: nat, q: nat, q': nat, r': nat, x: nat)
    requires x == n * m * q + (n * q' + r')
    ensures x == (m * q + q') * n + r'
  {
    assert (m * q + q') * n == m * q * n + q' * n;
  }

  lemma RemainderOfRemainder(x: nat, n: nat, m: nat)
    requires n > 0 && m > 0 && n * m > 0
    ensures (x % (n * m)) % n == x % n
  {
    var r := x % (n * m);
    var q, q', r' := x / (n * m), r / n, r % n;
    Regroup(n, m, q, q', r', x);
    DivisionIsUnique(x, n, m * q + q', r');
  }

  /** A counter that wraps at `2^w` still selects the same slot of a ring of `2^k` slots. */
  lemma {:induction false} WrapKeepsSlot(x: nat, k: nat, w: nat)
    requires k <= w
    ensures (x % Pow2(w)) % Pow2(k) == x % Pow2(k)
  {
    Pow2Adds(k, w - k);
    RemainderOfRemainder(x, Pow2(k), Pow2(w - k));
  }

  lemma TurnsApart(n: nat, a: int, b: int, r: int, x: nat, y: nat)
    requires x == n * a + r && y == n * b + r && x < y
    ensures y >= x + n
  {
    assert y - x == n * (b - a);
    if b > a {
      ProductAtLeast(n, b - a);
    } else if b < a {
      assert x - y == n * (a - b);
      ProductAtLeast(n, a - b);
    }
  }

  /** Two indices less than a whole turn apart select different slots. */
  lemma {:induction false} SlotsDiffer(x: nat, y: nat, n: nat)
    requires x < y < x + n
    ensures x % n != y % n
  {
    if x % n == y % n {
      TurnsApart(n, x / n, y / n, x % n, x, y);
    }
  }

  /** The intended flag test: bit 0 of `a`. */
  lemma AndOne(a: nat)
    ensures And(a, 1) != 0 <==> a % 2 == 1
  {
    if a > 0 { assert And(a / 2, 0) == 0; }
  }

  /** The test as written: it accepts every value. */
  lemma OrOneIsNeverZero(a: nat)
    ensures Or(a, 1) != 0
  {
    OrBits(a, 1, 0);
    ZeroBits(0);
  }
}
