/** Powers of two and two's complement, for integer widths and shifts. */
module Powers {
  function Pow2(n: nat): (p: nat)
    ensures p > 0
  {
    if n == 0 then 1 else 2 * Pow2(n - 1)
  }

  lemma {:induction false} PowSum(m: nat, n: nat)
    ensures Pow2(m + n) == Pow2(m) * Pow2(n)
  {
    if m > 0 {
      PowSum(m - 1, n);
      assert Pow2(m + n) == 2 * Pow2(m - 1 + n);
      Twice(Pow2(m - 1), Pow2(n));
    }
  }

  lemma Twice(x: int, y: int)
    ensures 2 * (x * y) == (2 * x) * y
  {
  }

  lemma SmallPowers()
    ensures Pow2(7) == 128 && Pow2(8) == 256
    ensures Pow2(15) == 32_768 && Pow2(16) == 65_536
    ensures Pow2(31) == 2_147_483_648 && Pow2(32) == 4_294_967_296
  {
    assert Pow2(8) == 256;
    PowSum(8, 8);
    PowSum(16, 16);
  }

  lemma SixtyFourBits()
    ensures Pow2(63) == 0x8000_0000_0000_0000 && Pow2(64) == 0x1_0000_0000_0000_0000
  {
    SmallPowers();
    PowSum(32, 32);
  }

  /** The signed number of so many bits that v wraps around to. */
  function Wrap(bits: nat, v: int): int
    requires bits > 0
  {
    (v + Pow2(bits - 1)) % Pow2(bits) - Pow2(bits - 1)
  }

  /** Numbers that fit are not changed, and these only. */
  lemma WrapKeepsIff(bits: nat, v: int)
    requires bits > 0
    ensures Wrap(bits, v) == v <==> -(Pow2(bits - 1) as int) <= v < Pow2(bits - 1)
  {
    var half := Pow2(bits - 1);
    assert Pow2(bits) == 2 * half;
    if 0 <= v + half < 2 * half {
      SmallMod(v + half, 2 * half);
    }
  }

  /** In general, the number in range that differs by a multiple of the modulus. */
  lemma WrapIs(bits: nat, v: int, w: int, k: int)
    requires bits > 0
    ensures -(Pow2(bits - 1) as int) <= Wrap(bits, v) < Pow2(bits - 1)
    ensures -(Pow2(bits - 1) as int) <= w < Pow2(bits - 1) && v == w + k * Pow2(bits) ==> Wrap(bits, v) == w
  {
    var half, m := Pow2(bits - 1), Pow2(bits);
    assert m == 2 * half;
    if 0 <= w + half < m && v == w + k * m {
      ModAdd(w + half, m, k);
      SmallMod(w + half, m);
    }
  }

  lemma ModAdd(a: int, m: int, k: int)
    requires m > 0 && 0 <= a < m
    ensures (a + k * m) % m == a
  {
    var s := a + k * m;
    OneQuotient(s / m, k, m, s % m, a);
  }

  /** Division with remainder has one answer. */
  lemma OneQuotient(q: int, k: int, m: int, r: int, a: int)
    requires m > 0 && q * m + r == k * m + a && 0 <= r < m && 0 <= a < m
    ensures q == k && r == a
  {
    Difference(q, k, m);
    AtLeastOnce(q - k, m);
  }

  lemma Difference(q: int, k: int, m: int)
    ensures (q - k) * m == q * m - k * m
  {
  }

  lemma AtLeastOnce(n: int, m: int)
    requires m >= 1
    ensures n >= 1 ==> n * m >= m
    ensures n <= -1 ==> n * m <= -m
  {
  }

  lemma SmallMod(a: int, m: int)
    requires 0 <= a < m
    ensures a % m == a
  {
  }
}
