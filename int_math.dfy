/** Integer helpers the delay line relies on: unsigned 32-bit wrap-around,
    bitwise AND on natural numbers, powers of two and the rounding of a
    requested size up to one (`nextpow2_u32`). */
module IntMath {

  /** 2^32, the modulus of C's `uint32_t` arithmetic. */
  const U32_MODULUS: int := 0x1_0000_0000

  /** The values of a C `uint32_t`. */
  type U32 = x: int | 0 <= x < U32_MODULUS

  /** The `uint32_t` value of an exact integer result (wrap-around). */
  function Wrap32(x: int): (r: U32)
    ensures 0 <= x < U32_MODULUS ==> r == x
    ensures (x - r) % U32_MODULUS == 0
  {
    x % U32_MODULUS
  }

  /** Bitwise AND of two naturals, bit by bit from the least significant one. */
  function BitAnd(a: nat, b: nat): (r: nat)
    ensures r <= a && r <= b
    ensures r % 2 == 1 <==> a % 2 == 1 && b % 2 == 1
    decreases a
  {
    if a == 0 || b == 0 then 0
    else 2 * BitAnd(a / 2, b / 2) + (if a % 2 == 1 && b % 2 == 1 then 1 else 0)
  }

  /** n is 1, 2, 4, 8, ... */
  predicate IsPow2(n: nat)
    decreases n
  {
    n == 1 || (n >= 2 && n % 2 == 0 && IsPow2(n / 2))
  }

  /** `nextpow2_u32(n)`: the power of two that `n` rounds up to. */
  function NextPow2(n: nat): (r: nat)
    requires n >= 1
    ensures IsPow2(r) && n <= r < 2 * n
    decreases n
  {
    if n == 1 then 1 else 2 * NextPow2((n + 1) / 2)
  }

  // ----- division with remainder -------------------------------------------

  /** Euclidean division is unique: a quotient and remainder in range are x / d and x % d. */
  lemma ModUnique(x: int, d: int, q: int, r: int)
    requires d > 0 && 0 <= r < d && x == q * d + r
    ensures x % d == r && x / d == q
  {
    var q0, r0 := x / d, x % d;
    assert x == q0 * d + r0;
    assert (q - q0) * d == r0 - r;
    if q - q0 >= 1 {
      assert (q - q0) * d >= d by { MulAtLeast(q - q0, d); }
      assert false;
    } else if q - q0 <= -1 {
      assert (q0 - q) * d >= d by { MulAtLeast(q0 - q, d); }
      assert false;
    }
  }

  lemma MulAtLeast(a: int, d: int)
    requires a >= 1 && d > 0
    ensures a * d >= d
  {
  }

  /** Numbers that differ by a multiple of n leave the same remainder. */
  lemma ModCongruent(a: int, b: int, n: int, c: int)
    requires n > 0 && a - b == n * c
    ensures a % n == b % n
  {
    assert b == n * (b / n) + b % n;
    ModUnique(a, n, b / n + c, b % n);
  }

  /** Numbers with the same remainder differ by a multiple of n. */
  lemma SameModDiffers(a: int, b: int, n: int)
    requires n > 0 && a % n == b % n
    ensures (a - b) % n == 0
  {
    assert a == n * (a / n) + a % n;
    assert b == n * (b / n) + b % n;
    ModUnique(a - b, n, a / n - b / n, 0);
  }

  /** Adding numbers with the same remainder to w gives sums with the same remainder. */
  lemma ModAddCongruent(w: int, a: int, b: int, n: int)
    requires n > 0 && a % n == b % n
    ensures (w + a) % n == (w + b) % n
  {
    SameModDiffers(a, b, n);
    assert a - b == n * ((a - b) / n);
    ModCongruent(w + a, w + b, n, (a - b) / n);
  }

  /** Moving forward by 1 .. n-1 always changes the remainder modulo n. */
  lemma ModShiftDistinct(w: int, d: int, n: int)
    requires 0 < d < n
    ensures (w + d) % n != w % n
  {
    if (w + d) % n == w % n {
      SameModDiffers(w + d, w, n);
      ModUnique(d, n, 0, d);
      assert false;
    }
  }

  // ----- powers of two ------------------------------------------------------

  /** Of two distinct powers of two, the larger is at least twice the smaller. */
  lemma {:induction false} Pow2Gap(p: nat, r: nat)
    requires IsPow2(p) && IsPow2(r) && p < r
    ensures 2 * p <= r
    decreases p
  {
    if p != 1 {
      Pow2Gap(p / 2, r / 2);
    }
  }

  /** Of two powers of two, the smaller divides the larger. */
  lemma {:induction false} Pow2Divides(n: nat, m: nat)
    requires IsPow2(n) && IsPow2(m) && n <= m
    ensures m % n == 0
    decreases n
  {
    if n == 1 {
      ModUnique(m, 1, m, 0);
    } else {
      Pow2Divides(n / 2, m / 2);
      var t := (m / 2) / (n / 2);
      assert m / 2 == (n / 2) * t;
      ModUnique(m, n, t, 0);
    }
  }

  /** 2^32 is a power of two, so every smaller power of two divides it. */
  lemma Pow2DividesU32(n: nat)
    requires IsPow2(n) && n <= U32_MODULUS
    ensures U32_MODULUS % n == 0
  {
    // doubling from 2 up to 2^32, one unfolding of IsPow2 per step
    assert IsPow2(0x2) && IsPow2(0x4) && IsPow2(0x8) && IsPow2(0x10);
    assert IsPow2(0x20) && IsPow2(0x40) && IsPow2(0x80) && IsPow2(0x100);
    assert IsPow2(0x200) && IsPow2(0x400) && IsPow2(0x800) && IsPow2(0x1000);
    assert IsPow2(0x2000) && IsPow2(0x4000) && IsPow2(0x8000) && IsPow2(0x10000);
    assert IsPow2(0x20000) && IsPow2(0x40000) && IsPow2(0x80000) && IsPow2(0x100000);
    assert IsPow2(0x200000) && IsPow2(0x400000) && IsPow2(0x800000) && IsPow2(0x1000000);
    assert IsPow2(0x2000000) && IsPow2(0x4000000) && IsPow2(0x8000000) && IsPow2(0x10000000);
    assert IsPow2(0x20000000) && IsPow2(0x40000000) && IsPow2(0x80000000) && IsPow2(0x100000000);
    assert IsPow2(U32_MODULUS);
    Pow2Divides(n, U32_MODULUS);
  }

  /** `nextpow2_u32` returns the smallest power of two that is at least n. */
  lemma NextPow2IsSmallest(n: nat, p: nat)
    requires n >= 1 && IsPow2(p) && n <= p
    ensures NextPow2(n) <= p
  {
    var r := NextPow2(n);
    if p < r {
      Pow2Gap(p, r);
    }
  }

  /** A size that is already a power of two is kept as it is. */
  lemma NextPow2OfPow2(n: nat)
    requires IsPow2(n)
    ensures NextPow2(n) == n
  {
    NextPow2IsSmallest(n, n);
  }

  // ----- the mask of a power-of-two size -------------------------------------

  /** Masking with n - 1 is reduction modulo n when n is a power of two. */
  lemma {:induction false} MaskIsMod(x: nat, n: nat)
    requires IsPow2(n)
    ensures BitAnd(x, n - 1) == x % n
    decreases n
  {
    if n == 1 {
      ModUnique(x, 1, x, 0);
    } else if x == 0 {
      ModUnique(0, n, 0, 0);
    } else {
      var m := n / 2;
      assert n == 2 * m;
      MaskStep(x, m);
      MaskIsMod(x / 2, m);
      HalveSplit(x, m);
      ModUnique(x, 2 * m, (x / 2) / m, 2 * ((x / 2) % m) + x % 2);
    }
  }

  /** The low bit of x survives the mask 2m - 1; the rest is masked by m - 1. */
  lemma MaskStep(x: nat, m: nat)
    requires x >= 1 && m >= 1
    ensures BitAnd(x, 2 * m - 1) == 2 * BitAnd(x / 2, m - 1) + x % 2
  {
    assert (2 * m - 1) / 2 == m - 1 && (2 * m - 1) % 2 == 1;
  }

  /** x = 2m·((x/2)/m) + (2·((x/2) % m) + x % 2): the split behind MaskIsMod. */
  lemma HalveSplit(x: nat, m: nat)
    requires m >= 1
    ensures x == (2 * m) * ((x / 2) / m) + (2 * ((x / 2) % m) + x % 2)
    ensures 0 <= 2 * ((x / 2) % m) + x % 2 < 2 * m
  {
    var h, q, r := x / 2, (x / 2) / m, (x / 2) % m;
    assert x == 2 * h + x % 2;
    assert h == m * q + r;
    assert 2 * h == (2 * m) * q + 2 * r;
  }

  /** Reducing modulo 2^32 first does not change the remainder modulo a
      power of two, since every such power divides 2^32. */
  lemma WrapThenMod(x: int, n: nat)
    requires IsPow2(n) && n <= U32_MODULUS
    ensures Wrap32(x) % n == x % n
  {
    Pow2DividesU32(n);
    var t := U32_MODULUS / n;
    assert U32_MODULUS == n * t;
    assert x == U32_MODULUS * (x / U32_MODULUS) + Wrap32(x);
    ModCongruent(x, Wrap32(x), n, t * (x / U32_MODULUS));
  }
}
