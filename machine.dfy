/**
 * Machine arithmetic the engine relies on: unsigned fixed-width integers with
 * wrap-around, little-endian byte encoding, and bitwise AND on naturals.
 */
module Machine {
  const U8_MODULUS: nat := 0x100
  const U32_MODULUS: nat := 0x1_0000_0000
  const U64_MODULUS: nat := 0x1_0000_0000_0000_0000

  type u8 = x: int | 0 <= x < 0x100
  type u32 = x: int | 0 <= x < 0x1_0000_0000
  type u64 = x: int | 0 <= x < 0x1_0000_0000_0000_0000

  /** Value of `x` converted to an unsigned 8-bit integer (C's modular conversion). */
  function Wrap8(x: int): (r: u8)
    ensures (x - r) % U8_MODULUS == 0
  {
    x % U8_MODULUS
  }

  /** Value of `x` converted to an unsigned 32-bit integer. */
  function Wrap32(x: int): (r: u32)
    ensures (x - r) % U32_MODULUS == 0
  {
    x % U32_MODULUS
  }

  /** Value of `x` converted to an unsigned 64-bit integer (`std::size_t`). */
  function Wrap64(x: int): (r: u64)
    ensures (x - r) % U64_MODULUS == 0
  {
    x % U64_MODULUS
  }

  /** A value that fits in 8 bits is its own conversion. */
  lemma Wrap8Fits(x: int)
    requires 0 <= x < U8_MODULUS
    ensures Wrap8(x) == x
  {
  }

  /** A value that fits is its own conversion. */
  lemma Wrap64Fits(x: int)
    requires 0 <= x < U64_MODULUS
    ensures Wrap64(x) == x
  {
  }

  /** Incrementing and then decrementing a `std::size_t` gives it back, across the wrap too. */
  lemma WrapIncDec(c: u64)
    ensures Wrap64(Wrap64(c + 1) - 1) == c
  {
    if c + 1 == U64_MODULUS {
      assert Wrap64(c + 1) == 0;
    } else {
      assert Wrap64(c + 1) == c + 1;
    }
  }

  function Pow256(n: nat): (r: nat)
    ensures r >= 1
  {
    if n == 0 then 1 else 256 * Pow256(n - 1)
  }

  lemma Pow256Eight()
    ensures Pow256(8) == U64_MODULUS
  {
    assert Pow256(2) == 0x1_0000;
    assert Pow256(4) == 0x1_0000_0000 by {
      assert Pow256(3) == 0x100_0000;
    }
    assert Pow256(6) == 0x1_0000_0000_0000 by {
      assert Pow256(5) == 0x100_0000_0000;
    }
    assert Pow256(7) == 0x100_0000_0000_0000;
  }

  /** The `n` low-order bytes of `x`, least significant first. */
  function EncodeLE(x: nat, n: nat): (r: seq<u8>)
    ensures |r| == n
  {
    if n == 0 then [] else [x % 256] + EncodeLE(x / 256, n - 1)
  }

  /** The natural number whose little-endian bytes are `s`. */
  function DecodeLE(s: seq<u8>): (r: nat)
    ensures r < Pow256(|s|)
  {
    if s == [] then 0 else s[0] + 256 * DecodeLE(s[1..])
  }

  lemma {:induction false} DecodeEncodeLE(x: nat, n: nat)
    requires x < Pow256(n)
    ensures DecodeLE(EncodeLE(x, n)) == x
    decreases n
  {
    if n > 0 {
      var s := EncodeLE(x, n);
      assert s[1..] == EncodeLE(x / 256, n - 1);
      DecodeEncodeLE(x / 256, n - 1);
    }
  }

  /** Bitwise AND of two naturals, bit by bit from the least significant one. */
  function BitAnd(a: nat, b: nat): (r: nat)
    ensures r <= a && r <= b
    decreases a
  {
    if a == 0 || b == 0 then 0
    else 2 * BitAnd(a / 2, b / 2) + (if a % 2 == 1 && b % 2 == 1 then 1 else 0)
  }

  /** `x` is 2 to some natural power. */
  predicate IsPowerOfTwo(x: nat)
    decreases x
  {
    x == 1 || (x >= 2 && x % 2 == 0 && IsPowerOfTwo(x / 2))
  }

  lemma {:induction false} BitAndSelf(a: nat)
    ensures BitAnd(a, a) == a
    decreases a
  {
    if a > 0 {
      BitAndSelf(a / 2);
    }
  }

  /** `x & (x - 1)` clears the lowest set bit, so it is zero exactly for powers of two. */
  lemma {:induction false} BitAndPredecessor(x: nat)
    requires x >= 1
    ensures BitAnd(x, x - 1) == 0 <==> IsPowerOfTwo(x)
    decreases x
  {
    if x >= 2 {
      if x % 2 == 1 {
        assert (x - 1) / 2 == x / 2;
        BitAndSelf(x / 2);
        assert BitAnd(x, x - 1) == 2 * (x / 2);
      } else {
        assert (x - 1) / 2 == x / 2 - 1;
        BitAndPredecessor(x / 2);
      }
    }
  }

  lemma ModOfDouble(x: nat, h: nat)
    requires h >= 1
    ensures x % (2 * h) == 2 * ((x / 2) % h) + x % 2
  {
    var q := (x / 2) / h;
    var r := (x / 2) % h;
    assert x / 2 == h * q + r;
    assert x == (2 * h) * q + (2 * r + x % 2);
    assert 0 <= 2 * r + x % 2 < 2 * h;
    ModUnique(x, 2 * h, q, 2 * r + x % 2);
  }

  lemma {:induction false} MulAtLeast(m: nat, d: nat)
    requires d >= 1
    ensures m * d >= m
    decreases d
  {
    if d > 1 {
      MulAtLeast(m, d - 1);
      assert m * d == m * (d - 1) + m;
    }
  }

  lemma ModUnique(x: int, m: int, q: int, r: int)
    requires m > 0 && 0 <= r < m && x == m * q + r
    ensures x % m == r
  {
    var q0 := x / m;
    var r0 := x % m;
    assert x == m * q0 + r0;
    if q > q0 {
      assert m * q == m * q0 + m * (q - q0);
      MulAtLeast(m, q - q0);
    } else if q < q0 {
      assert m * q0 == m * q + m * (q0 - q);
      MulAtLeast(m, q0 - q);
    }
  }

  lemma BitAndOddUnfold(x: nat, h: nat)
    requires x > 0 && h >= 1
    ensures BitAnd(x, 2 * h - 1) == 2 * BitAnd(x / 2, h - 1) + x % 2
  {
    var b := 2 * h - 1;
    assert b / 2 == h - 1 && b % 2 == 1;
  }

  /** Masking with `a - 1` is the remainder by `a` when `a` is a power of two. */
  lemma {:induction false} BitAndMaskIsMod(x: nat, a: nat)
    requires IsPowerOfTwo(a)
    ensures BitAnd(x, a - 1) == x % a
    decreases a
  {
    if a == 1 {
      assert BitAnd(x, 0) == 0;
    } else if x == 0 {
      assert BitAnd(0, a - 1) == 0;
    } else {
      var h := a / 2;
      assert a == 2 * h;
      BitAndMaskIsMod(x / 2, h);
      BitAndOddUnfold(x, h);
      ModOfDouble(x, h);
      calc {
        BitAnd(x, a - 1);
        2 * BitAnd(x / 2, h - 1) + x % 2;
        2 * ((x / 2) % h) + x % 2;
        x % a;
      }
    }
  }

  /** Slot `i` of region `b`, for regions of `m` slots, lies in that region and in the first `n` regions. */
  lemma RegionBound(b: nat, i: nat, m: nat, n: nat)
    requires b < n && i < m
    ensures b * m + i < m * n && b * m <= b * m + i < (b + 1) * m
  {
    assert (b + 1) * m == b * m + m;
    assert b + 1 <= n;
    assert (b + 1) * m <= n * m by {
      MulMonotone(b + 1, n, m);
    }
  }

  /** Multiplication by a natural is monotone. */
  lemma MulMonotone(a: nat, b: nat, m: nat)
    requires a <= b
    ensures a * m <= b * m
  {
    assert b * m == a * m + (b - a) * m;
  }
}
