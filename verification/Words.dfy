/** Fixed-width unsigned numbers, their little-endian byte images, and the C operators
    `|`, `&` and `~` on them. Everything is stated over mathematical integers: a width
    is a subset type, and an operation that wraps says so with `%`. */
module Words {

  type byte = x: int | 0 <= x < 0x100
  type u16 = x: int | 0 <= x < 0x1_0000
  type u32 = x: int | 0 <= x < 0x1_0000_0000
  type u64 = x: int | 0 <= x < 0x1_0000_0000_0000_0000

  const U32_MODULUS := 0x1_0000_0000

  /** The counter increment `x++` on a uint32_t. */
  function Inc32(x: u32): u32 {
    (x + 1) % U32_MODULUS
  }

  // ---------------------------------------------------------------- byte order

  function LE16(v: u16): (s: seq<byte>)
    ensures |s| == 2
  {
    [v % 0x100, v / 0x100]
  }

  function BE16(v: u16): (s: seq<byte>)
    ensures |s| == 2
  {
    [v / 0x100, v % 0x100]
  }

  function LE32(v: u32): (s: seq<byte>)
    ensures |s| == 4
  {
    LE16(v % 0x1_0000) + LE16(v / 0x1_0000)
  }

  function LE64(v: u64): (s: seq<byte>)
    ensures |s| == 8
  {
    LE32(v % U32_MODULUS) + LE32(v / U32_MODULUS)
  }

  function Get16(s: seq<byte>, p: nat): u16
    requires p + 2 <= |s|
  {
    s[p] as int + 0x100 * s[p + 1] as int
  }

  function Get32(s: seq<byte>, p: nat): u32
    requires p + 4 <= |s|
  {
    Get16(s, p) as int + 0x1_0000 * Get16(s, p + 2) as int
  }

  function Get64(s: seq<byte>, p: nat): u64
    requires p + 8 <= |s|
  {
    Get32(s, p) as int + U32_MODULUS * Get32(s, p + 4) as int
  }

  function GetBE16(s: seq<byte>, p: nat): u16
    requires p + 2 <= |s|
  {
    0x100 * s[p] as int + s[p + 1] as int
  }

  /** Reading back is the exact inverse of writing, for each width. */
  lemma Get16IsInverse(s: seq<byte>, p: nat, v: u16)
    requires p + 2 <= |s|
    ensures Get16(s, p) == v <==> s[p..p + 2] == LE16(v)
  {
    assert s[p..p + 2] == [s[p], s[p + 1]];
  }

  lemma Get32IsInverse(s: seq<byte>, p: nat, v: u32)
    requires p + 4 <= |s|
    ensures Get32(s, p) == v <==> s[p..p + 4] == LE32(v)
  {
    Get16IsInverse(s, p, v % 0x1_0000);
    Get16IsInverse(s, p + 2, v / 0x1_0000);
    assert s[p..p + 4] == s[p..p + 2] + s[p + 2..p + 4];
    var lo, hi := LE16(v % 0x1_0000), LE16(v / 0x1_0000);
    assert (lo + hi)[..2] == lo && (lo + hi)[2..] == hi;
    assert s[p..p + 4][..2] == s[p..p + 2] && s[p..p + 4][2..] == s[p + 2..p + 4];
  }

  lemma Get64IsInverse(s: seq<byte>, p: nat, v: u64)
    requires p + 8 <= |s|
    ensures Get64(s, p) == v <==> s[p..p + 8] == LE64(v)
  {
    Get32IsInverse(s, p, v % U32_MODULUS);
    Get32IsInverse(s, p + 4, v / U32_MODULUS);
    assert s[p..p + 8] == s[p..p + 4] + s[p + 4..p + 8];
    var lo, hi := LE32(v % U32_MODULUS), LE32(v / U32_MODULUS);
    assert (lo + hi)[..4] == lo && (lo + hi)[4..] == hi;
    assert s[p..p + 8][..4] == s[p..p + 4] && s[p..p + 8][4..] == s[p + 4..p + 8];
  }

  // ---------------------------------------------------------------- bits

  function Pow2(k: nat): (p: nat)
    ensures p > 0
  {
    if k == 0 then 1 else 2 * Pow2(k - 1)
  }

  /** Bit k of w. */
  predicate Bit(w: nat, k: nat) {
    if k == 0 then w % 2 == 1 else Bit(w / 2, k - 1)
  }

  /** The C operator `a | b`. */
  function Or(a: nat, b: nat): nat
    decreases a + b
  {
    if a + b == 0 then 0
    else 2 * Or(a / 2, b / 2) + (if a % 2 == 1 || b % 2 == 1 then 1 else 0)
  }

  /** The C operator `a & b`. */
  function And(a: nat, b: nat): nat
    decreases a + b
  {
    if a + b == 0 then 0
    else 2 * And(a / 2, b / 2) + (if a % 2 == 1 && b % 2 == 1 then 1 else 0)
  }

  /** The C operator `~m` on a word of the given width. */
  function Not(width: nat, m: nat): nat
    requires m < Pow2(width)
  {
    Pow2(width) - 1 - m
  }

  lemma {:induction false} BitOfZero(k: nat)
    ensures !Bit(0, k)
  {
    if k > 0 {
      BitOfZero(k - 1);
    }
  }

  lemma {:induction false} BitOfOr(a: nat, b: nat, k: nat)
    ensures Bit(Or(a, b), k) <==> Bit(a, k) || Bit(b, k)
    decreases k
  {
    if a + b == 0 {
      BitOfZero(k);
    } else if k > 0 {
      assert Or(a, b) / 2 == Or(a / 2, b / 2);
      BitOfOr(a / 2, b / 2, k - 1);
    }
  }

  lemma {:induction false} BitOfAnd(a: nat, b: nat, k: nat)
    ensures Bit(And(a, b), k) <==> Bit(a, k) && Bit(b, k)
    decreases k
  {
    if a + b == 0 {
      BitOfZero(k);
    } else if k > 0 {
      assert And(a, b) / 2 == And(a / 2, b / 2);
      BitOfAnd(a / 2, b / 2, k - 1);
    }
  }

  lemma {:induction false} BitOfPow2(i: nat, k: nat)
    ensures Bit(Pow2(i), k) <==> i == k
  {
    if i == 0 {
      if k > 0 {
        BitOfZero(k - 1);
      }
    } else if k > 0 {
      assert Pow2(i) / 2 == Pow2(i - 1);
      BitOfPow2(i - 1, k - 1);
    }
  }

  lemma {:induction false} BitOfNot(width: nat, m: nat, k: nat)
    requires m < Pow2(width) && k < width
    ensures Bit(Not(width, m), k) <==> !Bit(m, k)
  {
    if k > 0 {
      assert Not(width, m) / 2 == Not(width - 1, m / 2);
      BitOfNot(width - 1, m / 2, k - 1);
    }
  }

  lemma {:induction false} OrStaysInWidth(width: nat, a: nat, b: nat)
    requires a < Pow2(width) && b < Pow2(width)
    ensures Or(a, b) < Pow2(width)
  {
    if a + b > 0 && width > 0 {
      OrStaysInWidth(width - 1, a / 2, b / 2);
    }
  }

  lemma {:induction false} AndStaysBelow(a: nat, b: nat)
    ensures And(a, b) <= a && And(a, b) <= b
    decreases a + b
  {
    if a + b > 0 {
      AndStaysBelow(a / 2, b / 2);
    }
  }

  lemma AndStep(a: nat, b: nat, x: nat, y: nat)
    requires x < 2 && y < 2
    ensures And(2 * a + x, 2 * b + y) == 2 * And(a, b) + (if x == 1 && y == 1 then 1 else 0)
  {
    assert (2 * a + x) / 2 == a && (2 * b + y) / 2 == b;
  }

  /** `w & ones` is w when w fits under the ones. */
  lemma {:induction false} AndWithOnes(width: nat, w: nat)
    requires w < Pow2(width)
    ensures And(w, Pow2(width) - 1) == w
  {
    if width > 0 {
      var half := Pow2(width - 1);
      assert w == 2 * (w / 2) + w % 2 && Pow2(width) - 1 == 2 * (half - 1) + 1;
      AndStep(w / 2, half - 1, w % 2, 1);
      AndWithOnes(width - 1, w / 2);
    }
  }

  lemma {:induction false} AndWithZero(w: nat)
    ensures And(w, 0) == 0
  {
    if w > 0 {
      AndWithZero(w / 2);
    }
  }

  /** The C test `(w & mask) > 0` for a one-bit mask. */
  lemma {:induction false} MaskTestIsBit(w: nat, k: nat)
    ensures And(w, Pow2(k)) == if Bit(w, k) then Pow2(k) else 0
  {
    if k == 0 {
      AndWithZero(w / 2);
    } else {
      assert Pow2(k) / 2 == Pow2(k - 1);
      MaskTestIsBit(w / 2, k - 1);
    }
  }

  /** Two words of the same width with the same bits are the same word. */
  lemma {:induction false} SameBitsSameWord(width: nat, a: nat, b: nat)
    requires a < Pow2(width) && b < Pow2(width)
    requires forall k: nat :: k < width ==> Bit(a, k) == Bit(b, k)
    ensures a == b
  {
    if width > 0 {
      assert Bit(a, 0) == Bit(b, 0);
      forall k: nat | k < width - 1 ensures Bit(a / 2, k) == Bit(b / 2, k) {
        assert Bit(a, k + 1) == Bit(b, k + 1);
      }
      SameBitsSameWord(width - 1, a / 2, b / 2);
    }
  }

  lemma {:induction false} Pow2Grows(i: nat, k: nat)
    requires i < k
    ensures Pow2(i) < Pow2(k)
  {
    if i + 1 < k {
      Pow2Grows(i, k - 1);
    }
  }

  lemma Pow2Values()
    ensures Pow2(3) == 8 && Pow2(8) == 0x100 && Pow2(16) == 0x1_0000
  {
    assert Pow2(4) == 16;
    assert Pow2(8) == 16 * Pow2(4) by { assert Pow2(6) == 64; }
    assert Pow2(12) == 16 * Pow2(8) by { assert Pow2(10) == 4 * Pow2(8); }
    assert Pow2(14) == 4 * Pow2(12);
  }

  /** One bit of a `width`-bit word switched as C does it, with `|= mask` or `&= ~mask`. */
  function WithBit(width: nat, w: nat, k: nat, on: bool): (r: nat)
    requires k < width && w < Pow2(width)
    ensures r < Pow2(width)
    ensures forall i: nat :: i < width ==> Bit(r, i) == (if i == k then on else Bit(w, i))
  {
    Pow2Grows(k, width);
    if on then
      OrStaysInWidth(width, w, Pow2(k));
      assert forall i: nat :: i < width ==> Bit(Or(w, Pow2(k)), i) == (if i == k then on else Bit(w, i)) by {
        forall i: nat | i < width ensures Bit(Or(w, Pow2(k)), i) == (if i == k then on else Bit(w, i)) {
          BitOfOr(w, Pow2(k), i);
          BitOfPow2(k, i);
        }
      }
      Or(w, Pow2(k))
    else
      var mask := Not(width, Pow2(k));
      AndStaysBelow(w, mask);
      assert forall i: nat :: i < width ==> Bit(And(w, mask), i) == (if i == k then on else Bit(w, i)) by {
        forall i: nat | i < width ensures Bit(And(w, mask), i) == (if i == k then on else Bit(w, i)) {
          BitOfAnd(w, mask, i);
          BitOfNot(width, Pow2(k), i);
          BitOfPow2(k, i);
        }
      }
      And(w, mask)
  }
}
