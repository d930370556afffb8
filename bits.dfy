/**
 * Integer widths and bit helpers shared by the SM83 model.
 *
 * The Python emulator keeps every register and memory cell in an unbounded `int` and masks with
 * `& 0xFF` / `& 0xFFFF` after each update. Here the two widths are subset types. Masks, shifts
 * and bit tests are written with Euclidean `/` and `%`, which agree with Python's
 * two's-complement `&` and `>>` also on negative intermediates. The bitwise `&`, `|` and `^` of
 * two non-negative values are the width-bounded functions `AndW`, `OrW` and `XorW`, defined one
 * bit at a time and characterised bit by bit.
 */
module Bits {

  /** An 8-bit value: a register half or a memory cell. */
  type Byte = x: int | 0 <= x < 0x100

  /** A 16-bit value: a register pair, SP, PC or an address. */
  type Word = x: int | 0 <= x < 0x10000

  function Pow2(k: nat): (r: nat)
    ensures r >= 1
  {
    if k == 0 then 1 else 2 * Pow2(k - 1)
  }

  /** Bit k of x, as Python's `(x >> k) & 1` computes it (also for negative x). */
  function Bit(x: int, k: nat): (r: int)
    ensures r == 0 || r == 1
    decreases k
  {
    if k == 0 then x % 2 else Bit(x / 2, k - 1)
  }

  function B2I(b: bool): int
  {
    if b then 1 else 0
  }

  /** `i8`: reinterpret the low byte of v as a two's-complement signed value. */
  function I8(v: int): (r: int)
    ensures -128 <= r <= 127
    ensures (r - v) % 256 == 0
    ensures 0 <= v < 128 ==> r == v
    ensures 128 <= v < 256 ==> r == v - 256
  {
    var low := v % 256;
    // flipping bit 7 of a byte, as `^ 0x80` does
    var flipped := if low >= 0x80 then low - 0x80 else low + 0x80;
    flipped - 0x80
  }

  /** `u8`: keep the low 8 bits. */
  function U8(v: int): (r: Byte)
    ensures (r - v) % 256 == 0
    ensures 0 <= v < 256 ==> r == v
  {
    v % 256
  }

  /** `u16`: keep the low 16 bits. */
  function U16(v: int): (r: Word)
    ensures (r - v) % 65536 == 0
    ensures 0 <= v < 65536 ==> r == v
  {
    v % 65536
  }

  /** The high half `rr >> 8` of a register pair. */
  function Hi(w: Word): Byte { w / 256 }

  /** The low half `rr & 0xFF` of a register pair. */
  function Lo(w: Word): Byte { w % 256 }

  /** `(hi << 8) | lo`: the pair made of two halves. */
  function Pair(hi: Byte, lo: Byte): (w: Word)
    ensures Hi(w) == hi && Lo(w) == lo
  {
    hi * 256 + lo
  }

  /** `(v << 8) | (rr & 0x00FF)`: replace the high half, keep the low half. */
  function WithHi(w: Word, v: Byte): (r: Word)
    ensures Hi(r) == v && Lo(r) == Lo(w)
  {
    Pair(v, Lo(w))
  }

  /** `(rr & 0xFF00) | v`: replace the low half, keep the high half. */
  function WithLo(w: Word, v: Byte): (r: Word)
    ensures Hi(r) == Hi(w) && Lo(r) == v
  {
    Pair(Hi(w), v)
  }

  /** A pair is determined by its two halves. */
  lemma PairOfHalves(w: Word)
    ensures Pair(Hi(w), Lo(w)) == w
  {
  }

  /** Python's `e & 0xF` / `e & 0xFF` of a signed displacement equal those of its raw byte. */
  lemma I8LowBits(b: Byte)
    ensures I8(b) % 16 == b % 16
    ensures I8(b) % 256 == b
  {
  }

  // ---------------------------------------------------------------------------------------------
  // Division facts behind the bit-by-bit reasoning

  lemma MulSmall(d: int, k: int)
    requires d > 0 && -d < d * k < d
    ensures k == 0
  {
  }

  lemma DivUnique(x: int, d: int, q: int, r: int)
    requires d > 0 && 0 <= r < d && x == d * q + r
    ensures x / d == q && x % d == r
  {
    var k := x / d - q;
    assert d * k == r - x % d;
    MulSmall(d, k);
  }

  lemma DivTwice(x: int, p: int)
    requires p >= 1
    ensures x / (2 * p) == (x / 2) / p
  {
    var q, r := x / 2, x % 2;
    var s, t := q / p, q % p;
    assert q == p * s + t;
    assert x == (2 * p) * s + (2 * t + r);
    DivUnique(x, 2 * p, s, 2 * t + r);
  }

  /** Bit k of x is the parity of `x >> k`, the floor of x over 2^k. */
  lemma {:induction false} BitAsDiv(x: int, k: nat)
    ensures Bit(x, k) == (x / Pow2(k)) % 2
    decreases k
  {
    if k > 0 {
      BitAsDiv(x / 2, k - 1);
      DivTwice(x, Pow2(k - 1));
    }
  }

  // ---------------------------------------------------------------------------------------------
  // Bitwise operators on the low w bits

  /** `a & b` on the low w bits. */
  function AndW(a: nat, b: nat, w: nat): (r: nat)
    ensures r < Pow2(w)
  {
    if w == 0 then 0 else 2 * AndW(a / 2, b / 2, w - 1) + (if a % 2 == 1 && b % 2 == 1 then 1 else 0)
  }

  /** `a | b` on the low w bits. */
  function OrW(a: nat, b: nat, w: nat): (r: nat)
    ensures r < Pow2(w)
  {
    if w == 0 then 0 else 2 * OrW(a / 2, b / 2, w - 1) + (if a % 2 == 1 || b % 2 == 1 then 1 else 0)
  }

  /** `a ^ b` on the low w bits. */
  function XorW(a: nat, b: nat, w: nat): (r: nat)
    ensures r < Pow2(w)
  {
    if w == 0 then 0 else 2 * XorW(a / 2, b / 2, w - 1) + (a % 2 + b % 2) % 2
  }

  lemma {:induction false} AndBit(a: nat, b: nat, w: nat, i: nat)
    requires i < w
    ensures Bit(AndW(a, b, w), i) == if Bit(a, i) == 1 && Bit(b, i) == 1 then 1 else 0
  {
    var r := AndW(a, b, w);
    DivUnique(r, 2, AndW(a / 2, b / 2, w - 1), if a % 2 == 1 && b % 2 == 1 then 1 else 0);
    if i == 0 {
      assert Pow2(0) == 1;
    } else {
      AndBit(a / 2, b / 2, w - 1, i - 1);
    }
  }

  lemma {:induction false} OrBit(a: nat, b: nat, w: nat, i: nat)
    requires i < w
    ensures Bit(OrW(a, b, w), i) == if Bit(a, i) == 1 || Bit(b, i) == 1 then 1 else 0
  {
    var r := OrW(a, b, w);
    DivUnique(r, 2, OrW(a / 2, b / 2, w - 1), if a % 2 == 1 || b % 2 == 1 then 1 else 0);
    if i == 0 {
      assert Pow2(0) == 1;
    } else {
      OrBit(a / 2, b / 2, w - 1, i - 1);
    }
  }

  lemma {:induction false} XorBit(a: nat, b: nat, w: nat, i: nat)
    requires i < w
    ensures Bit(XorW(a, b, w), i) == (Bit(a, i) + Bit(b, i)) % 2
  {
    var r := XorW(a, b, w);
    var r' := XorW(a / 2, b / 2, w - 1);
    DivUnique(r, 2, r', (a % 2 + b % 2) % 2);
    if i == 0 {
      assert Pow2(0) == 1;
    } else {
      XorBit(a / 2, b / 2, w - 1, i - 1);
    }
  }

  lemma {:induction false} AndSelf(a: nat, w: nat)
    requires a < Pow2(w)
    ensures AndW(a, a, w) == a
  {
    if w > 0 { AndSelf(a / 2, w - 1); }
  }

  lemma {:induction false} OrSelf(a: nat, w: nat)
    requires a < Pow2(w)
    ensures OrW(a, a, w) == a
  {
    if w > 0 { OrSelf(a / 2, w - 1); }
  }

  lemma {:induction false} XorSelf(a: nat, w: nat)
    ensures XorW(a, a, w) == 0
  {
    if w > 0 { XorSelf(a / 2, w - 1); }
  }

  /** Exclusive-or with all ones is the complement. */
  lemma {:induction false} XorOnes(a: nat, w: nat)
    requires a < Pow2(w)
    ensures XorW(a, Pow2(w) - 1, w) == Pow2(w) - 1 - a
  {
    if w > 0 {
      var p := Pow2(w - 1);
      assert Pow2(w) == 2 * p;
      DivUnique(Pow2(w) - 1, 2, p - 1, 1);
      XorOnes(a / 2, w - 1);
      assert XorW(a, Pow2(w) - 1, w) == 2 * XorW(a / 2, p - 1, w - 1) + (a % 2 + 1) % 2;
    }
  }

  lemma {:induction false} AndComm(a: nat, b: nat, w: nat)
    ensures AndW(a, b, w) == AndW(b, a, w)
  {
    if w > 0 { AndComm(a / 2, b / 2, w - 1); }
  }

  lemma {:induction false} OrComm(a: nat, b: nat, w: nat)
    ensures OrW(a, b, w) == OrW(b, a, w)
  {
    if w > 0 { OrComm(a / 2, b / 2, w - 1); }
  }

  /** `|` of two values without common bits is their sum. */
  lemma {:induction false} OrDisjoint(a: nat, b: nat, w: nat)
    requires a < Pow2(w) && b < Pow2(w) && AndW(a, b, w) == 0
    ensures OrW(a, b, w) == a + b
  {
    if w > 0 { OrDisjoint(a / 2, b / 2, w - 1); }
  }

  /** A multiple of 2^k shares no bit with a value below 2^k. */
  lemma {:induction false} AndSplit(q: nat, b: nat, k: nat, w: nat)
    requires b < Pow2(k)
    ensures AndW(Pow2(k) * q, b, w) == 0
  {
    if w > 0 {
      if k == 0 {
        assert b == 0;
        AndSplit(q / 2, 0, 0, w - 1);
      } else {
        var p := Pow2(k - 1);
        var a := Pow2(k) * q;
        assert a == 2 * (p * q);
        assert a % 2 == 0 && a / 2 == p * q;
        AndSplit(q, b / 2, k - 1, w - 1);
      }
    }
  }

  /** Gluing a high part `q << k` and a low part below 2^k with `|` is addition (both orders). */
  lemma OrOfParts(q: nat, b: nat, k: nat)
    requires b < Pow2(k) && Pow2(k) * q + b < 256
    ensures OrW(Pow2(k) * q, b, 8) == Pow2(k) * q + b
    ensures OrW(b, Pow2(k) * q, 8) == Pow2(k) * q + b
  {
    AndSplit(q, b, k, 8);
    assert Pow2(8) == 256;
    OrDisjoint(Pow2(k) * q, b, 8);
    OrComm(Pow2(k) * q, b, 8);
  }

  /** A value below `1 << w` has no bit set at or above w. */
  lemma {:induction false} BitBeyond(x: int, w: nat, k: nat)
    requires 0 <= x < Pow2(w) && w <= k
    ensures Bit(x, k) == 0
  {
    if k > 0 {
      if w == 0 {
        BitBeyond(x / 2, 0, k - 1);
      } else {
        BitBeyond(x / 2, w - 1, k - 1);
      }
    }
  }

  /** The bits of `(q << w) | lo`, with lo below 2^w, from w upwards are those of q. */
  lemma {:induction false} BitOfSum(q: int, lo: int, w: nat, k: nat)
    requires 0 <= lo < Pow2(w)
    ensures Bit(Pow2(w) * q + lo, w + k) == Bit(q, k)
    decreases w
  {
    if w > 0 {
      var p := Pow2(w - 1);
      var x := Pow2(w) * q + lo;
      assert x == 2 * (p * q + lo / 2) + lo % 2;
      DivUnique(x, 2, p * q + lo / 2, lo % 2);
      BitOfSum(q, lo / 2, w - 1, k);
    }
  }

  /** Bit 4 + k of x is bit k of its high part `x >> 4`. */
  lemma HighNibbleBit(x: int, k: nat)
    ensures Bit(x, 4 + k) == Bit(x / 16, k)
  {
    assert Pow2(4) == 16;
    BitOfSum(x / 16, x % 16, 4, k);
  }

  /** A nibble is the sum of its four bits. */
  lemma NibbleBits(x: int)
    requires 0 <= x < 16
    ensures x == 8 * Bit(x, 3) + 4 * Bit(x, 2) + 2 * Bit(x, 1) + Bit(x, 0)
  {
    assert Pow2(1) == 2;
    BitOfSum(x / 2, x % 2, 1, 0);
    BitOfSum(x / 2, x % 2, 1, 1);
    BitOfSum(x / 2, x % 2, 1, 2);
    var y := x / 2;
    BitOfSum(y / 2, y % 2, 1, 0);
    BitOfSum(y / 2, y % 2, 1, 1);
    var z := y / 2;
    BitOfSum(z / 2, z % 2, 1, 0);
  }

  /** Reducing a value within one modulus of the range `[0, m)`. */
  lemma Wrap(s: int, m: int)
    requires m > 0 && -m <= s < 2 * m
    ensures s % m == if s < 0 then s + m else if s >= m then s - m else s
  {
    if s < 0 {
      DivUnique(s, m, -1, s + m);
    } else if s >= m {
      DivUnique(s, m, 1, s - m);
    } else {
      DivUnique(s, m, 0, s);
    }
  }

  /** Bit w of a value below `2 << w` is the carry out of the low w bits. */
  lemma CarryBit(s: int, w: nat)
    requires 0 <= s < 2 * Pow2(w)
    ensures Bit(s, w) == 1 <==> s >= Pow2(w)
  {
    BitAsDiv(s, w);
    if s >= Pow2(w) {
      DivUnique(s, Pow2(w), 1, s - Pow2(w));
    } else {
      DivUnique(s, Pow2(w), 0, s);
    }
  }

  /** Bit w of a difference between -2^w and 2^w is the borrow out of the low w bits. */
  lemma BorrowBit(s: int, w: nat)
    requires 0 <= s + Pow2(w) && s < Pow2(w)
    ensures Bit(s, w) == 1 <==> s < 0
  {
    BitAsDiv(s, w);
    if s < 0 {
      DivUnique(s, Pow2(w), -1, s + Pow2(w));
    } else {
      DivUnique(s, Pow2(w), 0, s);
    }
  }

  /** Powers of two grow with the exponent. */
  lemma {:induction false} PowMonotone(j: nat, k: nat)
    requires j <= k
    ensures Pow2(j) <= Pow2(k)
  {
    if j < k { PowMonotone(j, k - 1); }
  }

  /** `1 << b` has exactly bit b set. */
  lemma {:induction false} PowBit(b: nat, i: nat)
    ensures Bit(Pow2(b), i) == if i == b then 1 else 0
  {
    if i == 0 {
      if b > 0 { assert Pow2(b) == 2 * Pow2(b - 1); }
    } else {
      if b == 0 {
        BitBeyond(0, 0, i - 1);
      } else {
        assert Pow2(b) / 2 == Pow2(b - 1);
        PowBit(b - 1, i - 1);
      }
    }
  }

  /** All w low bits of 2^w - 1 are set. */
  lemma {:induction false} OnesBit(w: nat, i: nat)
    requires i < w
    ensures Bit(Pow2(w) - 1, i) == 1
  {
    var p := Pow2(w - 1);
    assert Pow2(w) == 2 * p;
    DivUnique(Pow2(w) - 1, 2, p - 1, 1);
    if i == 0 {
      assert Pow2(0) == 1;
    } else {
      OnesBit(w - 1, i - 1);
    }
  }

  /** The lowest bit of the mask `~(1 << b)` on w bits, and the mask shifted right by one. */
  lemma HoleHalves(w: nat, b: nat)
    requires b < w
    ensures b == 0 ==> (Pow2(w) - 1 - Pow2(b)) % 2 == 0
    ensures b == 0 ==> (Pow2(w) - 1 - Pow2(b)) / 2 == Pow2(w - 1) - 1
    ensures b > 0 ==> (Pow2(w) - 1 - Pow2(b)) % 2 == 1
    ensures b > 0 ==> (Pow2(w) - 1 - Pow2(b)) / 2 == Pow2(w - 1) - 1 - Pow2(b - 1)
  {
    var m := Pow2(w) - 1 - Pow2(b);
    var p := Pow2(w - 1);
    assert Pow2(w) == 2 * p;
    if b == 0 {
      assert Pow2(0) == 1;
      DivUnique(m, 2, p - 1, 0);
    } else {
      var q := Pow2(b - 1);
      assert Pow2(b) == 2 * q;
      PowMonotone(b, w - 1);
      DivUnique(m, 2, p - 1 - q, 1);
    }
  }

  /** The mask `~(1 << b)` restricted to w bits has every bit but b set. */
  lemma {:induction false} HoleBit(w: nat, b: nat, i: nat)
    requires b < w && i < w
    ensures Bit(Pow2(w) - 1 - Pow2(b), i) == if i == b then 0 else 1
  {
    var m := Pow2(w) - 1 - Pow2(b);
    HoleHalves(w, b);
    if i == 0 {
      assert Pow2(0) == 1;
    } else {
      if b == 0 {
        OnesBit(w - 1, i - 1);
      } else {
        HoleBit(w - 1, b - 1, i - 1);
      }
    }
  }
}
