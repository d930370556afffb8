/**
 * The arithmetic, logic, rotate and bit operations that the arms of `opCodeTable.tableLookup`
 * and `opCodeTable.execute_prefixed` apply to one operand (opcodeCases.py).
 *
 * Each function computes what one family of arms computes inline, in the arms' own terms
 * (`u8`, `&`, `|`, `>>`, the bit-4 / bit-8 / bit-12 / bit-16 tests), and its `ensures` say what
 * the result means: carries and borrows as arithmetic facts, shifts as arithmetic on the
 * operand, single-bit operations bit by bit. The divergences from the SM83 hardware that the
 * Python arms contain are kept as written and named in the comments.
 */
module Alu {
  import opened Bits

  /** The four flag fields `Z`, `N`, `H`, `C` of `opCodeTable`. */
  datatype Flags = Flags(z: bool, n: bool, h: bool, c: bool)

  /** An 8-bit result together with the flags the arm assigns. */
  datatype AluOut = AluOut(value: Byte, flags: Flags)

  /** A 16-bit result together with the flags the arm assigns. */
  datatype WideOut = WideOut(value: Word, flags: Flags)

  /** A shifted or rotated byte together with the bit the arm stores in `C`. */
  datatype ShiftOut = ShiftOut(value: Byte, carry: bool)

  /** The eight operations of the 0x80-0xBF block and of the immediate forms C6 ... FE. */
  datatype AluOp = Add | Adc | Sub | Sbc | And | Xor | Or | Cp

  // ---------------------------------------------------------------------------------------------
  // 8-bit arithmetic

  /** ADD / ADC: `u8(A + r + C)`, H from bit 4 of the nibble sum, C from bit 8 of the sum. */
  function Add8(a: Byte, b: Byte, cin: bool): (r: AluOut)
    ensures r.value + (if r.flags.c then 256 else 0) == a + b + B2I(cin)
    ensures r.flags.h <==> a % 16 + b % 16 + B2I(cin) >= 16
    ensures r.flags.z <==> r.value == 0
    ensures !r.flags.n
  {
    var s := a + b + B2I(cin);
    var hs := a % 16 + b % 16 + B2I(cin);
    assert Pow2(4) == 16 && Pow2(8) == 256;
    CarryBit(hs, 4);
    CarryBit(s, 8);
    Wrap(s, 256);
    AluOut(U8(s), Flags(U8(s) == 0, false, Bit(hs, 4) == 1, Bit(s, 8) == 1))
  }

  /** SUB / SBC / CP: `u8(A - r - C)`, H and C from bit 4 / bit 8 of the differences. */
  function Sub8(a: Byte, b: Byte, cin: bool): (r: AluOut)
    ensures r.value - (if r.flags.c then 256 else 0) == a - b - B2I(cin)
    ensures r.flags.h <==> a % 16 < b % 16 + B2I(cin)
    ensures r.flags.z <==> r.value == 0
    ensures r.flags.n
  {
    var s := a - b - B2I(cin);
    var hs := a % 16 - b % 16 - B2I(cin);
    assert Pow2(4) == 16 && Pow2(8) == 256;
    BorrowBit(hs, 4);
    BorrowBit(s, 8);
    Wrap(s, 256);
    AluOut(U8(s), Flags(U8(s) == 0, true, Bit(hs, 4) == 1, Bit(s, 8) == 1))
  }

  /** INC r: `u8(r + 1)`, H from bit 4 of `(r & 0xF) + 1`, C left as it was. */
  function Inc8(x: Byte, c: bool): (r: AluOut)
    ensures r.value == if x == 255 then 0 else x + 1
    ensures r.flags.h <==> x % 16 == 15
    ensures r.flags.z <==> r.value == 0
    ensures !r.flags.n && r.flags.c == c
  {
    var v := U8(x + 1);
    assert Pow2(4) == 16;
    CarryBit(x % 16 + 1, 4);
    AluOut(v, Flags(v == 0, false, Bit(x % 16 + 1, 4) == 1, c))
  }

  /** DEC r: `u8(r - 1)`, H from bit 4 of `(r & 0xF) - 1`, C left as it was. */
  function Dec8(x: Byte, c: bool): (r: AluOut)
    ensures r.value == if x == 0 then 255 else x - 1
    ensures r.flags.h <==> x % 16 == 0
    ensures r.flags.z <==> r.value == 0
    ensures r.flags.n && r.flags.c == c
  {
    var v := U8(x - 1);
    assert Pow2(4) == 16;
    BorrowBit(x % 16 - 1, 4);
    AluOut(v, Flags(v == 0, true, Bit(x % 16 - 1, 4) == 1, c))
  }

  // ---------------------------------------------------------------------------------------------
  // 8-bit logic

  /** AND: `A & r`, Z from the result, N = 0, H = 1, C = 0. */
  function And8(a: Byte, b: Byte): (r: AluOut)
    ensures forall i: nat :: i < 8 ==> Bit(r.value, i) == if Bit(a, i) == 1 && Bit(b, i) == 1 then 1 else 0
    ensures r.flags == Flags(r.value == 0, false, true, false)
  {
    assert Pow2(8) == 256;
    forall i: nat | i < 8 ensures Bit(AndW(a, b, 8), i) == if Bit(a, i) == 1 && Bit(b, i) == 1 then 1 else 0 {
      AndBit(a, b, 8, i);
    }
    var v := AndW(a, b, 8);
    AluOut(v, Flags(v == 0, false, true, false))
  }

  /** XOR: `A ^ r`, Z from the result, N = H = C = 0. */
  function Xor8(a: Byte, b: Byte): (r: AluOut)
    ensures forall i: nat :: i < 8 ==> Bit(r.value, i) == (Bit(a, i) + Bit(b, i)) % 2
    ensures r.flags == Flags(r.value == 0, false, false, false)
  {
    assert Pow2(8) == 256;
    forall i: nat | i < 8 ensures Bit(XorW(a, b, 8), i) == (Bit(a, i) + Bit(b, i)) % 2 {
      XorBit(a, b, 8, i);
    }
    var v := XorW(a, b, 8);
    AluOut(v, Flags(v == 0, false, false, false))
  }

  /** OR: `AF |= r << 8`, that is `A | r` in the high half, Z from it, N = H = C = 0. */
  function Or8(a: Byte, b: Byte): (r: AluOut)
    ensures forall i: nat :: i < 8 ==> Bit(r.value, i) == if Bit(a, i) == 1 || Bit(b, i) == 1 then 1 else 0
    ensures r.flags == Flags(r.value == 0, false, false, false)
  {
    assert Pow2(8) == 256;
    forall i: nat | i < 8
      ensures Bit(OrW(a, b, 8), i) == if Bit(a, i) == 1 || Bit(b, i) == 1 then 1 else 0
    {
      OrBit(a, b, 8, i);
    }
    var v := OrW(a, b, 8);
    AluOut(v, Flags(v == 0, false, false, false))
  }

  /**
   * One operation of the 0x80-0xBF block or of its immediate forms, on `A` and the operand.
   * CP computes the flags of SUB and keeps `A`.
   */
  function Alu8(op: AluOp, a: Byte, b: Byte, f: Flags): (r: AluOut)
    ensures op == Cp ==> r == AluOut(a, Sub8(a, b, false).flags)
    ensures op in {Add, Adc} ==> r.value == (a + b + (if op == Adc then B2I(f.c) else 0)) % 256
    ensures op in {Sub, Sbc} ==> r.value == (a - b - (if op == Sbc then B2I(f.c) else 0)) % 256
    ensures op == Add ==> r == Add8(a, b, false)
    ensures op == Adc ==> r == Add8(a, b, f.c)
    ensures op == Sub ==> r == Sub8(a, b, false)
    ensures op == Sbc ==> r == Sub8(a, b, f.c)
    ensures op == And ==> r == And8(a, b)
    ensures op == Xor ==> r == Xor8(a, b)
    ensures op == Or ==> r == Or8(a, b)
    ensures op != Cp ==> r.flags.n == (op in {Sub, Sbc})
  {
    match op
    case Add => Wrap(a + b, 256); Add8(a, b, false)
    case Adc => Wrap(a + b + B2I(f.c), 256); Add8(a, b, f.c)
    case Sub => Wrap(a - b, 256); Sub8(a, b, false)
    case Sbc => Wrap(a - b - B2I(f.c), 256); Sub8(a, b, f.c)
    case And => And8(a, b)
    case Xor => Xor8(a, b)
    case Or => Or8(a, b)
    case Cp => AluOut(a, Sub8(a, b, false).flags)
  }

  /**
   * The arms with `A` as their own operand (SUB A,A at 0x97, AND A,A at 0xA7, XOR A,A at 0xAF,
   * OR A,A at 0xB7, CP A,A at 0xBF) are written as constants in the table; they give exactly
   * what the general operation gives on two equal operands.
   */
  lemma SelfOperandArms(a: Byte, f: Flags)
    ensures Alu8(Sub, a, a, f) == AluOut(0, Flags(true, true, false, false))
    ensures Alu8(And, a, a, f) == AluOut(a, Flags(a == 0, false, true, false))
    ensures Alu8(Xor, a, a, f) == AluOut(0, Flags(true, false, false, false))
    ensures Alu8(Or, a, a, f) == AluOut(a, Flags(a == 0, false, false, false))
    ensures Alu8(Cp, a, a, f) == AluOut(a, Flags(true, true, false, false))
  {
    assert Pow2(8) == 256;
    AndSelf(a, 8);
    XorSelf(a, 8);
    OrSelf(a, 8);
  }

  /** CPL: `A ^ 0xFF` is the complement 255 - A. */
  function Cpl(a: Byte): (r: Byte)
    ensures r == 255 - a
  {
    assert Pow2(8) == 256;
    XorOnes(a, 8);
    XorW(a, 0xFF, 8)
  }

  /**
   * DAA as written: the correction starts from 0x06 for H and 0x60 for C; after an addition it
   * also takes 0x06 when the low nibble exceeds 9 and 0x60 when A exceeds 0x99, and is added;
   * after a subtraction it is subtracted. H is cleared, N kept, C tells whether 0x60 was used.
   */
  function Daa(a: Byte, f: Flags): (r: AluOut)
    ensures r.flags.c <==> f.c || (!f.n && a > 0x99)
    ensures r.flags.z <==> r.value == 0
    ensures r.flags.n == f.n && !r.flags.h
    ensures !f.n && !f.h && !f.c && a % 16 <= 9 && a <= 0x99 ==> r.value == a
  {
    var low := if f.h || (!f.n && a % 16 > 9) then 0x06 else 0;
    var high := if f.c || (!f.n && a > 0x99) then 0x60 else 0;
    var corr := low + high;
    var v := if f.n then a - corr else a + corr;
    AluOut(U8(v), Flags(U8(v) == 0, f.n, false, high == 0x60))
  }

  // ---------------------------------------------------------------------------------------------
  // 16-bit arithmetic

  /** ADD HL,rr: `u16(HL + rr)`, Z kept, N = 0, H from bit 12 of the 12-bit sum, C from bit 16. */
  function AddHl(hl: Word, rr: Word, z: bool): (r: WideOut)
    ensures r.value + (if r.flags.c then 65536 else 0) == hl + rr
    ensures r.flags.h <==> hl % 4096 + rr % 4096 >= 4096
    ensures r.flags.z == z && !r.flags.n
  {
    var s := hl + rr;
    assert Pow2(12) == 4096 && Pow2(16) == 65536;
    CarryBit(hl % 4096 + rr % 4096, 12);
    CarryBit(s, 16);
    Wrap(s, 65536);
    WideOut(U16(s), Flags(z, false, Bit(hl % 4096 + rr % 4096, 12) == 1, Bit(s, 16) == 1))
  }

  /**
   * ADD SP,e and LD HL,SP+e: `u16(SP + i8(e))` with Z = N = 0, H from bit 4 of
   * `(SP & 0xF) + (e & 0xF)` and C from bit 8 of `(SP & 0xFF) + (e & 0xFF)`; Python's `&` on the
   * signed displacement gives the unsigned low bits of the raw byte.
   */
  function AddSpE(sp: Word, e: Byte): (r: WideOut)
    ensures r.value == (sp + I8(e)) % 65536
    ensures r.flags.h <==> sp % 16 + e % 16 >= 16
    ensures r.flags.c <==> sp % 256 + e >= 256
    ensures !r.flags.z && !r.flags.n
  {
    var d := I8(e);
    I8LowBits(e);
    assert Pow2(4) == 16 && Pow2(8) == 256;
    CarryBit(sp % 16 + d % 16, 4);
    CarryBit(sp % 256 + d % 256, 8);
    WideOut(U16(sp + d), Flags(false, false, Bit(sp % 16 + d % 16, 4) == 1, Bit(sp % 256 + d % 256, 8) == 1))
  }

  // ---------------------------------------------------------------------------------------------
  // Rotates and shifts (accumulator forms 07/0F/17/1F and CB 0x00-0x3F)

  /** RLC: `u8(x << 1) | (x >> 7)`, carry = bit 0 of the result = old bit 7. */
  function Rlc(x: Byte): (r: ShiftOut)
    ensures r.value == 2 * (x % 128) + x / 128
    ensures r.carry <==> x >= 128
  {
    assert Pow2(1) == 2;
    DivUnique(x * 2, 256, x / 128, 2 * (x % 128));
    OrOfParts(x % 128, x / 128, 1);
    DivUnique(2 * (x % 128) + x / 128, 2, x % 128, x / 128);
    var v := OrW(U8(x * 2), x / 128, 8);
    ShiftOut(v, v % 2 == 1)
  }

  /** RRC: `u8(x >> 1) | u8(x << 7)`, carry = bit 7 of the result = old bit 0. */
  function Rrc(x: Byte): (r: ShiftOut)
    ensures r.value == 128 * (x % 2) + x / 2
    ensures r.carry <==> x % 2 == 1
  {
    RrcParts(x);
    TopBit(x % 2, x / 2);
    var v := OrW(x / 2, U8(x * 128), 8);
    ShiftOut(v, Bit(v, 7) == 1)
  }

  /** The value RRC assembles. */
  lemma RrcParts(x: Byte)
    ensures OrW(x / 2, U8(x * 128), 8) == 128 * (x % 2) + x / 2
  {
    var b := x % 2;
    assert Pow2(7) == 128;
    ShiftLeftSeven(x);
    assert U8(x * 128) == Pow2(7) * b;
    OrOfParts(b, x / 2, 7);
  }

  /** Bit 7 of a byte assembled from a top bit and seven low bits. */
  lemma TopBit(b: nat, lo: nat)
    requires b < 2 && lo < 128
    ensures Bit(128 * b + lo, 7) == b
  {
    assert Pow2(7) == 128;
    DivUnique(128 * b + lo, 128, b, lo);
    BitAsDiv(128 * b + lo, 7);
  }

  /** `u8(x << 7)` keeps only bit 0 of x, moved to bit 7. */
  lemma ShiftLeftSeven(x: Byte)
    ensures U8(x * 128) == 128 * (x % 2)
  {
    var q, r := x / 2, x % 2;
    assert x * 128 == (2 * q + r) * 128 == 256 * q + 128 * r;
    DivUnique(x * 128, 256, q, 128 * r);
  }

  /** RL through the carry: old bit 7 to the carry, the old carry into bit 0. */
  function Rl(x: Byte, cin: bool): (r: ShiftOut)
    ensures r.value == 2 * (x % 128) + B2I(cin)
    ensures r.carry <==> x >= 128
  {
    RlParts(x, cin);
    ShiftOut(OrW(U8(x * 2), B2I(cin), 8), Bit(x, 7) == 1)
  }

  /** The value RL assembles, and bit 7 of the old value. */
  lemma RlParts(x: Byte, cin: bool)
    ensures OrW(U8(x * 2), B2I(cin), 8) == 2 * (x % 128) + B2I(cin)
    ensures Bit(x, 7) == 1 <==> x >= 128
  {
    assert Pow2(1) == 2;
    DivUnique(x * 2, 256, x / 128, 2 * (x % 128));
    assert U8(x * 2) == Pow2(1) * (x % 128);
    OrOfParts(x % 128, B2I(cin), 1);
    TopBit(x / 128, x % 128);
  }

  /**
   * RL (HL), CB 0x16: the value is rotated like RL, but the new carry is `(v >> 15) & 1` of a
   * byte, which is always 0.
   */
  function RlAtHl(x: Byte, cin: bool): (r: ShiftOut)
    ensures r.value == Rl(x, cin).value
    ensures !r.carry
  {
    assert Pow2(8) == 256;
    BitBeyond(x, 8, 15);
    ShiftOut(Rl(x, cin).value, Bit(x, 15) == 1)
  }

  /** RR through the carry: old bit 0 to the carry, the old carry into bit 7. */
  function Rr(x: Byte, cin: bool): (r: ShiftOut)
    ensures r.value == 128 * B2I(cin) + x / 2
    ensures r.carry <==> x % 2 == 1
  {
    assert Pow2(7) == 128;
    OrOfParts(B2I(cin), x / 2, 7);
    ShiftOut(OrW(x / 2, 128 * B2I(cin), 8), x % 2 == 1)
  }

  /**
   * RR (HL), CB 0x1E: the value is rotated like RR, then the carry is overwritten with bit 7 of
   * the new value, which is the old carry.
   */
  function RrAtHl(x: Byte, cin: bool): (r: ShiftOut)
    ensures r.value == Rr(x, cin).value
    ensures r.carry == cin
  {
    var v := Rr(x, cin).value;
    TopBit(B2I(cin), x / 2);
    ShiftOut(v, Bit(v, 7) == 1)
  }

  /** CB 0x20-0x27 (SLA): `u8(x << 1)`, carry = bit 0 of the result, which is always 0. */
  function Sla(x: Byte): (r: ShiftOut)
    ensures r.value == 2 * (x % 128)
    ensures !r.carry
  {
    var v := U8(x * 2);
    ShiftOut(v, v % 2 == 1)
  }

  /**
   * CB 0x28-0x2F, labelled SLA in the table: `u8(x >> 1) | ((x >> 7) << 7)`, an arithmetic shift
   * right keeping bit 7, with carry = bit 7 of the result = old bit 7.
   */
  function Sra(x: Byte): (r: ShiftOut)
    ensures r.value == x / 2 + 128 * (x / 128)
    ensures r.carry <==> x >= 128
  {
    assert Pow2(7) == 128;
    OrOfParts(x / 128, x / 2, 7);
    TopBit(x / 128, x / 2);
    var v := OrW(x / 2, 128 * (x / 128), 8);
    ShiftOut(v, Bit(v, 7) == 1)
  }

  /** SWAP: `u8(x << 4) | (x >> 4)` exchanges the nibbles, carry 0. */
  function Swap(x: Byte): (r: ShiftOut)
    ensures r.value == 16 * (x % 16) + x / 16
    ensures !r.carry
  {
    assert Pow2(4) == 16;
    DivUnique(x * 16, 256, x / 16, 16 * (x % 16));
    OrOfParts(x % 16, x / 16, 4);
    ShiftOut(OrW(U8(x * 16), x / 16, 8), false)
  }

  /** SRL: `x >> 1`, carry = bit 7 of the result, which is always 0. */
  function Srl(x: Byte): (r: ShiftOut)
    ensures r.value == x / 2
    ensures !r.carry
  {
    var v := x / 2;
    assert Pow2(7) == 128;
    BitBeyond(v, 7, 7);
    ShiftOut(v, Bit(v, 7) == 1)
  }

  /** RRC undoes RLC. */
  lemma RrcUndoesRlc(x: Byte)
    ensures Rrc(Rlc(x).value).value == x
  {
    var v := Rlc(x).value;
    DivUnique(v, 2, x % 128, x / 128);
  }

  /** Rotating left through the carry and back right restores the byte and the carry. */
  lemma RrUndoesRl(x: Byte, c: bool)
    ensures Rr(Rl(x, c).value, Rl(x, c).carry) == ShiftOut(x, c)
  {
    var y := 2 * (x % 128) + B2I(c);
    DivUnique(y, 2, x % 128, B2I(c));
    assert B2I(x >= 128) == x / 128;
  }

  /** SWAP applied twice is the identity. */
  lemma SwapInvolution(x: Byte)
    ensures Swap(Swap(x).value).value == x
  {
    var y := Swap(x).value;
    assert y == 16 * (x % 16) + x / 16;
    DivUnique(y, 16, x % 16, x / 16);
    assert Swap(y).value == 16 * (y % 16) + y / 16;
  }

  // ---------------------------------------------------------------------------------------------
  // Single-bit operations (CB 0x40-0xFF)

  /** RES b: `x & ~(1 << b)` of a byte, which is `x & (0xFF - (1 << b))`; clears bit b only. */
  function Res(x: Byte, b: nat): (r: Byte)
    requires b < 8
    ensures forall i: nat :: i < 8 ==> Bit(r, i) == if i == b then 0 else Bit(x, i)
  {
    assert Pow2(8) == 256;
    PowMonotone(b, 7);
    var m := Pow2(8) - 1 - Pow2(b);
    var v := AndW(x, m, 8);
    forall i: nat | i < 8
      ensures Bit(v, i) == if i == b then 0 else Bit(x, i)
    {
      AndBit(x, m, 8, i);
      HoleBit(8, b, i);
    }
    v
  }

  /** SET b: `x | (1 << b)`; sets bit b only. */
  function Set(x: Byte, b: nat): (r: Byte)
    requires b < 8
    ensures forall i: nat :: i < 8 ==> Bit(r, i) == if i == b then 1 else Bit(x, i)
  {
    assert Pow2(8) == 256;
    PowMonotone(b, 7);
    forall i: nat | i < 8
      ensures Bit(OrW(x, Pow2(b), 8), i) == if i == b then 1 else Bit(x, i)
    {
      OrBit(x, Pow2(b), 8, i);
      PowBit(b, i);
    }
    OrW(x, Pow2(b), 8)
  }
}
