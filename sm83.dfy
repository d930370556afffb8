/**
 * What one pass through `opCodeTable.tableLookup` (and, for 0xCB, `execute_prefixed`) does to
 * the registers, to the flat 64 KiB testing-mode memory and to the bus cycle counter
 * (opcodeCases.py).
 *
 * An opcode is decoded into an `Instr` by its bit fields (x = bits 7-6, y = bits 5-3,
 * z = bits 2-0), which is how the 256 arms of the table group into families. `Exec` gives the
 * effect of one instruction as the sequence of bus calls its arm makes: every `mem.tick()` is a
 * `Tick`, every `mem.read` a lookup plus a `Tick`, every `mem.write` a `Put`, so the cycle
 * count of an instruction is a consequence of the definition and is compared with the SM83
 * cycle table in `CyclesMatchTable`.
 *
 * `exit(1)` (STOP, HALT, the unassigned opcodes) and the IndexError of a write past the flat
 * memory end the run: they are the outcome `Fault`.
 */
module Sm83 {
  import opened Bits
  import opened Alu

  /** The flat memory of testing mode (memory.py:36). */
  type Ram = s: seq<Byte> | |s| == 0x10000 witness seq(0x10000, _ => 0)

  /**
   * The fields of `opCodeTable`: four register pairs, SP, PC, the flags `Z`, `N`, `H`, `C`
   * (kept apart from `AF`, whose low byte holds only what was last written there), `ime` and
   * `delayed_ime_enable`.
   */
  datatype Regs = Regs(
    af: Word, bc: Word, de: Word, hl: Word, sp: Word, pc: Word,
    f: Flags, ime: bool, delayedIme: bool)

  /** Registers, memory, and the bus counter `ticks_per_instr`. */
  datatype Machine = Machine(regs: Regs, ram: Ram, ticks: nat)

  datatype Outcome = Next(m: Machine) | Fault

  /** The 8-bit registers in operand-field order (B C D E H L, then A; field 6 is (HL)). */
  datatype Reg8 = RB | RC | RD | RE | RH | RL | RA

  /** An 8-bit operand: a register or the byte at HL. */
  datatype Operand = Reg(r: Reg8) | AtHL

  /** The 16-bit operands of LD rr,nn / INC rr / DEC rr / ADD HL,rr. */
  datatype Reg16 = RBC | RDE | RHL | RSP

  /** The 16-bit operands of PUSH / POP. */
  datatype Stack16 = SBC | SDE | SHL | SAF

  /** The address forms of LD (rr),A and LD A,(rr). */
  datatype Via = ViaBC | ViaDE | ViaHLInc | ViaHLDec

  /** Branch conditions. */
  datatype Cond = IfNZ | IfZ | IfNC | IfC

  /** The rotates of the accumulator, 0x07 / 0x0F / 0x17 / 0x1F. */
  datatype AccRot = Rlca | Rrca | Rla | Rra

  datatype Instr =
    | Nop | Stop | Halt | Illegal | Prefix
    | LdRrImm(p: Reg16) | StoreA(via: Via) | LoadA(via: Via)
    | IncRr(p: Reg16) | DecRr(p: Reg16) | AddHlRr(p: Reg16)
    | Inc(t: Operand) | Dec(t: Operand) | LdImm(t: Operand)
    | RotA(rot: AccRot) | StoreSp | Jr | JrIf(cc: Cond)
    | DecimalAdjust | Complement | SetCarry | FlipCarry
    | Ld(dst: Operand, src: Operand) | AluR(op: AluOp, src: Operand) | AluN(op: AluOp)
    | RetIf(cc: Cond) | Ret | Reti | Pop(q: Stack16) | Push(q: Stack16)
    | JpIf(cc: Cond) | Jp | JpHl | CallIf(cc: Cond) | Call | Rst(vec: Byte)
    | LdhStore | LdhLoad | StoreHighC | LoadHighC | StoreAbs | LoadAbs
    | AddSp | LdHlSp | LdSpHl | Di | Ei

  /** The CB-table shift family, by bits 5-3 of the CB opcode. */
  datatype ShiftKind = KRlc | KRrc | KRl | KRr | KSla | KSra | KSwap | KSrl

  datatype CbOp =
    | Shift(kind: ShiftKind, t: Operand)
    | TestBit(b: nat, t: Operand)
    | ResBit(b: nat, t: Operand)
    | SetBit(b: nat, t: Operand)

  // ---------------------------------------------------------------------------------------------
  // Decoding

  /** An opcode is its three fields: `code == 64 * x + 8 * y + z`. */
  lemma Fields(code: Byte)
    ensures code == 64 * (code / 64) + 8 * ((code / 8) % 8) + code % 8
    ensures code / 64 < 4
  {
  }

  function OperandOf(z: nat): Operand
    requires z < 8
  {
    match z
    case 0 => Reg(RB)
    case 1 => Reg(RC)
    case 2 => Reg(RD)
    case 3 => Reg(RE)
    case 4 => Reg(RH)
    case 5 => Reg(RL)
    case 6 => AtHL
    case 7 => Reg(RA)
  }

  function Reg16Of(p: nat): Reg16
    requires p < 4
  {
    match p
    case 0 => RBC
    case 1 => RDE
    case 2 => RHL
    case 3 => RSP
  }

  function Stack16Of(p: nat): Stack16
    requires p < 4
  {
    match p
    case 0 => SBC
    case 1 => SDE
    case 2 => SHL
    case 3 => SAF
  }

  function ViaOf(p: nat): Via
    requires p < 4
  {
    match p
    case 0 => ViaBC
    case 1 => ViaDE
    case 2 => ViaHLInc
    case 3 => ViaHLDec
  }

  function CondOf(y: nat): Cond
    requires y < 4
  {
    match y
    case 0 => IfNZ
    case 1 => IfZ
    case 2 => IfNC
    case 3 => IfC
  }

  function AluOpOf(y: nat): AluOp
    requires y < 8
  {
    match y
    case 0 => Add
    case 1 => Adc
    case 2 => Sub
    case 3 => Sbc
    case 4 => And
    case 5 => Xor
    case 6 => Or
    case 7 => Cp
  }

  /** The unassigned opcodes, which reach the default arm of the table. */
  const Unassigned: set<int> := {0xD3, 0xDB, 0xDD, 0xE3, 0xE4, 0xEB, 0xEC, 0xED, 0xF4, 0xFC, 0xFD}

  /** The arm of `tableLookup` an opcode selects. */
  function Decode(code: Byte): (i: Instr)
    ensures i == Illegal <==> code in Unassigned
    ensures i == Stop <==> code == 0x10
    ensures i == Halt <==> code == 0x76
    ensures i == Prefix <==> code == 0xCB
    ensures i == StoreSp <==> code == 0x08
  {
    Fields(code);
    var x, y, z := code / 64, (code / 8) % 8, code % 8;
    var p, q := y / 2, y % 2;
    if x == 0 then
      match z
      case 0 =>
        (match y
         case 0 => Nop
         case 1 => StoreSp
         case 2 => Stop
         case 3 => Jr
         case _ => JrIf(CondOf(y - 4)))
      case 1 => if q == 0 then LdRrImm(Reg16Of(p)) else AddHlRr(Reg16Of(p))
      case 2 => if q == 0 then StoreA(ViaOf(p)) else LoadA(ViaOf(p))
      case 3 => if q == 0 then IncRr(Reg16Of(p)) else DecRr(Reg16Of(p))
      case 4 => Inc(OperandOf(y))
      case 5 => Dec(OperandOf(y))
      case 6 => LdImm(OperandOf(y))
      case 7 =>
        (match y
         case 0 => RotA(Rlca)
         case 1 => RotA(Rrca)
         case 2 => RotA(Rla)
         case 3 => RotA(Rra)
         case 4 => DecimalAdjust
         case 5 => Complement
         case 6 => SetCarry
         case 7 => FlipCarry)
    else if x == 1 then
      if y == 6 && z == 6 then Halt else Ld(OperandOf(y), OperandOf(z))
    else if x == 2 then
      AluR(AluOpOf(y), OperandOf(z))
    else
      match z
      case 0 =>
        (match y
         case 4 => LdhStore
         case 5 => AddSp
         case 6 => LdhLoad
         case 7 => LdHlSp
         case _ => RetIf(CondOf(y)))
      case 1 =>
        if q == 0 then Pop(Stack16Of(p))
        else (match p
              case 0 => Ret
              case 1 => Reti
              case 2 => JpHl
              case 3 => LdSpHl)
      case 2 =>
        (match y
         case 4 => StoreHighC
         case 5 => StoreAbs
         case 6 => LoadHighC
         case 7 => LoadAbs
         case _ => JpIf(CondOf(y)))
      case 3 =>
        (match y
         case 0 => Jp
         case 1 => Prefix
         case 6 => Di
         case 7 => Ei
         case _ => Illegal)
      case 4 => if y < 4 then CallIf(CondOf(y)) else Illegal
      case 5 => if q == 0 then Push(Stack16Of(p)) else if p == 0 then Call else Illegal
      case 6 => AluN(AluOpOf(y))
      case 7 => Rst(8 * y)
  }

  /** The CB-table row an opcode selects (bits 7-6: family, 5-3: kind or bit, 2-0: operand). */
  function CbDecode(code: Byte): (op: CbOp)
    ensures op.Shift? <==> code < 0x40
    ensures op.TestBit? <==> 0x40 <= code < 0x80
    ensures op.ResBit? <==> 0x80 <= code < 0xC0
    ensures op.SetBit? <==> 0xC0 <= code
    ensures !op.Shift? ==> op.b == (code / 8) % 8
    ensures op.t == OperandOf(code % 8)
  {
    var x, y, z := code / 64, (code / 8) % 8, code % 8;
    var t := OperandOf(z);
    if x == 0 then
      Shift(match y
            case 0 => KRlc
            case 1 => KRrc
            case 2 => KRl
            case 3 => KRr
            case 4 => KSla
            case 5 => KSra
            case 6 => KSwap
            case 7 => KSrl, t)
    else if x == 1 then TestBit(y, t)
    else if x == 2 then ResBit(y, t)
    else SetBit(y, t)
  }

  // ---------------------------------------------------------------------------------------------
  // Registers

  function Get8(r: Regs, x: Reg8): Byte
  {
    match x
    case RB => Hi(r.bc)
    case RC => Lo(r.bc)
    case RD => Hi(r.de)
    case RE => Lo(r.de)
    case RH => Hi(r.hl)
    case RL => Lo(r.hl)
    case RA => Hi(r.af)
  }

  /**
   * Writing one 8-bit register: the other half of its pair, every other register, the low byte
   * of AF and the flags are kept.
   */
  function Set8(r: Regs, x: Reg8, v: Byte): (s: Regs)
    ensures Get8(s, x) == v
    ensures Lo(s.af) == Lo(r.af)
    ensures s.sp == r.sp && s.pc == r.pc && s.f == r.f
    ensures s.ime == r.ime && s.delayedIme == r.delayedIme
  {
    match x
    case RB => r.(bc := WithHi(r.bc, v))
    case RC => r.(bc := WithLo(r.bc, v))
    case RD => r.(de := WithHi(r.de, v))
    case RE => r.(de := WithLo(r.de, v))
    case RH => r.(hl := WithHi(r.hl, v))
    case RL => r.(hl := WithLo(r.hl, v))
    case RA => r.(af := WithHi(r.af, v))
  }

  /** Writing one 8-bit register leaves every other 8-bit register as it was. */
  lemma Set8KeepsOthers(r: Regs, x: Reg8, v: Byte, y: Reg8)
    requires y != x
    ensures Get8(Set8(r, x, v), y) == Get8(r, y)
  {
  }

  function Get16(r: Regs, p: Reg16): Word
  {
    match p
    case RBC => r.bc
    case RDE => r.de
    case RHL => r.hl
    case RSP => r.sp
  }

  function Set16(r: Regs, p: Reg16, v: Word): (s: Regs)
    ensures Get16(s, p) == v
    ensures forall o :: o != p ==> Get16(s, o) == Get16(r, o)
    ensures s.af == r.af && s.pc == r.pc && s.f == r.f
    ensures s.ime == r.ime && s.delayedIme == r.delayedIme
  {
    match p
    case RBC => r.(bc := v)
    case RDE => r.(de := v)
    case RHL => r.(hl := v)
    case RSP => r.(sp := v)
  }

  /**
   * `flag_bits`: Z, N, H, C at bits 7, 6, 5, 4. The four shifted bits are disjoint, so their
   * `|` is their sum.
   */
  function FlagBits(f: Flags): (b: Byte)
    ensures b % 16 == 0
  {
    128 * B2I(f.z) + 64 * B2I(f.n) + 32 * B2I(f.h) + 16 * B2I(f.c)
  }

  /** The flags POP AF takes from bits 7..4 of a byte. */
  function FlagsOf(b: Byte): Flags
  {
    Flags(Bit(b, 7) == 1, Bit(b, 6) == 1, Bit(b, 5) == 1, Bit(b, 4) == 1)
  }

  /** The flags read from a byte are the four bits of its high nibble. */
  lemma FlagsOfNibble(b: Byte)
    ensures FlagsOf(b) == Flags(Bit(b / 16, 3) == 1, Bit(b / 16, 2) == 1, Bit(b / 16, 1) == 1, Bit(b / 16, 0) == 1)
  {
    HighNibbleBit(b, 0);
    HighNibbleBit(b, 1);
    HighNibbleBit(b, 2);
    HighNibbleBit(b, 3);
  }

  /** Reading the flags back from `flag_bits` gives them unchanged. */
  lemma FlagsOfFlagBits(f: Flags)
    ensures FlagsOf(FlagBits(f)) == f
  {
    var q := 8 * B2I(f.z) + 4 * B2I(f.n) + 2 * B2I(f.h) + B2I(f.c);
    assert FlagBits(f) / 16 == q;
    FlagsOfNibble(FlagBits(f));
    NibbleBits(q);
  }

  /** `flag_bits` of the flags read from a byte is that byte without its low nibble. */
  lemma FlagBitsOfFlags(b: Byte)
    ensures FlagBits(FlagsOf(b)) == b - b % 16
  {
    var hi := b / 16;
    FlagsOfNibble(b);
    assert FlagBits(FlagsOf(b)) == 128 * Bit(hi, 3) + 64 * Bit(hi, 2) + 32 * Bit(hi, 1) + 16 * Bit(hi, 0);
    NibbleBits(hi);
  }

  function Holds(f: Flags, cc: Cond): bool
  {
    match cc
    case IfNZ => !f.z
    case IfZ => f.z
    case IfNC => !f.c
    case IfC => f.c
  }

  // ---------------------------------------------------------------------------------------------
  // Bus steps

  /** `mem.tick()`. */
  function Tick(m: Machine): Machine
  {
    m.(ticks := m.ticks + 1)
  }

  /** `mem.write(a, v)` at an address inside the flat memory. */
  function Put(m: Machine, a: Word, v: Byte): Machine
  {
    Machine(m.regs, m.ram[a := v], m.ticks + 1)
  }

  function WithRegs(m: Machine, r: Regs): Machine
  {
    m.(regs := r)
  }

  /** The byte `read_imm_u8` returns. */
  function Imm8(m: Machine): Byte
  {
    m.ram[m.regs.pc]
  }

  /** The state after `read_imm_u8`. */
  function PastImm8(m: Machine): Machine
  {
    Machine(m.regs.(pc := U16(m.regs.pc + 1)), m.ram, m.ticks + 1)
  }

  /** The word `read_imm_u16` returns: `(msb << 8) | lsb`, the low byte first in memory. */
  function Imm16(m: Machine): Word
  {
    Pair(m.ram[U16(m.regs.pc + 1)], m.ram[m.regs.pc])
  }

  /** The state after `read_imm_u16`. */
  function PastImm16(m: Machine): Machine
  {
    PastImm8(PastImm8(m))
  }

  /** `read_imm_u16` is two `read_imm_u8`, low byte first. */
  lemma Imm16IsTwoImm8(m: Machine)
    ensures Imm16(m) == 256 * Imm8(PastImm8(m)) + Imm8(m)
    ensures PastImm16(m).regs.pc == (m.regs.pc + 2) % 65536
    ensures PastImm16(m).ticks == m.ticks + 2
  {
  }

  /** The byte an operand names (no bus call for a register). */
  function Load8(m: Machine, t: Operand): Byte
  {
    match t
    case Reg(x) => Get8(m.regs, x)
    case AtHL => m.ram[m.regs.hl]
  }

  /** The state after fetching an operand: one tick for (HL). */
  function PastLoad8(m: Machine, t: Operand): Machine
  {
    if t.AtHL? then Tick(m) else m
  }

  /** Storing into an operand: a register update, or one write at HL. */
  function Store8(m: Machine, t: Operand, v: Byte): Machine
  {
    match t
    case Reg(x) => WithRegs(m, Set8(m.regs, x, v))
    case AtHL => Put(m, m.regs.hl, v)
  }

  /**
   * The push sequence: SP-1, write the high byte, SP-1, write the low byte (each SP update
   * wraps with `u16`).
   */
  function Pushed(m: Machine, v: Word): Machine
  {
    var sp1 := U16(m.regs.sp - 1);
    var m1 := Put(WithRegs(m, m.regs.(sp := sp1)), sp1, Hi(v));
    var sp2 := U16(sp1 - 1);
    Put(WithRegs(m1, m1.regs.(sp := sp2)), sp2, Lo(v))
  }

  /** The word the pop sequence assembles: low byte at SP, high byte at SP+1. */
  function Popped(m: Machine): Word
  {
    Pair(m.ram[U16(m.regs.sp + 1)], m.ram[m.regs.sp])
  }

  /** The state after the pop sequence: two reads, SP+2. */
  function PastPop(m: Machine): Machine
  {
    Machine(m.regs.(sp := U16(m.regs.sp + 2)), m.ram, m.ticks + 2)
  }

  /** The word PUSH qq writes; for AF it is A over `flag_bits() | (AF & 0x0F)`. */
  function StackWord(r: Regs, q: Stack16): Word
  {
    match q
    case SBC => r.bc
    case SDE => r.de
    case SHL => r.hl
    case SAF => Pair(Hi(r.af), FlagBits(r.f) + r.af % 16)
  }

  /** POP qq; for AF the flags come from bits 7..4 of the low byte and AF's low byte is `flag_bits`. */
  function PopInto(r: Regs, q: Stack16, w: Word): Regs
  {
    match q
    case SBC => r.(bc := w)
    case SDE => r.(de := w)
    case SHL => r.(hl := w)
    case SAF =>
      var f := FlagsOf(Lo(w));
      r.(f := f, af := Pair(Hi(w), FlagBits(f)))
  }

  // ---------------------------------------------------------------------------------------------
  // One arm of the table

  /** The flags the shifts and rotates of the CB table assign. */
  function ShiftFlags(o: ShiftOut): Flags
  {
    Flags(o.value == 0, false, false, o.carry)
  }

  /** One row of the CB shift family on the operand value x and the carry c. */
  function ShiftBy(kind: ShiftKind, t: Operand, x: Byte, c: bool): ShiftOut
  {
    match kind
    case KRlc => Rlc(x)
    case KRrc => Rrc(x)
    case KRl => if t.AtHL? then RlAtHl(x, c) else Rl(x, c)
    case KRr => if t.AtHL? then RrAtHl(x, c) else Rr(x, c)
    case KSla => Sla(x)
    case KSra => Sra(x)
    case KSwap => Swap(x)
    case KSrl => Srl(x)
  }

  /**
   * The bit BIT b tests: `X & 0xFF >> b` parses as `X & (0xFF >> b)`, so on C, E and L it is
   * always bit 0.
   */
  function TestedBit(b: nat, t: Operand): nat
  {
    if t in {Reg(RC), Reg(RE), Reg(RL)} then 0 else b
  }

  /** One arm of `execute_prefixed`, after the CB opcode has been fetched. */
  function ExecCb(m: Machine, op: CbOp): Machine
    requires !op.Shift? ==> op.b < 8
  {
    var x := Load8(m, op.t);
    var m1 := PastLoad8(m, op.t);
    var f := m.regs.f;
    match op
    case Shift(kind, t) =>
      var o := ShiftBy(kind, t, x, f.c);
      var m2 := Store8(m1, t, o.value);
      WithRegs(m2, m2.regs.(f := ShiftFlags(o)))
    case TestBit(b, t) =>
      WithRegs(m1, m1.regs.(f := f.(z := Bit(x, TestedBit(b, t)) == 1, n := false, h := false)))
    case ResBit(b, t) => Store8(m1, t, Res(x, b))
    case SetBit(b, t) => Store8(m1, t, Alu.Set(x, b))
  }

  /** `execute_prefixed`: fetch the CB opcode at PC, advance PC, run its arm. */
  function Prefixed(m: Machine): Machine
  {
    var code := Imm8(m);
    ExecCb(PastImm8(m), CbDecode(code))
  }

  function AddressOf(r: Regs, via: Via): Word
  {
    match via
    case ViaBC => r.bc
    case ViaDE => r.de
    case _ => r.hl
  }

  /** HL after LD (HL+) / LD (HL-); other forms keep it. */
  function StepHl(r: Regs, via: Via): Regs
  {
    match via
    case ViaHLInc => r.(hl := U16(r.hl + 1))
    case ViaHLDec => r.(hl := U16(r.hl - 1))
    case _ => r
  }

  /** The accumulator rotates: like the CB rows, but Z is always cleared. */
  function RotateA(rot: AccRot, a: Byte, c: bool): ShiftOut
  {
    match rot
    case Rlca => Rlc(a)
    case Rrca => Rrc(a)
    case Rla => Rl(a, c)
    case Rra => Rr(a, c)
  }

  /** The arms that leave no conditional choice are "taken". */
  function Taken(f: Flags, i: Instr): bool
  {
    match i
    case JrIf(cc) => Holds(f, cc)
    case RetIf(cc) => Holds(f, cc)
    case JpIf(cc) => Holds(f, cc)
    case CallIf(cc) => Holds(f, cc)
    case _ => true
  }

  /** LD rr,nn (01 11 21 31). */
  function ExecLdRrImm(m: Machine, p: Reg16): Machine
  {
    var m1 := PastImm16(m);
    WithRegs(m1, Set16(m1.regs, p, Imm16(m)))
  }

  /** LD (BC),A / LD (DE),A / LD (HL+),A / LD (HL-),A (02 12 22 32). */
  function ExecStoreA(m: Machine, via: Via): Machine
  {
    var m1 := Put(m, AddressOf(m.regs, via), Hi(m.regs.af));
    WithRegs(m1, StepHl(m1.regs, via))
  }

  /** LD A,(BC) / LD A,(DE) / LD A,(HL+) / LD A,(HL-) (0A 1A 2A 3A). */
  function ExecLoadA(m: Machine, via: Via): Machine
  {
    var r := m.regs;
    var v := m.ram[AddressOf(r, via)];
    WithRegs(Tick(m), StepHl(r, via).(af := WithHi(r.af, v)))
  }

  /** INC rr / DEC rr: `u16(rr + 1)` or `u16(rr - 1)`, then an internal tick. */
  function ExecStepRr(m: Machine, p: Reg16, up: bool): Machine
  {
    var v := Get16(m.regs, p);
    Tick(WithRegs(m, Set16(m.regs, p, if up then U16(v + 1) else U16(v - 1))))
  }

  /** ADD HL,rr, then an internal tick. */
  function ExecAddHl(m: Machine, p: Reg16): Machine
  {
    var r := m.regs;
    var o := AddHl(r.hl, Get16(r, p), r.f.z);
    Tick(WithRegs(m, r.(hl := o.value, f := o.flags)))
  }

  /** INC r / DEC r / INC (HL) / DEC (HL). */
  function ExecStep8(m: Machine, t: Operand, up: bool): Machine
  {
    var x := Load8(m, t);
    var o := if up then Inc8(x, m.regs.f.c) else Dec8(x, m.regs.f.c);
    var m1 := PastLoad8(m, t);
    Store8(WithRegs(m1, m1.regs.(f := o.flags)), t, o.value)
  }

  /** LD r,n / LD (HL),n. */
  function ExecLdImm(m: Machine, t: Operand): Machine
  {
    Store8(PastImm8(m), t, Imm8(m))
  }

  /** RLCA / RRCA / RLA / RRA: the rotated A, Z = N = H = 0, C from the rotate. */
  function ExecRotA(m: Machine, rot: AccRot): Machine
  {
    var r := m.regs;
    var o := RotateA(rot, Hi(r.af), r.f.c);
    WithRegs(m, r.(af := WithHi(r.af, o.value), f := Flags(false, false, false, o.carry)))
  }

  /**
   * LD (nn),SP: the low byte at nn, the high byte at `nn + 1`, which is not wrapped, so
   * nn = 0xFFFF indexes past the flat memory.
   */
  function ExecStoreSp(m: Machine): Outcome
  {
    var nn := Imm16(m);
    var m1 := Put(PastImm16(m), nn, Lo(m.regs.sp));
    if nn + 1 < 0x10000 then Next(Put(m1, nn + 1, Hi(m.regs.sp))) else Fault
  }

  /** JR e / JR cc,e: the displacement is read either way; a taken jump adds a tick. */
  function ExecJr(m: Machine, taken: bool): Machine
  {
    var m1 := PastImm8(m);
    if taken then Tick(WithRegs(m1, m1.regs.(pc := U16(m1.regs.pc + I8(Imm8(m))))))
    else m1
  }

  /** DAA, CPL, SCF, CCF. */
  function ExecDaa(m: Machine): Machine
  {
    var r := m.regs;
    var o := Daa(Hi(r.af), r.f);
    WithRegs(m, r.(af := WithHi(r.af, o.value), f := o.flags))
  }

  function ExecCpl(m: Machine): Machine
  {
    var r := m.regs;
    WithRegs(m, r.(af := WithHi(r.af, Cpl(Hi(r.af))), f := r.f.(n := true, h := true)))
  }

  function ExecScf(m: Machine): Machine
  {
    WithRegs(m, m.regs.(f := m.regs.f.(n := false, h := false, c := true)))
  }

  function ExecCcf(m: Machine): Machine
  {
    WithRegs(m, m.regs.(f := m.regs.f.(n := false, h := false, c := !m.regs.f.c)))
  }

  /** LD dst,src for the 0x40-0x7F block. */
  function ExecLd(m: Machine, dst: Operand, src: Operand): Machine
  {
    Store8(PastLoad8(m, src), dst, Load8(m, src))
  }

  /** The 0x80-0xBF block: A op operand. */
  function ExecAluR(m: Machine, op: AluOp, src: Operand): Machine
  {
    var r := m.regs;
    var o := Alu8(op, Hi(r.af), Load8(m, src), r.f);
    var m1 := PastLoad8(m, src);
    WithRegs(m1, m1.regs.(af := WithHi(r.af, o.value), f := o.flags))
  }

  /** The immediate forms C6 CE D6 DE E6 EE F6 FE: A op n. */
  function ExecAluN(m: Machine, op: AluOp): Machine
  {
    var r := m.regs;
    var o := Alu8(op, Hi(r.af), Imm8(m), r.f);
    var m1 := PastImm8(m);
    WithRegs(m1, m1.regs.(af := WithHi(r.af, o.value), f := o.flags))
  }

  /** RET cc: an internal tick, then, if taken, the pop into PC and another tick. */
  function ExecRetIf(m: Machine, taken: bool): Machine
  {
    var m1 := Tick(m);
    if taken then ExecRet(m1, false) else m1
  }

  /** RET and RETI: the pop into PC (RETI also sets `ime`), then a tick. */
  function ExecRet(m: Machine, enable: bool): Machine
  {
    var m1 := PastPop(m);
    var r := m1.regs.(pc := Popped(m));
    Tick(WithRegs(m1, if enable then r.(ime := true) else r))
  }

  /** POP qq. */
  function ExecPop(m: Machine, q: Stack16): Machine
  {
    var m1 := PastPop(m);
    WithRegs(m1, PopInto(m1.regs, q, Popped(m)))
  }

  /** PUSH qq: an internal tick, then the push sequence. */
  function ExecPush(m: Machine, q: Stack16): Machine
  {
    Pushed(Tick(m), StackWord(m.regs, q))
  }

  /** JP nn / JP cc,nn: the operand is read either way; a taken jump adds a tick. */
  function ExecJp(m: Machine, taken: bool): Machine
  {
    var m1 := PastImm16(m);
    if taken then Tick(WithRegs(m1, m1.regs.(pc := Imm16(m)))) else m1
  }

  /** CALL nn / CALL cc,nn: if taken, a tick, the push of the address after the operand, the jump. */
  function ExecCall(m: Machine, taken: bool): Machine
  {
    var m1 := PastImm16(m);
    if taken then
      var m2 := Pushed(Tick(m1), m1.regs.pc);
      WithRegs(m2, m2.regs.(pc := Imm16(m)))
    else m1
  }

  /** RST vec: a tick, the push of PC, the jump to the vector. */
  function ExecRst(m: Machine, vec: Word): Machine
  {
    var m2 := Pushed(Tick(m), m.regs.pc);
    WithRegs(m2, m2.regs.(pc := vec))
  }

  /** The loads and stores of A through 0xFF00+n, 0xFF00+C and (nn). */
  function ExecLdhStore(m: Machine): Machine
  {
    Put(PastImm8(m), 0xFF00 + Imm8(m), Hi(m.regs.af))
  }

  function ExecLdhLoad(m: Machine): Machine
  {
    var m1 := PastImm8(m);
    WithRegs(Tick(m1), m1.regs.(af := WithHi(m.regs.af, m.ram[0xFF00 + Imm8(m)])))
  }

  function ExecStoreHighC(m: Machine): Machine
  {
    Put(m, 0xFF00 + Lo(m.regs.bc), Hi(m.regs.af))
  }

  function ExecLoadHighC(m: Machine): Machine
  {
    WithRegs(Tick(m), m.regs.(af := WithHi(m.regs.af, m.ram[0xFF00 + Lo(m.regs.bc)])))
  }

  function ExecStoreAbs(m: Machine): Machine
  {
    Put(PastImm16(m), Imm16(m), Hi(m.regs.af))
  }

  function ExecLoadAbs(m: Machine): Machine
  {
    var m1 := PastImm16(m);
    WithRegs(Tick(m1), m1.regs.(af := WithHi(m.regs.af, m.ram[Imm16(m)])))
  }

  /** ADD SP,e: SP := SP + e with the flags of `AddSpE`, then two internal ticks. */
  function ExecAddSp(m: Machine): Machine
  {
    var o := AddSpE(m.regs.sp, Imm8(m));
    var m1 := PastImm8(m);
    Tick(Tick(WithRegs(m1, m1.regs.(sp := o.value, f := o.flags))))
  }

  /** LD HL,SP+e: HL := SP + e with the flags of `AddSpE`, then one internal tick. */
  function ExecLdHlSp(m: Machine): Machine
  {
    var o := AddSpE(m.regs.sp, Imm8(m));
    var m1 := PastImm8(m);
    Tick(WithRegs(m1, m1.regs.(hl := o.value, f := o.flags)))
  }

  // The seven instruction families `Exec` dispatches on.

  predicate IsControl(i: Instr) { i.Nop? || i.Stop? || i.Halt? || i.Illegal? || i.Prefix? || i.Di? || i.Ei? }

  predicate IsWide(i: Instr) { i.LdRrImm? || i.IncRr? || i.DecRr? || i.AddHlRr? || i.StoreSp? || i.AddSp? || i.LdHlSp? || i.LdSpHl? }

  predicate IsOperand(i: Instr) { i.Inc? || i.Dec? || i.LdImm? || i.Ld? }

  predicate IsAccumulator(i: Instr) { i.RotA? || i.DecimalAdjust? || i.Complement? || i.SetCarry? || i.FlipCarry? || i.AluR? || i.AluN? }

  predicate IsTransfer(i: Instr) { i.StoreA? || i.LoadA? || i.LdhStore? || i.LdhLoad? || i.StoreHighC? || i.LoadHighC? || i.StoreAbs? || i.LoadAbs? }

  predicate IsJump(i: Instr) { i.Jr? || i.JrIf? || i.Jp? || i.JpIf? || i.JpHl? }

  predicate IsStack(i: Instr) { i.Call? || i.CallIf? || i.Rst? || i.Ret? || i.RetIf? || i.Reti? || i.Push? || i.Pop? }

  /** The arms that stop the run or only touch the control state: NOP, STOP, HALT, DI, EI, CB. */
  function ExecControl(m: Machine, i: Instr): (r: Outcome)
    requires IsControl(i)
    ensures r.Fault? <==> i in {Stop, Halt, Illegal}
  {
    match i
    case Nop => Next(m)
    case Stop => Fault
    case Halt => Fault
    case Illegal => Fault
    case Prefix => Next(Prefixed(m))
    case Di => Next(WithRegs(m, m.regs.(ime := false)))
    case Ei => Next(WithRegs(m, m.regs.(delayedIme := true)))
  }

  /** The 16-bit loads and arithmetic. */
  function ExecWide(m: Machine, i: Instr): (r: Outcome)
    requires IsWide(i)
    ensures r.Fault? ==> i == StoreSp
  {
    match i
    case LdRrImm(p) => Next(ExecLdRrImm(m, p))
    case IncRr(p) => Next(ExecStepRr(m, p, true))
    case DecRr(p) => Next(ExecStepRr(m, p, false))
    case AddHlRr(p) => Next(ExecAddHl(m, p))
    case StoreSp => ExecStoreSp(m)
    case AddSp => Next(ExecAddSp(m))
    case LdHlSp => Next(ExecLdHlSp(m))
    case LdSpHl => Next(Tick(WithRegs(m, m.regs.(sp := m.regs.hl))))
  }

  /** The 8-bit loads, INC and DEC on an operand. */
  function ExecOperand(m: Machine, i: Instr): (r: Outcome)
    requires IsOperand(i)
    ensures r.Next?
  {
    match i
    case Inc(t) => Next(ExecStep8(m, t, true))
    case Dec(t) => Next(ExecStep8(m, t, false))
    case LdImm(t) => Next(ExecLdImm(m, t))
    case Ld(dst, src) => Next(ExecLd(m, dst, src))
  }

  /** The arithmetic, logic and rotates on A, and the carry-flag operations. */
  function ExecAccumulator(m: Machine, i: Instr): (r: Outcome)
    requires IsAccumulator(i)
    ensures r.Next?
  {
    match i
    case RotA(rot) => Next(ExecRotA(m, rot))
    case DecimalAdjust => Next(ExecDaa(m))
    case Complement => Next(ExecCpl(m))
    case SetCarry => Next(ExecScf(m))
    case FlipCarry => Next(ExecCcf(m))
    case AluR(op, src) => Next(ExecAluR(m, op, src))
    case AluN(op) => Next(ExecAluN(m, op))
  }

  /** The loads and stores of A through an address register, 0xFF00 + n / C, or nn. */
  function ExecTransfer(m: Machine, i: Instr): (r: Outcome)
    requires IsTransfer(i)
    ensures r.Next?
  {
    match i
    case StoreA(via) => Next(ExecStoreA(m, via))
    case LoadA(via) => Next(ExecLoadA(m, via))
    case LdhStore => Next(ExecLdhStore(m))
    case LdhLoad => Next(ExecLdhLoad(m))
    case StoreHighC => Next(ExecStoreHighC(m))
    case LoadHighC => Next(ExecLoadHighC(m))
    case StoreAbs => Next(ExecStoreAbs(m))
    case LoadAbs => Next(ExecLoadAbs(m))
  }

  /** The jumps that do not touch the stack. */
  function ExecJump(m: Machine, i: Instr): (r: Outcome)
    requires IsJump(i)
    ensures r.Next?
  {
    match i
    case Jr => Next(ExecJr(m, true))
    case JrIf(cc) => Next(ExecJr(m, Holds(m.regs.f, cc)))
    case Jp => Next(ExecJp(m, true))
    case JpIf(cc) => Next(ExecJp(m, Holds(m.regs.f, cc)))
    case JpHl => Next(WithRegs(m, m.regs.(pc := m.regs.hl)))
  }

  /** CALL, RST, RET, RETI, PUSH and POP. */
  function ExecStack(m: Machine, i: Instr): (r: Outcome)
    requires IsStack(i)
    requires i.Rst? ==> i.vec % 8 == 0 && i.vec <= 0x38
    ensures r.Next?
  {
    match i
    case Call => Next(ExecCall(m, true))
    case CallIf(cc) => Next(ExecCall(m, Holds(m.regs.f, cc)))
    case Rst(vec) => Next(ExecRst(m, vec))
    case Ret => Next(ExecRet(m, false))
    case RetIf(cc) => Next(ExecRetIf(m, Holds(m.regs.f, cc)))
    case Reti => Next(ExecRet(m, true))
    case Push(q) => Next(ExecPush(m, q))
    case Pop(q) => Next(ExecPop(m, q))
  }

  /** One arm of `tableLookup`, entered with PC already past the opcode. */
  function Exec(m: Machine, i: Instr): (r: Outcome)
    requires i.Rst? ==> i.vec % 8 == 0 && i.vec <= 0x38
    ensures r.Fault? ==> i in {Stop, Halt, Illegal, StoreSp}
  {
    match i
    case Nop | Stop | Halt | Illegal | Prefix | Di | Ei => ExecControl(m, i)
    case LdRrImm(_) | IncRr(_) | DecRr(_) | AddHlRr(_) | StoreSp | AddSp | LdHlSp | LdSpHl => ExecWide(m, i)
    case Inc(_) | Dec(_) | LdImm(_) | Ld(_, _) => ExecOperand(m, i)
    case RotA(_) | DecimalAdjust | Complement | SetCarry | FlipCarry | AluR(_, _) | AluN(_) =>
      ExecAccumulator(m, i)
    case StoreA(_) | LoadA(_) | LdhStore | LdhLoad | StoreHighC | LoadHighC | StoreAbs | LoadAbs =>
      ExecTransfer(m, i)
    case Jr | JrIf(_) | Jp | JpIf(_) | JpHl => ExecJump(m, i)
    case Call | CallIf(_) | Rst(_) | Ret | RetIf(_) | Reti | Push(_) | Pop(_) => ExecStack(m, i)
  }

  /** `Exec` on an instruction of a family is that family's function. */
  lemma ExecByFamily(m: Machine, i: Instr)
    requires i.Rst? ==> i.vec % 8 == 0 && i.vec <= 0x38
    ensures IsControl(i) ==> Exec(m, i) == ExecControl(m, i)
    ensures IsWide(i) ==> Exec(m, i) == ExecWide(m, i)
    ensures IsOperand(i) ==> Exec(m, i) == ExecOperand(m, i)
    ensures IsAccumulator(i) ==> Exec(m, i) == ExecAccumulator(m, i)
    ensures IsTransfer(i) ==> Exec(m, i) == ExecTransfer(m, i)
    ensures IsJump(i) ==> Exec(m, i) == ExecJump(m, i)
    ensures IsStack(i) ==> Exec(m, i) == ExecStack(m, i)
  {
    if IsControl(i) {
      ExecOfControl(m, i);
    }
    if IsWide(i) {
      ExecOfWide(m, i);
    }
    if IsOperand(i) {
      ExecOfOperand(m, i);
    }
    if IsAccumulator(i) {
      ExecOfAccumulator(m, i);
    }
    if IsTransfer(i) {
      ExecOfTransfer(m, i);
    }
    if IsJump(i) {
      ExecOfJump(m, i);
    }
    if IsStack(i) {
      ExecOfStack(m, i);
    }
  }

  lemma ExecOfControl(m: Machine, i: Instr)
    requires IsControl(i)
    ensures Exec(m, i) == ExecControl(m, i)
  {
  }

  lemma ExecOfWide(m: Machine, i: Instr)
    requires IsWide(i)
    ensures Exec(m, i) == ExecWide(m, i)
  {
  }

  lemma ExecOfOperand(m: Machine, i: Instr)
    requires IsOperand(i)
    ensures Exec(m, i) == ExecOperand(m, i)
  {
  }

  lemma ExecOfAccumulator(m: Machine, i: Instr)
    requires IsAccumulator(i)
    ensures Exec(m, i) == ExecAccumulator(m, i)
  {
  }

  lemma ExecOfTransfer(m: Machine, i: Instr)
    requires IsTransfer(i)
    ensures Exec(m, i) == ExecTransfer(m, i)
  {
  }

  lemma ExecOfJump(m: Machine, i: Instr)
    requires IsJump(i)
    ensures Exec(m, i) == ExecJump(m, i)
  {
  }

  lemma ExecOfStack(m: Machine, i: Instr)
    requires IsStack(i)
    requires i.Rst? ==> i.vec % 8 == 0 && i.vec <= 0x38
    ensures Exec(m, i) == ExecStack(m, i)
  {
  }

  /**
   * Every decoded RST has one of the eight vectors 0x00, 0x08, ..., 0x38, and LD (HL),(HL) is
   * never decoded (its slot, 0x76, is HALT).
   */
  lemma DecodedForms(code: Byte)
    ensures Decode(code).Rst? ==> Decode(code).vec % 8 == 0 && Decode(code).vec <= 0x38
    ensures Decode(code) != Ld(AtHL, AtHL)
  {
  }

  /** `tableLookup(code)`, entered with PC past the opcode. */
  function Lookup(m: Machine, code: Byte): Outcome
  {
    DecodedForms(code);
    Exec(m, Decode(code))
  }
}
