/**
 * The `opCodeTable` object of opcodeCases.py: the CPU registers as mutable fields and the
 * bus it calls. Every method does what its arm does, one bus call at a time, and is proved
 * against the value-level definition in `Sm83`: after the method, `Snapshot()` is what
 * `Sm83.Exec` says of the snapshot before it.
 *
 * The CPU runs against the flat memory of testing mode, the only mode in which every read
 * gives a byte.
 */
module OpCodes {
  import opened Bits
  import opened Alu
  import Bus
  import opened Sm83

  /** The registers `opCodeTable.__init__` sets: the DMG state after the boot ROM. */
  const PowerOn: Regs :=
    Regs(0x0100, 0x0013, 0x00D8, 0x014D, 0xFFFE, 0x0100, Flags(true, false, true, true), false, false)

  class OpCodeTable {
    var af: Word
    var bc: Word
    var de: Word
    var hl: Word
    var sp: Word
    var pc: Word
    var z: bool
    var n: bool
    var h: bool
    var c: bool
    var ime: bool
    var delayedImeEnable: bool
    const mem: Bus.Memory

    ghost predicate Valid()
      reads this, mem
    {
      mem.Valid() && mem.testing
    }

    /** The register file as a value. */
    function Registers(): Regs
      reads this
    {
      Regs(af, bc, de, hl, sp, pc, Flags(z, n, h, c), ime, delayedImeEnable)
    }

    /** Registers, flat memory and the bus counter as a value. */
    ghost function Snapshot(): Machine
      requires Valid()
      reads this, mem, mem.memory
    {
      Machine(Registers(), mem.memory[..], mem.ticksPerInstr)
    }

    constructor (bus: Bus.Memory)
      requires bus.Valid() && bus.testing
      ensures mem == bus && Valid()
      ensures Registers() == PowerOn
    {
      af, bc, de, hl := 0x0100, 0x0013, 0x00D8, 0x014D;
      sp, pc := 0xFFFE, 0x0100;
      z, n, h, c := true, false, true, true;
      ime, delayedImeEnable := false, false;
      mem := bus;
    }

    /** `flag_bits`: Z, N, H, C as bits 7 to 4. */
    function FlagBits(): (b: Byte)
      reads this
      ensures b == Sm83.FlagBits(Registers().f)
      ensures b / 16 == 8 * B2I(z) + 4 * B2I(n) + 2 * B2I(h) + B2I(c) && b % 16 == 0
    {
      128 * B2I(z) + 64 * B2I(n) + 32 * B2I(h) + 16 * B2I(c)
    }

    // -------------------------------------------------------------------------------------------
    // Bus calls and register access

    /** `mem.tick()`. */
    method BusTick()
      requires Valid()
      modifies mem
      ensures Valid() && Snapshot() == Sm83.Tick(old(Snapshot()))
    {
      mem.Tick();
    }

    /** `mem.read(addr)`: a tick, and the byte at `addr`. */
    method BusRead(addr: Word) returns (v: Byte)
      requires Valid()
      modifies mem
      ensures Valid() && Snapshot() == Sm83.Tick(old(Snapshot()))
      ensures v == old(Snapshot()).ram[addr]
    {
      var r := mem.Read(addr);
      v := r.v;
    }

    /** `mem.write(addr, v)`: `ok` is false when `addr` falls past the flat memory. */
    method BusWrite(addr: nat, v: Byte) returns (ok: bool)
      requires Valid()
      modifies mem, mem.memory, mem.wram
      ensures Valid()
      ensures ok <==> addr < 0x10000
      ensures ok ==> Snapshot() == Put(old(Snapshot()), addr, v)
    {
      ok := mem.Write(addr, v);
    }

    /** `read_imm_u8`: the byte at PC, then PC + 1. */
    method ReadImmU8() returns (v: Byte)
      requires Valid()
      modifies this, mem
      ensures Valid() && Snapshot() == PastImm8(old(Snapshot()))
      ensures v == Imm8(old(Snapshot()))
    {
      v := BusRead(pc);
      pc := U16(pc + 1);
    }

    /** `read_imm_u16`: the low byte, then the high byte. */
    method ReadImmU16() returns (v: Word)
      requires Valid()
      modifies this, mem
      ensures Valid() && Snapshot() == PastImm16(old(Snapshot()))
      ensures v == Imm16(old(Snapshot()))
    {
      var lsb := ReadImmU8();
      var msb := ReadImmU8();
      v := Pair(msb, lsb);
    }

    method SetFlags(f: Flags)
      modifies this
      ensures Registers() == old(Registers()).(f := f)
    {
      z, n, h, c := f.z, f.n, f.h, f.c;
    }

    method SetReg8(x: Reg8, v: Byte)
      modifies this
      ensures Registers() == Set8(old(Registers()), x, v)
    {
      match x
      case RB => bc := WithHi(bc, v);
      case RC => bc := WithLo(bc, v);
      case RD => de := WithHi(de, v);
      case RE => de := WithLo(de, v);
      case RH => hl := WithHi(hl, v);
      case RL => hl := WithLo(hl, v);
      case RA => af := WithHi(af, v);
    }

    method SetReg16(p: Reg16, v: Word)
      modifies this
      ensures Registers() == Set16(old(Registers()), p, v)
    {
      match p
      case RBC => bc := v;
      case RDE => de := v;
      case RHL => hl := v;
      case RSP => sp := v;
    }

    /** An 8-bit operand: a register, or a read at HL. */
    method LoadOperand(t: Operand) returns (v: Byte)
      requires Valid()
      modifies mem
      ensures Valid() && Snapshot() == PastLoad8(old(Snapshot()), t)
      ensures v == Load8(old(Snapshot()), t)
    {
      match t
      case Reg(x) => v := Get8(Registers(), x);
      case AtHL => v := BusRead(hl);
    }

    /** Storing into an 8-bit operand: a register, or a write at HL. */
    method StoreOperand(t: Operand, v: Byte)
      requires Valid()
      modifies this, mem, mem.memory, mem.wram
      ensures Valid() && Snapshot() == Store8(old(Snapshot()), t, v)
    {
      match t
      case Reg(x) => SetReg8(x, v);
      case AtHL => var _ := BusWrite(hl, v);
    }

    /** The push sequence: SP - 1, the high byte, SP - 1, the low byte. */
    method PushWord(v: Word)
      requires Valid()
      modifies this, mem, mem.memory, mem.wram
      ensures Valid() && Snapshot() == Pushed(old(Snapshot()), v)
    {
      sp := U16(sp - 1);
      var _ := BusWrite(sp, Hi(v));
      sp := U16(sp - 1);
      var _ := BusWrite(sp, Lo(v));
    }

    /** The pop sequence: the low byte at SP, SP + 1, the high byte, SP + 1. */
    method PopWord() returns (v: Word)
      requires Valid()
      modifies this, mem
      ensures Valid() && Snapshot() == PastPop(old(Snapshot()))
      ensures v == Popped(old(Snapshot()))
    {
      ghost var m := Snapshot();
      var lsb := BusRead(sp);
      sp := U16(sp + 1);
      var msb := BusRead(sp);
      sp := U16(sp + 1);
      assert sp == U16(m.regs.sp + 2) by {
        DivUnique(m.regs.sp + 2, 65536, (m.regs.sp + 2) / 65536, sp);
      }
      v := Pair(msb, lsb);
    }
 
    // -------------------------------------------------------------------------------------------
    // The arms, one instruction family each

    /** LD rr,nn. */
    method DoLdRrImm(p: Reg16)
      requires Valid()
      modifies this, mem, mem.memory, mem.wram
      ensures Valid() && Snapshot() == ExecLdRrImm(old(Snapshot()), p)
    {
      var nn := ReadImmU16();
      SetReg16(p, nn);
    }

    /** LD (rr),A, with HL stepped after the write for (HL+) and (HL-). */
    method DoStoreA(via: Via)
      requires Valid()
      modifies this, mem, mem.memory, mem.wram
      ensures Valid() && Snapshot() == ExecStoreA(old(Snapshot()), via)
    {
      var _ := BusWrite(AddressOf(Registers(), via), Hi(af));
      match via
      case ViaHLInc => hl := U16(hl + 1);
      case ViaHLDec => hl := U16(hl - 1);
      case _ =>
    }

    /** LD A,(rr), with HL stepped after the read for (HL+) and (HL-). */
    method DoLoadA(via: Via)
      requires Valid()
      modifies this, mem, mem.memory, mem.wram
      ensures Valid() && Snapshot() == ExecLoadA(old(Snapshot()), via)
    {
      var v := BusRead(AddressOf(Registers(), via));
      af := WithHi(af, v);
      match via
      case ViaHLInc => hl := U16(hl + 1);
      case ViaHLDec => hl := U16(hl - 1);
      case _ =>
    }

    /** INC rr / DEC rr. */
    method DoStepRr(p: Reg16, up: bool)
      requires Valid()
      modifies this, mem, mem.memory, mem.wram
      ensures Valid() && Snapshot() == ExecStepRr(old(Snapshot()), p, up)
    {
      var v: int := Get16(Registers(), p);
      SetReg16(p, if up then U16(v + 1) else U16(v - 1));
      BusTick();
    }

    /** ADD HL,rr. */
    method DoAddHl(p: Reg16)
      requires Valid()
      modifies this, mem, mem.memory, mem.wram
      ensures Valid() && Snapshot() == ExecAddHl(old(Snapshot()), p)
    {
      var o := AddHl(hl, Get16(Registers(), p), z);
      SetFlags(o.flags);
      hl := o.value;
      BusTick();
    }

    /** INC r / DEC r / INC (HL) / DEC (HL). */
    method DoStep8(t: Operand, up: bool)
      requires Valid()
      modifies this, mem, mem.memory, mem.wram
      ensures Valid() && Snapshot() == ExecStep8(old(Snapshot()), t, up)
    {
      var x := LoadOperand(t);
      var o := if up then Inc8(x, c) else Dec8(x, c);
      SetFlags(o.flags);
      StoreOperand(t, o.value);
    }

    /** LD r,n / LD (HL),n. */
    method DoLdImm(t: Operand)
      requires Valid()
      modifies this, mem, mem.memory, mem.wram
      ensures Valid() && Snapshot() == ExecLdImm(old(Snapshot()), t)
    {
      var v := ReadImmU8();
      StoreOperand(t, v);
    }

    /** RLCA / RRCA / RLA / RRA. */
    method DoRotA(rot: AccRot)
      requires Valid()
      modifies this, mem, mem.memory, mem.wram
      ensures Valid() && Snapshot() == ExecRotA(old(Snapshot()), rot)
    {
      var o := RotateA(rot, Hi(af), c);
      af := WithHi(af, o.value);
      SetFlags(Flags(false, false, false, o.carry));
    }

    /** LD (nn),SP: `ok` is false when the second write falls past the end of memory. */
    method DoStoreSp() returns (ok: bool)
      requires Valid()
      modifies this, mem, mem.memory, mem.wram
      ensures Valid()
      ensures ok == ExecStoreSp(old(Snapshot())).Next?
      ensures ok ==> Snapshot() == ExecStoreSp(old(Snapshot())).m
    {
      var nn := ReadImmU16();
      var _ := BusWrite(nn, Lo(sp));
      ok := BusWrite(nn as int + 1, Hi(sp));
    }

    /** JR e / JR cc,e, given whether the jump is taken. */
    method DoJr(taken: bool)
      requires Valid()
      modifies this, mem, mem.memory, mem.wram
      ensures Valid() && Snapshot() == ExecJr(old(Snapshot()), taken)
    {
      var e := ReadImmU8();
      if taken {
        pc := U16(pc + I8(e));
        BusTick();
      }
    }

    /** DAA. */
    method DoDaa()
      requires Valid()
      modifies this, mem, mem.memory, mem.wram
      ensures Valid() && Snapshot() == ExecDaa(old(Snapshot()))
    {
      var o := Daa(Hi(af), Registers().f);
      af := WithHi(af, o.value);
      SetFlags(o.flags);
    }

    /** CPL. */
    method DoCpl()
      requires Valid()
      modifies this, mem, mem.memory, mem.wram
      ensures Valid() && Snapshot() == ExecCpl(old(Snapshot()))
    {
      af := WithHi(af, Cpl(Hi(af)));
      n, h := true, true;
    }

    /** SCF. */
    method DoScf()
      requires Valid()
      modifies this, mem, mem.memory, mem.wram
      ensures Valid() && Snapshot() == ExecScf(old(Snapshot()))
    {
      n, h, c := false, false, true;
    }

    /** CCF. */
    method DoCcf()
      requires Valid()
      modifies this, mem, mem.memory, mem.wram
      ensures Valid() && Snapshot() == ExecCcf(old(Snapshot()))
    {
      n, h, c := false, false, !c;
    }

    /** LD dst,src. */
    method DoLd(dst: Operand, src: Operand)
      requires Valid()
      modifies this, mem, mem.memory, mem.wram
      ensures Valid() && Snapshot() == ExecLd(old(Snapshot()), dst, src)
    {
      var v := LoadOperand(src);
      StoreOperand(dst, v);
    }

    /** ADD / ADC / SUB / SBC / AND / XOR / OR / CP with an operand. */
    method DoAluR(op: AluOp, src: Operand)
      requires Valid()
      modifies this, mem, mem.memory, mem.wram
      ensures Valid() && Snapshot() == ExecAluR(old(Snapshot()), op, src)
    {
      var x := LoadOperand(src);
      var o := Alu8(op, Hi(af), x, Registers().f);
      af := WithHi(af, o.value);
      SetFlags(o.flags);
    }

    /** ADD / ADC / SUB / SBC / AND / XOR / OR / CP with an immediate byte. */
    method DoAluN(op: AluOp)
      requires Valid()
      modifies this, mem, mem.memory, mem.wram
      ensures Valid() && Snapshot() == ExecAluN(old(Snapshot()), op)
    {
      var x := ReadImmU8();
      var o := Alu8(op, Hi(af), x, Registers().f);
      af := WithHi(af, o.value);
      SetFlags(o.flags);
    }

    /** RET and RETI. */
    method DoRet(enable: bool)
      requires Valid()
      modifies this, mem, mem.memory, mem.wram
      ensures Valid() && Snapshot() == ExecRet(old(Snapshot()), enable)
    {
      var w := PopWord();
      pc := w;
      if enable {
        ime := true;
      }
      BusTick();
    }

    /** RET cc, given whether the condition holds. */
    method DoRetIf(taken: bool)
      requires Valid()
      modifies this, mem, mem.memory, mem.wram
      ensures Valid() && Snapshot() == ExecRetIf(old(Snapshot()), taken)
    {
      BusTick();
      if taken {
        DoRet(false);
      }
    }

    /** POP qq. */
    method DoPop(q: Stack16)
      requires Valid()
      modifies this, mem, mem.memory, mem.wram
      ensures Valid() && Snapshot() == ExecPop(old(Snapshot()), q)
    {
      var w := PopWord();
      match q
      case SBC => bc := w;
      case SDE => de := w;
      case SHL => hl := w;
      case SAF =>
        SetFlags(FlagsOf(Lo(w)));
        af := Pair(Hi(w), FlagBits());
    }

    /** PUSH qq; for AF the low byte is `flag_bits() | (AF & 0x0F)`. */
    method DoPush(q: Stack16)
      requires Valid()
      modifies this, mem, mem.memory, mem.wram
      ensures Valid() && Snapshot() == ExecPush(old(Snapshot()), q)
    {
      BusTick();
      var w := match q
        case SBC => bc
        case SDE => de
        case SHL => hl
        case SAF => Pair(Hi(af), FlagBits() + af % 16);
      PushWord(w);
    }

    /** JP nn / JP cc,nn, given whether the jump is taken. */
    method DoJp(taken: bool)
      requires Valid()
      modifies this, mem, mem.memory, mem.wram
      ensures Valid() && Snapshot() == ExecJp(old(Snapshot()), taken)
    {
      var nn := ReadImmU16();
      if taken {
        pc := nn;
        BusTick();
      }
    }

    /** CALL nn / CALL cc,nn, given whether the call is taken. */
    method DoCall(taken: bool)
      requires Valid()
      modifies this, mem, mem.memory, mem.wram
      ensures Valid() && Snapshot() == ExecCall(old(Snapshot()), taken)
    {
      var nn := ReadImmU16();
      if taken {
        BusTick();
        PushWord(pc);
        pc := nn;
      }
    }

    /** RST vec. */
    method DoRst(vec: Word)
      requires Valid()
      modifies this, mem, mem.memory, mem.wram
      ensures Valid() && Snapshot() == ExecRst(old(Snapshot()), vec)
    {
      BusTick();
      PushWord(pc);
      pc := vec;
    }

    /** LDH (n),A. */
    method DoLdhStore()
      requires Valid()
      modifies this, mem, mem.memory, mem.wram
      ensures Valid() && Snapshot() == ExecLdhStore(old(Snapshot()))
    {
      var k := ReadImmU8();
      var _ := BusWrite(0xFF00 + k as int, Hi(af));
    }

    /** LDH A,(n). */
    method DoLdhLoad()
      requires Valid()
      modifies this, mem, mem.memory, mem.wram
      ensures Valid() && Snapshot() == ExecLdhLoad(old(Snapshot()))
    {
      var k := ReadImmU8();
      var v := BusRead(0xFF00 + k as int);
      af := WithHi(af, v);
    }

    /** LD (C),A. */
    method DoStoreHighC()
      requires Valid()
      modifies this, mem, mem.memory, mem.wram
      ensures Valid() && Snapshot() == ExecStoreHighC(old(Snapshot()))
    {
      var _ := BusWrite(0xFF00 + Lo(bc), Hi(af));
    }

    /** LD A,(C). */
    method DoLoadHighC()
      requires Valid()
      modifies this, mem, mem.memory, mem.wram
      ensures Valid() && Snapshot() == ExecLoadHighC(old(Snapshot()))
    {
      var v := BusRead(0xFF00 + Lo(bc));
      af := WithHi(af, v);
    }

    /** LD (nn),A. */
    method DoStoreAbs()
      requires Valid()
      modifies this, mem, mem.memory, mem.wram
      ensures Valid() && Snapshot() == ExecStoreAbs(old(Snapshot()))
    {
      var nn := ReadImmU16();
      var _ := BusWrite(nn, Hi(af));
    }

    /** LD A,(nn). */
    method DoLoadAbs()
      requires Valid()
      modifies this, mem, mem.memory, mem.wram
      ensures Valid() && Snapshot() == ExecLoadAbs(old(Snapshot()))
    {
      var nn := ReadImmU16();
      var v := BusRead(nn);
      af := WithHi(af, v);
    }

    /** ADD SP,e. */
    method DoAddSp()
      requires Valid()
      modifies this, mem, mem.memory, mem.wram
      ensures Valid() && Snapshot() == ExecAddSp(old(Snapshot()))
    {
      var e := ReadImmU8();
      var o := AddSpE(sp, e);
      SetFlags(o.flags);
      sp := o.value;
      BusTick();
      BusTick();
    }

    /** LD HL,SP+e. */
    method DoLdHlSp()
      requires Valid()
      modifies this, mem, mem.memory, mem.wram
      ensures Valid() && Snapshot() == ExecLdHlSp(old(Snapshot()))
    {
      var e := ReadImmU8();
      var o := AddSpE(sp, e);
      hl := o.value;
      SetFlags(o.flags);
      BusTick();
    }

    /** One arm of `execute_prefixed`, after the CB opcode has been fetched. */
    method DoCb(op: CbOp)
      requires !op.Shift? ==> op.b < 8
      requires Valid()
      modifies this, mem, mem.memory, mem.wram
      ensures Valid() && Snapshot() == ExecCb(old(Snapshot()), op)
    {
      var x := LoadOperand(op.t);
      match op
      case Shift(kind, t) =>
        var o := ShiftBy(kind, t, x, c);
        StoreOperand(t, o.value);
        SetFlags(ShiftFlags(o));
      case TestBit(b, t) =>
        z, n, h := Bit(x, TestedBit(b, t)) == 1, false, false;
      case ResBit(b, t) =>
        StoreOperand(t, Res(x, b));
      case SetBit(b, t) =>
        StoreOperand(t, Alu.Set(x, b));
    }

    /** `execute_prefixed`: fetch the CB opcode at PC, advance PC, run its arm. */
    method ExecutePrefixed()
      requires Valid()
      modifies this, mem, mem.memory, mem.wram
      ensures Valid() && Snapshot() == Prefixed(old(Snapshot()))
    {
      var code := ReadImmU8();
      DoCb(CbDecode(code));
    }

    /**
     * `tableLookup(code)`, entered with PC past the opcode. `ok` is false where the emulator
     * stops (`exit(1)` or a write past the end of memory); otherwise the new state is the one
     * `Lookup` gives.
     */
    method TableLookup(code: Byte) returns (ok: bool)
      requires Valid()
      modifies this, mem, mem.memory, mem.wram
      ensures Valid()
      ensures ok == Lookup(old(Snapshot()), code).Next?
      ensures ok ==> Snapshot() == Lookup(old(Snapshot()), code).m
    {
      DecodedForms(code);
      ok := Dispatch(Decode(code));
    }

    /** The arm of the table for one decoded instruction, by family. */
    method Dispatch(i: Instr) returns (ok: bool)
      requires i.Rst? ==> i.vec % 8 == 0 && i.vec <= 0x38
      requires Valid()
      modifies this, mem, mem.memory, mem.wram
      ensures Valid()
      ensures ok == Exec(old(Snapshot()), i).Next?
      ensures ok ==> Snapshot() == Exec(old(Snapshot()), i).m
    {
      ExecByFamily(Snapshot(), i);
      if IsControl(i) {
        ok := RunControl(i);
      } else if IsWide(i) {
        ok := RunWide(i);
      } else if IsOperand(i) {
        ok := RunOperand(i);
      } else if IsAccumulator(i) {
        ok := RunAccumulator(i);
      } else if IsTransfer(i) {
        ok := RunTransfer(i);
      } else if IsJump(i) {
        ok := RunJump(i);
      } else {
        ok := RunStack(i);
      }
    }

    /** The arms for NOP, STOP, HALT, the unassigned opcodes, CB, DI and EI. */
    method RunControl(i: Instr) returns (ok: bool)
      requires IsControl(i)
      requires Valid()
      modifies this, mem, mem.memory, mem.wram
      ensures Valid()
      ensures ok == ExecControl(old(Snapshot()), i).Next?
      ensures ok ==> Snapshot() == ExecControl(old(Snapshot()), i).m
    {
      ok := true;
      match i
      case Nop =>
      case Stop => ok := false;
      case Halt => ok := false;
      case Illegal => ok := false;
      case Prefix => ExecutePrefixed();
      case Di => ime := false;
      case Ei => delayedImeEnable := true;
    }

    /** The arms for the 16-bit loads and arithmetic. */
    method RunWide(i: Instr) returns (ok: bool)
      requires IsWide(i)
      requires Valid()
      modifies this, mem, mem.memory, mem.wram
      ensures Valid()
      ensures ok == ExecWide(old(Snapshot()), i).Next?
      ensures ok ==> Snapshot() == ExecWide(old(Snapshot()), i).m
    {
      ok := true;
      match i
      case LdRrImm(p) => DoLdRrImm(p);
      case IncRr(p) => DoStepRr(p, true);
      case DecRr(p) => DoStepRr(p, false);
      case AddHlRr(p) => DoAddHl(p);
      case StoreSp => ok := DoStoreSp();
      case AddSp => DoAddSp();
      case LdHlSp => DoLdHlSp();
      case LdSpHl =>
        sp := hl;
        BusTick();
    }

    /** The arms for the 8-bit loads, INC and DEC. */
    method RunOperand(i: Instr) returns (ok: bool)
      requires IsOperand(i)
      requires Valid()
      modifies this, mem, mem.memory, mem.wram
      ensures Valid()
      ensures ok == ExecOperand(old(Snapshot()), i).Next?
      ensures ok ==> Snapshot() == ExecOperand(old(Snapshot()), i).m
    {
      ok := true;
      match i
      case Inc(t) => DoStep8(t, true);
      case Dec(t) => DoStep8(t, false);
      case LdImm(t) => DoLdImm(t);
      case Ld(dst, src) => DoLd(dst, src);
    }

    /** The arms for the operations on A and the carry flag. */
    method RunAccumulator(i: Instr) returns (ok: bool)
      requires IsAccumulator(i)
      requires Valid()
      modifies this, mem, mem.memory, mem.wram
      ensures Valid()
      ensures ok == ExecAccumulator(old(Snapshot()), i).Next?
      ensures ok ==> Snapshot() == ExecAccumulator(old(Snapshot()), i).m
    {
      ok := true;
      match i
      case RotA(rot) => DoRotA(rot);
      case DecimalAdjust => DoDaa();
      case Complement => DoCpl();
      case SetCarry => DoScf();
      case FlipCarry => DoCcf();
      case AluR(op, src) => DoAluR(op, src);
      case AluN(op) => DoAluN(op);
    }

    /** The arms for the loads and stores of A. */
    method RunTransfer(i: Instr) returns (ok: bool)
      requires IsTransfer(i)
      requires Valid()
      modifies this, mem, mem.memory, mem.wram
      ensures Valid()
      ensures ok == ExecTransfer(old(Snapshot()), i).Next?
      ensures ok ==> Snapshot() == ExecTransfer(old(Snapshot()), i).m
    {
      ok := true;
      match i
      case StoreA(via) => DoStoreA(via);
      case LoadA(via) => DoLoadA(via);
      case LdhStore => DoLdhStore();
      case LdhLoad => DoLdhLoad();
      case StoreHighC => DoStoreHighC();
      case LoadHighC => DoLoadHighC();
      case StoreAbs => DoStoreAbs();
      case LoadAbs => DoLoadAbs();
    }

    /** The arms for the jumps. */
    method RunJump(i: Instr) returns (ok: bool)
      requires IsJump(i)
      requires Valid()
      modifies this, mem, mem.memory, mem.wram
      ensures Valid()
      ensures ok == ExecJump(old(Snapshot()), i).Next?
      ensures ok ==> Snapshot() == ExecJump(old(Snapshot()), i).m
    {
      var f := Registers().f;
      ok := true;
      match i
      case Jr => DoJr(true);
      case JrIf(cc) => DoJr(Holds(f, cc));
      case Jp => DoJp(true);
      case JpIf(cc) => DoJp(Holds(f, cc));
      case JpHl => pc := hl;
    }

    /** The arms for CALL, RST, RET, RETI, PUSH and POP. */
    method RunStack(i: Instr) returns (ok: bool)
      requires IsStack(i)
      requires i.Rst? ==> i.vec % 8 == 0 && i.vec <= 0x38
      requires Valid()
      modifies this, mem, mem.memory, mem.wram
      ensures Valid()
      ensures ok == ExecStack(old(Snapshot()), i).Next?
      ensures ok ==> Snapshot() == ExecStack(old(Snapshot()), i).m
    {
      var f := Registers().f;
      ok := true;
      match i
      case Call => DoCall(true);
      case CallIf(cc) => DoCall(Holds(f, cc));
      case Rst(vec) => DoRst(vec);
      case Ret => DoRet(false);
      case RetIf(cc) => DoRetIf(Holds(f, cc));
      case Reti => DoRet(true);
      case Push(q) => DoPush(q);
      case Pop(q) => DoPop(q);
    }
  }
}
