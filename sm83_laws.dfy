/**
 * Properties of one pass through the opcode table (opcodeCases.py), stated over `Sm83.Exec`:
 * cycle counts against the SM83 timing table, the stack discipline of PUSH / POP / CALL / RET /
 * RST, the branch targets, the single-bit operations of the CB table, the interrupt latch, and
 * which opcodes end the run.
 */
module Sm83Laws {
  import opened Bits
  import opened Alu
  import opened Sm83

  // ---------------------------------------------------------------------------------------------
  // Cycle counts

  /**
   * The SM83 timing table in machine cycles, opcode fetch included; a conditional instruction
   * has its taken and not-taken costs.
   */
  function Cycles(i: Instr, taken: bool): nat
  {
    match i
    case Nop => 1
    case Stop => 1
    case Halt => 1
    case Illegal => 1
    case Prefix => 2
    case LdRrImm(_) => 3
    case StoreA(_) => 2
    case LoadA(_) => 2
    case IncRr(_) => 2
    case DecRr(_) => 2
    case AddHlRr(_) => 2
    case Inc(t) => if t.AtHL? then 3 else 1
    case Dec(t) => if t.AtHL? then 3 else 1
    case LdImm(t) => if t.AtHL? then 3 else 2
    case RotA(_) => 1
    case StoreSp => 5
    case Jr => 3
    case JrIf(_) => if taken then 3 else 2
    case DecimalAdjust => 1
    case Complement => 1
    case SetCarry => 1
    case FlipCarry => 1
    case Ld(dst, src) => if dst.AtHL? || src.AtHL? then 2 else 1
    case AluR(_, src) => if src.AtHL? then 2 else 1
    case AluN(_) => 2
    case RetIf(_) => if taken then 5 else 2
    case Ret => 4
    case Reti => 4
    case Pop(_) => 3
    case Push(_) => 4
    case JpIf(_) => if taken then 4 else 3
    case Jp => 4
    case JpHl => 1
    case CallIf(_) => if taken then 6 else 3
    case Call => 6
    case Rst(_) => 4
    case LdhStore => 3
    case LdhLoad => 3
    case StoreHighC => 2
    case LoadHighC => 2
    case StoreAbs => 4
    case LoadAbs => 4
    case AddSp => 4
    case LdHlSp => 3
    case LdSpHl => 2
    case Di => 1
    case Ei => 1
  }

  /** The timing of the CB table, both fetches included: 2, or 4 on (HL) (3 for BIT). */
  function CbCycles(op: CbOp): nat
  {
    if !op.t.AtHL? then 2 else if op.TestBit? then 3 else 4
  }

  /** The cycles an instruction costs once its arm has run, with the opcode fetch. */
  function TableCycles(m: Machine, i: Instr): nat
  {
    if i == Prefix then CbCycles(CbDecode(Imm8(m))) else Cycles(i, Taken(m.regs.f, i))
  }

  lemma {:induction false} ExecCbTicks(m: Machine, op: CbOp)
    requires !op.Shift? ==> op.b < 8
    ensures ExecCb(m, op).ticks == m.ticks + CbCycles(op) - 2
  {
  }

  /**
   * The bus calls of every arm add up to the timing table: the arm's ticks plus the opcode
   * fetch equal the table entry, for either outcome of a condition.
   */
  lemma CyclesMatchTable(m: Machine, i: Instr)
    requires i.Rst? ==> i.vec % 8 == 0 && i.vec <= 0x38
    requires i != Ld(AtHL, AtHL)
    requires Exec(m, i).Next?
    ensures Exec(m, i).m.ticks + 1 == m.ticks + TableCycles(m, i)
  {
    if i.Ld? || i.LdImm? {
      CyclesOfLoads(m, i);
    }
    if i.Inc? || i.Dec? {
      CyclesOfSteps(m, i);
    }
    if i.CallIf? || i.Call? || i.Rst? {
      CyclesOfCalls(m, i);
    }
    if i.RetIf? || i.Ret? || i.Reti? || i.Pop? || i.Push? {
      CyclesOfStack(m, i);
    }
    if i.Jr? || i.JrIf? || i.JpIf? || i.Jp? || i.JpHl? {
      CyclesOfJumps(m, i);
    }
    if i.AluR? || i.AluN? || i.RotA? || i.DecimalAdjust? || i.Complement? || i.SetCarry? || i.FlipCarry? {
      CyclesOfArith(m, i);
    }
    if i.LdRrImm? || i.IncRr? || i.DecRr? || i.AddHlRr? || i.StoreSp? || i.AddSp? || i.LdHlSp? || i.LdSpHl? {
      CyclesOfWide(m, i);
    }
    if i.StoreA? || i.LoadA? || i.StoreHighC? || i.LoadHighC? {
      CyclesOfTransfers(m, i);
    }
    if i.LdhStore? || i.LdhLoad? || i.StoreAbs? || i.LoadAbs? {
      CyclesOfImmTransfers(m, i);
    }
    if i.Nop? || i.Stop? || i.Halt? || i.Illegal? || i.Di? || i.Ei? {
      CyclesOfControl(m, i);
    }
    if i.Prefix? {
      CyclesOfPrefix(m);
    }
  }

  /** `CyclesMatchTable` for LD r,r' and LD r,n. */
  lemma CyclesOfLoads(m: Machine, i: Instr)
    requires i.Ld? || i.LdImm?
    requires i != Ld(AtHL, AtHL)
    requires Exec(m, i).Next?
    ensures Exec(m, i).m.ticks + 1 == m.ticks + TableCycles(m, i)
  {
    match i
    case Ld(dst, src) => StoreTicks(PastLoad8(m, src), dst, Load8(m, src));
    case LdImm(t) => StoreTicks(PastImm8(m), t, Imm8(m));
  }

  /** `CyclesMatchTable` for the 8-bit INC and DEC. */
  lemma CyclesOfSteps(m: Machine, i: Instr)
    requires i.Inc? || i.Dec?
    requires Exec(m, i).Next?
    ensures Exec(m, i).m.ticks + 1 == m.ticks + TableCycles(m, i)
  {
    match i
    case Inc(t) => StepTicks(m, t, true);
    case Dec(t) => StepTicks(m, t, false);
  }

  /** `CyclesMatchTable` for CALL, CALL cc and RST. */
  lemma CyclesOfCalls(m: Machine, i: Instr)
    requires i.CallIf? || i.Call? || i.Rst?
    requires i.Rst? ==> i.vec % 8 == 0 && i.vec <= 0x38
    requires Exec(m, i).Next?
    ensures Exec(m, i).m.ticks + 1 == m.ticks + TableCycles(m, i)
  {
  }

  /** `CyclesMatchTable` for the returns, PUSH and POP. */
  lemma CyclesOfStack(m: Machine, i: Instr)
    requires i.RetIf? || i.Ret? || i.Reti? || i.Pop? || i.Push?
    requires Exec(m, i).Next?
    ensures Exec(m, i).m.ticks + 1 == m.ticks + TableCycles(m, i)
  {
  }

  /** `CyclesMatchTable` for the jumps. */
  lemma CyclesOfJumps(m: Machine, i: Instr)
    requires i.Jr? || i.JrIf? || i.JpIf? || i.Jp? || i.JpHl?
    requires Exec(m, i).Next?
    ensures Exec(m, i).m.ticks + 1 == m.ticks + TableCycles(m, i)
  {
  }

  /** `CyclesMatchTable` for the arithmetic and rotates on A. */
  lemma CyclesOfArith(m: Machine, i: Instr)
    requires i.AluR? || i.AluN? || i.RotA? || i.DecimalAdjust? || i.Complement? || i.SetCarry? || i.FlipCarry?
    requires Exec(m, i).Next?
    ensures Exec(m, i).m.ticks + 1 == m.ticks + TableCycles(m, i)
  {
  }

  /** `CyclesMatchTable` for the 16-bit loads and arithmetic. */
  lemma CyclesOfWide(m: Machine, i: Instr)
    requires i.LdRrImm? || i.IncRr? || i.DecRr? || i.AddHlRr? || i.StoreSp? || i.AddSp? || i.LdHlSp? || i.LdSpHl?
    requires Exec(m, i).Next?
    ensures Exec(m, i).m.ticks + 1 == m.ticks + TableCycles(m, i)
  {
  }

  /** `CyclesMatchTable` for the loads and stores of A through BC, DE, HL and 0xFF00+C. */
  lemma CyclesOfTransfers(m: Machine, i: Instr)
    requires i.StoreA? || i.LoadA? || i.StoreHighC? || i.LoadHighC?
    requires Exec(m, i).Next?
    ensures Exec(m, i).m.ticks + 1 == m.ticks + TableCycles(m, i)
  {
  }

  /** `CyclesMatchTable` for the loads and stores of A through an immediate address. */
  lemma CyclesOfImmTransfers(m: Machine, i: Instr)
    requires i.LdhStore? || i.LdhLoad? || i.StoreAbs? || i.LoadAbs?
    requires Exec(m, i).Next?
    ensures Exec(m, i).m.ticks + 1 == m.ticks + TableCycles(m, i)
  {
  }

  /** `CyclesMatchTable` for the one-cycle control instructions. */
  lemma CyclesOfControl(m: Machine, i: Instr)
    requires i.Nop? || i.Stop? || i.Halt? || i.Illegal? || i.Di? || i.Ei?
    requires Exec(m, i).Next?
    ensures Exec(m, i).m.ticks + 1 == m.ticks + TableCycles(m, i)
  {
  }

  /** `CyclesMatchTable` for the CB prefix: the second fetch and the CB arm. */
  lemma CyclesOfPrefix(m: Machine)
    ensures Exec(m, Prefix).Next?
    ensures Exec(m, Prefix).m.ticks + 1 == m.ticks + TableCycles(m, Prefix)
  {
    ExecCbTicks(PastImm8(m), CbDecode(Imm8(m)));
  }

  lemma StoreTicks(m: Machine, t: Operand, v: Byte)
    ensures Store8(m, t, v).ticks == m.ticks + (if t.AtHL? then 1 else 0)
  {
  }

  lemma StepTicks(m: Machine, t: Operand, up: bool)
    ensures ExecStep8(m, t, up).ticks == m.ticks + (if t.AtHL? then 2 else 0)
  {
  }

  /** Every arm that does not stop the run spends between one and six machine cycles. */
  lemma CostBounds(m: Machine, code: Byte)
    requires Lookup(m, code).Next?
    ensures 1 <= Lookup(m, code).m.ticks + 1 - m.ticks <= 6
  {
    DecodedForms(code);
    CyclesMatchTable(m, Decode(code));
  }

  // ---------------------------------------------------------------------------------------------
  // Stack

  /** The pop sequence right after the push sequence reads back the pushed word and SP. */
  lemma PoppedAfterPushed(m: Machine, v: Word)
    ensures Popped(Pushed(m, v)) == v
    ensures PastPop(Pushed(m, v)).regs == m.regs
    ensures PastPop(Pushed(m, v)).ram == Pushed(m, v).ram
  {
    var m1 := Pushed(m, v);
    var sp := m.regs.sp as int;
    assert m1.regs.sp == (sp + 65534) % 65536;
    assert U16(m1.regs.sp + 1) == (sp + 65535) % 65536;
    assert m1.ram[m1.regs.sp] == Lo(v);
    assert m1.ram[U16(m1.regs.sp + 1)] == Hi(v);
    PairOfHalves(v);
  }

  /** The PUSH arm: a tick, then the push sequence of the pair's word. */
  lemma PushArm(m: Machine, q: Stack16)
    ensures Exec(m, Push(q)) == Next(Pushed(Tick(m), StackWord(m.regs, q)))
  {
  }

  /** The POP arm: the pop sequence, its word loaded into the pair. */
  lemma PopArm(m: Machine, q: Stack16)
    ensures Exec(m, Pop(q)) == Next(WithRegs(PastPop(m), PopInto(PastPop(m).regs, q, Popped(m))))
  {
  }

  /** POP rr right after PUSH rr restores every register (for BC, DE and HL). */
  lemma PushThenPop(m: Machine, q: Stack16)
    requires q != SAF
    ensures Exec(Exec(m, Push(q)).m, Pop(q)).m.regs == m.regs
  {
    var w := StackWord(m.regs, q);
    var m1 := Pushed(Tick(m), w);
    PushArm(m, q);
    PopArm(m1, q);
    PoppedAfterPushed(Tick(m), w);
  }

  /**
   * POP AF right after PUSH AF restores A, the flags and every other register; AF's low byte
   * becomes `flag_bits`, its low nibble 0.
   */
  lemma PushThenPopAf(m: Machine)
    ensures Exec(Exec(m, Push(SAF)).m, Pop(SAF)).m.regs
         == m.regs.(af := Pair(Hi(m.regs.af), FlagBits(m.regs.f)))
  {
    var w := StackWord(m.regs, SAF);
    var m1 := Pushed(Tick(m), w);
    PushArm(m, SAF);
    PopArm(m1, SAF);
    PoppedAfterPushed(Tick(m), w);
    FlagsLowNibble(m.regs.f, m.regs.af % 16);
    assert Lo(w) == FlagBits(m.regs.f) + m.regs.af % 16 && Hi(w) == Hi(m.regs.af);
  }

  /** The flags read back from `flag_bits | nibble` are the flags. */
  lemma FlagsLowNibble(f: Flags, nib: nat)
    requires nib < 16
    ensures FlagBits(f) + nib < 256
    ensures FlagsOf(FlagBits(f) + nib) == f
  {
    var b := FlagBits(f);
    var q := 8 * B2I(f.z) + 4 * B2I(f.n) + 2 * B2I(f.h) + B2I(f.c);
    DivUnique(b, 16, q, 0);
    DivUnique(b + nib, 16, q, nib);
    FlagsOfNibble(b);
    FlagsOfNibble(b + nib);
    FlagsOfFlagBits(f);
  }

  /** PUSH writes the high byte at SP-1 and the low byte at SP-2, and moves SP down by two. */
  lemma PushLayout(m: Machine, q: Stack16)
    ensures Exec(m, Push(q)).m.regs == m.regs.(sp := (m.regs.sp + 65534) % 65536)
    ensures Exec(m, Push(q)).m.ram
         == m.ram[(m.regs.sp + 65535) % 65536 := Hi(StackWord(m.regs, q))]
                 [(m.regs.sp + 65534) % 65536 := Lo(StackWord(m.regs, q))]
  {
  }

  /** The RET arm: the pop sequence into PC, then a tick. */
  lemma RetArm(m: Machine)
    ensures Exec(m, Ret) == Next(Tick(WithRegs(PastPop(m), PastPop(m).regs.(pc := Popped(m)))))
  {
  }

  /** The CALL arm: the operand, a tick, the push of the address after it, the jump. */
  lemma CallArm(m: Machine)
    ensures var m1 := PastImm16(m);
      var m2 := Pushed(Tick(m1), m1.regs.pc);
      Exec(m, Call) == Next(WithRegs(m2, m2.regs.(pc := Imm16(m))))
  {
  }

  /** The RST arm: a tick, the push of PC, the jump to the vector. */
  lemma RstArm(m: Machine, vec: Byte)
    requires vec % 8 == 0 && vec <= 0x38
    ensures var m2 := Pushed(Tick(m), m.regs.pc);
      Exec(m, Rst(vec)) == Next(WithRegs(m2, m2.regs.(pc := vec)))
  {
  }

  /**
   * POP qq: the word is the byte at SP+1 over the byte at SP; SP moves up by two (wrapping),
   * memory and PC are kept. POP AF takes the flags from bits 7..4 of the low byte.
   */
  lemma PopLayout(m: Machine, q: Stack16)
    ensures var m1 := Exec(m, Pop(q)).m;
      var sp := m.regs.sp;
      var w := m.ram[(sp + 1) % 65536] as int * 256 + m.ram[sp] as int;
      && m1.ram == m.ram && m1.ticks == m.ticks + 2
      && (q == SBC ==> m1.regs == m.regs.(sp := (sp + 2) % 65536, bc := w))
      && (q == SDE ==> m1.regs == m.regs.(sp := (sp + 2) % 65536, de := w))
      && (q == SHL ==> m1.regs == m.regs.(sp := (sp + 2) % 65536, hl := w))
      && (q == SAF ==> m1.regs == m.regs.(sp := (sp + 2) % 65536, f := FlagsOf(m.ram[sp]),
                                          af := m.ram[(sp + 1) % 65536] as int * 256 + FlagBits(FlagsOf(m.ram[sp]))))
  {
    PopArm(m, q);
  }

  /** RET: PC becomes the byte at SP+1 over the byte at SP, SP moves up by two, memory is kept. */
  lemma RetLayout(m: Machine)
    ensures var m1 := Exec(m, Ret).m;
      var sp := m.regs.sp;
      && m1.regs == m.regs.(sp := (sp + 2) % 65536, pc := m.ram[(sp + 1) % 65536] as int * 256 + m.ram[sp] as int)
      && m1.ram == m.ram && m1.ticks == m.ticks + 3
  {
    RetArm(m);
  }

  /**
   * CALL nn: the address after the operand is pushed (high byte at SP-1, low byte at SP-2), SP
   * moves down by two and PC becomes the operand, the byte at PC+1 over the byte at PC.
   */
  lemma CallLayout(m: Machine)
    ensures var m1 := Exec(m, Call).m;
      var sp := m.regs.sp;
      var back := (m.regs.pc + 2) % 65536;
      && m1.regs == m.regs.(sp := (sp + 65534) % 65536,
                            pc := m.ram[(m.regs.pc + 1) % 65536] as int * 256 + m.ram[m.regs.pc] as int)
      && m1.ram == m.ram[(sp + 65535) % 65536 := back / 256][(sp + 65534) % 65536 := back % 256]
      && m1.ticks == m.ticks + 5
  {
    CallArm(m);
  }

  /** RST vec: PC is pushed as CALL pushes it and PC becomes the vector. */
  lemma RstLayout(m: Machine, vec: Byte)
    requires vec % 8 == 0 && vec <= 0x38
    ensures var m1 := Exec(m, Rst(vec)).m;
      var sp := m.regs.sp;
      && m1.regs == m.regs.(sp := (sp + 65534) % 65536, pc := vec)
      && m1.ram == m.ram[(sp + 65535) % 65536 := m.regs.pc / 256][(sp + 65534) % 65536 := m.regs.pc % 256]
      && m1.ticks == m.ticks + 3
  {
    RstArm(m, vec);
  }

  /** CALL nn jumps to nn; a RET right after returns past the operand and restores SP. */
  lemma CallThenRet(m: Machine)
    ensures Exec(m, Call).m.regs.pc == Imm16(m)
    ensures Exec(Exec(m, Call).m, Ret).m.regs.pc == (m.regs.pc + 2) % 65536
    ensures Exec(Exec(m, Call).m, Ret).m.regs.sp == m.regs.sp
  {
    var m1 := PastImm16(m);
    var m2 := Pushed(Tick(m1), m1.regs.pc);
    var m3 := WithRegs(m2, m2.regs.(pc := Imm16(m)));
    CallArm(m);
    RetArm(m3);
    PoppedAfterPushed(Tick(m1), m1.regs.pc);
    assert Popped(m3) == Popped(m2) && PastPop(m3).regs.sp == PastPop(m2).regs.sp;
    assert m1.regs == m.regs.(pc := (m.regs.pc + 2) % 65536);
  }

  /** RST jumps to its vector; a RET right after returns to the address after RST. */
  lemma RstThenRet(m: Machine, vec: Byte)
    requires vec % 8 == 0 && vec <= 0x38
    ensures Exec(m, Rst(vec)).m.regs.pc == vec
    ensures Exec(Exec(m, Rst(vec)).m, Ret).m.regs.pc == m.regs.pc
    ensures Exec(Exec(m, Rst(vec)).m, Ret).m.regs.sp == m.regs.sp
  {
    var m2 := Pushed(Tick(m), m.regs.pc);
    var m3 := WithRegs(m2, m2.regs.(pc := vec));
    RstArm(m, vec);
    RetArm(m3);
    PoppedAfterPushed(Tick(m), m.regs.pc);
    assert Popped(m3) == Popped(m2) && PastPop(m3).regs.sp == PastPop(m2).regs.sp;
  }

  // ---------------------------------------------------------------------------------------------
  // Branches

  /**
   * JR e and JR cc,e: PC moves past the displacement; when the jump is taken it then moves by
   * the signed displacement, modulo 2^16. Nothing but PC changes.
   */
  lemma RelativeJump(m: Machine, cc: Cond)
    ensures var pc1 := (m.regs.pc + 1) % 65536;
      Exec(m, JrIf(cc)).m.regs.pc
        == if Holds(m.regs.f, cc) then (pc1 + I8(m.ram[m.regs.pc])) % 65536 else pc1
    ensures Exec(m, Jr).m.regs.pc == ((m.regs.pc + 1) % 65536 + I8(m.ram[m.regs.pc])) % 65536
    ensures Exec(m, JrIf(cc)).m.regs == m.regs.(pc := Exec(m, JrIf(cc)).m.regs.pc)
    ensures Exec(m, JrIf(cc)).m.ram == m.ram
  {
  }

  /** JP HL jumps to HL and changes nothing else. */
  lemma JumpToHl(m: Machine)
    ensures Exec(m, JpHl) == Next(m.(regs := m.regs.(pc := m.regs.hl)))
  {
  }

  // ---------------------------------------------------------------------------------------------
  // 8-bit operands

  /** Reading an operand right after storing into it gives the stored byte; flags, PC, SP stay. */
  lemma LoadAfterStore8(m: Machine, t: Operand, v: Byte)
    ensures Load8(Store8(m, t, v), t) == v
    ensures Store8(m, t, v).regs.f == m.regs.f
    ensures Store8(m, t, v).regs.pc == m.regs.pc && Store8(m, t, v).regs.sp == m.regs.sp
  {
  }

  /**
   * INC rr / DEC rr: the pair steps by one modulo 65536; the flags, the other pairs, PC and
   * memory are kept, and the arm takes one internal tick.
   */
  lemma StepRrWraps(m: Machine, p: Reg16, up: bool)
    ensures var m1 := Exec(m, if up then IncRr(p) else DecRr(p)).m;
      && Get16(m1.regs, p) == (Get16(m.regs, p) + (if up then 1 else -1)) % 65536
      && (forall o: Reg16 :: o != p ==> Get16(m1.regs, o) == Get16(m.regs, o))
      && m1.regs.f == m.regs.f && m1.regs.af == m.regs.af && m1.regs.pc == m.regs.pc
      && m1.regs.ime == m.regs.ime && m1.regs.delayedIme == m.regs.delayedIme
      && m1.ram == m.ram && m1.ticks == m.ticks + 1
  {
  }

  /** INC and DEC step the operand by one modulo 256 and keep the carry. */
  lemma StepKeepsCarry(m: Machine, t: Operand, up: bool)
    ensures var m1 := Exec(m, if up then Inc(t) else Dec(t)).m;
      Load8(m1, t) == (Load8(m, t) + (if up then 1 else -1)) % 256
      && m1.regs.f.c == m.regs.f.c
      && m1.regs.pc == m.regs.pc
  {
    var o := if up then Inc8(Load8(m, t), m.regs.f.c) else Dec8(Load8(m, t), m.regs.f.c);
    var m1 := PastLoad8(m, t);
    LoadAfterStore8(m1.(regs := m1.regs.(f := o.flags)), t, o.value);
  }

  /** CP n and CP r set the flags of the subtraction and leave A, every register and memory alone. */
  lemma CompareOnlyFlags(m: Machine, src: Operand)
    ensures var m1 := Exec(m, AluR(Cp, src)).m;
      m1.regs == m.regs.(f := Sub8(Hi(m.regs.af), Load8(m, src), false).flags) && m1.ram == m.ram
    ensures var m1 := Exec(m, AluN(Cp)).m;
      m1.regs == m.regs.(pc := (m.regs.pc + 1) % 65536, f := Sub8(Hi(m.regs.af), Imm8(m), false).flags)
      && m1.ram == m.ram
  {
    CompareOperand(m, src);
    CompareImmediate(m);
  }

  lemma CompareOperand(m: Machine, src: Operand)
    ensures var m1 := Exec(m, AluR(Cp, src)).m;
      m1.regs == m.regs.(f := Sub8(Hi(m.regs.af), Load8(m, src), false).flags) && m1.ram == m.ram
  {
    PairOfHalves(m.regs.af);
  }

  lemma CompareImmediate(m: Machine)
    ensures var m1 := Exec(m, AluN(Cp)).m;
      m1.regs == m.regs.(pc := (m.regs.pc + 1) % 65536, f := Sub8(Hi(m.regs.af), Imm8(m), false).flags)
      && m1.ram == m.ram
  {
    PairOfHalves(m.regs.af);
  }

  // ---------------------------------------------------------------------------------------------
  // The CB table

  /**
   * BIT b: Z takes the tested bit itself (bit 0 for C, E and L), N and H are cleared, C is kept,
   * and no register or memory byte changes.
   */
  lemma TestBitOnlyFlags(m: Machine, b: nat, t: Operand)
    requires b < 8
    ensures var m1 := ExecCb(m, TestBit(b, t));
      m1.regs == m.regs.(f := Flags(Bit(Load8(m, t), TestedBit(b, t)) == 1, false, false, m.regs.f.c))
      && m1.ram == m.ram
  {
  }

  /**
   * `m1` differs from `m` only in the operand `t`: for a register, every other 8-bit register,
   * SP, PC, the flags, the interrupt latches and memory are kept; for (HL), every register is
   * kept and only the byte at HL may change.
   */
  predicate OnlyOperand(m: Machine, m1: Machine, t: Operand)
  {
    match t
    case Reg(x) =>
      && m1.ram == m.ram && m1.ticks == m.ticks
      && m1.regs.sp == m.regs.sp && m1.regs.pc == m.regs.pc && m1.regs.f == m.regs.f
      && m1.regs.ime == m.regs.ime && m1.regs.delayedIme == m.regs.delayedIme && Lo(m1.regs.af) == Lo(m.regs.af)
      && forall y: Reg8 :: y != x ==> Get8(m1.regs, y) == Get8(m.regs, y)
    case AtHL =>
      && m1.regs == m.regs && m1.ticks == m.ticks + 2
      && m1.ram == m.ram[m.regs.hl := m1.ram[m.regs.hl]]
  }

  /**
   * RES b and SET b: bit b of the operand becomes 0 (1), the other seven bits and the flags are
   * kept.
   */
  lemma SingleBitUpdate(m: Machine, b: nat, t: Operand)
    requires b < 8
    ensures var m1 := ExecCb(m, ResBit(b, t));
      m1.regs.f == m.regs.f
      && forall k: nat :: k < 8 ==> Bit(Load8(m1, t), k) == if k == b then 0 else Bit(Load8(m, t), k)
    ensures var m1 := ExecCb(m, SetBit(b, t));
      m1.regs.f == m.regs.f
      && forall k: nat :: k < 8 ==> Bit(Load8(m1, t), k) == if k == b then 1 else Bit(Load8(m, t), k)
    ensures OnlyOperand(m, ExecCb(m, ResBit(b, t)), t)
    ensures OnlyOperand(m, ExecCb(m, SetBit(b, t)), t)
  {
    var x := Load8(m, t);
    LoadAfterStore8(PastLoad8(m, t), t, Res(x, b));
    LoadAfterStore8(PastLoad8(m, t), t, Alu.Set(x, b));
    StoreBackFrame(m, t, Res(x, b));
    StoreBackFrame(m, t, Alu.Set(x, b));
  }

  /** Fetching an operand and storing a byte back into it touches nothing but that operand. */
  lemma StoreBackFrame(m: Machine, t: Operand, v: Byte)
    ensures OnlyOperand(m, Store8(PastLoad8(m, t), t, v), t)
  {
    if t.Reg? {
      forall y: Reg8 | y != t.r ensures Get8(Set8(m.regs, t.r, v), y) == Get8(m.regs, y) {
        Set8KeepsOthers(m.regs, t.r, v, y);
      }
    }
  }

  /** The operand after one CB shift: the stored result, with the flags of `ShiftFlags`. */
  lemma ShiftResult(m: Machine, kind: ShiftKind, t: Operand)
    ensures var o := ShiftBy(kind, t, Load8(m, t), m.regs.f.c);
      Load8(ExecCb(m, Shift(kind, t)), t) == o.value && ExecCb(m, Shift(kind, t)).regs.f == ShiftFlags(o)
  {
    var o := ShiftBy(kind, t, Load8(m, t), m.regs.f.c);
    LoadAfterStore8(PastLoad8(m, t), t, o.value);
  }

  /** RRC right after RLC on the same operand gives the operand back. */
  lemma RlcThenRrc(m: Machine, t: Operand)
    ensures Load8(ExecCb(ExecCb(m, Shift(KRlc, t)), Shift(KRrc, t)), t) == Load8(m, t)
  {
    var m1 := ExecCb(m, Shift(KRlc, t));
    ShiftResult(m, KRlc, t);
    ShiftResult(m1, KRrc, t);
    RrcUndoesRlc(Load8(m, t));
  }

  /** SWAP twice on the same operand gives the operand back. */
  lemma SwapTwice(m: Machine, t: Operand)
    ensures Load8(ExecCb(ExecCb(m, Shift(KSwap, t)), Shift(KSwap, t)), t) == Load8(m, t)
  {
    var m1 := ExecCb(m, Shift(KSwap, t));
    ShiftResult(m, KSwap, t);
    ShiftResult(m1, KSwap, t);
    SwapInvolution(Load8(m, t));
  }

  /** On a register, RR right after RL gives back both the register and the carry. */
  lemma RlThenRr(m: Machine, x: Reg8)
    ensures var m2 := ExecCb(ExecCb(m, Shift(KRl, Reg(x))), Shift(KRr, Reg(x)));
      Get8(m2.regs, x) == Get8(m.regs, x) && m2.regs.f.c == m.regs.f.c
  {
    var m1 := ExecCb(m, Shift(KRl, Reg(x)));
    ShiftResult(m, KRl, Reg(x));
    ShiftResult(m1, KRr, Reg(x));
    RrUndoesRl(Get8(m.regs, x), m.regs.f.c);
  }

  // ---------------------------------------------------------------------------------------------
  // Interrupt latch and the end of the run

  /**
   * DI clears `ime`; EI only sets `delayed_ime_enable`, so `ime` is unchanged after it; RETI
   * sets `ime`. Nothing else in the registers but PC and SP changes.
   */
  lemma InterruptLatch(m: Machine)
    ensures Exec(m, Di).m.regs == m.regs.(ime := false)
    ensures Exec(m, Ei).m.regs == m.regs.(delayedIme := true)
    ensures Exec(m, Reti).m.regs.ime
    ensures Exec(m, Reti).m.regs.delayedIme == m.regs.delayedIme
    ensures Exec(m, Reti).m.regs.pc == Popped(m)
    ensures Exec(m, Reti).m.regs.sp == (m.regs.sp + 2) % 65536
    ensures Exec(m, Reti).m.ram == m.ram
  {
    ReturnFromInterrupt(m);
  }

  lemma ReturnFromInterrupt(m: Machine)
    ensures var m1 := Exec(m, Reti).m;
      && m1.regs.ime && m1.regs.delayedIme == m.regs.delayedIme
      && m1.regs.pc == Popped(m) && m1.regs.sp == (m.regs.sp + 2) % 65536 && m1.ram == m.ram
  {
  }

  /**
   * The arms that end the run: STOP, HALT, the eleven unassigned opcodes, and LD (nn),SP with
   * nn = 0xFFFF, whose second write falls past the end of memory.
   */
  lemma FaultCases(m: Machine, code: Byte)
    ensures Lookup(m, code) == Fault
        <==> code in Unassigned || code == 0x10 || code == 0x76 || (code == 0x08 && Imm16(m) == 0xFFFF)
  {
    DecodedForms(code);
    if code != 0x08 {
      FaultOnlyAt(m, Decode(code));
    }
  }

  lemma FaultOnlyAt(m: Machine, i: Instr)
    requires i.Rst? ==> i.vec % 8 == 0 && i.vec <= 0x38
    requires i != StoreSp
    ensures Exec(m, i) == Fault <==> i in {Stop, Halt, Illegal}
  {
  }
}
