# SM83 interpreter core of GB-Emu, in Dafny

This project models the instruction interpreter of a Python Game Boy (DMG) emulator. It proves
properties of the model.

- **opcodeCases.py.** The `opCodeTable` object holds the register pairs `AF`, `BC`, `DE`, `HL`,
  plus `SP`, `PC`, the four flags, `ime` and `delayed_ime_enable`. Its `tableLookup` (the
  256-entry primary table) and `execute_prefixed` (the CB table) update those fields. They call
  the bus for every memory access and every internal cycle.
- **memory.py.** `Memory.tick` counts machine cycles. `read` and `write` tick once, then either
  use the flat 64 KiB memory of testing mode or decode the address into ROM, work RAM, the
  prohibited areas, OAM/HRAM and the memory-mapped registers.
- **cpu.py.** `CPU.execute` fetches the opcode at PC, steps PC and dispatches. `render_frame`
  runs instructions until their machine cycles reach `M_CYCLES_PER_FRAME` = 17556.
- **ppu.py.** The model covers only the scanline phase choice in `PPU.tick` and three pure
  expressions of `background_fetcher`: the tile data address, the row offset and the 2bpp
  decode of one tile row.

## Files

Each module follows one file of the program.

- **`bits.dfy` (`Bits`).** Bytes, words, `i8`/`u8`/`u16`, register halves, and the bitwise
  operators as functions on naturals.
- **`alu.dfy` (`Alu`).** The arithmetic, logic, rotate and shift expressions that the arms
  compute. They are written as the Python expressions and specified by what they mean.
- **`sm83.dfy` (`Sm83`).** The value-level semantics of one table pass.
  - `Decode` and `CbDecode` group the 256 + 256 arms by the opcode's bit fields.
  - `Exec` gives each arm's effect on a `Machine` as its sequence of bus calls. The `Machine`
    holds registers, flat memory and the cycle count.
  - `Lookup` is `tableLookup`, and `Prefixed` is `execute_prefixed`.
- **`sm83_laws.dfy` (`Sm83Laws`).** Properties of `Exec`:
  - cycle counts against the SM83 timing table;
  - the stack discipline;
  - branch targets;
  - the CB operations;
  - the interrupt latch;
  - the fault cases.
- **`opcodes.dfy` (`OpCodes`).** The `OpCodeTable` class. Its fields are the registers, and its
  methods run each arm one bus call at a time against a `Bus.Memory`. Every method is proved to
  leave `Snapshot()` equal to what `Sm83` says.
- **`memory.dfy` (`Bus`).**
  - The `Memory` class: the flat memory and work RAM are arrays; the cycle counter, the
    OAM/HRAM slots and the I/O registers are fields.
  - The value-level decode functions, `RegionOf`, `Load` and `Store`, that its methods are
    proved against.
- **`cpu.dfy` (`Driver`).** The `Cpu` class with `Execute` and `RenderFrame`, and the `Frame`
  function that specifies the frame loop.
- **`ppu.dfy` (`Video`).** Phase selection, tile address, row offset and row decode.

## Behaviour modelled as the code has it

The model follows the code where it differs from SM83 hardware.

- **BIT b,r.** BIT stores the tested bit itself into Z (hardware uses its complement). It sets
  H to 0.
- **BIT on C, E, L.** `BC & 0xFF >> k` parses as `BC & (0xFF >> k)`, so every BIT on C, E or L
  tests bit 0 (`Sm83.TestedBit`).
- **Carry of shifts.** SLA and SRL end with C = 0. RL (HL) computes its carry from `v >> 15`
  and so also ends with C = 0. RR (HL) ends with C equal to the old carry.
- **0x28-0x2F.** These are labelled SLA but shift right arithmetically, with C = the old bit 7.
- **LD (nn),SP.** It writes `nn + 1` without wrapping. With the flat memory that is an
  IndexError at nn = 0xFFFF, which the model treats as a fault.
- **EI.** EI only sets `delayed_ime_enable`. Nothing in opcodeCases.py, memory.py or cpu.py
  later moves it into `ime`.
- **PUSH AF.** It pushes `flag_bits() | (AF & 0x0F)`. POP AF rebuilds AF from the popped
  flags, so the low nibble becomes 0 (`Sm83Laws.PushThenPopAf`).
- **STOP, HALT, the unassigned opcodes.** STOP (0x10), HALT (0x76) and the eleven unassigned
  opcodes call `exit(1)`. In the model they are the outcome `Fault`.
- **Tile address.** With LCDC bit 4 clear, the tile number is read from `vram` as an unsigned
  byte. The address `(0x9000 + 16 n) & 0xFFFF` therefore runs over 0x9000-0x9FF0, not over
  0x8800-0x97F0.
- **Second bitplane.** The second fetch step reads `tHigh` from the same `vram` index as
  `tLow`; no `+ 1` is added (`Video.RowIndex`).

## Model

| member | source | states |
|---|---|---|
| Bits.I8 | opcodeCases.py:6-7 | the result lies in -128..127 and is congruent to the input mod 256; it is the byte for 0..127 and the byte minus 256 for 128..255 |
| Bits.U8 | opcodeCases.py:9-10 | the result is a byte congruent to the input mod 256, and equal to it when it already is a byte |
| Bits.U16 | opcodeCases.py:12-13 | the result is a word congruent to the input mod 65536, and equal to it when it already is a word |
| Bits.Pair | opcodeCases.py:17-22 | the pair `(hi << 8) \| lo` has high half hi and low half lo |
| Bits.WithHi | opcodeCases.py:1092 | replacing the high half of a pair sets it and keeps the low half |
| Bits.WithLo | opcodeCases.py:1289 | replacing the low half of a pair sets it and keeps the high half |
| Bits.PairOfHalves | opcodeCases.py:17-22 | a pair is rebuilt exactly from its two halves |
| Bits.I8LowBits | opcodeCases.py:2192-2193 | `i8(e)` keeps the low nibble and the low byte of e, so the flags of ADD SP,e see the unsigned operand |
| Alu.Add8 | opcodeCases.py:1520-1526 | value plus 256·C equals a + b + carry-in; H is the carry out of the low nibble; Z iff the value is 0; N = 0 |
| Alu.Sub8 | opcodeCases.py:1635-1641 | value minus 256·C equals a - b - carry-in; H is the borrow from the low nibble; Z iff the value is 0; N = 1 |
| Alu.Inc8 | opcodeCases.py:1087-1092 | the register wraps from 255 to 0; H iff the old low nibble was 0xF; Z iff the result is 0; N = 0; C is kept |
| Alu.Dec8 | opcodeCases.py:1093-1098 | the register wraps from 0 to 255; H iff the old low nibble was 0; Z iff the result is 0; N = 1; C is kept |
| Alu.And8 | opcodeCases.py:1749-1755 | each result bit is the AND of the operand bits; Z iff the result is 0, N = 0, H = 1, C = 0 |
| Alu.Xor8 | opcodeCases.py:1804-1810 | each result bit is the XOR of the operand bits; Z iff the result is 0, N = H = C = 0 |
| Alu.Or8 | opcodeCases.py:1855-1861 | each result bit is the OR of the operand bits; Z iff the result is 0, N = H = C = 0 |
| Alu.Alu8 | opcodeCases.py:1520-1950 | ADD/ADC are `Add8` with carry-in 0 or C, SUB/SBC are `Sub8` with carry-in 0 or C, AND/XOR/OR are `And8`/`Xor8`/`Or8`; ADD/ADC give (A + r + carry) mod 256, SUB/SBC give (A - r - carry) mod 256, N is set exactly for SUB/SBC; CP keeps A and sets SUB's flags |
| Alu.SelfOperandArms | opcodeCases.py:1946-1950 | the hand-written A,A arms (SUB, AND, XOR, OR, CP) agree with the generic operation applied to A and A |
| Alu.Cpl | opcodeCases.py:1299-1302 | CPL gives 255 - A |
| Alu.Daa | opcodeCases.py:1249-1265 | C is set iff it was set or an addition left A above 0x99; Z iff the result is 0; N kept, H cleared; a valid BCD byte after an addition with no carries is unchanged |
| Alu.AddHl | opcodeCases.py:1112-1117 | value plus 65536·C equals HL + rr; H is the carry out of bit 11; Z kept; N = 0 |
| Alu.AddSpE | opcodeCases.py:2188-2196 | the result is (SP + i8(e)) mod 65536; H and C come from SP's low nibble and low byte plus e's unsigned nibble and byte; Z = N = 0 |
| Alu.Rlc | opcodeCases.py:64-69 | the byte rotated left one place; C is the old bit 7 |
| Alu.Rrc | opcodeCases.py:114-120 | the byte rotated right one place; C is the old bit 0 |
| Alu.Rl | opcodeCases.py:165-171 | the byte shifted left with the carry entering bit 0; C is the old bit 7 |
| Alu.RlAtHl | opcodeCases.py:210-219 | RL (HL) stores the same value as RL r but always leaves C = 0 |
| Alu.Rr | opcodeCases.py:227-234 | the byte shifted right with the carry entering bit 7; C is the old bit 0 |
| Alu.RrAtHl | opcodeCases.py:272-281 | RR (HL) stores the same value as RR r but leaves C equal to the old carry |
| Alu.Sla | opcodeCases.py:291-296 | the byte shifted left one place; C = 0 |
| Alu.Sra | opcodeCases.py:344-350 | the byte shifted right with bit 7 kept (the 0x28-0x2F arms); C is the old bit 7 |
| Alu.Swap | opcodeCases.py:398-408 | the nibbles are exchanged; C = 0 |
| Alu.Srl | opcodeCases.py:452-458 | the byte shifted right with 0 entering bit 7; C = 0 |
| Alu.RrcUndoesRlc | opcodeCases.py:64-164 | RRC after RLC gives the original byte back |
| Alu.RrUndoesRl | opcodeCases.py:165-290 | RR after RL gives back both the byte and the carry |
| Alu.SwapInvolution | opcodeCases.py:398-451 | SWAP applied twice is the identity |
| Alu.Res | opcodeCases.py:767-916 | bit b of the result is 0 and every other bit is as before |
| Alu.Set | opcodeCases.py:917-1066 | bit b of the result is 1 and every other bit is as before |
| Sm83.Decode | opcodeCases.py:1072-2288 | an opcode decodes to the fault arm exactly for the eleven unassigned bytes, to STOP exactly for 0x10, to HALT exactly for 0x76, to the CB prefix exactly for 0xCB, and to LD (nn),SP exactly for 0x08 |
| Sm83.CbDecode | opcodeCases.py:58-1070 | 0x00-0x3F are shifts, 0x40-0x7F BIT, 0x80-0xBF RES, 0xC0-0xFF SET; bits 5-3 give the bit number and bits 2-0 the operand |
| Sm83.Set8 | opcodeCases.py:1087-1092 | writing one 8-bit register reads back the written value and keeps AF's low byte, SP, PC, the flags and the interrupt state |
| Sm83.Set8KeepsOthers | opcodeCases.py:1092 | writing one 8-bit register leaves every other 8-bit register unchanged, including the other half of the same pair |
| Sm83.Set16 | opcodeCases.py:1079-1081 | writing a 16-bit pair reads back the value and leaves the other pairs, AF, PC, the flags and the interrupt state unchanged |
| Sm83.FlagBits | opcodeCases.py:43-44 | `flag_bits` has a zero low nibble |
| Sm83.FlagsOfNibble | opcodeCases.py:2224-2227 | POP AF reads Z, N, H, C from bits 7, 6, 5, 4 of the popped low byte |
| Sm83.FlagsOfFlagBits | opcodeCases.py:43-44 | unpacking `flag_bits` gives the same four flags back |
| Sm83.FlagBitsOfFlags | opcodeCases.py:2224-2228 | packing the flags unpacked from a byte gives that byte with its low nibble cleared |
| Sm83.Imm16IsTwoImm8 | opcodeCases.py:46-56 | `read_imm_u16` is two `read_imm_u8` reads, low byte first; it advances PC by 2 mod 65536 and costs two ticks |
| Sm83.ExecControl | opcodeCases.py:1077-1078 | among NOP, STOP, HALT, DI, EI, the CB prefix and the unassigned opcodes, exactly STOP, HALT and the unassigned opcodes end the run |
| Sm83.ExecWide | opcodeCases.py:1108-1111 | among the 16-bit arms only LD (nn),SP can end the run |
| Sm83.ExecOperand | opcodeCases.py:1380-1518 | the LD r,r', LD r,n and INC/DEC r arms never end the run |
| Sm83.ExecAccumulator | opcodeCases.py:1520-1950 | the ALU arms, the accumulator rotates, DAA, CPL, SCF and CCF never end the run |
| Sm83.ExecTransfer | opcodeCases.py:1082-1083 | the loads and stores through BC, DE, HL±, (nn) and 0xFF00+n/C never end the run |
| Sm83.ExecJump | opcodeCases.py:1178-1181 | the JR, JP and JP HL arms never end the run |
| Sm83.ExecStack | opcodeCases.py:1952-2005 | the PUSH, POP, CALL, RET, RETI and RST arms never end the run |
| Sm83.Exec | opcodeCases.py:1072-2288 | one arm can end the run only if it is STOP, HALT, an unassigned opcode or LD (nn),SP |
| Sm83.DecodedForms | opcodeCases.py:1999-2005 | every decoded RST has a vector that is a multiple of 8 up to 0x38, and no opcode decodes to LD (HL),(HL) (0x76 is HALT) |
| Sm83Laws.ExecCbTicks | opcodeCases.py:58-1070 | a CB operation costs one tick per bus call: 0 on a register, 1 for BIT (HL), 2 for a read-modify-write of (HL) |
| Sm83Laws.CyclesMatchTable | opcodeCases.py:1072-2288 | for every arm that does not fault, the ticks it spends plus the opcode fetch equal the SM83 cycle table, with taken and not-taken costs for conditional arms |
| Sm83Laws.CyclesOfLoads | opcodeCases.py:1380-1518 | LD r,r' costs 1 cycle and 2 with (HL); LD r,n costs 2 and 3 with (HL) |
| Sm83Laws.CyclesOfSteps | opcodeCases.py:1319-1332 | INC/DEC r costs 1 cycle and INC/DEC (HL) costs 3 |
| Sm83Laws.CyclesOfCalls | opcodeCases.py:1976-2005 | CALL cc costs 3 cycles not taken and 6 taken; CALL and RST cost 6 and 4 |
| Sm83Laws.CyclesOfStack | opcodeCases.py:1952-1966 | RET cc costs 2 and 5; RET and RETI cost 4; POP costs 3 and PUSH 4 |
| Sm83Laws.CyclesOfJumps | opcodeCases.py:1217-1222 | JR costs 3 and JR cc 2 or 3; JP costs 4 and JP cc 3 or 4; JP HL costs 1 |
| Sm83Laws.CyclesOfArith | opcodeCases.py:1520-1526 | the ALU arms cost 1 cycle and 2 with (HL) or an immediate; the accumulator rotates, DAA, CPL, SCF and CCF cost 1 |
| Sm83Laws.CyclesOfWide | opcodeCases.py:2188-2196 | LD rr,nn costs 3; INC/DEC rr and ADD HL,rr cost 2; LD (nn),SP costs 5; ADD SP,e costs 4; LD HL,SP+e costs 3; LD SP,HL costs 2 |
| Sm83Laws.CyclesOfTransfers | opcodeCases.py:2166-2167 | LD through BC, DE, HL± and 0xFF00+C costs 2 cycles |
| Sm83Laws.CyclesOfImmTransfers | opcodeCases.py:2157-2159 | LDH through 0xFF00+n costs 3 cycles and LD through (nn) costs 4 |
| Sm83Laws.CyclesOfControl | opcodeCases.py:2233-2234 | NOP, DI and EI cost 1 cycle |
| Sm83Laws.CyclesOfPrefix | opcodeCases.py:1074-1075 | the CB prefix never ends the run; it costs 2 cycles on a register, 3 for BIT (HL) and 4 for the other (HL) operations |
| Sm83Laws.StoreTicks | opcodeCases.py:1495-1503 | storing to a register costs nothing and storing to (HL) costs one tick |
| Sm83Laws.StepTicks | opcodeCases.py:1319-1332 | INC/DEC of a register costs nothing beyond the fetch and of (HL) costs two ticks |
| Sm83Laws.CostBounds | opcodeCases.py:1072-2288 | every instruction that does not fault costs between 1 and 6 machine cycles, fetch included |
| Sm83Laws.PoppedAfterPushed | opcodeCases.py:1961-1966 | popping what was just pushed gives the pushed word and restores every register |
| Sm83Laws.PushThenPop | opcodeCases.py:1961-1990 | POP rr after PUSH rr restores every register, SP included |
| Sm83Laws.PushThenPopAf | opcodeCases.py:2220-2240 | POP AF after PUSH AF restores every register, except that AF's low byte becomes `flag_bits()` with a zero low nibble |
| Sm83Laws.FlagsLowNibble | opcodeCases.py:2235-2240 | the residual low nibble PUSH AF adds to `flag_bits()` does not change the flags POP AF reads back |
| Sm83Laws.PushLayout | opcodeCases.py:1985-1990 | PUSH decrements SP by 2, puts the high byte at SP+1 and the low byte at SP, and changes no other memory cell or register |
| Sm83Laws.PopLayout | opcodeCases.py:1961-1966 | POP loads the pair with the byte at SP+1 over the byte at SP (POP AF: flags from bits 7..4 of the low byte, low byte rebuilt by `flag_bits`), raises SP by 2 mod 65536, keeps memory and every other register, and takes two ticks |
| Sm83Laws.RetLayout | opcodeCases.py:2015-2021 | RET sets PC to the byte at SP+1 over the byte at SP, raises SP by 2 mod 65536, keeps memory and every other register, and takes three ticks |
| Sm83Laws.CallLayout | opcodeCases.py:2036-2043 | CALL nn lowers SP by 2, writes the high byte of PC+2 at SP-1 and its low byte at SP-2, jumps to the operand (byte at PC+1 over byte at PC), keeps every other register and memory cell, and takes five ticks |
| Sm83Laws.RstLayout | opcodeCases.py:1999-2005 | RST lowers SP by 2, writes PC's high byte at SP-1 and low byte at SP-2, jumps to the vector, keeps every other register and memory cell, and takes three ticks |
| Sm83Laws.CallThenRet | opcodeCases.py:2015-2043 | CALL jumps to its operand; RET after it returns to the address after the operand with SP restored |
| Sm83Laws.RstThenRet | opcodeCases.py:1999-2021 | RST jumps to its vector; RET after it returns to the old PC with SP restored |
| Sm83Laws.RelativeJump | opcodeCases.py:1178-1222 | JR cc jumps to (PC after the operand + i8(e)) mod 65536 when the condition holds and otherwise continues after the operand; JR always jumps; only PC changes |
| Sm83Laws.JumpToHl | opcodeCases.py:2197-2198 | JP HL sets PC to HL, with no tick and no other change |
| Sm83Laws.LoadAfterStore8 | opcodeCases.py:1495-1518 | an 8-bit operand reads back the value just stored there, and the store keeps the flags, PC and SP |
| Sm83Laws.StepKeepsCarry | opcodeCases.py:1087-1098 | INC/DEC change the operand by ±1 mod 256 and keep C and PC |
| Sm83Laws.StepRrWraps | opcodeCases.py:1084-1086 | INC rr / DEC rr (INC BC here, the same shape at every pair) set the pair to (rr ± 1) mod 65536 and keep the flags, AF, PC, the other pairs, the interrupt latches and memory, with one internal tick |
| Sm83Laws.CompareOnlyFlags | opcodeCases.py:1903-1950 | CP r and CP n change only the flags (and PC past the immediate), setting them as SUB does; memory is unchanged |
| Sm83Laws.TestBitOnlyFlags | opcodeCases.py:504-766 | BIT changes no register and no memory byte; it sets Z to the tested bit, N = H = 0, and keeps C |
| Sm83Laws.SingleBitUpdate | opcodeCases.py:767-1066 | RES b and SET b clear or set exactly bit b of the operand and keep the flags; on a register every other 8-bit register, SP, PC and memory are kept, on (HL) every register is kept and only the byte at HL changes |
| Sm83Laws.ShiftResult | opcodeCases.py:64-503 | a CB shift stores the shifted value into its operand and sets Z from it, N = H = 0 and C from the shift |
| Sm83Laws.RlcThenRrc | opcodeCases.py:64-164 | RRC t after RLC t restores the operand |
| Sm83Laws.SwapTwice | opcodeCases.py:398-451 | SWAP t applied twice restores the operand |
| Sm83Laws.RlThenRr | opcodeCases.py:165-290 | RR r after RL r restores the register and the carry |
| Sm83Laws.InterruptLatch | opcodeCases.py:2119-2126 | DI clears ime and nothing else; EI sets only the delayed flag; RETI sets ime, keeps the delayed flag and memory, loads PC with the popped word and raises SP by 2 mod 65536 |
| Sm83Laws.FaultCases | opcodeCases.py:2286-2288 | an opcode ends the run exactly when it is unassigned, STOP, HALT, or LD (nn),SP with nn = 0xFFFF |
| Sm83Laws.FaultOnlyAt | opcodeCases.py:1146-1147 | apart from LD (nn),SP, an instruction ends the run exactly when it is STOP, HALT or unassigned |
| OpCodes.OpCodeTable.constructor | opcodeCases.py:16-41 | the registers start at the post-boot values: AF 0x0100, BC 0x0013, DE 0x00D8, HL 0x014D, SP 0xFFFE, PC 0x0100, Z = H = C = 1, N = 0, ime = 0, no delayed enable |
| OpCodes.OpCodeTable.FlagBits | opcodeCases.py:43-44 | the flags packed as 8Z + 4N + 2H + C in the high nibble, with a zero low nibble |
| OpCodes.OpCodeTable.BusTick | opcodeCases.py:1084-1086 | an internal cycle advances the cycle count by one and changes nothing else |
| OpCodes.OpCodeTable.BusRead | opcodeCases.py:1119 | a read returns the memory byte and costs one tick |
| OpCodes.OpCodeTable.BusWrite | opcodeCases.py:1082-1083 | a write within the flat memory sets that byte and costs one tick; past 0xFFFF it fails |
| OpCodes.OpCodeTable.ReadImmU8 | opcodeCases.py:53-56 | reads the byte at PC, advances PC by one mod 65536, costs one tick |
| OpCodes.OpCodeTable.ReadImmU16 | opcodeCases.py:46-51 | reads the little-endian word at PC, advances PC by two, costs two ticks |
| OpCodes.OpCodeTable.SetFlags | opcodeCases.py:1089-1091 | sets the four flags and nothing else |
| OpCodes.OpCodeTable.SetReg8 | opcodeCases.py:1092 | sets one 8-bit register as `Sm83.Set8` does |
| OpCodes.OpCodeTable.SetReg16 | opcodeCases.py:1079-1081 | sets one 16-bit pair as `Sm83.Set16` does |
| OpCodes.OpCodeTable.LoadOperand | opcodeCases.py:1502-1516 | reads a register without a tick, or (HL) with one |
| OpCodes.OpCodeTable.StoreOperand | opcodeCases.py:1500-1501 | writes a register without a tick, or (HL) with one |
| OpCodes.OpCodeTable.PushWord | opcodeCases.py:1986-1990 | decrements SP twice, writing the high byte then the low byte |
| OpCodes.OpCodeTable.PopWord | opcodeCases.py:1961-1965 | reads the low byte then the high byte at SP, stepping SP by two |
| OpCodes.OpCodeTable.DoLdRrImm | opcodeCases.py:1079-1081 | LD rr,nn leaves the state `Sm83.ExecLdRrImm` gives |
| OpCodes.OpCodeTable.DoStoreA | opcodeCases.py:1082-1083 | LD (BC/DE/HL±),A leaves the state `Sm83.ExecStoreA` gives |
| OpCodes.OpCodeTable.DoLoadA | opcodeCases.py:1118-1120 | LD A,(BC/DE/HL±) leaves the state `Sm83.ExecLoadA` gives |
| OpCodes.OpCodeTable.DoStepRr | opcodeCases.py:1084-1086 | INC/DEC rr leaves the state `Sm83.ExecStepRr` gives |
| OpCodes.OpCodeTable.DoAddHl | opcodeCases.py:1112-1117 | ADD HL,rr leaves the state `Sm83.ExecAddHl` gives |
| OpCodes.OpCodeTable.DoStep8 | opcodeCases.py:1087-1098 | INC/DEC r and (HL) leave the state `Sm83.ExecStep8` gives |
| OpCodes.OpCodeTable.DoLdImm | opcodeCases.py:1099-1101 | LD r,n and LD (HL),n leave the state `Sm83.ExecLdImm` gives |
| OpCodes.OpCodeTable.DoRotA | opcodeCases.py:1102-1107 | RLCA, RRCA, RLA and RRA leave the state `Sm83.ExecRotA` gives |
| OpCodes.OpCodeTable.DoStoreSp | opcodeCases.py:1108-1111 | LD (nn),SP succeeds exactly when `Sm83.ExecStoreSp` does, and then leaves its state |
| OpCodes.OpCodeTable.DoJr | opcodeCases.py:1178-1181 | JR and JR cc leave the state `Sm83.ExecJr` gives |
| OpCodes.OpCodeTable.DoDaa | opcodeCases.py:1249-1265 | DAA leaves the state `Sm83.ExecDaa` gives |
| OpCodes.OpCodeTable.DoCpl | opcodeCases.py:1299-1302 | CPL leaves the state `Sm83.ExecCpl` gives |
| OpCodes.OpCodeTable.DoScf | opcodeCases.py:1336-1339 | SCF leaves the state `Sm83.ExecScf` gives |
| OpCodes.OpCodeTable.DoCcf | opcodeCases.py:1374-1377 | CCF leaves the state `Sm83.ExecCcf` gives |
| OpCodes.OpCodeTable.DoLd | opcodeCases.py:1380-1518 | LD r,r' leaves the state `Sm83.ExecLd` gives |
| OpCodes.OpCodeTable.DoAluR | opcodeCases.py:1520-1950 | the ALU register and (HL) arms leave the state `Sm83.ExecAluR` gives |
| OpCodes.OpCodeTable.DoAluN | opcodeCases.py:1991-1998 | the ALU immediate arms leave the state `Sm83.ExecAluN` gives |
| OpCodes.OpCodeTable.DoRet | opcodeCases.py:2015-2021 | RET and RETI leave the state `Sm83.ExecRet` gives |
| OpCodes.OpCodeTable.DoRetIf | opcodeCases.py:1952-1960 | RET cc leaves the state `Sm83.ExecRetIf` gives |
| OpCodes.OpCodeTable.DoPop | opcodeCases.py:1961-1966 | POP rr leaves the state `Sm83.ExecPop` gives |
| OpCodes.OpCodeTable.DoPush | opcodeCases.py:1985-1990 | PUSH rr leaves the state `Sm83.ExecPush` gives |
| OpCodes.OpCodeTable.DoJp | opcodeCases.py:1967-1975 | JP nn and JP cc leave the state `Sm83.ExecJp` gives |
| OpCodes.OpCodeTable.DoCall | opcodeCases.py:1976-1984 | CALL nn and CALL cc leave the state `Sm83.ExecCall` gives |
| OpCodes.OpCodeTable.DoRst | opcodeCases.py:1999-2005 | RST leaves the state `Sm83.ExecRst` gives |
| OpCodes.OpCodeTable.DoLdhStore | opcodeCases.py:2157-2159 | LDH (n),A leaves the state `Sm83.ExecLdhStore` gives |
| OpCodes.OpCodeTable.DoLdhLoad | opcodeCases.py:2217-2219 | LDH A,(n) leaves the state `Sm83.ExecLdhLoad` gives |
| OpCodes.OpCodeTable.DoStoreHighC | opcodeCases.py:2166-2167 | LD (0xFF00+C),A leaves the state `Sm83.ExecStoreHighC` gives |
| OpCodes.OpCodeTable.DoLoadHighC | opcodeCases.py:2230-2232 | LD A,(0xFF00+C) leaves the state `Sm83.ExecLoadHighC` gives |
| OpCodes.OpCodeTable.DoStoreAbs | opcodeCases.py:2199-2201 | LD (nn),A leaves the state `Sm83.ExecStoreAbs` gives |
| OpCodes.OpCodeTable.DoLoadAbs | opcodeCases.py:2266-2268 | LD A,(nn) leaves the state `Sm83.ExecLoadAbs` gives |
| OpCodes.OpCodeTable.DoAddSp | opcodeCases.py:2188-2196 | ADD SP,e leaves the state `Sm83.ExecAddSp` gives |
| OpCodes.OpCodeTable.DoLdHlSp | opcodeCases.py:2255-2262 | LD HL,SP+e leaves the state `Sm83.ExecLdHlSp` gives |
| OpCodes.OpCodeTable.DoCb | opcodeCases.py:64-1066 | one CB operation leaves the state `Sm83.ExecCb` gives |
| OpCodes.OpCodeTable.ExecutePrefixed | opcodeCases.py:58-1070 | `execute_prefixed` reads the CB opcode at PC, steps PC and runs its arm, leaving the state `Sm83.Prefixed` gives |
| OpCodes.OpCodeTable.TableLookup | opcodeCases.py:1072-2288 | `tableLookup` succeeds exactly when `Sm83.Lookup` does not fault, and then leaves its state |
| OpCodes.OpCodeTable.Dispatch | opcodeCases.py:1072-2288 | running a decoded instruction succeeds exactly when `Sm83.Exec` does not fault, and then leaves its state |
| OpCodes.OpCodeTable.RunControl | opcodeCases.py:1146-1147 | the control arms agree with `Sm83.ExecControl`, fault included |
| OpCodes.OpCodeTable.RunWide | opcodeCases.py:1108-1111 | the 16-bit arms agree with `Sm83.ExecWide`, fault included |
| OpCodes.OpCodeTable.RunOperand | opcodeCases.py:1380-1518 | the 8-bit load and INC/DEC arms agree with `Sm83.ExecOperand` |
| OpCodes.OpCodeTable.RunAccumulator | opcodeCases.py:1520-1950 | the ALU and accumulator arms agree with `Sm83.ExecAccumulator` |
| OpCodes.OpCodeTable.RunTransfer | opcodeCases.py:1082-1083 | the memory transfer arms agree with `Sm83.ExecTransfer` |
| OpCodes.OpCodeTable.RunJump | opcodeCases.py:1178-1181 | the jump arms agree with `Sm83.ExecJump` |
| OpCodes.OpCodeTable.RunStack | opcodeCases.py:1952-2005 | the stack arms agree with `Sm83.ExecStack` |
| Bus.RegionOf | memory.py:53-80 | the address regions partition all addresses: ROM below 0x8000, WRAM 0xC000-0xDFFF, prohibited 0xE000-0xFDFF and 0xFEA0-0xFEFF, OAM 0xFE00-0xFE9F, HRAM 0xFF80-0xFFFE, registers 0xFF00-0xFF7F and 0xFFFF, nothing for 0x8000-0xBFFF and past 0xFFFF |
| Bus.WriteIo | memory.py:111-134 | a register write succeeds exactly for the ten named addresses, sets that register and leaves the other registers and LY unchanged |
| Bus.Load | memory.py:47-80 | in testing mode only addresses past 0xFFFF are fatal; otherwise 0x8000-0xBFFF give no value, the prohibited areas read 0xFF, WRAM reads `wram[addr - 0xC000]`, every register read other than 0xFF44 is fatal and 0xFF44 reads LY; in testing mode the flat byte is returned, a ROM address reads the image byte or is fatal past its end, OAM and HRAM read their scalar or hand back the whole list, and only OAM and HRAM ever give the whole list |
| Bus.Store | memory.py:83-137 | in testing mode a write succeeds exactly within the flat memory; otherwise it fails exactly for ROM, 0x8000-0xBFFF, past 0xFFFF and unnamed registers, and changes nothing in the prohibited areas |
| Bus.LoadAfterStore | memory.py:86-94 | a read after a successful write to the flat memory, WRAM, OAM or HRAM returns the written byte |
| Bus.StoreIsLocal | memory.py:86-131 | a write changes what no other address reads, except the other addresses of OAM or HRAM |
| Bus.SlotWriteCoversRegion | memory.py:102-108 | a write into OAM or HRAM replaces the whole list, so every address of that region then reads the written value |
| Bus.Memory.constructor | memory.py:7-36 | without a ROM image the bus is in testing mode; memory and WRAM are zero, OAM and HRAM are the initial lists, and the cycle counter is 0 |
| Bus.Memory.Tick | memory.py:39-40 | the cycle counter goes up by exactly one and nothing else changes |
| Bus.Memory.Read | memory.py:47-80 | ticks once and returns what `Load` says of the state before the call |
| Bus.Memory.Write | memory.py:83-137 | ticks once; succeeds exactly when `Store` does, leaving its state, and otherwise changes nothing |
| Driver.StepCost | cpu.py:12-21 | one `execute` that does not fault costs between 1 and 6 machine cycles |
| Driver.StepTimed | cpu.py:12-21 | every `execute` that does not fault adds between 1 and 6 cycles to the bus counter, which is what makes the frame loop end |
| Driver.Frame | cpu.py:28-34 | when the loop ends, its cycle total lies in 17556..17561 and has grown past its starting value |
| Driver.RenderedFrame | cpu.py:23-36 | a rendered frame spends between 17556 and 17561 machine cycles |
| Driver.TurnStops | cpu.py:31-32 | an instruction that faults stops the frame |
| Driver.TurnContinues | cpu.py:31-34 | an instruction that succeeds adds its ticks to the total, strictly increasing it, and the rest of the frame continues from the new state |
| Driver.Cpu.constructor | cpu.py:8-10 | the CPU starts with the post-boot registers, a zeroed flat memory and a zero cycle counter |
| Driver.Cpu.Execute | cpu.py:12-21 | reads the opcode at PC with one tick, steps PC mod 65536 and runs the arm; succeeds exactly when `Driver.Step` does, and then leaves its state |
| Driver.Cpu.Advance | cpu.py:32-34 | runs one instruction, adds its ticks to the total and resets the cycle counter to 0 |
| Driver.Cpu.Turn | cpu.py:31-34 | one loop iteration keeps the remaining frame equal to `Driver.Frame` of the new state |
| Driver.Cpu.RenderFrame | cpu.py:23-36 | the loop ends (decreasing 17556 - total); it succeeds exactly when `Driver.RenderedFrame` renders, with that state and a total of at least 17556 |
| Video.TickPhases | ppu.py:182-193 | with LYC ≥ 160 only VBLANK is called; otherwise, with c the position in the 114-cycle line, OAMSCAN iff c < 40, DRAW iff c < 83, HBLANK iff c ≥ 83, and OAMSCAN is always followed by DRAW |
| Video.PhasesRepeatEachLine | ppu.py:186 | the handlers called repeat every 114 cycles |
| Video.PhasesWithinLine | ppu.py:188-193 | at cycle c of a visible line a handler is called exactly when c lies in its phase |
| Video.CountStep | ppu.py:188-193 | one more cycle adds one call of a handler exactly when that cycle is in its phase |
| Video.CountsUpTo | ppu.py:182-193 | over the first n cycles of a visible line each handler is called as many times as its phase budget allows |
| Video.LineBudget | ppu.py:182-193 | over one visible line OAMSCAN is called on 40 cycles, DRAW on 83, HBLANK on 31 and VBLANK on none |
| Video.TileAddress | ppu.py:114-117 | the tile address is 16-aligned and within 0x8000..0x9FF0; it is 0x8000 + 16 n with LCDC bit 4 set and 0x9000 + 16 n otherwise |
| Video.RowOffset | ppu.py:111 | the row offset is even and at most 14 |
| Video.RowIndex | ppu.py:119 | the `vram` index of a fetch is even and inside the 0x2000-byte list, with room for a second byte |
| Video.RowOffsetRepeats | ppu.py:124 | the row offset repeats every eight lines |
| Video.Pixel | ppu.py:136 | a pixel is in 0..3; its low bit is bit 7 - i of `tLow` and its high bit is bit 7 - i of `tHigh` |
| Video.DecodeRow | ppu.py:134-136 | a row has eight pixels in 0..3, whose low and high bits are the bits of `tLow` and `tHigh`, most significant first |
| Video.EncodeDecodeRow | ppu.py:136 | encoding the decoded row gives `tLow` and `tHigh` back |
| Video.DecodeEncodeRow | ppu.py:136 | eight colour indices in 0..3 are the decode of their two bit planes, which are bytes |
| Video.DecodeRowInjective | ppu.py:136 | the eight pixels determine `tLow` and `tHigh` uniquely |

## Left out

- `Memory.tick` also ticks the PPU, the sound unit and the timer (memory.py:42-44). The model
  counts cycles only: timer.py and apu.py are not part of this model, and the PPU handlers that
  `tick` would call are empty or refer to undefined names.
- ROM loading from a file (memory.py:27-30) is file I/O. `Bus.Memory.constructor` takes the
  image as a value instead.
- `print` (opcodeCases.py:61, 1069, 2287; memory.py:79, 133, 136) is console output. Only the
  `exit(1)` that follows it is modelled, as the outcome `Fault` or `Fatal`.
- Driver.Cpu.Execute: the CPU runs only against the flat memory of testing mode (`Cpu.Valid`
  requires `mem.testing`). Outside testing mode a read can return `None` or the whole OAM/HRAM
  list, which the Python code would then use in arithmetic. The bus decode itself (`Bus.Load`,
  `Bus.Store`) covers both modes.
- Bus.Store: a write into ROM is a failure in the model. The loaded ROM is an immutable `bytes`
  object, so `self.rom[addr] = value` raises.
- OAM and HRAM are modelled as a slot: the initial list, or the last value written. Their
  contents as bytes are not modelled, because the code replaces or returns the whole list.
- The bitmap that `render_frame` returns (cpu.py:36) is PPU state and is not modelled.
- Driver.Cpu.RenderFrame: requires the cycle counter to be 0 at the start, which holds after
  construction and after every loop iteration.
- Driver.Frame: bounds the overshoot past 17556 by the largest instruction cost (six cycles),
  not by the cost of the last instruction.
- Alu.Daa: its contract does not state the BCD sum. It states the carry, zero and half-carry
  flags and the identity on valid BCD input; the value is the code's correction arithmetic.
- Sm83.Exec: its own contract states only which arms can fault. What each arm does is stated
  by the lemmas of `Sm83Laws` and by the `OpCodeTable` methods proved against it.
- The one-instruction EI delay is not applied, because none of the modelled files applies it.
- `Decode` groups the 0x40-0xBF arms and the whole CB table by bit fields. The arms written out
  for A,A (0x7F, 0x97, 0xA7, 0xAF, 0xB7, 0xBF) are proved equal to the generic operation by
  `Alu.SelfOperandArms`.
- The rest of ppu.py is not modelled: the sprite and background fetchers' state (`FStep`, the
  FIFOs, `fetcherX`), the tile-map lookup (float division by 8), the window, the frame buffer
  and the LY/STAT bookkeeping. Video.RowIndex reads `tHigh` at the same index as `tLow`, as the
  code does.
