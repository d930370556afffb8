/**
 * The `CPU` object of cpu.py: one instruction is the opcode fetch at PC followed by the arm of
 * the table, and a frame is the run of instructions whose machine cycles first reach
 * `M_CYCLES_PER_FRAME`.
 */
module Driver {
  import opened Bits
  import Bus
  import opened Sm83
  import opened Sm83Laws
  import opened OpCodes

  /** `M_CYCLES_PER_FRAME`. */
  const MCyclesPerFrame := 17556

  /** `execute`: read the opcode at PC (one tick), step PC, run the arm. */
  function Step(m: Machine): Outcome
  {
    Lookup(PastImm8(m), Imm8(m))
  }

  /**
   * Every instruction that does not end the run adds between one and six machine cycles to
   * the bus counter, as the SM83 timing table says.
   */
  lemma StepCost(m: Machine)
    ensures Step(m).Next? ==> m.ticks + 1 <= Step(m).m.ticks <= m.ticks + 6
  {
    if Step(m).Next? {
      CostBounds(PastImm8(m), Imm8(m));
    }
  }

  /** A step that, where it completes, adds one to six machine cycles to the bus counter. */
  ghost predicate Timed(step: Machine -> Outcome)
  {
    forall m :: step(m).Next? ==> m.ticks + 1 <= step(m).m.ticks <= m.ticks + 6
  }

  /** `execute` is timed. */
  lemma StepTimed()
    ensures Timed(Step)
  {
    forall m: Machine
      ensures Step(m).Next? ==> m.ticks + 1 <= Step(m).m.ticks <= m.ticks + 6
    {
      StepCost(m);
    }
  }

  datatype FrameEnd = Rendered(m: Machine, ran: nat) | Stopped

  /**
   * The loop of `render_frame` over a timed step, from machine m, whose bus counter has just
   * been reset, with `ran` cycles counted so far: each instruction's counter is added to `ran`
   * and reset, until `ran` reaches the frame length. A frame ends at most five cycles past the
   * frame length.
   */
  function Frame(step: Machine -> Outcome, m: Machine, ran: nat): (r: FrameEnd)
    requires Timed(step) && m.ticks == 0 && ran < MCyclesPerFrame + 6
    ensures r.Rendered? ==> MCyclesPerFrame <= r.ran < MCyclesPerFrame + 6 && r.m.ticks == 0
    ensures r.Rendered? && ran < MCyclesPerFrame ==> ran < r.ran
    decreases MCyclesPerFrame - ran
  {
    if ran >= MCyclesPerFrame then
      Rendered(m, ran)
    else
      match step(m)
      case Fault => Stopped
      case Next(m1) => Frame(step, m1.(ticks := 0), ran + m1.ticks)
  }

  /** `render_frame` from machine m: the frame loop over `execute`. */
  ghost function RenderedFrame(m: Machine): (r: FrameEnd)
    requires m.ticks == 0
    ensures r.Rendered? ==> MCyclesPerFrame <= r.ran < MCyclesPerFrame + 6 && r.m.ticks == 0
  {
    StepTimed();
    Frame(Step, m, 0)
  }

  /** An instruction that stops the emulator stops the frame. */
  lemma TurnStops(step: Machine -> Outcome, m: Machine, ran: nat)
    requires Timed(step) && m.ticks == 0 && ran < MCyclesPerFrame && step(m).Fault?
    ensures Frame(step, m, ran) == Stopped
  {
  }

  /**
   * An instruction that completes hands the rest of the frame to the state after it, with its
   * cycles counted and its counter reset.
   */
  lemma TurnContinues(step: Machine -> Outcome, m: Machine, ran: nat, next: Machine, ran': nat)
    requires Timed(step) && m.ticks == 0 && ran < MCyclesPerFrame && step(m).Next?
    requires next == step(m).m.(ticks := 0) && ran' == ran + step(m).m.ticks
    ensures ran < ran' < MCyclesPerFrame + 6
    ensures Frame(step, m, ran) == Frame(step, next, ran')
  {
  }

  class Cpu {
    const mem: Bus.Memory
    const table: OpCodeTable

    ghost predicate Valid()
      reads this, table, mem
    {
      table.mem == mem && table.Valid()
    }

    /** `CPU(rom)` without a cartridge: a testing-mode bus and the power-on registers. */
    constructor ()
      ensures Valid() && fresh(mem) && fresh(table)
      ensures table.Registers() == PowerOn
      ensures mem.ticksPerInstr == 0 && forall a :: 0 <= a < 0x10000 ==> mem.memory[a] == 0
    {
      var bus := new Bus.Memory(Bus.None);
      mem := bus;
      table := new OpCodeTable(bus);
    }

    /** `execute`: `ok` is false where the emulator stops. */
    method Execute() returns (ok: bool)
      requires Valid()
      modifies table, mem, mem.memory, mem.wram
      ensures Valid()
      ensures ok == Step(old(table.Snapshot())).Next?
      ensures ok ==> table.Snapshot() == Step(old(table.Snapshot())).m
    {
      ghost var m0 := table.Snapshot();
      var opcode := table.BusRead(table.pc);
      table.pc := U16(table.pc + 1);
      assert table.Snapshot() == PastImm8(m0) && opcode == Imm8(m0);
      ok := table.TableLookup(opcode);
    }

    /**
     * One pass of the `render_frame` loop body: execute, add the instruction's cycles to the
     * count, reset the bus counter.
     */
    method Advance(ghost cur: Machine, ran: nat) returns (ok: bool, ran': nat)
      requires Valid() && table.Snapshot() == cur
      modifies table, mem, mem.memory, mem.wram
      ensures Valid()
      ensures ok == Step(cur).Next?
      ensures ok ==> ran' == ran + Step(cur).m.ticks && mem.ticksPerInstr == 0
      ensures ok ==> table.Snapshot() == Step(cur).m.(ticks := 0)
    {
      ran' := ran;
      ok := Execute();
      if ok {
        ran' := ran + mem.ticksPerInstr;
        mem.ticksPerInstr := 0;
      }
    }

    /**
     * The loop body seen from the frame: `Frame` from the state before it equals `Frame` from
     * the state after it, or is `Stopped` where the emulator stops.
     */
    method Turn(ghost cur: Machine, ran: nat) returns (ok: bool, ran': nat, ghost next: Machine)
      requires Valid() && table.Snapshot() == cur && cur.ticks == 0 && ran < MCyclesPerFrame
      requires Timed(Step)
      modifies table, mem, mem.memory, mem.wram
      ensures Valid()
      ensures !ok ==> Frame(Step, cur, ran) == Stopped
      ensures ok ==> ran < ran' < MCyclesPerFrame + 6 && mem.ticksPerInstr == 0
      ensures ok ==> table.Snapshot() == next && next.ticks == 0
      ensures ok ==> Frame(Step, cur, ran) == Frame(Step, next, ran')
    {
      StepTimed();
      next := cur;
      ok, ran' := Advance(cur, ran);
      if !ok {
        TurnStops(Step, cur, ran);
        return;
      }
      next := Step(cur).m.(ticks := 0);
      TurnContinues(Step, cur, ran, next, ran');
    }

    /**
     * `render_frame`: run instructions until the cycles counted reach the frame length. `ok`
     * is false where the emulator stops; otherwise the state and the cycles counted are the
     * ones `Frame` gives.
     */
    method RenderFrame() returns (ok: bool, ran: nat)
      requires Valid() && mem.ticksPerInstr == 0
      modifies table, mem, mem.memory, mem.wram
      ensures Valid()
      ensures ok == RenderedFrame(old(table.Snapshot())).Rendered?
      ensures ok ==> table.Snapshot() == RenderedFrame(old(table.Snapshot())).m
      ensures ok ==> ran == RenderedFrame(old(table.Snapshot())).ran
    {
      StepTimed();
      ghost var cur := table.Snapshot();
      ghost var goal := Frame(Step, cur, 0);
      ran := 0;
      ok := true;
      while ran < MCyclesPerFrame
        invariant Valid()
        invariant ran < MCyclesPerFrame + 6 && mem.ticksPerInstr == 0
        invariant table.Snapshot() == cur && cur.ticks == 0
        invariant Frame(Step, cur, ran) == goal
        decreases MCyclesPerFrame - ran
      {
        ok, ran, cur := Turn(cur, ran);
        if !ok {
          return;
        }
      }
    }
  }
}
