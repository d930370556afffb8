/**
 * The bus of the emulator (`Memory` in memory.py): the cycle counter that every access advances,
 * the flat 64 KiB memory used when no cartridge is inserted, and the region decode used when one
 * is.
 *
 * The pure part states the decode: `RegionOf` classifies every address, `Load` and `Store` say
 * what a read returns and what a write leaves behind, `WriteIo` maps the writable I/O addresses
 * to their registers. The class `Memory` holds the state the Python object updates in place
 * (the flat memory and the work RAM as arrays, the scalar fields as variables) and its methods
 * `Tick`, `Read` and `Write` are proved against those functions.
 */
module Bus {
  import opened Bits

  datatype Option<T> = None | Some(value: T)

  /** What `read` hands back: a byte, the whole OAM / HRAM list, nothing, or a fatal stop. */
  datatype Loaded = Value(v: Byte) | WholeList | NoValue | Fatal

  /**
   * The `oam` and `hram` fields: the list the constructor creates, until a write replaces the
   * whole field by the written value.
   */
  datatype Slot = List | Scalar(v: Byte)

  /** The address regions `read` and `write` tell apart. */
  datatype Region = Rom | Wram | Prohibited | Oam | Hram | Ports | Unmapped

  /**
   * The memory-mapped registers the bus reaches: `timer.TAC`, `IF`, `apu.NR50`..`NR52`,
   * `ppu.LCDC`, `ppu.SCY`, `ppu.SCX`, `ppu.BGP`, `IE`, and `ppu.LY` (read only).
   */
  datatype IoRegs = IoRegs(
    tac: Byte, iflag: Byte, nr50: Byte, nr51: Byte, nr52: Byte,
    lcdc: Byte, scy: Byte, scx: Byte, bgp: Byte, ie: Byte, ly: Byte)

  /** The state the bus decode depends on, as values. */
  datatype State = State(
    testing: bool, flat: seq<Byte>, rom: seq<Byte>, wram: seq<Byte>,
    oam: Slot, hram: Slot, io: IoRegs)

  ghost predicate WellFormed(s: State)
  {
    |s.flat| == 0x10000 && |s.wram| == 0x2000
  }

  /**
   * The region of an address, decoded from its top nibble `addr >> 12` and, in the 0xF page,
   * from the sub-ranges. Addresses past 0xFFFF have no page arm and fall with 0x8000-0xBFFF.
   */
  function RegionOf(addr: nat): (r: Region)
    ensures r == Rom <==> addr < 0x8000
    ensures r == Wram <==> 0xC000 <= addr < 0xE000
    ensures r == Prohibited <==> 0xE000 <= addr < 0xFE00 || 0xFEA0 <= addr < 0xFF00
    ensures r == Oam <==> 0xFE00 <= addr < 0xFEA0
    ensures r == Hram <==> 0xFF80 <= addr < 0xFFFF
    ensures r == Ports <==> 0xFF00 <= addr < 0xFF80 || addr == 0xFFFF
    ensures r == Unmapped <==> 0x8000 <= addr < 0xC000 || 0x10000 <= addr
  {
    var page := addr / 0x1000;
    if page < 8 then Rom
    else if page == 0xC || page == 0xD then Wram
    else if page == 0xE then Prohibited
    else if page == 0xF then
      if addr <= 0xFDFF then Prohibited
      else if 0xFE00 <= addr <= 0xFE9F then Oam
      else if 0xFEA0 <= addr <= 0xFEFF then Prohibited
      else if 0xFF80 <= addr <= 0xFFFE then Hram
      else Ports
    else Unmapped
  }

  /** The I/O addresses a write is accepted at. */
  const WritableIo: set<nat> :=
    {0xFF07, 0xFF0F, 0xFF24, 0xFF25, 0xFF26, 0xFF40, 0xFF42, 0xFF43, 0xFF47, 0xFFFF}

  /** The register behind a writable I/O address. */
  function Target(io: IoRegs, addr: nat): Byte
    requires addr in WritableIo
  {
    match addr
    case 0xFF07 => io.tac
    case 0xFF0F => io.iflag
    case 0xFF24 => io.nr50
    case 0xFF25 => io.nr51
    case 0xFF26 => io.nr52
    case 0xFF40 => io.lcdc
    case 0xFF42 => io.scy
    case 0xFF43 => io.scx
    case 0xFF47 => io.bgp
    case 0xFFFF => io.ie
  }

  /**
   * A write in the I/O range: one of the named registers takes the value, any other address
   * stops the emulator (`None`).
   */
  function WriteIo(io: IoRegs, addr: nat, v: Byte): (r: Option<IoRegs>)
    ensures r.Some? <==> addr in WritableIo
    ensures r.Some? ==> Target(r.value, addr) == v
    ensures r.Some? ==> forall a :: a in WritableIo && a != addr ==> Target(r.value, a) == Target(io, a)
    ensures r.Some? ==> r.value.ly == io.ly
  {
    match addr
    case 0xFF07 => Some(io.(tac := v))
    case 0xFF0F => Some(io.(iflag := v))
    case 0xFF26 => Some(io.(nr52 := v))
    case 0xFF25 => Some(io.(nr51 := v))
    case 0xFF24 => Some(io.(nr50 := v))
    case 0xFF40 => Some(io.(lcdc := v))
    case 0xFF42 => Some(io.(scy := v))
    case 0xFF43 => Some(io.(scx := v))
    case 0xFF47 => Some(io.(bgp := v))
    case 0xFFFF => Some(io.(ie := v))
    case _ => None
  }

  /** What `read(addr)` returns after its tick. */
  function Load(s: State, addr: nat): (r: Loaded)
    requires WellFormed(s)
    ensures s.testing ==> (r.Fatal? <==> 0x10000 <= addr)
    ensures !s.testing ==> (r.NoValue? <==> RegionOf(addr) == Unmapped)
    ensures !s.testing && RegionOf(addr) == Prohibited ==> r == Value(0xFF)
    ensures !s.testing && RegionOf(addr) == Wram ==> r == Value(s.wram[addr - 0xC000])
    ensures !s.testing && RegionOf(addr) == Ports ==> (r.Fatal? <==> addr != 0xFF44)
    ensures s.testing && addr < 0x10000 ==> r == Value(s.flat[addr])
    ensures !s.testing && RegionOf(addr) == Rom ==> r == (if addr < |s.rom| then Value(s.rom[addr]) else Fatal)
    ensures !s.testing && addr == 0xFF44 ==> r == Value(s.io.ly)
    ensures !s.testing && RegionOf(addr) == Oam ==> r == (if s.oam.Scalar? then Value(s.oam.v) else WholeList)
    ensures !s.testing && RegionOf(addr) == Hram ==> r == (if s.hram.Scalar? then Value(s.hram.v) else WholeList)
    ensures r.WholeList? ==> !s.testing && RegionOf(addr) in {Oam, Hram}
  {
    if s.testing then
      if addr < 0x10000 then Value(s.flat[addr]) else Fatal
    else
      match RegionOf(addr)
      case Rom => if addr < |s.rom| then Value(s.rom[addr]) else Fatal
      case Wram => Value(s.wram[addr - 0xC000])
      case Prohibited => Value(0xFF)
      case Oam => if s.oam.Scalar? then Value(s.oam.v) else WholeList
      case Hram => if s.hram.Scalar? then Value(s.hram.v) else WholeList
      case Ports => if addr == 0xFF44 then Value(s.io.ly) else Fatal
      case Unmapped => NoValue
  }

  /**
   * What `write(addr, v)` leaves behind after its tick, or `None` where it stops the emulator:
   * an index past the flat memory, a ROM address (the loaded image is an immutable byte
   * string), an unnamed I/O register, or 0x8000-0xBFFF.
   */
  function Store(s: State, addr: nat, v: Byte): (r: Option<State>)
    requires WellFormed(s)
    ensures r.Some? ==> WellFormed(r.value) && r.value.testing == s.testing && r.value.rom == s.rom
    ensures s.testing ==> (r.Some? <==> addr < 0x10000)
    ensures !s.testing ==> (r.None? <==> RegionOf(addr) in {Rom, Unmapped} || (RegionOf(addr) == Ports && addr !in WritableIo))
    ensures !s.testing && RegionOf(addr) == Prohibited ==> r == Some(s)
  {
    if s.testing then
      if addr < 0x10000 then Some(s.(flat := s.flat[addr := v])) else None
    else
      match RegionOf(addr)
      case Rom => None
      case Wram => Some(s.(wram := s.wram[addr - 0xC000 := v]))
      case Prohibited => Some(s)
      case Oam => Some(s.(oam := Scalar(v)))
      case Hram => Some(s.(hram := Scalar(v)))
      case Ports =>
        (match WriteIo(s.io, addr, v)
         case Some(io) => Some(s.(io := io))
         case None => None)
      case Unmapped => None
  }

  /** A read after a write at the same address returns the written byte, in either mode. */
  lemma LoadAfterStore(s: State, addr: nat, v: Byte)
    requires WellFormed(s) && Store(s, addr, v).Some?
    requires s.testing || RegionOf(addr) in {Wram, Oam, Hram}
    ensures Load(Store(s, addr, v).value, addr) == Value(v)
  {
  }

  /** A write changes what a read at any other address returns only inside OAM or HRAM. */
  lemma StoreIsLocal(s: State, addr: nat, v: Byte, other: nat)
    requires WellFormed(s) && Store(s, addr, v).Some? && other != addr
    requires s.testing || !(RegionOf(addr) == RegionOf(other) && RegionOf(addr) in {Oam, Hram})
    ensures Load(Store(s, addr, v).value, other) == Load(s, other)
  {
  }

  /**
   * OAM and HRAM writes replace the whole field, so outside testing mode a write anywhere in
   * OAM (or HRAM) makes every address of that region read back the written byte.
   */
  lemma SlotWriteCoversRegion(s: State, addr: nat, v: Byte, other: nat)
    requires WellFormed(s) && !s.testing
    requires RegionOf(addr) in {Oam, Hram} && RegionOf(other) == RegionOf(addr)
    ensures Load(Store(s, addr, v).value, other) == Value(v)
  {
  }

  /**
   * The bus object. In testing mode (`testing`, no cartridge path given) only `memory` and the
   * counter are used; otherwise `rom`, `wram`, `oam`, `hram` and the I/O registers are.
   */
  class Memory {
    const testing: bool
    const memory: array<Byte>
    const rom: seq<Byte>
    const wram: array<Byte>
    var oam: Slot
    var hram: Slot
    var io: IoRegs
    var ticksPerInstr: nat

    ghost predicate Valid()
      reads this
    {
      memory.Length == 0x10000 && wram.Length == 0x2000 && memory != wram
    }

    /** The decode state, as a value. */
    ghost function View(): State
      reads this, memory, wram
    {
      State(testing, memory[..], rom, wram[..], oam, hram, io)
    }

    /**
     * `Memory(rom)`: with a cartridge image (`Some`), the image is the ROM; without one, the bus
     * is in testing mode with a zeroed flat memory. The registers of the timer and the sound
     * unit start at 0 here.
     */
    constructor (image: Option<seq<Byte>>)
      ensures Valid() && fresh(memory) && fresh(wram)
      ensures testing <==> image.None?
      ensures image.Some? ==> rom == image.value
      ensures forall a :: 0 <= a < 0x10000 ==> memory[a] == 0
      ensures forall a :: 0 <= a < 0x2000 ==> wram[a] == 0
      ensures oam == List && hram == List && ticksPerInstr == 0
      ensures io == IoRegs(0, 0, 0, 0, 0, 0, 0, 0, 0, 0, 0)
    {
      testing := image.None?;
      rom := if image.Some? then image.value else seq(0x8000, _ => 0);
      memory := new Byte[0x10000](_ => 0);
      wram := new Byte[0x2000](_ => 0);
      oam := List;
      hram := List;
      io := IoRegs(0, 0, 0, 0, 0, 0, 0, 0, 0, 0, 0);
      ticksPerInstr := 0;
    }

    /** One machine cycle: the counter advances by one and nothing else changes. */
    method Tick()
      modifies this
      ensures ticksPerInstr == old(ticksPerInstr) + 1
      ensures oam == old(oam) && hram == old(hram) && io == old(io)
    {
      ticksPerInstr := ticksPerInstr + 1;
    }

    /** `read`: one tick, then the decoded lookup; the state is otherwise unchanged. */
    method Read(addr: nat) returns (r: Loaded)
      requires Valid()
      modifies this
      ensures r == Load(old(View()), addr)
      ensures ticksPerInstr == old(ticksPerInstr) + 1
      ensures oam == old(oam) && hram == old(hram) && io == old(io)
    {
      Tick();
      if testing {
        if addr < 0x10000 {
          r := Value(memory[addr]);
        } else {
          r := Fatal;
        }
        return;
      }
      match RegionOf(addr)
      case Rom =>
        if addr < |rom| {
          r := Value(rom[addr]);
        } else {
          r := Fatal;
        }
      case Wram =>
        r := Value(wram[addr - 0xC000]);
      case Prohibited =>
        r := Value(0xFF);
      case Oam =>
        r := if oam.Scalar? then Value(oam.v) else WholeList;
      case Hram =>
        r := if hram.Scalar? then Value(hram.v) else WholeList;
      case Ports =>
        r := if addr == 0xFF44 then Value(io.ly) else Fatal;
      case Unmapped =>
        r := NoValue;
    }

    /**
     * `write`: one tick, then the decoded store. `ok` is false where the emulator stops; the
     * state is then as the tick left it.
     */
    method Write(addr: nat, v: Byte) returns (ok: bool)
      requires Valid()
      modifies this, memory, wram
      ensures ok == Store(old(View()), addr, v).Some?
      ensures ok ==> View() == Store(old(View()), addr, v).value
      ensures !ok ==> View() == old(View())
      ensures ticksPerInstr == old(ticksPerInstr) + 1
    {
      Tick();
      if testing {
        if addr < 0x10000 {
          memory[addr] := v;
          ok := true;
        } else {
          ok := false;
        }
        return;
      }
      match RegionOf(addr)
      case Rom =>
        ok := false;
      case Wram =>
        wram[addr - 0xC000] := v;
        ok := true;
      case Prohibited =>
        ok := true;
      case Oam =>
        oam := Scalar(v);
        ok := true;
      case Hram =>
        hram := Scalar(v);
        ok := true;
      case Ports =>
        var next := WriteIo(io, addr, v);
        if next.Some? {
          io := next.value;
        }
        ok := next.Some?;
      case Unmapped =>
        ok := false;
    }
  }
}
