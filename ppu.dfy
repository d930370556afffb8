/**
 * The parts of the video unit (ppu.py) that are complete expressions: which mode handlers one
 * PPU tick calls, the background tile data address, the row offset inside a tile, and the 2bpp
 * decode of one tile row into eight colour indices.
 */
module Video {
  import opened Bits

  // ---------------------------------------------------------------------------------------------
  // Mode selection in `tick`

  /** Machine cycles in one scanline, and where OAM scan and pixel transfer end within it. */
  const CyclesPerLine := 114
  const OamScanEnd := 40
  const DrawEnd := 83

  /** The mode handlers `tick` may call. */
  datatype Phase = OamScan | Draw | HBlank | VBlank

  /**
   * The handlers one `tick` calls, in order: only `VBLANK` once LYC reaches 160; otherwise, by
   * the position c of `m_cycles_passed` in its scanline, `OAMSCAN` then `DRAW` while c < 40,
   * `DRAW` alone while c < 83, and `HBLANK` for the rest of the line.
   */
  function TickPhases(lyc: int, cyclesPassed: nat): (ps: seq<Phase>)
    ensures 1 <= |ps| <= 2
    ensures VBlank in ps <==> lyc >= 160
    ensures HBlank in ps <==> lyc < 160 && cyclesPassed % CyclesPerLine >= DrawEnd
    ensures Draw in ps <==> lyc < 160 && cyclesPassed % CyclesPerLine < DrawEnd
    ensures OamScan in ps <==> lyc < 160 && cyclesPassed % CyclesPerLine < OamScanEnd
    ensures OamScan in ps ==> ps == [OamScan, Draw]
    ensures |ps| == 1 <==> OamScan !in ps
  {
    if lyc >= 160 then [VBlank]
    else
      var c := cyclesPassed % CyclesPerLine;
      (if c < OamScanEnd then [OamScan] else []) + (if c < DrawEnd then [Draw] else [HBlank])
  }

  /** The handlers called depend on `m_cycles_passed` only through its place in the scanline. */
  lemma PhasesRepeatEachLine(lyc: int, cyclesPassed: nat)
    ensures TickPhases(lyc, cyclesPassed + CyclesPerLine) == TickPhases(lyc, cyclesPassed)
  {
    DivUnique(cyclesPassed + CyclesPerLine, CyclesPerLine, cyclesPassed / CyclesPerLine + 1,
              cyclesPassed % CyclesPerLine);
  }

  /** How many of the first n cycle counts of a line make `tick` call handler p. */
  function CountIn(lyc: int, p: Phase, n: nat): (k: nat)
    ensures k <= n
  {
    if n == 0 then 0 else CountIn(lyc, p, n - 1) + (if p in TickPhases(lyc, n - 1) then 1 else 0)
  }

  /** Whether cycle c of a visible line belongs to phase p. */
  predicate InPhase(p: Phase, c: nat)
  {
    match p
    case OamScan => c < OamScanEnd
    case Draw => c < DrawEnd
    case HBlank => c >= DrawEnd
    case VBlank => false
  }

  /** The handlers `tick` calls at cycle c of a visible line are exactly the phases c is in. */
  lemma PhasesWithinLine(lyc: int, p: Phase, c: nat)
    requires lyc < 160 && c < CyclesPerLine
    ensures p in TickPhases(lyc, c) <==> InPhase(p, c)
  {
    DivUnique(c, CyclesPerLine, 0, c);
  }

  /** How many of the first n cycles of a visible line are spent in phase p. */
  function Budget(p: Phase, n: nat): nat
  {
    match p
    case OamScan => if n < OamScanEnd then n else OamScanEnd
    case Draw => if n < DrawEnd then n else DrawEnd
    case HBlank => if n < DrawEnd then 0 else n - DrawEnd
    case VBlank => 0
  }

  /** One more cycle adds one call of p exactly when that cycle is in phase p. */
  lemma CountStep(lyc: int, p: Phase, c: nat)
    requires lyc < 160 && c < CyclesPerLine
    ensures CountIn(lyc, p, c + 1) == CountIn(lyc, p, c) + (if InPhase(p, c) then 1 else 0)
  {
    PhasesWithinLine(lyc, p, c);
  }

  /** The budget grows the same way, one cycle at a time. */
  lemma BudgetStep(p: Phase, c: nat)
    ensures Budget(p, c + 1) == Budget(p, c) + (if InPhase(p, c) then 1 else 0)
  {
  }

  /** Within the first n cycles of a visible line, `tick` calls each handler `Budget` times. */
  lemma {:induction false} CountsUpTo(lyc: int, p: Phase, n: nat)
    requires lyc < 160 && n <= CyclesPerLine
    ensures CountIn(lyc, p, n) == Budget(p, n)
  {
    if n > 0 {
      var c := n - 1;
      CountsUpTo(lyc, p, c);
      CountStep(lyc, p, c);
      BudgetStep(p, c);
    }
  }

  /**
   * Over one visible scanline `tick` calls OAMSCAN on 40 cycles, DRAW on 83 and HBLANK on 31;
   * VBLANK never.
   */
  lemma LineBudget(lyc: int)
    requires lyc < 160
    ensures CountIn(lyc, OamScan, CyclesPerLine) == 40
    ensures CountIn(lyc, Draw, CyclesPerLine) == 83
    ensures CountIn(lyc, HBlank, CyclesPerLine) == 31
    ensures CountIn(lyc, VBlank, CyclesPerLine) == 0
  {
    CountsUpTo(lyc, OamScan, CyclesPerLine);
    CountsUpTo(lyc, Draw, CyclesPerLine);
    CountsUpTo(lyc, HBlank, CyclesPerLine);
    CountsUpTo(lyc, VBlank, CyclesPerLine);
  }

  // ---------------------------------------------------------------------------------------------
  // Background fetcher: tile address and row offset

  /** Start of the 0x2000-byte `vram` list in the address space. */
  const VramBase := 0x8000
  const VramSize := 0x2000

  /**
   * The tile data address the fetcher reads: `0x8000 + 16 n` when bit 4 of LCDC is set, else
   * `(0x9000 + 16 n) & 0xFFFF`, with the tile number n an unsigned byte read from `vram`.
   */
  function TileAddress(lcdc: Byte, n: Byte): (a: int)
    ensures VramBase <= a <= 0x9FF0 && a % 16 == 0
    ensures Bit(lcdc, 4) == 1 ==> a == VramBase + 16 * n
    ensures Bit(lcdc, 4) == 0 ==> a == 0x9000 + 16 * n
  {
    if Bit(lcdc, 4) == 1 then VramBase + n * 16 else (0x9000 + n * 16) % 0x10000
  }

  /** `2 * ((LY + SCY) % 8)`: the byte offset of the fetched row inside its 16-byte tile. */
  function RowOffset(ly: nat, scy: nat): (off: nat)
    ensures off % 2 == 0 && off <= 14
  {
    2 * ((ly + scy) % 8)
  }

  /**
   * The `vram` index `tile + offset - 0x8000` that fetches tLow and tHigh: always inside the
   * list, and even.
   */
  function RowIndex(lcdc: Byte, n: Byte, ly: nat, scy: nat): (k: int)
    ensures 0 <= k <= VramSize - 2 && k % 2 == 0
  {
    var a := TileAddress(lcdc, n);
    var off := RowOffset(ly, scy);
    DivUnique(a + off - VramBase, 2, 8 * (a / 16) - 0x4000 + off / 2, 0);
    a + off - VramBase
  }

  /** Moving down eight lines reaches the same row of the next tile: the offset repeats. */
  lemma RowOffsetRepeats(ly: nat, scy: nat)
    ensures RowOffset(ly + 8, scy) == RowOffset(ly, scy)
  {
    DivUnique(ly + 8 + scy, 8, (ly + scy) / 8 + 1, (ly + scy) % 8);
  }

  // ---------------------------------------------------------------------------------------------
  // 2bpp decode of one tile row

  /**
   * Pixel i of a row, counted from the left: `(((tHigh >> (7 - i)) & 1) << 1) | ((tLow >> (7 - i))
   * & 1)`. The two terms have no bit in common, so the `|` is their sum.
   */
  function Pixel(tLow: Byte, tHigh: Byte, i: nat): (p: int)
    requires i < 8
    ensures 0 <= p <= 3
    ensures p % 2 == Bit(tLow, 7 - i) && p / 2 == Bit(tHigh, 7 - i)
  {
    2 * Bit(tHigh, 7 - i) + Bit(tLow, 7 - i)
  }

  /** The eight colour indices of a row, leftmost first. */
  function DecodeRow(tLow: Byte, tHigh: Byte): (row: seq<int>)
    ensures |row| == 8
    ensures forall i :: 0 <= i < 8 ==> 0 <= row[i] <= 3
    ensures forall i :: 0 <= i < 8 ==> row[i] % 2 == Bit(tLow, 7 - i) && row[i] / 2 == Bit(tHigh, 7 - i)
  {
    seq(8, i requires 0 <= i < 8 => Pixel(tLow, tHigh, i))
  }

  /** A sequence of bits read as a binary number, most significant first. */
  function Pack(bits: seq<int>): int
  {
    if |bits| == 0 then 0 else 2 * Pack(bits[..|bits| - 1]) + bits[|bits| - 1]
  }

  /** Bit k of a packed bit sequence is its k-th entry from the right. */
  lemma {:induction false} PackBit(bits: seq<int>, k: nat)
    requires forall j :: 0 <= j < |bits| ==> 0 <= bits[j] <= 1
    requires k < |bits|
    ensures Bit(Pack(bits), k) == bits[|bits| - 1 - k]
  {
    var init := bits[..|bits| - 1];
    var last := bits[|bits| - 1];
    DivUnique(Pack(bits), 2, Pack(init), last);
    if k > 0 {
      PackBit(init, k - 1);
    }
  }

  /** The low w bits of x, most significant first. */
  function BitsOf(x: int, w: nat): (bits: seq<int>)
    requires 0 <= x
    ensures |bits| == w
    ensures forall i :: 0 <= i < w ==> bits[i] == Bit(x, w - 1 - i)
  {
    seq(w, i requires 0 <= i < w => Bit(x, w - 1 - i))
  }

  /** Packing the low w bits of x, most significant first, gives x back. */
  lemma {:induction false} PackOfBits(x: int, w: nat)
    requires 0 <= x < Pow2(w)
    ensures Pack(BitsOf(x, w)) == x
  {
    if w > 0 {
      var s := BitsOf(x, w);
      var t := BitsOf(x / 2, w - 1);
      forall i | 0 <= i < w - 1
        ensures s[i] == t[i]
      {
        assert s[i] == Bit(x, (w - 2 - i) + 1);
      }
      assert s[..w - 1] == t;
      assert s[w - 1] == Bit(x, 0) == x % 2;
      PackOfBits(x / 2, w - 1);
      assert Pack(s) == 2 * Pack(t) + x % 2;
    }
  }

  /** The two bit planes of eight colour indices: the low bits make tLow, the high bits tHigh. */
  function EncodeRow(row: seq<int>): (planes: (int, int))
    requires |row| == 8
  {
    (Pack(LowPlane(row)), Pack(HighPlane(row)))
  }

  /** The low and the high bit of each colour index, in order. */
  function LowPlane(row: seq<int>): (bits: seq<int>)
    ensures |bits| == |row|
  {
    seq(|row|, i requires 0 <= i < |row| => row[i] % 2)
  }

  function HighPlane(row: seq<int>): (bits: seq<int>)
    ensures |bits| == |row|
  {
    seq(|row|, i requires 0 <= i < |row| => row[i] / 2)
  }

  /** Decoding a row of two bit planes and encoding it again gives the same two bytes. */
  lemma EncodeDecodeRow(tLow: Byte, tHigh: Byte)
    ensures EncodeRow(DecodeRow(tLow, tHigh)) == (tLow, tHigh)
  {
    var row := DecodeRow(tLow, tHigh);
    assert Pow2(8) == 256;
    forall i | 0 <= i < 8
      ensures LowPlane(row)[i] == BitsOf(tLow, 8)[i] && HighPlane(row)[i] == BitsOf(tHigh, 8)[i]
    {
    }
    assert LowPlane(row) == BitsOf(tLow, 8);
    assert HighPlane(row) == BitsOf(tHigh, 8);
    PackOfBits(tLow, 8);
    PackOfBits(tHigh, 8);
  }

  /** Eight colour indices in 0..3 are the decode of their two bit planes. */
  lemma DecodeEncodeRow(row: seq<int>)
    requires |row| == 8 && forall i :: 0 <= i < 8 ==> 0 <= row[i] <= 3
    ensures 0 <= EncodeRow(row).0 < 256 && 0 <= EncodeRow(row).1 < 256
    ensures DecodeRow(EncodeRow(row).0, EncodeRow(row).1) == row
  {
    var lows := LowPlane(row);
    var highs := HighPlane(row);
    PackRange(lows);
    PackRange(highs);
    assert Pow2(8) == 256;
    var lo, hi := Pack(lows), Pack(highs);
    forall i | 0 <= i < 8
      ensures DecodeRow(lo, hi)[i] == row[i]
    {
      PackBit(lows, 7 - i);
      PackBit(highs, 7 - i);
    }
  }

  /** A packed sequence of bits lies below 2 to the power of its length. */
  lemma {:induction false} PackRange(bits: seq<int>)
    requires forall j :: 0 <= j < |bits| ==> 0 <= bits[j] <= 1
    ensures 0 <= Pack(bits) < Pow2(|bits|)
  {
    if |bits| > 0 {
      PackRange(bits[..|bits| - 1]);
    }
  }

  /** Two rows that decode to the same colour indices have the same two bit planes. */
  lemma DecodeRowInjective(lo1: Byte, hi1: Byte, lo2: Byte, hi2: Byte)
    requires DecodeRow(lo1, hi1) == DecodeRow(lo2, hi2)
    ensures lo1 == lo2 && hi1 == hi2
  {
    EncodeDecodeRow(lo1, hi1);
    EncodeDecodeRow(lo2, hi2);
  }
}
