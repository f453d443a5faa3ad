/**
 * The memory bus (src/Memory.cpp): region classification, the mirror folding
 * that read8 and write8 apply to every address, little-endian composition of
 * halfwords and words, the side effects of writing I/O registers, and the
 * four DMA channels' copy loops.
 *
 * Bus addresses are u32 values. The bus only compares them, adds small
 * constants to them and masks them with region masks, so they are modelled
 * as numbers in 0 .. 2^32 - 1; each mask is written as the arithmetic it
 * performs inside its region (for a 0x2xxxxxx address, & 0x203FFFF keeps the
 * low 18 bits: 0x2000000 + address % 0x40000). The bytes, halfwords and words
 * that travel over the bus are bit-vectors.
 */
module Bus {
  import opened Bits
  import Lcd
  import Timers
  import Irqs
  import Backup

  /** A u32 bus address, as a number. */
  type Addr = a: int | 0 <= a < 0x1_0000_0000

  /** address + k on a u32: wraps past 0xFFFFFFFF. */
  function Next(a: Addr, k: int): Addr { (a + k) % 0x1_0000_0000 }

  /** A pointer stored back into a 32-bit register. */
  function AsWord(a: Addr): Word { a as Word }

  /** address >> 24: the region number. */
  function Top(a: Addr): int { a / 0x100_0000 }

  const MemSize := 0x800_0000
  const CartRomSize := 0x200_0000
  const BiosEnd := 0x3FFF
  const VramEnd := 0x601_7FFF

  const RegDispcnt := 0x400_0000
  const RegDispstat := 0x400_0004
  const RegVcount := 0x400_0006
  const RegTm0d := 0x400_0100
  const RegKeyinput := 0x400_0130
  const RegKeycnt := 0x400_0132
  const RegIe := 0x400_0200
  const RegIf := 0x400_0202
  const Waitcnt := 0x400_0204
  const RegIme := 0x400_0208

  /** Registers of DMA channel n (0-3): source, destination, then the count and control words, 12 bytes apart. */
  function DmaSad(n: int): int { 0x400_00B0 + 12 * n }
  function DmaDad(n: int): int { DmaSad(n) + 4 }
  function DmaCnt(n: int): int { DmaSad(n) + 8 }

  /** The per-background, per-window and per-timer registers. */
  function BgcntAddr(k: int): int { 0x400_0008 + 2 * k }
  function BgScrollAddr(k: int, vertical: bool): int { 0x400_0010 + 4 * k + (if vertical then 2 else 0) }
  function BgRefAddr(k: int, vertical: bool): int { 0x400_0028 + 0x10 * (k - 2) + (if vertical then 4 else 0) }
  function WinAddr(win: int, vertical: bool): int { 0x400_0040 + 2 * win + (if vertical then 4 else 0) }
  function TmdAddr(k: int): int { RegTm0d + 4 * k }

  datatype Region = Bios | Ewram | Iwram | Mmio | Palram | Vram | Oam | Rom | Ram | Unknown

  /** Memory::getMemoryRegion: the region named by the top byte of an address. */
  function RegionOf(address: Addr): Region
  {
    match Top(address)
    case 0x0 => Bios
    case 0x2 => Ewram
    case 0x3 => Iwram
    case 0x4 => Mmio
    case 0x5 => Palram
    case 0x6 => Vram
    case 0x7 => Oam
    case 0xA => Rom case 0xB => Rom case 0xC => Rom case 0xD => Rom
    case 0xE => Ram case 0xF => Ram
    case _ => Unknown
  }

  /** The mapped regions are named by their top bytes, and every other top byte is UNKNOWN. */
  lemma RegionUnknownExactly(address: Addr)
    ensures RegionOf(address) == Unknown <==> Top(address) == 1 || 8 <= Top(address) <= 9 || Top(address) > 0xF
    ensures RegionOf(address) == Rom <==> 0xA <= Top(address) <= 0xD
    ensures RegionOf(address) == Ram <==> 0xE <= Top(address) <= 0xF
  {
  }

  /** Where an access lands once the mirrors are folded away. */
  datatype Target =
    | Cell(address: int)   // memory[] below MEM_SIZE, cart ROM above
    | BackupCell(index: int)
    | Invalid

  /** & 0x601FFFF on a 0x6xxxxxx address: the low 17 bits over VRAM's base. */
  function VramMask(a: int): int { 0x600_0000 + a % 0x2_0000 }

  /** VRAM folding as read8 and write8 write it: the 32K mirror test comes before the mask. */
  function FoldVramAsWritten(address: Addr): int
  {
    VramMask(if 0x601_8000 <= address <= 0x601_FFFF then address - 0x8000 else address)
  }

  /** VRAM folding with the mask first, so every 0x6xxxxxx address reaches VRAM. */
  function FoldVram(address: Addr): int
  {
    var a := VramMask(address);
    if a >= 0x601_8000 then a - 0x8000 else a
  }

  /** The as-written fold leaves 0x6038000 above VRAM, where no mirror of VRAM belongs. */
  lemma FoldVramAsWrittenEscapes()
    ensures FoldVramAsWritten(0x603_8000) == 0x601_8000 > VramEnd
    ensures FoldVram(0x603_8000) == 0x601_0000
  {
  }

  /**
   * The corrected fold maps every VRAM-region address into VRAM, is the
   * identity on VRAM, is idempotent, folds 0x6018000-0x601FFFF down by 0x8000,
   * and repeats every 128K.
   */
  lemma FoldVramInVram(address: Addr)
    requires Top(address) == 6
    ensures 0x600_0000 <= FoldVram(address) <= VramEnd
    ensures FoldVram(FoldVram(address)) == FoldVram(address)
    ensures address <= VramEnd ==> FoldVram(address) == address
    ensures 0x601_8000 <= address <= 0x601_FFFF ==> FoldVram(address) == address - 0x8000
    ensures address + 0x2_0000 < 0x700_0000 ==> FoldVram(address + 0x2_0000) == FoldVram(address)
  {
  }

  /** The two folds agree on the first 128K, and differ on the upper 32K of every later copy. */
  lemma FoldVramAgreesBelowMirror(address: Addr)
    requires Top(address) == 6
    ensures address <= 0x601_FFFF ==> FoldVram(address) == FoldVramAsWritten(address)
    ensures address > 0x601_FFFF && address % 0x2_0000 >= 0x1_8000 ==>
      FoldVramAsWritten(address) == FoldVram(address) + 0x8000 > VramEnd
  {
  }

  /** The address switch at the top of read8 and write8, with the corrected VRAM fold. */
  function Fold(address: Addr): (t: Target)
    ensures t.Cell? ==> 0 <= t.address < MemSize + CartRomSize
    ensures t.BackupCell? ==> 0 <= t.index < 0x1_0000
  {
    match Top(address)
    case 0x0 => Cell(address) case 0x1 => Cell(address) case 0x4 => Cell(address)
    case 0x8 => Cell(address) case 0x9 => Cell(address)
    case 0x2 => Cell(0x200_0000 + address % 0x4_0000)      // & MEM_EWRAM_END
    case 0x3 => Cell(0x300_0000 + address % 0x8000)        // & MEM_IWRAM_END
    case 0x5 => Cell(0x500_0000 + address % 0x400)         // & MEM_PALETTE_RAM_END
    case 0x6 => Cell(FoldVram(address))
    case 0x7 => Cell(0x700_0000 + address % 0x400)         // & MEM_OAM_END
    case 0xA => Cell(address - 0x200_0000) case 0xB => Cell(address - 0x200_0000)
    case 0xC => Cell(address - 0x400_0000) case 0xD => Cell(address - 0x400_0000)
    case 0xE => BackupCell(address % 0x1_0000)
    case 0xF => BackupCell((address - 0x100_0000) % 0x1_0000)
    case _ => Invalid
  }

  /** The fold of the source itself, which differs from Fold only in VRAM. */
  function FoldAsWritten(address: Addr): Target
  {
    if Top(address) == 6 then Cell(FoldVramAsWritten(address)) else Fold(address)
  }

  /** Folding with the as-written VRAM test can land outside VRAM, on memory no mirror belongs to. */
  lemma FoldAsWrittenLeavesVram()
    ensures FoldAsWritten(0x603_8000) == Cell(0x601_8000)
    ensures Fold(0x603_8000) == Cell(0x601_0000)
  {
    FoldVramAsWrittenEscapes();
  }

  /**
   * EWRAM, IWRAM, palette and OAM stay in their region, VRAM stays in VRAM,
   * the three ROM images land in the cart ROM, and the cart RAM in the 64K chip.
   */
  lemma FoldRange(address: Addr)
    ensures var t := Fold(address); var top := Top(address);
      (top == 2 ==> t.Cell? && 0x200_0000 <= t.address <= 0x203_FFFF)
      && (top == 3 ==> t.Cell? && 0x300_0000 <= t.address <= 0x300_7FFF)
      && (top == 5 ==> t.Cell? && 0x500_0000 <= t.address <= 0x500_03FF)
      && (top == 6 ==> t.Cell? && 0x600_0000 <= t.address <= VramEnd)
      && (top == 7 ==> t.Cell? && 0x700_0000 <= t.address <= 0x700_03FF)
      && (8 <= top <= 0xD ==> t.Cell? && MemSize <= t.address < MemSize + CartRomSize)
      && (t.BackupCell? ==> 0 <= t.index < 0x1_0000)
      && (t.Cell? ==> 0 <= t.address < MemSize + CartRomSize)
      && (t == Invalid <==> top > 0xF)
      && (t.BackupCell? <==> RegionOf(address) == Ram)
  {
    if Top(address) == 6 {
      FoldVramInVram(address);
    }
  }

  /** An address already inside a region is its own fold. */
  lemma CellFoldsToItself(b: Addr)
    requires 0x200_0000 <= b <= 0x203_FFFF || 0x300_0000 <= b <= 0x300_7FFF
          || 0x500_0000 <= b <= 0x500_03FF || 0x600_0000 <= b <= VramEnd
          || 0x700_0000 <= b <= 0x700_03FF || MemSize <= b < MemSize + CartRomSize
          || b <= 0x1FF_FFFF || 0x400_0000 <= b <= 0x4FF_FFFF
    ensures Fold(b) == Cell(b)
  {
    if 0x600_0000 <= b <= VramEnd {
      FoldVramInVram(b);
    }
  }

  /** Folding is idempotent. */
  lemma FoldIdempotent(address: Addr)
    requires Fold(address).Cell?
    ensures Fold(Fold(address).address) == Fold(address)
  {
    FoldRange(address);
    CellFoldsToItself(Fold(address).address);
  }

  /** ROM images 2 and 3 mirror image 1, the cart RAM repeats every 64K, EWRAM every 256K and IWRAM every 32K. */
  lemma FoldMirrors(address: Addr)
    ensures 0xA <= Top(address) <= 0xB ==> Fold(address) == Fold(address - 0x200_0000)
    ensures 0xC <= Top(address) <= 0xD ==> Fold(address) == Fold(address - 0x400_0000)
    ensures 0xE <= Top(address) <= 0xF ==> Fold(address) == BackupCell(address % 0x1_0000)
    ensures Top(address) == 2 && address + 0x4_0000 < 0x300_0000 ==> Fold(address + 0x4_0000) == Fold(address)
    ensures Top(address) == 3 && address + 0x8000 < 0x400_0000 ==> Fold(address + 0x8000) == Fold(address)
  {
    var top := Top(address);
    if 0xA <= top <= 0xD {
      FoldRange(address);
      CellFoldsToItself(Fold(address).address);
    }
  }

  /** Little-endian composition: byte 0 is the lowest. */
  function Word4(b0: Byte, b1: Byte, b2: Byte, b3: Byte): Word
  {
    (b3 as Word << 24) | (b2 as Word << 16) | (b1 as Word << 8) | b0 as Word
  }

  /** The little-endian word at a, in a byte sequence. */
  function GetWord(m: seq<Byte>, a: int): Word
    requires 0 <= a <= |m| - 4
  {
    Word4(m[a], m[a + 1], m[a + 2], m[a + 3])
  }

  /** The byte sequence with the word w stored at a, lowest byte first. */
  function PutWord(m: seq<Byte>, a: int, w: Word): (r: seq<Byte>)
    requires 0 <= a <= |m| - 4
    ensures |r| == |m|
  {
    m[a := ByteOf(w, 0)][a + 1 := ByteOf(w, 1)][a + 2 := ByteOf(w, 2)][a + 3 := ByteOf(w, 3)]
  }

  /** A stored word reads back, and words that do not overlap it are untouched. */
  lemma GetPutWord(m: seq<Byte>, a: int, b: int, w: Word)
    requires 0 <= a <= |m| - 4 && 0 <= b <= |m| - 4
    ensures GetWord(PutWord(m, a, w), a) == w
    ensures a + 4 <= b || b + 4 <= a ==> GetWord(PutWord(m, a, w), b) == GetWord(m, b)
  {
    Word4RoundTrip(w, 0, 0, 0, 0);
  }

  /** Byte i of a word, lowest first: the bytes write32 stores. */
  function ByteOf(w: Word, i: nat): Byte
    requires i < 4
  {
    match i
    case 0 => (w & 0xFF) as Byte
    case 1 => ((w >> 8) & 0xFF) as Byte
    case 2 => ((w >> 16) & 0xFF) as Byte
    case 3 => ((w >> 24) & 0xFF) as Byte
  }

  /** Splitting a word into bytes and composing them again are inverse, both ways. */
  lemma Word4RoundTrip(w: Word, b0: Byte, b1: Byte, b2: Byte, b3: Byte)
    ensures Word4(ByteOf(w, 0), ByteOf(w, 1), ByteOf(w, 2), ByteOf(w, 3)) == w
    ensures ByteOf(Word4(b0, b1, b2, b3), 0) == b0 && ByteOf(Word4(b0, b1, b2, b3), 1) == b1
    ensures ByteOf(Word4(b0, b1, b2, b3), 2) == b2 && ByteOf(Word4(b0, b1, b2, b3), 3) == b3
  {
  }

  /** The n_cycles value WAITCNT bits 3-2 select: 4, 3, 2 or 8. */
  function WaitN(value: Byte): (n: Byte)
    ensures n == 2 || n == 3 || n == 4 || n == 8
    ensures value & 0x0C == 0x00 <==> n == 4
    ensures value & 0x0C == 0x04 <==> n == 3
    ensures value & 0x0C == 0x08 <==> n == 2
    ensures value & 0x0C == 0x0C <==> n == 8
  {
    match (value >> 2) & 3
    case 0 => 4
    case 1 => 3
    case 2 => 2
    case _ => 8
  }

  /** The s_cycles value after a WAITCNT write: the whole value above bit 3 is tested, 0 gives 2 and 1 gives 1. */
  function WaitS(value: Byte, old_s: Byte): (s: Byte)
    ensures value < 0x10 ==> s == 2
    ensures 0x10 <= value < 0x20 ==> s == 1
    ensures value >= 0x20 ==> s == old_s
  {
    match value >> 4
    case 0 => 2
    case 1 => 1
    case _ => old_s
  }

  /** A DMA channel's control fields, decoded from DMAxCNT. */
  datatype Dma = Dma(numTransfers: Half, destAdjust: Byte, srcAdjust: Byte, repeat: Byte,
                     chunkSize: Byte, mode: Byte, irq: Byte, enable: Byte)

  const DmaZero := Dma(0, 0, 0, 0, 0, 0, 0, 0)

  /** A write to DMAxCNT byte 2 sets the destination adjustment from its bits 5-6. */
  function SetDestAdjust(d: Dma, b2: Byte): Dma { d.(destAdjust := (b2 >> 5) & 3) }

  /**
   * A write of b3 to DMAxCNT byte 3 (with b2 stored in byte 2): the source
   * adjustment straddles the two bytes, the other fields are bits of b3.
   */
  function SetControlHigh(d: Dma, b2: Byte, b3: Byte): Dma
  {
    d.(srcAdjust := ((b3 & 1) << 1) | (b2 >> 7),
       repeat := (b3 >> 1) & 1, chunkSize := (b3 >> 2) & 1, mode := (b3 >> 4) & 3,
       irq := (b3 >> 6) & 1, enable := (b3 >> 7) & 1)
  }

  /** Every field holds no more bits than its bit-field in the source's struct. */
  predicate FieldsFit(d: Dma)
  {
    d.destAdjust < 4 && d.srcAdjust < 4 && d.repeat < 2 && d.chunkSize < 2
    && d.mode < 4 && d.irq < 2 && d.enable < 2
  }

  /** The two control bytes a channel's fields stand for: the encoder the decoding inverts. */
  function ControlLow(d: Dma): Byte { ((d.srcAdjust & 1) << 7) | (d.destAdjust << 5) }

  function ControlHigh(d: Dma): Byte
  {
    (d.enable << 7) | (d.irq << 6) | (d.mode << 4) | (d.chunkSize << 2) | (d.repeat << 1) | (d.srcAdjust >> 1)
  }

  /** A write16 of the control half: byte 2 first, then byte 3. */
  function Decoded(d: Dma, b2: Byte, b3: Byte): Dma { SetControlHigh(SetDestAdjust(d, b2), b2, b3) }

  lemma LowRoundTrip(d: Dma)
    requires FieldsFit(d)
    ensures (ControlLow(d) >> 5) & 3 == d.destAdjust
    ensures ControlLow(d) >> 7 == d.srcAdjust & 1
  {
  }

  lemma HighRoundTrip(d: Dma)
    requires FieldsFit(d)
    ensures ((ControlHigh(d) & 1) << 1) | (ControlLow(d) >> 7) == d.srcAdjust
    ensures (ControlHigh(d) >> 1) & 1 == d.repeat && (ControlHigh(d) >> 2) & 1 == d.chunkSize
    ensures (ControlHigh(d) >> 4) & 3 == d.mode && (ControlHigh(d) >> 6) & 1 == d.irq
    ensures ControlHigh(d) >> 7 == d.enable
  {
  }

  /**
   * Decoding is the inverse of encoding on channels whose fields fit, and
   * encoding a decoded channel gives back the control bits (bit 11, the
   * game-pak DRQ bit, and bits 0-4 are not kept).
   */
  lemma ControlRoundTrip(d: Dma, b2: Byte, b3: Byte)
    ensures FieldsFit(d) ==> Decoded(d, ControlLow(d), ControlHigh(d)) == d
    ensures FieldsFit(Decoded(d, b2, b3))
    ensures ControlLow(Decoded(d, b2, b3)) == b2 & 0xE0
    ensures ControlHigh(Decoded(d, b2, b3)) == b3 & 0xF7
  {
    if FieldsFit(d) {
      LowRoundTrip(d);
      HighRoundTrip(d);
    }
  }

  /** Channel n's source and destination spans: & 0x7FFFFFF keeps 27 bits, & 0xFFFFFFF (DMA1-3 sources, the DMA3 destination) 28. */
  function SourceSpan(n: int): int { if n == 0 then 0x800_0000 else 0x1000_0000 }

  function DestSpan(n: int): int { if n == 3 then 0x1000_0000 else 0x800_0000 }

  /** The chunk width in bytes: 4 for a 32-bit transfer, 2 for a 16-bit one. */
  function Width(chunkSize: Byte): int { if chunkSize == 1 then 4 else 2 }

  /**
   * Where channel n starts from a stored SAD/DAD value: masked to the span,
   * and on DMA3 aligned down to the chunk width (& ~(size - 1)).
   */
  function DmaStart(n: int, stored: Word, span: int, chunkSize: Byte): Addr
    requires span == 0x800_0000 || span == 0x1000_0000
  {
    var p := stored as int % span;
    if n == 3 then p - p % Width(chunkSize) else p
  }

  /**
   * A start address is the stored value masked to its span; on DMA3 it is
   * then the largest multiple of the chunk width not above it.
   */
  lemma DmaStartAligned(n: int, stored: Word, span: int, chunkSize: Byte)
    requires span == 0x800_0000 || span == 0x1000_0000
    ensures var p := stored as int % span;
      var s := DmaStart(n, stored, span, chunkSize);
      (n != 3 ==> s == p) && (n == 3 ==> s % Width(chunkSize) == 0 && s <= p < s + Width(chunkSize))
  {
    var p := stored as int % span;
    AlignDown(p, Width(chunkSize));
  }

  /** p - p % w is a multiple of w within w of p. */
  lemma AlignDown(p: int, w: int)
    requires 0 <= p && (w == 2 || w == 4)
    ensures (p - p % w) % w == 0 && p - p % w <= p < p - p % w + w
  {
  }

  /** DISPSTAT after a write to its low byte: only bits 3-5 (the three IRQ enables) take the value. */
  function DispstatFromLow(d: Half, value: Byte): Half { Pack16(Hi8(d), (Lo8(d) & 0xC7) | (value & 0x38)) }

  /** DISPSTAT after a write to its high byte: the VCOUNT trigger value. */
  function DispstatFromHigh(d: Half, value: Byte): Half { Pack16(value, Lo8(d)) }

  /** The read-only status bits 0-2 and the trigger survive a low-byte write; a high-byte write changes only the trigger. */
  lemma DispstatWritable(d: Half, value: Byte)
    ensures Hi8(DispstatFromLow(d, value)) == Hi8(d)
    ensures Lo8(DispstatFromLow(d, value)) & 0xC7 == Lo8(d) & 0xC7
    ensures Lo8(DispstatFromLow(d, value)) & 0x38 == value & 0x38
    ensures Hi8(DispstatFromHigh(d, value)) == value && Lo8(DispstatFromHigh(d, value)) == Lo8(d)
  {
    var lo := (Lo8(d) & 0xC7) | (value & 0x38);
    Pack16RoundTrip(d, Hi8(d), lo);
    Pack16RoundTrip(d, value, Lo8(d));
    MergeBits(Lo8(d), value);
  }

  lemma MergeBits(old_: Byte, value: Byte)
    ensures ((old_ & 0xC7) | (value & 0x38)) & 0xC7 == old_ & 0xC7
    ensures ((old_ & 0xC7) | (value & 0x38)) & 0x38 == value & 0x38
  {
  }

  /** BG0CNT and BG1CNT have no affine wrap: bit 13 is cleared. */
  function NoWrap(raw: Half): Half { raw & 0xDFFF }

  /** Clearing bit 13 is clearing bit 5 of the high byte and nothing else. */
  lemma NoWrapBytes(hi: Byte, lo: Byte)
    ensures NoWrap(Pack16(hi, lo)) == Pack16(hi & 0xDF, lo)
    ensures NoWrap(Pack16(hi, lo)) & 0x2000 == 0
  {
  }

  /** Whether DISPCNT enables background k (bits 8-11). */
  predicate BgEnabled(dispcnt: Half, k: int)
  {
    dispcnt & BgBit(k) != 0
  }

  /** The DISPCNT bit that enables background k: bit 8 + k. */
  function BgBit(k: int): Half
  {
    match k
    case 0 => 0x100
    case 1 => 0x200
    case 2 => 0x400
    case _ => 0x800
  }

  /** Plain EWRAM or IWRAM: width bytes from address lie inside one of them, unmirrored. */
  predicate PlainRam(address: Addr, width: nat)
  {
    (0x200_0000 <= address && address + width <= 0x204_0000)
    || (0x300_0000 <= address && address + width <= 0x300_8000)
  }

  /** Per-chunk pointer change for an adjust mode: +size, -size or 0. */
  function DestDelta(adjust: Byte, size: int): int
  {
    match adjust
    case 0 => size
    case 1 => -size
    case 2 => 0
    case _ => size
  }

  /** Source adjust 3 is not a valid mode (the source leaves the increment unset); it is taken as 0 here. */
  function SrcDelta(adjust: Byte, size: int): int
  {
    match adjust
    case 0 => size
    case 1 => -size
    case _ => 0
  }

  /** The address k chunks past p: the loop adds delta once per chunk. */
  function Advance(p: Addr, delta: int, k: nat): Addr
    decreases k
  {
    if k == 0 then p else Next(Advance(p, delta, k - 1), delta)
  }

  /** One chunk copied by a DMA: the source and destination address and the chunk width in bytes. */
  datatype Transfer = Transfer(src: Addr, dest: Addr, width: int)

  /** The first k chunks of a transfer starting at src and dest, in the order they are copied. */
  function Plan(src: Addr, dest: Addr, ds: int, dd: int, width: int, k: nat): (p: seq<Transfer>)
    ensures |p| == k
    decreases k
  {
    if k == 0 then []
    else Plan(src, dest, ds, dd, width, k - 1) + [Transfer(Advance(src, ds, k - 1), Advance(dest, dd, k - 1), width)]
  }

  /** Chunk i of a plan is i steps along both walks, and every chunk has the plan's width. */
  lemma {:induction false} PlanAt(src: Addr, dest: Addr, ds: int, dd: int, width: int, k: nat, i: nat)
    requires i < k
    ensures Plan(src, dest, ds, dd, width, k)[i] == Transfer(Advance(src, ds, i), Advance(dest, dd, i), width)
    decreases k
  {
    if i < k - 1 {
      PlanAt(src, dest, ds, dd, width, k - 1, i);
    }
  }

  /** A pointer whose adjustment is "fixed" stays where it started. */
  lemma {:induction false} AdvanceFixed(p: Addr, k: nat)
    ensures Advance(p, 0, k) == p
    decreases k
  {
    if k > 0 {
      AdvanceFixed(p, k - 1);
    }
  }

  /** A fixed destination (adjust 2) receives every chunk of the plan. */
  lemma FixedDestination(src: Addr, dest: Addr, ds: int, width: int, k: nat, i: nat)
    requires i < k
    ensures Plan(src, dest, ds, 0, width, k)[i].dest == dest
  {
    PlanAt(src, dest, ds, 0, width, k, i);
    AdvanceFixed(dest, i);
  }

  /** A chunk of 2 or 4 bytes whose source and destination both lie in plain EWRAM or IWRAM. */
  predicate InRam(t: Transfer)
  {
    (t.width == 2 || t.width == 4) && PlainRam(t.src, t.width) && PlainRam(t.dest, t.width)
  }

  predicate AllInRam(p: seq<Transfer>)
  {
    forall i :: 0 <= i < |p| ==> InRam(p[i])
  }

  /**
   * memory[] after one chunk inside RAM: the word, or the halfword's two
   * bytes, read at the source and stored at the destination.
   */
  function CopyRam(m: seq<Byte>, t: Transfer): (r: seq<Byte>)
    requires |m| == MemSize && InRam(t)
    ensures |r| == |m|
  {
    if t.width == 4 then PutWord(m, t.dest, GetWord(m, t.src))
    else var h := Pack16(m[t.src + 1], m[t.src]); m[t.dest := Lo8(h)][t.dest + 1 := Hi8(h)]
  }

  /** memory[] after the chunks of p, copied in order. */
  function Replay(m: seq<Byte>, p: seq<Transfer>): (r: seq<Byte>)
    requires |m| == MemSize && AllInRam(p)
    ensures |r| == |m|
    decreases |p|
  {
    if p == [] then m else CopyRam(Replay(m, p[..|p| - 1]), p[|p| - 1])
  }

  /**
   * A copied chunk: the destination holds what the source held before the
   * copy, and every byte outside the destination is unchanged.
   */
  lemma CopyRamCopies(m: seq<Byte>, t: Transfer)
    requires |m| == MemSize && InRam(t)
    ensures t.width == 4 ==> GetWord(CopyRam(m, t), t.dest) == GetWord(m, t.src)
    ensures forall a :: t.dest <= a < t.dest + t.width ==> CopyRam(m, t)[a] == m[t.src + (a - t.dest)]
    ensures forall a :: 0 <= a < |m| && !(t.dest <= a < t.dest + t.width) ==> CopyRam(m, t)[a] == m[a]
  {
    if t.width == 4 {
      var w := GetWord(m, t.src);
      GetPutWord(m, t.dest, t.dest, w);
      Word4RoundTrip(w, m[t.src], m[t.src + 1], m[t.src + 2], m[t.src + 3]);
    } else {
      Pack16RoundTrip(0, m[t.src + 1], m[t.src]);
    }
  }

  /** The first i chunks of a plan inside RAM are inside RAM. */
  lemma PlanPrefixInRam(src: Addr, dest: Addr, ds: int, dd: int, width: int, k: nat, i: nat)
    requires i <= k && AllInRam(Plan(src, dest, ds, dd, width, k))
    ensures AllInRam(Plan(src, dest, ds, dd, width, i))
  {
    forall j | 0 <= j < i
      ensures InRam(Plan(src, dest, ds, dd, width, i)[j])
    {
      PlanAt(src, dest, ds, dd, width, k, j);
      PlanAt(src, dest, ds, dd, width, i, j);
    }
  }

  /** Replaying one more chunk of a plan inside RAM copies that chunk over the replay so far. */
  lemma ReplayStep(m: seq<Byte>, src: Addr, dest: Addr, ds: int, dd: int, width: int, i: nat)
    requires |m| == MemSize && AllInRam(Plan(src, dest, ds, dd, width, i + 1))
    ensures AllInRam(Plan(src, dest, ds, dd, width, i))
    ensures InRam(Transfer(Advance(src, ds, i), Advance(dest, dd, i), width))
    ensures Replay(m, Plan(src, dest, ds, dd, width, i + 1))
         == CopyRam(Replay(m, Plan(src, dest, ds, dd, width, i)), Transfer(Advance(src, ds, i), Advance(dest, dd, i), width))
  {
    var p := Plan(src, dest, ds, dd, width, i + 1);
    assert p[..i] == Plan(src, dest, ds, dd, width, i);
    assert p[i] == Transfer(Advance(src, ds, i), Advance(dest, dd, i), width);
    PlanPrefixInRam(src, dest, ds, dd, width, i + 1, i);
  }

  /** The I/O registers whose writes write8 acts on; any other byte is only stored. */
  datatype IoReg =
    | DispcntReg | DispstatLow | DispstatHigh
    | BgcntReg(n: int) | BgScroll(n: int, vertical: bool) | BgRef(n: int, vertical: bool)
    | WaitcntReg
    | WinBounds(n: int, vertical: bool) | WinContent(n: int)
    | DmaCount(n: int) | DmaDest(n: int) | DmaHigh(n: int)
    | TimerData(n: int) | TimerCnt(n: int)
    | KeycntReg | IfReg | IeReg | ImeReg
    | Plain

  /** The index a register carries is one its array (backgrounds, windows, channels) has. */
  predicate IndexOk(r: IoReg)
  {
    match r
    case BgcntReg(n) => 0 <= n < 4
    case BgScroll(n, _) => 0 <= n < 4
    case BgRef(n, _) => 2 <= n < 4
    case WinBounds(n, _) => 0 <= n < 2
    case WinContent(n) => 0 <= n < 4
    case DmaCount(n) => 0 <= n < 4
    case DmaDest(n) => 0 <= n < 4
    case DmaHigh(n) => 0 <= n < 4
    case TimerData(n) => 0 <= n < 4
    case TimerCnt(n) => 0 <= n < 4
    case _ => true
  }

  /** The case labels of write8's register switch, and the register each byte belongs to. */
  function IoRegisterOf(x: int): (r: IoReg)
    ensures IndexOk(r)
  {
    if x == 0x400_0000 || x == 0x400_0001 then DispcntReg
    else if x == 0x400_0004 then DispstatLow
    else if x == 0x400_0005 then DispstatHigh
    else if 0x400_0008 <= x < 0x400_0010 then BgcntReg((x - 0x400_0008) / 2)
    else if 0x400_0010 <= x < 0x400_0020 then BgScroll((x - 0x400_0010) / 4, (x - 0x400_0010) % 4 >= 2)
    else if 0x400_0028 <= x < 0x400_0030 then BgRef(2, x >= 0x400_002C)
    else if 0x400_0038 <= x < 0x400_0040 then BgRef(3, x >= 0x400_003C)
    else if x == 0x400_0204 then WaitcntReg
    else if 0x400_0040 <= x < 0x400_0048 then WinBounds((x - 0x400_0040) / 2 % 2, x >= 0x400_0044)
    else if 0x400_0048 <= x < 0x400_004C then WinContent(x - 0x400_0048)
    else if 0x400_00B0 <= x < 0x400_00E0 && (x - 0x400_00B0) % 12 >= 8 then
      (var n := (x - 0x400_00B0) / 12;
       var o := (x - 0x400_00B0) % 12;
       if o < 10 then DmaCount(n) else if o == 10 then DmaDest(n) else DmaHigh(n))
    else if 0x400_0100 <= x < 0x400_0110 && (x - 0x400_0100) % 4 < 3 then
      (var n := (x - 0x400_0100) / 4;
       if (x - 0x400_0100) % 4 < 2 then TimerData(n) else TimerCnt(n))
    else if x == 0x400_0132 || x == 0x400_0133 then KeycntReg
    else if x == 0x400_0202 || x == 0x400_0203 then IfReg
    else if x == 0x400_0200 || x == 0x400_0201 then IeReg
    else if x == 0x400_0208 || x == 0x400_0209 then ImeReg
    else Plain
  }

  /** The address of a register's lowest byte. */
  function BaseOf(r: IoReg): int
    requires IndexOk(r)
  {
    match r
    case DispcntReg => RegDispcnt
    case DispstatLow => RegDispstat
    case DispstatHigh => RegDispstat + 1
    case BgcntReg(n) => BgcntAddr(n)
    case BgScroll(n, v) => BgScrollAddr(n, v)
    case BgRef(n, v) => BgRefAddr(n, v)
    case WaitcntReg => Waitcnt
    case WinBounds(n, v) => WinAddr(n, v)
    case WinContent(n) => 0x400_0048 + n
    case DmaCount(n) => DmaCnt(n)
    case DmaDest(n) => DmaCnt(n) + 2
    case DmaHigh(n) => DmaCnt(n) + 3
    case TimerData(n) => TmdAddr(n)
    case TimerCnt(n) => TmdAddr(n) + 2
    case KeycntReg => RegKeycnt
    case IfReg => RegIf
    case IeReg => RegIe
    case ImeReg => RegIme
    case Plain => 0
  }

  /** How many bytes of the switch belong to a register. */
  function WidthOf(r: IoReg): int
  {
    match r
    case DispstatLow => 1 case DispstatHigh => 1 case WaitcntReg => 1 case WinContent(_) => 1
    case DmaDest(_) => 1 case DmaHigh(_) => 1 case TimerCnt(_) => 1
    case BgRef(_, _) => 4
    case Plain => 0
    case _ => 2
  }

  /** Decoding an address gives the register that owns it, inside the I/O block ... */
  lemma IoRegisterOwnsAddress(x: int)
    ensures var r := IoRegisterOf(x);
      r != Plain ==> BaseOf(r) <= x < BaseOf(r) + WidthOf(r) && 0x400_0000 <= x < 0x400_0210
  {
  }

  /** ... and every byte of every register decodes to that register. */
  lemma IoRegisterBytes(r: IoReg, i: int)
    requires IndexOk(r) && r != Plain && 0 <= i < WidthOf(r)
    ensures IoRegisterOf(BaseOf(r) + i) == r
  {
    if r.BgcntReg? || r.BgScroll? || r.BgRef? || r.WinBounds? || r.WinContent? {
      DisplayBytes(r, i);
    } else if r.DmaCount? || r.DmaDest? || r.DmaHigh? {
      DmaBytes(r, i);
    } else if r.TimerData? || r.TimerCnt? {
      TimerBytes(r, i);
    }
  }

  lemma DisplayBytes(r: IoReg, i: int)
    requires r.BgcntReg? || r.BgScroll? || r.BgRef? || r.WinBounds? || r.WinContent?
    requires IndexOk(r) && 0 <= i < WidthOf(r)
    ensures IoRegisterOf(BaseOf(r) + i) == r
  {
    match r
    case BgcntReg(n) => assert (BaseOf(r) + i - 0x400_0008) / 2 == n;
    case BgScroll(n, v) =>
      assert (BaseOf(r) + i - 0x400_0010) / 4 == n;
      assert (BaseOf(r) + i - 0x400_0010) % 4 >= 2 <==> v;
    case WinBounds(n, v) => assert (BaseOf(r) + i - 0x400_0040) / 2 % 2 == n;
    case _ =>
  }

  lemma DmaBytes(r: IoReg, i: int)
    requires r.DmaCount? || r.DmaDest? || r.DmaHigh?
    requires IndexOk(r) && 0 <= i < WidthOf(r)
    ensures IoRegisterOf(BaseOf(r) + i) == r
  {
    var x := BaseOf(r) + i;
    assert (x - 0x400_00B0) / 12 == r.n;
    assert (x - 0x400_00B0) % 12 == (if r.DmaCount? then 8 + i else if r.DmaDest? then 10 else 11);
  }

  lemma TimerBytes(r: IoReg, i: int)
    requires r.TimerData? || r.TimerCnt?
    requires IndexOk(r) && 0 <= i < WidthOf(r)
    ensures IoRegisterOf(BaseOf(r) + i) == r
  {
    var x := BaseOf(r) + i;
    assert (x - 0x400_0100) / 4 == r.n;
    assert (x - 0x400_0100) % 4 == (if r.TimerData? then i else 2);
  }

  /** A byte of EWRAM or IWRAM proper is its own fold, outside the BIOS, OAM and the I/O registers, and stored in memory[]. */
  lemma PlainRamByte(b: Addr)
    requires PlainRam(b, 1)
    ensures Fold(b) == Cell(b) && BiosEnd < b < MemSize && Top(b) != 7
    ensures IoRegisterOf(b) == Plain
  {
    CellFoldsToItself(b);
  }

  /** EWRAM, IWRAM, palette RAM and VRAM with their mirrors: regions held in memory[] with no device behind them. */
  predicate RamRegion(address: Addr) { 2 <= Top(address) <= 6 && Top(address) != 4 }

  /** A RAM-region address folds to a plain cell of its own region, outside the BIOS, OAM and the I/O registers. */
  lemma RamRegionByte(address: Addr)
    requires RamRegion(address)
    ensures Fold(address).Cell? && BiosEnd < Fold(address).address < MemSize && Top(address) != 7
    ensures IoRegisterOf(Fold(address).address) == Plain && !(0x400_0000 <= Fold(address).address < 0x400_0210)
  {
    FoldRange(address);
  }

  /** Where a channel's source pointer ends: its start advanced once per chunk. */
  function SrcEnd(n: int, d: Dma, sad: Word): Addr
    requires 0 <= n < 4
  {
    Advance(DmaStart(n, sad, SourceSpan(n), d.chunkSize), SrcDelta(d.srcAdjust, Width(d.chunkSize)), d.numTransfers as nat)
  }

  /** Where a channel's destination pointer ends: back at its start for adjust 3 (increment/reload). */
  function DestEnd(n: int, d: Dma, dad: Word): Addr
    requires 0 <= n < 4
  {
    var dest := DmaStart(n, dad, DestSpan(n), d.chunkSize);
    if d.destAdjust == 3 then dest else Advance(dest, DestDelta(d.destAdjust, Width(d.chunkSize)), d.numTransfers as nat)
  }

  /** The halfword at a of a memory image, little-endian. */
  function HalfAt(m: seq<Byte>, a: int): Half
    requires 0 <= a && a + 1 < |m|
  {
    Pack16(m[a + 1], m[a])
  }

  /**
   * Everything on the bus other than memory[]: the display block (with the
   * window-content table flattened row by row), the wait states, HALTCNT and
   * the gamepad words, the DMA channels, the timers, the interrupt
   * controller, the transfer log, the cart ROM and the backup chip. An I/O
   * register write is stated as the snapshot taken before it with the fields
   * the register addresses replaced.
   */
  datatype Devices = Devices(
    scanline: Byte, dispcnt: Half, dispstat: Half, oamChanged: bool,
    bgcnt: seq<Lcd.BgControl>, winh: seq<Lcd.WinH>, winv: seq<Lcd.WinV>, content: seq<int>,
    nCycles: Byte, sCycles: Byte, haltcnt: Byte, keys: Half, keyCnt: Half,
    dma: seq<Dma>, ticks: int, channels: seq<Timers.Channel>,
    ie: Half, iflags: Half, ime: Half, raised: seq<Irqs.Occasion>, cleared: seq<Half>,
    transfers: seq<Transfer>, cartRom: seq<Byte>, flash: Backup.Control, cartRam: seq<Byte>)

  /** The flattened window-content table c with row `row` replaced by bits 0-5 of b. */
  function ContentWith(c: seq<int>, row: int, b: Byte): (c': seq<int>)
    requires |c| == 24 && 0 <= row < 4
    ensures |c'| == 24
    ensures forall j :: 0 <= j < 24 && j / 6 != row ==> c'[j] == c[j]
    ensures forall i :: 0 <= i < 6 ==> c'[6 * row + i] == Lcd.ContentBit(b, i)
  {
    seq(24, j requires 0 <= j < 24 => if j / 6 == row then Lcd.ContentBit(b, j % 6) else c[j])
  }

  class Memory {
    const memory: array<Byte>
    const cartRom: array<Byte>
    const dma: array<Dma>
    var nCycles: Byte
    var sCycles: Byte
    var haltcnt: Byte
    /** The gamepad's KEYINPUT and KEYCNT words, which the bus reads and writes. */
    var keys: Half
    var keyCnt: Half

    const stat: Lcd.LcdStat
    const timer: Timers.Timer
    const irq: Irqs.Irq
    const backup: Backup.Flash

    /** Every chunk the DMA channels have copied, oldest first. */
    ghost var transfers: seq<Transfer>

    ghost const Repr: set<object>

    /** The fixed shape of the bus: its arrays, their sizes and its collaborators, none of which changes. */
    ghost predicate Shape()
    {
      Repr == {this, memory, cartRom, dma} + stat.Repr + {timer, timer.channel, irq, backup, backup.cartRam}
      && memory.Length == MemSize && cartRom.Length == CartRomSize && dma.Length == 4
      && memory != cartRom && memory != backup.cartRam && cartRom != backup.cartRam
      && stat.Valid() && timer.irq == irq
    }

    ghost predicate Valid()
      reads this, timer, timer.channel, backup
    {
      Shape() && timer.Valid() && backup.Valid()
    }

    /** Memory(...) and reset(): zeroed memory, cart ROM and DMA channels, n = 4 and s = 2 wait cycles, no key pressed. */
    constructor (stat: Lcd.LcdStat, timer: Timers.Timer, irq: Irqs.Irq, backup: Backup.Flash)
      requires stat.Valid() && timer.Valid() && timer.irq == irq && backup.Valid()
      ensures Valid() && fresh(memory) && fresh(cartRom) && fresh(dma)
      ensures this.stat == stat && this.timer == timer && this.irq == irq && this.backup == backup
      ensures nCycles == 4 && sCycles == 2 && haltcnt == 0 && keys == 0x3FF && transfers == []
      ensures forall k :: 0 <= k < memory.Length ==> memory[k] == 0
      ensures forall k :: 0 <= k < cartRom.Length ==> cartRom[k] == 0
      ensures forall k :: 0 <= k < 4 ==> dma[k] == DmaZero
    {
      memory := new Byte[MemSize](_ => 0);
      cartRom := new Byte[CartRomSize](_ => 0);
      dma := new Dma[4](_ => DmaZero);
      nCycles, sCycles, haltcnt := 4, 2, 0;
      keys, keyCnt := 0x3FF, 0;
      this.stat, this.timer, this.irq, this.backup := stat, timer, irq, backup;
      transfers := [];
      Repr := {this, memory, cartRom, dma} + stat.Repr + {timer, timer.channel, irq, backup, backup.cartRam};
    }

    /** read8Unsafe: the raw cell, with no folding and no I/O. */
    function Read8Unsafe(address: int): Byte
      requires 0 <= address < memory.Length
      reads memory
    {
      memory[address]
    }

    function Read16Unsafe(address: int): Half
      requires 0 <= address < memory.Length - 1
      reads memory
    {
      Pack16(memory[address + 1], memory[address])
    }

    function Read32Unsafe(address: int): Word
      requires 0 <= address < memory.Length - 3
      reads memory
    {
      GetWord(memory[..], address)
    }

    /** The registers read8 answers from the devices rather than from memory[]. */
    function IoRead(address: int): Option<Byte>
      requires Valid()
      reads this, stat, timer, timer.channel, backup, irq
    {
      if address == RegDispstat then Some(Lo8(stat.dispstat))
      else if address == RegDispstat + 1 then Some(Hi8(stat.dispstat))
      else if address == RegVcount then Some(stat.scanline)
      else if RegTm0d <= address < RegTm0d + 0x10 && (address - RegTm0d) % 4 < 2 then
        (var d := timer.Read((address - RegTm0d) / 4);
         Some(if address % 2 == 0 then Lo8(d) else Hi8(d)))
      else if address == RegKeyinput then Some(Lo8(keys))
      else if address == RegKeyinput + 1 then Some(Hi8(keys))
      else if address == RegIf then Some(Lo8(irq.iflags))
      else if address == RegIf + 1 then Some(Hi8(irq.iflags))
      else if address == RegIe then Some(Lo8(irq.ie))
      else if address == RegIe + 1 then Some(Hi8(irq.ie))
      else if address == RegIme then Some(Lo8(irq.ime))
      else if address == RegIme + 1 then Some(Hi8(irq.ime))
      else None
    }

    /** read8: fold, then cart ROM above MEM_SIZE, the device registers, or memory[]; 0 for an invalid address. */
    function Read8(address: Addr): Byte
      requires Valid()
      reads this, stat, timer, timer.channel, backup, irq, memory, cartRom, backup.cartRam
    {
      match Fold(address)
      case Invalid => 0
      case BackupCell(i) => backup.Read(i)
      case Cell(a) =>
        if a >= MemSize then cartRom[a - MemSize]
        else match IoRead(a)
          case Some(b) => b
          case None => memory[a]
    }

    /** read16: two bytes, little-endian. */
    function Read16(address: Addr): Half
      requires Valid()
      reads this, stat, timer, timer.channel, backup, irq, memory, cartRom, backup.cartRam
    {
      Pack16(Read8(Next(address, 1)), Read8(address))
    }

    /** read32: four bytes, little-endian. */
    function Read32(address: Addr): Word
      requires Valid()
      reads this, stat, timer, timer.channel, backup, irq, memory, cartRom, backup.cartRam
    {
      Word4(Read8(address), Read8(Next(address, 1)), Read8(Next(address, 2)), Read8(Next(address, 3)))
    }

    /** write8Unsafe: the raw cell, with no folding and no I/O. */
    method Write8Unsafe(address: int, value: Byte)
      requires 0 <= address < memory.Length
      modifies memory
      ensures memory[..] == old(memory[..])[address := value]
    {
      memory[address] := value;
    }

    method Write16Unsafe(address: int, value: Half)
      requires 0 <= address < memory.Length - 1
      modifies memory
      ensures memory[..] == old(memory[..])[address := Lo8(value)][address + 1 := Hi8(value)]
      ensures Read16Unsafe(address) == value
    {
      Write8Unsafe(address, Lo8(value));
      Write8Unsafe(address + 1, Hi8(value));
      Pack16RoundTrip(value, 0, 0);
    }

    /** write32Unsafe: the four bytes, lowest first; the word reads back unchanged. */
    method Write32Unsafe(address: int, value: Word)
      requires 0 <= address < memory.Length - 3
      modifies memory
      ensures memory[..] == PutWord(old(memory[..]), address, value)
    {
      Write8Unsafe(address, ByteOf(value, 0));
      Write8Unsafe(address + 1, ByteOf(value, 1));
      Write8Unsafe(address + 2, ByteOf(value, 2));
      Write8Unsafe(address + 3, ByteOf(value, 3));
    }

    /** DISPCNT: the display control word is the two stored bytes, and bits 8-11 enable backgrounds 0-3. */
    method WriteDispcnt()
      requires Valid()
      modifies stat, stat.bgcnt
      ensures Valid()
      ensures stat.dispcnt == Read16Unsafe(RegDispcnt)
      ensures stat.bgcnt[0] == old(stat.bgcnt[0]).(enabled := BgEnabled(stat.dispcnt, 0))
      ensures stat.bgcnt[1] == old(stat.bgcnt[1]).(enabled := BgEnabled(stat.dispcnt, 1))
      ensures stat.bgcnt[2] == old(stat.bgcnt[2]).(enabled := BgEnabled(stat.dispcnt, 2))
      ensures stat.bgcnt[3] == old(stat.bgcnt[3]).(enabled := BgEnabled(stat.dispcnt, 3))
      ensures stat.dispstat == old(stat.dispstat) && stat.scanline == old(stat.scanline)
      ensures stat.oamChanged == old(stat.oamChanged)
      ensures DispcntWritten(old(DevicesNow()), old(memory[..]))
    {
      ghost var before := DevicesNow();
      var d := Read16Unsafe(RegDispcnt);
      stat.dispcnt := d;
      SetEnables(d);
      assert DevicesNow() == before.(dispcnt := d, bgcnt := BgcntNow());
    }

    /** Bits 8-11 of a DISPCNT value become the enable flags of backgrounds 0-3. */
    method SetEnables(d: Half)
      requires stat.bgcnt.Length == 4
      modifies stat.bgcnt
      ensures BgcntNow() == [old(stat.bgcnt[0]).(enabled := BgEnabled(d, 0)), old(stat.bgcnt[1]).(enabled := BgEnabled(d, 1)),
                             old(stat.bgcnt[2]).(enabled := BgEnabled(d, 2)), old(stat.bgcnt[3]).(enabled := BgEnabled(d, 3))]
    {
      stat.bgcnt[0] := stat.bgcnt[0].(enabled := d & 0x100 != 0);
      stat.bgcnt[1] := stat.bgcnt[1].(enabled := d & 0x200 != 0);
      stat.bgcnt[2] := stat.bgcnt[2].(enabled := d & 0x400 != 0);
      stat.bgcnt[3] := stat.bgcnt[3].(enabled := d & 0x800 != 0);
    }

    /** DISPSTAT: the low byte sets only the three IRQ enables, the high byte is the VCOUNT trigger. */
    method WriteDispstat(high: bool, value: Byte)
      requires Valid()
      modifies stat
      ensures Valid()
      ensures stat.dispstat == if high then DispstatFromHigh(old(stat.dispstat), value) else DispstatFromLow(old(stat.dispstat), value)
      ensures stat.dispcnt == old(stat.dispcnt) && stat.scanline == old(stat.scanline)
      ensures stat.oamChanged == old(stat.oamChanged)
      ensures DispstatWritten(high, value, old(DevicesNow()), old(memory[..]))
    {
      if high {
        stat.dispstat := Pack16(value, Lo8(stat.dispstat));
      } else {
        stat.dispstat := Pack16(Hi8(stat.dispstat), (Lo8(stat.dispstat) & 0xC7) | (value & 0x38));
      }
    }

    /**
     * BGxCNT: the control word is the two stored bytes; for BG0 and BG1 bit 13
     * is cleared and the cleared word is stored back, so memory and the
     * control agree.
     */
    method WriteBgcnt(k: int)
      requires Valid() && 0 <= k < 4
      modifies stat.bgcnt, memory
      ensures Valid()
      ensures Read16Unsafe(BgcntAddr(k)) == if k < 2 then NoWrap(old(Read16Unsafe(BgcntAddr(k)))) else old(Read16Unsafe(BgcntAddr(k)))
      ensures stat.bgcnt[..] == old(stat.bgcnt[..])[k := old(stat.bgcnt[k]).(raw := Read16Unsafe(BgcntAddr(k)))]
      ensures k < 2 ==> memory[..] == old(memory[..])[BgcntAddr(k) := Lo8(Read16Unsafe(BgcntAddr(k)))]
                                                     [BgcntAddr(k) + 1 := Hi8(Read16Unsafe(BgcntAddr(k)))]
      ensures k >= 2 ==> memory[..] == old(memory[..])
      ensures BgcntWritten(k, old(DevicesNow()), old(memory[..]))
    {
      var c := BgcntAddr(k);
      var raw := Read16Unsafe(c);
      if k < 2 {
        raw := NoWrap(raw);
        Write16Unsafe(c, raw);
      }
      stat.bgcnt[k] := stat.bgcnt[k].(raw := raw);
    }

    /** BGxHOFS / BGxVOFS: the scroll offset is the two stored bytes. */
    method WriteBgScroll(k: int, vertical: bool)
      requires Valid() && 0 <= k < 4
      modifies stat.bgcnt
      ensures Valid()
      ensures vertical ==> stat.bgcnt[k] == old(stat.bgcnt[k]).(voff := Read16Unsafe(BgScrollAddr(k, vertical)) as int)
      ensures !vertical ==> stat.bgcnt[k] == old(stat.bgcnt[k]).(hoff := Read16Unsafe(BgScrollAddr(k, vertical)) as int)
      ensures forall j :: 0 <= j < 4 && j != k ==> stat.bgcnt[j] == old(stat.bgcnt[j])
      ensures BgScrollWritten(k, vertical, old(DevicesNow()), old(memory[..]))
    {
      var v := Read16Unsafe(BgScrollAddr(k, vertical)) as int;
      if vertical {
        stat.bgcnt[k] := stat.bgcnt[k].(voff := v);
      } else {
        stat.bgcnt[k] := stat.bgcnt[k].(hoff := v);
      }
    }

    /** BG2X/Y, BG3X/Y: the reference point coordinate is the four stored bytes. */
    method WriteBgRef(k: int, vertical: bool)
      requires Valid() && 2 <= k < 4
      modifies stat.bgcnt
      ensures Valid()
      ensures vertical ==> stat.bgcnt[k] == old(stat.bgcnt[k]).(dy := Read32Unsafe(BgRefAddr(k, vertical)))
      ensures !vertical ==> stat.bgcnt[k] == old(stat.bgcnt[k]).(dx := Read32Unsafe(BgRefAddr(k, vertical)))
      ensures forall j :: 0 <= j < 4 && j != k ==> stat.bgcnt[j] == old(stat.bgcnt[j])
      ensures BgRefWritten(k, vertical, old(DevicesNow()), old(memory[..]))
    {
      var v := Read32Unsafe(BgRefAddr(k, vertical));
      if vertical {
        stat.bgcnt[k] := stat.bgcnt[k].(dy := v);
      } else {
        stat.bgcnt[k] := stat.bgcnt[k].(dx := v);
      }
    }

    /** WAITCNT: bits 3-2 select the n-cycle count, the value above bit 3 the s-cycle count. */
    method WriteWaitcnt(value: Byte)
      requires Valid()
      modifies this
      ensures Valid()
      ensures nCycles == WaitN(value) && sCycles == WaitS(value, old(sCycles))
      ensures haltcnt == old(haltcnt) && keys == old(keys) && keyCnt == old(keyCnt) && transfers == old(transfers)
      ensures WaitcntWritten(value, old(DevicesNow()), old(memory[..]))
    {
      match (value >> 2) & 3 {
        case 0 => nCycles := 4;
        case 1 => nCycles := 3;
        case 2 => nCycles := 2;
        case _ => nCycles := 8;
      }
      match value >> 4 {
        case 0 => sCycles := 2;
        case 1 => sCycles := 1;
        case _ =>
      }
    }

    /** WINxH / WINxV: the window bounds are clipped from the two stored bytes. */
    method WriteWindowBounds(w: int, vertical: bool)
      requires Valid() && 0 <= w < 2
      modifies stat.winh, stat.winv
      ensures Valid()
      ensures WinBoundsWritten(w, vertical, old(DevicesNow()), old(memory[..]))
    {
      if vertical {
        stat.WriteWinv(w, Read16Unsafe(WinAddr(w, true)));
      } else {
        stat.WriteWinh(w, Read16Unsafe(WinAddr(w, false)));
      }
    }

    /** WININ / WINOUT byte row: bits 6-7 are dropped, in memory and in the window-content row. */
    method WriteWindowContent(row: int, value: Byte)
      requires Valid() && 0 <= row < 4
      modifies memory, stat.windowContent
      ensures Valid()
      ensures memory[..] == old(memory[..])[0x400_0048 + row := value & 0x3F]
      ensures forall i :: 0 <= i < 6 ==> stat.windowContent[row, i] == Lcd.ContentBit(value & 0x3F, i)
      ensures forall w, i :: 0 <= w < 4 && w != row && 0 <= i < 6 ==>
        stat.windowContent[w, i] == old(stat.windowContent[w, i])
      ensures WinContentWritten(row, value, old(DevicesNow()), old(memory[..]))
    {
      var masked := value & 0x3F;
      memory[0x400_0048 + row] := masked;
      stat.WriteWindowContent(row, masked);
    }

    /** DMAxCNT bytes 0-1: the transfer count is the two stored bytes. */
    method WriteDmaCount(n: int)
      requires Valid() && 0 <= n < 4
      modifies dma
      ensures Valid()
      ensures dma[..] == old(dma[..])[n := old(dma[n]).(numTransfers := Read16Unsafe(DmaCnt(n)))]
      ensures forall value :: DmaWritten(DmaCount(n), value, false, old(DevicesNow()), old(memory[..]))
    {
      dma[n] := dma[n].(numTransfers := Read16Unsafe(DmaCnt(n)));
    }

    /** DMAxCNT byte 2: the destination adjustment. */
    method WriteDmaDest(n: int, value: Byte)
      requires Valid() && 0 <= n < 4
      modifies dma
      ensures Valid()
      ensures dma[..] == old(dma[..])[n := SetDestAdjust(old(dma[n]), value)]
    {
      dma[n] := SetDestAdjust(dma[n], value);
    }

    /**
     * DMAxCNT byte 3: decode the control fields; an enabled channel in
     * immediate mode (mode 0) transfers at once and is then disabled. A write
     * made by a transfer (allowDma false) decodes the fields but starts no
     * transfer.
     */
    method WriteDmaHigh(n: int, value: Byte, allowDma: bool)
      requires Valid() && 0 <= n < 4
      modifies Repr
      decreases if allowDma then 1 else 0, 7
      ensures Valid()
      ensures var d := SetControlHigh(old(dma[n]), old(memory[DmaCnt(n) + 2]), value);
        !(allowDma && d.enable == 1 && d.mode == 0) ==>
          dma[..] == old(dma[..])[n := if d.enable == 1 && d.mode == 0 then d.(enable := 0) else d]
          && unchanged(Repr - {dma})
      ensures var d := SetControlHigh(old(dma[n]), old(memory[DmaCnt(n) + 2]), value);
        allowDma && d.enable == 1 && d.mode == 0 ==>
          dma[n].enable == 0
          && transfers == old(transfers) + DmaPlan(n, d, old(Read32Unsafe(DmaSad(n))), old(Read32Unsafe(DmaDad(n))))
          && irq.raised == old(irq.raised) + (if d.irq == 1 then [Irqs.Dma0 + n] else [])
      ensures !allowDma ==> transfers == old(transfers) && irq.raised == old(irq.raised)
      ensures DmaWritten(DmaHigh(n), value, allowDma, old(DevicesNow()), old(memory[..]))
    {
      var d := SetControlHigh(dma[n], memory[DmaCnt(n) + 2], value);
      if d.enable == 1 && d.mode == 0 && allowDma {
        StartImmediate(n, value);
      } else {
        StoreControl(n, value, allowDma);
      }
    }

    /** A control write that starts an immediate transfer: the transfer runs at once. */
    method StartImmediate(n: int, value: Byte)
      requires Valid() && 0 <= n < 4
      requires var d := SetControlHigh(dma[n], memory[DmaCnt(n) + 2], value); d.enable == 1 && d.mode == 0
      modifies Repr
      decreases 1, 6
      ensures Valid()
      ensures dma[n].enable == 0
      ensures var d := SetControlHigh(old(dma[n]), old(memory[DmaCnt(n) + 2]), value);
        transfers == old(transfers) + DmaPlan(n, d, old(Read32Unsafe(DmaSad(n))), old(Read32Unsafe(DmaDad(n))))
        && irq.raised == old(irq.raised) + (if d.irq == 1 then [Irqs.Dma0 + n] else [])
      ensures DmaWritten(DmaHigh(n), value, true, old(DevicesNow()), old(memory[..]))
    {
      ghost var before, m0 := DevicesNow(), memory[..];
      var d := SetControlHigh(dma[n], memory[DmaCnt(n) + 2], value);
      assert d == SetControlHigh(before.dma[n], m0[DmaCnt(n) + 2], value);
      dma[n] := d;
      RunImmediate(n, m0);
      assert ControlWritten(n, d, true, before, m0);
      ControlIsDmaWritten(n, value, true, before, m0);
    }

    /** A control write that starts nothing: the decoded control is stored, disabled when it asks for an immediate transfer that is not allowed. */
    method StoreControl(n: int, value: Byte, allowDma: bool)
      requires Valid() && 0 <= n < 4
      requires var d := SetControlHigh(dma[n], memory[DmaCnt(n) + 2], value); !(allowDma && d.enable == 1 && d.mode == 0)
      modifies dma
      ensures Valid()
      ensures var d := SetControlHigh(old(dma[n]), old(memory[DmaCnt(n) + 2]), value);
        dma[..] == old(dma[..])[n := if d.enable == 1 && d.mode == 0 then d.(enable := 0) else d]
      ensures DmaWritten(DmaHigh(n), value, allowDma, old(DevicesNow()), old(memory[..]))
    {
      ghost var before, m0 := DevicesNow(), memory[..];
      var d := SetControlHigh(dma[n], memory[DmaCnt(n) + 2], value);
      assert d == SetControlHigh(before.dma[n], m0[DmaCnt(n) + 2], value);
      SetChannel(n, if d.enable == 1 && d.mode == 0 then d.(enable := 0) else d);
      assert DevicesNow() == before.(dma := DmaNow());
      assert ControlWritten(n, d, allowDma, before, m0);
      ControlIsDmaWritten(n, value, allowDma, before, m0);
    }

    /** Channel n's registers become c; the other channels keep theirs. */
    method SetChannel(n: int, c: Dma)
      requires dma.Length == 4 && 0 <= n < 4
      modifies dma
      ensures DmaNow() == old(DmaNow())[n := c]
    {
      dma[n] := c;
    }

    /**
     * The run of an enabled immediate channel started by a write: RunDma with
     * its results restated from the memory m0 the write found, then the
     * channel disabled.
     */
    method RunImmediate(n: int, ghost m0: seq<Byte>)
      requires Valid() && 0 <= n < 4 && memory[..] == m0
      modifies Repr
      decreases 1, 5
      ensures Valid()
      ensures var d, sad, dad := old(dma[n]), GetWord(m0, DmaSad(n)), GetWord(m0, DmaDad(n));
        var plan := DmaPlan(n, d, sad, dad);
        dma[n].enable == 0 && transfers == old(transfers) + plan
        && irq.raised == old(irq.raised) + (if d.irq == 1 then [Irqs.Dma0 + n] else [])
        && Read32Unsafe(DmaSad(n)) == AsWord(SrcEnd(n, d, sad)) && Read32Unsafe(DmaDad(n)) == AsWord(DestEnd(n, d, dad))
        && (AllInRam(plan) ==>
              memory[..] == PutWord(PutWord(Replay(m0, plan), DmaDad(n), Read32Unsafe(DmaDad(n))), DmaSad(n), Read32Unsafe(DmaSad(n))))
    {
      RunDma(n);
      dma[n] := dma[n].(enable := 0);
    }

    /** The chunks channel n copies with control d, from the stored SAD and DAD values. */
    ghost function DmaPlan(n: int, d: Dma, sad: Word, dad: Word): seq<Transfer>
      requires 0 <= n < 4
    {
      var w := Width(d.chunkSize);
      Plan(DmaStart(n, sad, SourceSpan(n), d.chunkSize), DmaStart(n, dad, DestSpan(n), d.chunkSize),
           SrcDelta(d.srcAdjust, w), DestDelta(d.destAdjust, w), w, d.numTransfers as nat)
    }

    /**
     * dma0-dma3: copy numTransfers chunks from SAD to DAD, moving each
     * pointer by its adjustment; write the final pointers back (DAD restored
     * to its start for adjust 3); disable the channel unless it repeats; and
     * request the channel's interrupt if asked.
     */
    method RunDma(n: int)
      requires Valid() && 0 <= n < 4
      modifies Repr
      decreases 1, 4
      ensures Valid()
      ensures transfers == old(transfers) + DmaPlan(n, old(dma[n]), old(Read32Unsafe(DmaSad(n))), old(Read32Unsafe(DmaDad(n))))
      ensures Read32Unsafe(DmaSad(n)) == AsWord(SrcEnd(n, old(dma[n]), old(Read32Unsafe(DmaSad(n)))))
      ensures Read32Unsafe(DmaDad(n)) == AsWord(DestEnd(n, old(dma[n]), old(Read32Unsafe(DmaDad(n)))))
      ensures old(dma[n]).repeat == 0 ==> dma[n].enable == 0
      ensures irq.raised == old(irq.raised) + (if old(dma[n]).irq == 1 then [Irqs.Dma0 + n] else [])
      ensures var plan := DmaPlan(n, old(dma[n]), old(Read32Unsafe(DmaSad(n))), old(Read32Unsafe(DmaDad(n))));
        AllInRam(plan) ==>
          memory[..] == PutWord(PutWord(Replay(old(memory[..]), plan), DmaDad(n), Read32Unsafe(DmaDad(n))),
                                DmaSad(n), Read32Unsafe(DmaSad(n)))
    {
      var d := dma[n];
      var w := Width(d.chunkSize);
      var src0 := DmaStart(n, Read32Unsafe(DmaSad(n)), SourceSpan(n), d.chunkSize);
      var dest0 := DmaStart(n, Read32Unsafe(DmaDad(n)), DestSpan(n), d.chunkSize);
      var src, dest := CopyChunks(src0, dest0, SrcDelta(d.srcAdjust, w), DestDelta(d.destAdjust, w), w, d.numTransfers as nat);
      var dEnd := if d.destAdjust == 3 then dest0 else dest;
      FinishDma(n, d, AsWord(src), AsWord(dEnd));
    }

    /** The end of dma0-dma3: DAD then SAD written back, the channel disabled unless it repeats, the interrupt requested if asked. */
    method FinishDma(n: int, d: Dma, src: Word, dest: Word)
      requires Valid() && 0 <= n < 4
      modifies memory, dma, irq
      ensures Valid()
      ensures Read32Unsafe(DmaDad(n)) == dest && Read32Unsafe(DmaSad(n)) == src
      ensures memory[..] == PutWord(PutWord(old(memory[..]), DmaDad(n), dest), DmaSad(n), src)
      ensures dma[..] == old(dma[..])[n := if d.repeat == 0 then old(dma[n]).(enable := 0) else old(dma[n])]
      ensures irq.raised == old(irq.raised) + (if d.irq == 1 then [Irqs.Dma0 + n] else [])
    {
      WriteBack(n, src, dest);
      if d.repeat == 0 {
        dma[n] := dma[n].(enable := 0);
      }
      if d.irq == 1 {
        irq.Raise(Irqs.Dma0 + n);
      }
    }

    /** DAD, then SAD, stored as words; both read back as stored. */
    method WriteBack(n: int, src: Word, dest: Word)
      requires Valid() && 0 <= n < 4
      modifies memory
      ensures Valid()
      ensures Read32Unsafe(DmaDad(n)) == dest && Read32Unsafe(DmaSad(n)) == src
      ensures memory[..] == PutWord(PutWord(old(memory[..]), DmaDad(n), dest), DmaSad(n), src)
    {
      ghost var m := memory[..];
      Write32Unsafe(DmaDad(n), dest);
      Write32Unsafe(DmaSad(n), src);
      GetPutWord(m, DmaDad(n), DmaDad(n), dest);
      GetPutWord(PutWord(m, DmaDad(n), dest), DmaSad(n), DmaDad(n), src);
    }

    /**
     * The copy loop of dma0-dma3: count chunks of w bytes, the pointers
     * moving by ds and dd after each chunk. When every chunk lies in RAM,
     * memory[] ends as the chunks replayed in order.
     */
    method CopyChunks(src0: Addr, dest0: Addr, ds: int, dd: int, w: int, count: nat) returns (src: Addr, dest: Addr)
      requires Valid() && (w == 2 || w == 4)
      modifies Repr
      decreases 1, 3
      ensures Valid()
      ensures src == Advance(src0, ds, count) && dest == Advance(dest0, dd, count)
      ensures transfers == old(transfers) + Plan(src0, dest0, ds, dd, w, count)
      ensures irq.raised == old(irq.raised)
      ensures AllInRam(Plan(src0, dest0, ds, dd, w, count)) ==>
        memory[..] == Replay(old(memory[..]), Plan(src0, dest0, ds, dd, w, count))
    {
      src, dest := src0, dest0;
      ghost var m0, t0, r0 := memory[..], transfers, irq.raised;
      var i := 0;
      while i < count
        invariant 0 <= i <= count
        invariant Valid()
        invariant src == Advance(src0, ds, i) && dest == Advance(dest0, dd, i)
        invariant Logged(t0, src0, dest0, ds, dd, w, i) && irq.raised == r0
        invariant Replayed(m0, src0, dest0, ds, dd, w, count, i)
      {
        CopyNext(src, dest, src0, dest0, ds, dd, w, count, i, m0, t0);
        src, dest := Next(src, ds), Next(dest, dd);
        i := i + 1;
      }
    }

    /** While the chunks of a plan inside RAM are copied, memory[] holds the first i of them replayed. */
    ghost predicate Replayed(m0: seq<Byte>, src0: Addr, dest0: Addr, ds: int, dd: int, w: int, count: nat, i: nat)
      reads memory
    {
      |m0| == MemSize && AllInRam(Plan(src0, dest0, ds, dd, w, count)) ==>
        i <= count && AllInRam(Plan(src0, dest0, ds, dd, w, i)) && memory[..] == Replay(m0, Plan(src0, dest0, ds, dd, w, i))
    }

    /** While a plan is copied, the log holds what it held before and the first i chunks. */
    ghost predicate Logged(t0: seq<Transfer>, src0: Addr, dest0: Addr, ds: int, dd: int, w: int, i: nat)
      reads this
    {
      transfers == t0 + Plan(src0, dest0, ds, dd, w, i)
    }

    /** Chunk i of the plan, with the log and the replay carried one chunk further. */
    method CopyNext(src: Addr, dest: Addr, src0: Addr, dest0: Addr, ds: int, dd: int, w: int, count: nat, i: nat,
                    ghost m0: seq<Byte>, ghost t0: seq<Transfer>)
      requires Valid() && (w == 2 || w == 4) && i < count
      requires src == Advance(src0, ds, i) && dest == Advance(dest0, dd, i)
      requires Logged(t0, src0, dest0, ds, dd, w, i) && Replayed(m0, src0, dest0, ds, dd, w, count, i)
      modifies Repr
      decreases 1, 2
      ensures Valid()
      ensures Logged(t0, src0, dest0, ds, dd, w, i + 1) && irq.raised == old(irq.raised)
      ensures Replayed(m0, src0, dest0, ds, dd, w, count, i + 1)
    {
      if |m0| == MemSize && AllInRam(Plan(src0, dest0, ds, dd, w, count)) {
        PlanPrefixInRam(src0, dest0, ds, dd, w, count, i + 1);
        ReplayStep(m0, src0, dest0, ds, dd, w, i);
      }
      CopyChunk(src, dest, w);
    }

    /**
     * One chunk: read32 then write32 for a 4-byte chunk, otherwise read16 then
     * write16, with DMA starts disabled. Inside RAM the chunk is copied and
     * nothing but memory[] changes.
     */
    method CopyChunk(src: Addr, dest: Addr, w: int)
      requires Valid() && (w == 2 || w == 4)
      modifies Repr
      decreases 1, 1
      ensures Valid()
      ensures transfers == old(transfers) + [Transfer(src, dest, w)] && irq.raised == old(irq.raised)
      ensures InRam(Transfer(src, dest, w)) ==>
        memory[..] == CopyRam(old(memory[..]), Transfer(src, dest, w)) && unchanged(Repr - {this, memory})
    {
      if w == 4 {
        CopyWord(src, dest);
      } else {
        CopyHalf(src, dest);
      }
      transfers := transfers + [Transfer(src, dest, w)];
    }

    /** A 4-byte chunk: read32, then write32 with DMA starts disabled. */
    method CopyWord(src: Addr, dest: Addr)
      requires Valid()
      modifies Repr
      decreases 1, 0
      ensures Valid()
      ensures transfers == old(transfers) && irq.raised == old(irq.raised)
      ensures InRam(Transfer(src, dest, 4)) ==>
        memory[..] == CopyRam(old(memory[..]), Transfer(src, dest, 4)) && unchanged(Repr - {memory})
    {
      var v := Read32(src);
      if PlainRam(src, 4) {
        PlainRead32(src);
      }
      Write32(dest, v, false);
    }

    /** A 2-byte chunk: read16, then write16 with DMA starts disabled. */
    method CopyHalf(src: Addr, dest: Addr)
      requires Valid()
      modifies Repr
      decreases 1, 0
      ensures Valid()
      ensures transfers == old(transfers) && irq.raised == old(irq.raised)
      ensures InRam(Transfer(src, dest, 2)) ==>
        memory[..] == CopyRam(old(memory[..]), Transfer(src, dest, 2)) && unchanged(Repr - {memory})
    {
      var v := ReadChunk16(src);
      ghost var m0 := memory[..];
      assert InRam(Transfer(src, dest, 2)) ==> v == Pack16(m0[src + 1], m0[src]) && PlainRam(dest, 2);
      Write16(dest, v, false);
    }

    /** The read16 of a 2-byte chunk: in plain RAM, the two cells. */
    method ReadChunk16(src: Addr) returns (v: Half)
      requires Valid()
      ensures v == Read16(src)
      ensures PlainRam(src, 2) ==> v == Pack16(memory[src + 1], memory[src])
    {
      v := Read16(src);
      if PlainRam(src, 2) {
        PlainRead16(src);
      }
    }

    /** The sizes of the arrays a register write indexes, which Valid() fixes. */
    ghost predicate Sized()
      reads this, stat, timer
    {
      memory.Length == MemSize && dma.Length == 4 && timer.channel.Length == 4
      && stat.bgcnt.Length == 4 && stat.winh.Length == 2 && stat.winv.Length == 2
      && stat.windowContent.Length0 == 4 && stat.windowContent.Length1 == 6
    }

    /** The window-content table, row by row. */
    ghost function ContentNow(): seq<int>
      reads stat.windowContent
    {
      var c := stat.windowContent;
      if c.Length0 == 4 && c.Length1 == 6 then seq(24, j requires 0 <= j < 24 reads c => c[j / 6, j % 6]) else []
    }

    /** The background control table. */
    ghost function BgcntNow(): seq<Lcd.BgControl>
      reads stat.bgcnt
    {
      stat.bgcnt[..]
    }

    /** The horizontal window bounds. */
    ghost function WinhNow(): seq<Lcd.WinH>
      reads stat.winh
    {
      stat.winh[..]
    }

    /** The vertical window bounds. */
    ghost function WinvNow(): seq<Lcd.WinV>
      reads stat.winv
    {
      stat.winv[..]
    }

    /** The four DMA channels. */
    ghost function DmaNow(): seq<Dma>
      reads dma
    {
      dma[..]
    }

    /** The four timer channels. */
    ghost function ChannelsNow(): seq<Timers.Channel>
      reads timer.channel
    {
      timer.channel[..]
    }

    /** The cartridge ROM. */
    ghost function CartRomNow(): seq<Byte>
      reads cartRom
    {
      cartRom[..]
    }

    /** The cartridge's backup memory. */
    ghost function CartRamNow(): seq<Byte>
      reads backup.cartRam
    {
      backup.cartRam[..]
    }

    /** The state of the bus other than memory[]. */
    ghost function DevicesNow(): Devices
      reads this, stat, stat.bgcnt, stat.winh, stat.winv, stat.windowContent, cartRom, dma
      reads timer, timer.channel, irq, backup, backup.cartRam
    {
      Devices(stat.scanline, stat.dispcnt, stat.dispstat, stat.oamChanged,
              BgcntNow(), WinhNow(), WinvNow(), ContentNow(),
              nCycles, sCycles, haltcnt, keys, keyCnt,
              DmaNow(), timer.ticks, ChannelsNow(),
              irq.ie, irq.iflags, irq.ime, irq.raised, irq.cleared,
              transfers, CartRomNow(), backup.Ctl(), CartRamNow())
    }

    /** The shape a snapshot of a well-formed bus has. */
    ghost predicate SnapshotShape(before: Devices, m0: seq<Byte>)
    {
      |before.bgcnt| == 4 && |before.winh| == 2 && |before.winv| == 2 && |before.content| == 24
      && |before.dma| == 4 && |before.channels| == 4 && |m0| == MemSize
    }

    /** DISPCNT written: the control word is the two stored bytes, bits 8-11 enable backgrounds 0-3, and nothing else changes. */
    ghost predicate DispcntWritten(before: Devices, m0: seq<Byte>)
      requires Sized() && SnapshotShape(before, m0)
      reads this, memory, stat, stat.bgcnt, stat.winh, stat.winv, stat.windowContent, cartRom, dma
      reads timer, timer.channel, irq, backup, backup.cartRam
    {
      var d := HalfAt(m0, RegDispcnt);
      memory[..] == m0
      && DevicesNow() == before.(dispcnt := d, bgcnt := [before.bgcnt[0].(enabled := BgEnabled(d, 0)),
                                                         before.bgcnt[1].(enabled := BgEnabled(d, 1)),
                                                         before.bgcnt[2].(enabled := BgEnabled(d, 2)),
                                                         before.bgcnt[3].(enabled := BgEnabled(d, 3))])
    }

    /** A DISPSTAT byte written: the status takes the byte as DispstatFromLow/High merge it, and nothing else changes. */
    ghost predicate DispstatWritten(high: bool, value: Byte, before: Devices, m0: seq<Byte>)
      requires Sized() && SnapshotShape(before, m0)
      reads this, memory, stat, stat.bgcnt, stat.winh, stat.winv, stat.windowContent, cartRom, dma
      reads timer, timer.channel, irq, backup, backup.cartRam
    {
      memory[..] == m0
      && DevicesNow() == before.(dispstat := if high then DispstatFromHigh(before.dispstat, value)
                                             else DispstatFromLow(before.dispstat, value))
    }

    /**
     * BGxCNT written: background k's control is the two stored bytes, for BG0
     * and BG1 with bit 13 cleared in memory too, and nothing else changes.
     */
    ghost predicate BgcntWritten(k: int, before: Devices, m0: seq<Byte>)
      requires Sized() && 0 <= k < 4 && SnapshotShape(before, m0)
      reads this, memory, stat, stat.bgcnt, stat.winh, stat.winv, stat.windowContent, cartRom, dma
      reads timer, timer.channel, irq, backup, backup.cartRam
    {
      var c := BgcntAddr(k);
      var raw := if k < 2 then NoWrap(HalfAt(m0, c)) else HalfAt(m0, c);
      memory[..] == (if k < 2 then m0[c := Lo8(raw)][c + 1 := Hi8(raw)] else m0)
      && DevicesNow() == before.(bgcnt := before.bgcnt[k := before.bgcnt[k].(raw := raw)])
    }

    /** BGxHOFS / BGxVOFS written: the offset is the two stored bytes, and nothing else changes. */
    ghost predicate BgScrollWritten(k: int, vertical: bool, before: Devices, m0: seq<Byte>)
      requires Sized() && 0 <= k < 4 && SnapshotShape(before, m0)
      reads this, memory, stat, stat.bgcnt, stat.winh, stat.winv, stat.windowContent, cartRom, dma
      reads timer, timer.channel, irq, backup, backup.cartRam
    {
      var off := HalfAt(m0, BgScrollAddr(k, vertical)) as int;
      memory[..] == m0
      && DevicesNow() == before.(bgcnt := before.bgcnt[k := if vertical then before.bgcnt[k].(voff := off)
                                                           else before.bgcnt[k].(hoff := off)])
    }

    /** BG2X/Y, BG3X/Y written: the coordinate is the four stored bytes, and nothing else changes. */
    ghost predicate BgRefWritten(k: int, vertical: bool, before: Devices, m0: seq<Byte>)
      requires Sized() && 2 <= k < 4 && SnapshotShape(before, m0)
      reads this, memory, stat, stat.bgcnt, stat.winh, stat.winv, stat.windowContent, cartRom, dma
      reads timer, timer.channel, irq, backup, backup.cartRam
    {
      var p := GetWord(m0, BgRefAddr(k, vertical));
      memory[..] == m0
      && DevicesNow() == before.(bgcnt := before.bgcnt[k := if vertical then before.bgcnt[k].(dy := p)
                                                           else before.bgcnt[k].(dx := p)])
    }

    /** WAITCNT written: the wait states follow the byte written, and nothing else changes. */
    ghost predicate WaitcntWritten(value: Byte, before: Devices, m0: seq<Byte>)
      requires Sized() && SnapshotShape(before, m0)
      reads this, memory, stat, stat.bgcnt, stat.winh, stat.winv, stat.windowContent, cartRom, dma
      reads timer, timer.channel, irq, backup, backup.cartRam
    {
      memory[..] == m0 && DevicesNow() == before.(nCycles := WaitN(value), sCycles := WaitS(value, before.sCycles))
    }

    /** WINxH / WINxV written: window w's bounds on that axis are clipped from the two stored bytes, and nothing else changes. */
    ghost predicate WinBoundsWritten(w: int, vertical: bool, before: Devices, m0: seq<Byte>)
      requires Sized() && 0 <= w < 2 && SnapshotShape(before, m0)
      reads this, memory, stat, stat.bgcnt, stat.winh, stat.winv, stat.windowContent, cartRom, dma
      reads timer, timer.channel, irq, backup, backup.cartRam
    {
      memory[..] == m0
      && DevicesNow() == if vertical then before.(winv := before.winv[w := Lcd.WinVOf(HalfAt(m0, WinAddr(w, true)))])
                         else before.(winh := before.winh[w := Lcd.WinHOf(HalfAt(m0, WinAddr(w, false)))])
    }

    /** A window-content row written: bits 6-7 are dropped in memory and in the table row, and nothing else changes. */
    ghost predicate WinContentWritten(row: int, value: Byte, before: Devices, m0: seq<Byte>)
      requires Sized() && 0 <= row < 4 && SnapshotShape(before, m0)
      reads this, memory, stat, stat.bgcnt, stat.winh, stat.winv, stat.windowContent, cartRom, dma
      reads timer, timer.channel, irq, backup, backup.cartRam
    {
      memory[..] == m0[0x400_0048 + row := value & 0x3F]
      && DevicesNow() == before.(content := ContentWith(before.content, row, value & 0x3F))
    }

    /**
     * What write8's switch does for a display register or WAITCNT, from the
     * device state before and the memory m0 holding the byte just stored.
     */
    ghost predicate DisplayWritten(r: IoReg, value: Byte, before: Devices, m0: seq<Byte>)
      requires Sized() && IndexOk(r) && SnapshotShape(before, m0)
      reads this, memory, stat, stat.bgcnt, stat.winh, stat.winv, stat.windowContent, cartRom, dma
      reads timer, timer.channel, irq, backup, backup.cartRam
    {
      match r
      case DispcntReg => DispcntWritten(before, m0)
      case DispstatLow => DispstatWritten(false, value, before, m0)
      case DispstatHigh => DispstatWritten(true, value, before, m0)
      case BgcntReg(k) => BgcntWritten(k, before, m0)
      case BgScroll(k, v) => BgScrollWritten(k, v, before, m0)
      case BgRef(k, v) => BgRefWritten(k, v, before, m0)
      case WaitcntReg => WaitcntWritten(value, before, m0)
      case WinBounds(w, v) => WinBoundsWritten(w, v, before, m0)
      case WinContent(row) => WinContentWritten(row, value, before, m0)
      case _ => false
    }

    /**
     * What write8's switch does for a DMA control byte: the count is the two
     * stored bytes, byte 2 sets the destination adjustment, and byte 3
     * decodes the control (ControlWritten); the count and adjustment change
     * nothing else.
     */
    ghost predicate DmaWritten(r: IoReg, value: Byte, allowDma: bool, before: Devices, m0: seq<Byte>)
      requires Sized() && IndexOk(r) && SnapshotShape(before, m0)
      reads this, memory, stat, stat.bgcnt, stat.winh, stat.winv, stat.windowContent, cartRom, dma
      reads timer, timer.channel, irq, backup, backup.cartRam
    {
      match r
      case DmaCount(n) =>
        memory[..] == m0 && DevicesNow() == before.(dma := before.dma[n := before.dma[n].(numTransfers := HalfAt(m0, DmaCnt(n)))])
      case DmaDest(n) => memory[..] == m0 && DevicesNow() == before.(dma := before.dma[n := SetDestAdjust(before.dma[n], value)])
      case DmaHigh(n) => ControlWritten(n, SetControlHigh(before.dma[n], m0[DmaCnt(n) + 2], value), allowDma, before, m0)
      case _ => false
    }

    /**
     * DMAxCNT byte 3 once decoded to control d: an enabled immediate channel
     * runs (when DMA starts are allowed), its plan logged, its pointers written
     * back and, inside RAM, memory the plan replayed; it ends disabled. Any
     * other control is only stored, and nothing else changes.
     */
    ghost predicate ControlWritten(n: int, d: Dma, allowDma: bool, before: Devices, m0: seq<Byte>)
      requires Sized() && 0 <= n < 4 && SnapshotShape(before, m0)
      reads this, memory, stat, stat.bgcnt, stat.winh, stat.winv, stat.windowContent, cartRom, dma
      reads timer, timer.channel, irq, backup, backup.cartRam
    {
      var sad, dad := GetWord(m0, DmaSad(n)), GetWord(m0, DmaDad(n));
      var plan := DmaPlan(n, d, sad, dad);
      if allowDma && d.enable == 1 && d.mode == 0 then
        dma[n].enable == 0 && transfers == before.transfers + plan
        && irq.raised == before.raised + (if d.irq == 1 then [Irqs.Dma0 + n] else [])
        && Read32Unsafe(DmaSad(n)) == AsWord(SrcEnd(n, d, sad)) && Read32Unsafe(DmaDad(n)) == AsWord(DestEnd(n, d, dad))
        && (AllInRam(plan) ==>
              memory[..] == PutWord(PutWord(Replay(m0, plan), DmaDad(n), Read32Unsafe(DmaDad(n))), DmaSad(n), Read32Unsafe(DmaSad(n))))
      else
        memory[..] == m0
        && DevicesNow() == before.(dma := before.dma[n := if d.enable == 1 && d.mode == 0 then d.(enable := 0) else d])
    }

    /** A DMAxCNT byte-3 write has the effect of its decoded control. */
    lemma ControlIsDmaWritten(n: int, value: Byte, allowDma: bool, before: Devices, m0: seq<Byte>)
      requires Sized() && 0 <= n < 4 && SnapshotShape(before, m0)
      requires ControlWritten(n, SetControlHigh(before.dma[n], m0[DmaCnt(n) + 2], value), allowDma, before, m0)
      ensures DmaWritten(DmaHigh(n), value, allowDma, before, m0)
    {
    }

    /** TMxCNT_L written: timer k's reload and count are the two stored bytes, and nothing else changes. */
    ghost predicate TimerDataWritten(k: int, before: Devices, m0: seq<Byte>)
      requires Sized() && 0 <= k < 4 && SnapshotShape(before, m0)
      reads this, memory, stat, stat.bgcnt, stat.winh, stat.winv, stat.windowContent, cartRom, dma
      reads timer, timer.channel, irq, backup, backup.cartRam
    {
      var v := HalfAt(m0, TmdAddr(k));
      memory[..] == m0 && DevicesNow() == before.(channels := before.channels[k := before.channels[k].(initial := v, data := v)])
    }

    /** TMxCNT_H written: timer k's control is the stored byte, its low bits pick the prescaler, and nothing else changes. */
    ghost predicate TimerCntWritten(k: int, before: Devices, m0: seq<Byte>)
      requires Sized() && 0 <= k < 4 && SnapshotShape(before, m0)
      reads this, memory, stat, stat.bgcnt, stat.winh, stat.winv, stat.windowContent, cartRom, dma
      reads timer, timer.channel, irq, backup, backup.cartRam
    {
      var v := m0[TmdAddr(k) + 2] as Half;
      memory[..] == m0
      && DevicesNow() == before.(channels := before.channels[k := before.channels[k].(cnt := v, prescalar := Timers.PrescalarOf(v))])
    }

    /**
     * What write8's switch does for a timer, keypad or interrupt register: a
     * timer's reload and count, or its control and prescaler, KEYCNT, IE and
     * IME take the stored bytes, and a write to IF is a clear of the stored
     * halfword; nothing else changes.
     */
    ghost predicate DeviceWritten(r: IoReg, before: Devices, m0: seq<Byte>)
      requires Sized() && IndexOk(r) && SnapshotShape(before, m0)
      reads this, memory, stat, stat.bgcnt, stat.winh, stat.winv, stat.windowContent, cartRom, dma
      reads timer, timer.channel, irq, backup, backup.cartRam
    {
      match r
      case TimerData(k) => TimerDataWritten(k, before, m0)
      case TimerCnt(k) => TimerCntWritten(k, before, m0)
      case KeycntReg => memory[..] == m0 && DevicesNow() == before.(keyCnt := HalfAt(m0, RegKeycnt))
      case IfReg => memory[..] == m0 && DevicesNow() == before.(cleared := before.cleared + [HalfAt(m0, RegIf)])
      case IeReg => memory[..] == m0 && DevicesNow() == before.(ie := HalfAt(m0, RegIe))
      case ImeReg => memory[..] == m0 && DevicesNow() == before.(ime := HalfAt(m0, RegIme))
      case _ => false
    }

    /** The effect of write8's switch for register r, by the register's kind. */
    ghost predicate Written(r: IoReg, value: Byte, allowDma: bool, before: Devices, m0: seq<Byte>)
      requires Sized() && IndexOk(r) && SnapshotShape(before, m0)
      reads this, memory, stat, stat.bgcnt, stat.winh, stat.winv, stat.windowContent, cartRom, dma
      reads timer, timer.channel, irq, backup, backup.cartRam
    {
      if r.DmaCount? || r.DmaDest? || r.DmaHigh? then DmaWritten(r, value, allowDma, before, m0)
      else if r.TimerData? || r.TimerCnt? || r.KeycntReg? || r.IfReg? || r.IeReg? || r.ImeReg? then DeviceWritten(r, before, m0)
      else DisplayWritten(r, value, before, m0)
    }

    /**
     * The register switch at the end of write8, entered once the byte has
     * been stored: each register's device copy is refreshed from the bytes
     * now in memory[], or, for the one-byte registers, from the byte written
     * (Written).
     */
    method IoWrite(r: IoReg, value: Byte, allowDma: bool)
      requires Valid() && IndexOk(r) && r != Plain
      requires WidthOf(r) == 1 ==> memory[BaseOf(r)] == value
      modifies Repr
      decreases if allowDma then 1 else 0, 9
      ensures Valid()
      ensures !allowDma ==> transfers == old(transfers) && irq.raised == old(irq.raised)
      ensures Written(r, value, allowDma, old(DevicesNow()), old(memory[..]))
    {
      if r.DmaCount? || r.DmaDest? || r.DmaHigh? {
        WriteDmaRegister(r, value, allowDma);
      } else if r.TimerData? || r.TimerCnt? || r.KeycntReg? || r.IfReg? || r.IeReg? || r.ImeReg? {
        WriteDeviceRegister(r);
      } else {
        WriteDisplayRegister(r, value);
      }
    }

    /** The display registers of the switch, and WAITCNT. */
    method WriteDisplayRegister(r: IoReg, value: Byte)
      requires Valid() && IndexOk(r) && r != Plain
      requires !(r.DmaCount? || r.DmaDest? || r.DmaHigh? || r.TimerData? || r.TimerCnt?)
      requires !(r.KeycntReg? || r.IfReg? || r.IeReg? || r.ImeReg?)
      requires WidthOf(r) == 1 ==> memory[BaseOf(r)] == value
      modifies Repr
      ensures Valid()
      ensures transfers == old(transfers) && irq.raised == old(irq.raised)
      ensures DisplayWritten(r, value, old(DevicesNow()), old(memory[..]))
    {
      match r
      case DispcntReg => WriteDispcnt();
      case DispstatLow => WriteDispstat(false, value);
      case DispstatHigh => WriteDispstat(true, value);
      case BgcntReg(k) => WriteBgcnt(k);
      case BgScroll(k, v) => WriteBgScroll(k, v);
      case BgRef(k, v) => WriteBgRef(k, v);
      case WaitcntReg => WriteWaitcnt(value);
      case WinBounds(w, v) => WriteWindowBounds(w, v);
      case WinContent(row) => WriteWindowContent(row, value);
    }

    /** The DMA control registers of the switch. */
    method WriteDmaRegister(r: IoReg, value: Byte, allowDma: bool)
      requires Valid() && IndexOk(r) && (r.DmaCount? || r.DmaDest? || r.DmaHigh?)
      modifies Repr
      decreases if allowDma then 1 else 0, 8
      ensures Valid()
      ensures !allowDma ==> transfers == old(transfers) && irq.raised == old(irq.raised)
      ensures DmaWritten(r, value, allowDma, old(DevicesNow()), old(memory[..]))
    {
      match r
      case DmaCount(n) => WriteDmaCount(n);
      case DmaDest(n) => WriteDmaDest(n, value);
      case DmaHigh(n) => WriteDmaHigh(n, value, allowDma);
    }

    /** TMxCNT_L: the timer's reload and count are the two stored bytes. */
    method WriteTimerData(k: int)
      requires Valid() && 0 <= k < 4
      modifies timer.channel
      ensures Valid()
      ensures TimerDataWritten(k, old(DevicesNow()), old(memory[..]))
    {
      ghost var channels := timer.channel[..];
      var v := Read16Unsafe(TmdAddr(k));
      timer.Write(k, v);
      assert timer.channel[..] == channels[k := channels[k].(initial := v, data := v)];
    }

    /** TMxCNT_H: the timer's control is the stored byte. */
    method WriteTimerCnt(k: int)
      requires Valid() && 0 <= k < 4
      modifies timer.channel
      ensures Valid()
      ensures TimerCntWritten(k, old(DevicesNow()), old(memory[..]))
    {
      ghost var channels := timer.channel[..];
      var v := memory[TmdAddr(k) + 2] as Half;
      timer.WriteCnt(k, v);
      assert timer.channel[..] == channels[k := channels[k].(cnt := v, prescalar := Timers.PrescalarOf(v))];
    }

    /** The timer, keypad and interrupt registers of the switch. */
    method WriteDeviceRegister(r: IoReg)
      requires Valid() && IndexOk(r)
      requires r.TimerData? || r.TimerCnt? || r.KeycntReg? || r.IfReg? || r.IeReg? || r.ImeReg?
      modifies Repr
      ensures Valid()
      ensures transfers == old(transfers) && irq.raised == old(irq.raised)
      ensures DeviceWritten(r, old(DevicesNow()), old(memory[..]))
    {
      match r
      case TimerData(k) => WriteTimerData(k);
      case TimerCnt(k) => WriteTimerCnt(k);
      case KeycntReg => WriteKeycnt();
      case IfReg => WriteIf();
      case IeReg => WriteIe();
      case ImeReg => WriteIme();
    }

    /** KEYCNT: the keypad interrupt control is the two stored bytes. */
    method WriteKeycnt()
      requires Valid()
      modifies this
      ensures Valid()
      ensures transfers == old(transfers)
      ensures DeviceWritten(KeycntReg, old(DevicesNow()), old(memory[..]))
    {
      ghost var before := DevicesNow();
      keyCnt := Read16Unsafe(RegKeycnt);
      assert DevicesNow() == before.(keyCnt := keyCnt);
    }

    /** IF: the stored halfword is handed to the interrupt block as the mask of requests to clear. */
    method WriteIf()
      requires Valid()
      modifies irq
      ensures Valid()
      ensures irq.raised == old(irq.raised)
      ensures DeviceWritten(IfReg, old(DevicesNow()), old(memory[..]))
    {
      ghost var before := DevicesNow();
      irq.Clear(Read16Unsafe(RegIf));
      assert DevicesNow() == before.(cleared := irq.cleared);
    }

    /** IE: the stored halfword becomes the interrupt enable mask. */
    method WriteIe()
      requires Valid()
      modifies irq
      ensures Valid()
      ensures irq.raised == old(irq.raised)
      ensures DeviceWritten(IeReg, old(DevicesNow()), old(memory[..]))
    {
      ghost var before := DevicesNow();
      irq.SetIE(Read16Unsafe(RegIe));
      assert DevicesNow() == before.(ie := irq.ie);
    }

    /** IME: the stored halfword becomes the master enable. */
    method WriteIme()
      requires Valid()
      modifies irq
      ensures Valid()
      ensures irq.raised == old(irq.raised)
      ensures DeviceWritten(ImeReg, old(DevicesNow()), old(memory[..]))
    {
      ghost var before := DevicesNow();
      irq.SetIME(Read16Unsafe(RegIme));
      assert DevicesNow() == before.(ime := irq.ime);
    }

    /**
     * The tail of write8, once the address is folded to a cell: the BIOS is
     * not written, above MEM_SIZE the cart ROM takes the byte, and anything
     * else is stored in memory[] and then, for an I/O register, acted on
     * (IoWrite).
     */
    method StoreCell(a: int, value: Byte, allowDma: bool)
      requires Valid() && 0 <= a < MemSize + CartRomSize
      modifies Repr
      decreases if allowDma then 1 else 0, 10
      ensures Valid()
      ensures !allowDma ==> transfers == old(transfers) && irq.raised == old(irq.raised)
      ensures a <= BiosEnd ==> unchanged(Repr)
      ensures a >= MemSize ==> cartRom[..] == old(cartRom[..])[a - MemSize := value] && unchanged(Repr - {cartRom})
      ensures BiosEnd < a < MemSize && IoRegisterOf(a) == Plain ==>
        memory[..] == old(memory[..])[a := value] && unchanged(Repr - {memory})
      ensures !(0x400_0000 <= a < 0x400_0210) ==> unchanged(stat)
      ensures BiosEnd < a < MemSize && IoRegisterOf(a) != Plain ==>
        Written(IoRegisterOf(a), value, allowDma, old(DevicesNow()), old(memory[..])[a := value])
    {
      if a <= BiosEnd {
      } else if a >= MemSize {
        cartRom[a - MemSize] := value;
      } else {
        ghost var before := DevicesNow();
        memory[a] := value;
        assert DevicesNow() == before;
        var r := IoRegisterOf(a);
        if r != Plain {
          IoRegisterOwnsAddress(a);
          IoWrite(r, value, allowDma);
        }
      }
    }

    /** A byte write to a RAM region: its folded cell changes and nothing else does. */
    method WriteRam8(address: Addr, value: Byte)
      requires Valid() && RamRegion(address)
      modifies Repr
      ensures Valid() && memory[..] == old(memory[..])[Fold(address).address := value] && unchanged(Repr - {memory})
    {
      Write8(address, value, true);
    }

    /**
     * write8: fold the address; invalid addresses are not written, the cart
     * RAM goes to the backup chip, and any other address is stored at its
     * cell (StoreCell). A write into OAM marks OAM as changed.
     */
    method Write8(address: Addr, value: Byte, allowDma: bool)
      requires Valid()
      modifies Repr
      decreases if allowDma then 1 else 0, 12
      ensures Valid()
      ensures !allowDma ==> transfers == old(transfers) && irq.raised == old(irq.raised)
      ensures PlainRam(address, 1) ==> memory[..] == old(memory[..])[address := value] && unchanged(Repr - {memory})
      ensures RamRegion(address) ==> memory[..] == old(memory[..])[Fold(address).address := value] && unchanged(Repr - {memory})
      ensures match Fold(address)
        case Invalid => unchanged(Repr)
        case BackupCell(i) =>
          var step := Backup.Step(old(backup.Ctl()), backup.big, i, value);
          backup.Ctl() == step.0 && backup.cartRam[..] == Backup.Apply(old(backup.cartRam[..]), step.1, value)
          && unchanged(Repr - {backup, backup.cartRam})
        case Cell(a) =>
          (Top(address) == 7 ==> stat.oamChanged && stat.dispcnt == old(stat.dispcnt)
                                  && stat.dispstat == old(stat.dispstat) && stat.scanline == old(stat.scanline))
          && (Top(address) != 7 && !(0x400_0000 <= a < 0x400_0210) ==> unchanged(stat))
          && (a <= BiosEnd ==> unchanged(Repr - {stat}))
          && (a >= MemSize ==> cartRom[..] == old(cartRom[..])[a - MemSize := value] && unchanged(Repr - {cartRom, stat}))
          && (BiosEnd < a < MemSize && IoRegisterOf(a) == Plain ==>
                memory[..] == old(memory[..])[a := value] && unchanged(Repr - {memory, stat}))
          && (BiosEnd < a < MemSize && IoRegisterOf(a) != Plain ==>
                Written(IoRegisterOf(a), value, allowDma, old(DevicesNow()), old(memory[..])[a := value]))
    {
      if PlainRam(address, 1) {
        PlainRamByte(address);
      }
      if RamRegion(address) {
        RamRegionByte(address);
      }
      match Fold(address)
      case Invalid =>
      case BackupCell(i) =>
        backup.Write(i, value);
      case Cell(a) =>
        StoreFolded(address, a, value, allowDma);
    }

    /** The Cell case of write8: a write into OAM marks OAM as changed, then the byte goes to StoreCell. */
    method StoreFolded(address: Addr, a: int, value: Byte, allowDma: bool)
      requires Valid() && Fold(address) == Cell(a)
      modifies Repr
      decreases if allowDma then 1 else 0, 11
      ensures Valid()
      ensures !allowDma ==> transfers == old(transfers) && irq.raised == old(irq.raised)
      ensures Top(address) == 7 ==> stat.oamChanged && stat.dispcnt == old(stat.dispcnt)
                                    && stat.dispstat == old(stat.dispstat) && stat.scanline == old(stat.scanline)
      ensures Top(address) != 7 && !(0x400_0000 <= a < 0x400_0210) ==> unchanged(stat)
      ensures a <= BiosEnd ==> unchanged(Repr - {stat})
      ensures a >= MemSize ==> cartRom[..] == old(cartRom[..])[a - MemSize := value] && unchanged(Repr - {cartRom, stat})
      ensures BiosEnd < a < MemSize && IoRegisterOf(a) == Plain ==>
        memory[..] == old(memory[..])[a := value] && unchanged(Repr - {memory, stat})
      ensures BiosEnd < a < MemSize && IoRegisterOf(a) != Plain ==>
        Written(IoRegisterOf(a), value, allowDma, old(DevicesNow()), old(memory[..])[a := value])
    {
      IoRegisterOwnsAddress(a);
      if Top(address) == 7 {
        assert 0x700_0000 <= a < 0x700_0400;
        stat.oamChanged := true;
      }
      StoreCell(a, value, allowDma);
    }

    /** write16: the low byte at address, then the high byte at address + 1. */
    method Write16(address: Addr, value: Half, allowDma: bool)
      requires Valid()
      modifies Repr
      decreases if allowDma then 1 else 0, 13
      ensures Valid()
      ensures !allowDma ==> transfers == old(transfers) && irq.raised == old(irq.raised)
      ensures PlainRam(address, 2) ==>
        memory[..] == old(memory[..])[address := Lo8(value)][address + 1 := Hi8(value)] && unchanged(Repr - {memory})
    {
      if PlainRam(address, 2) {
        assert Next(address, 1) == address + 1;
      }
      Write8(address, Lo8(value), allowDma);
      Write8(Next(address, 1), Hi8(value), allowDma);
    }

    /** write32: the four bytes, lowest first, at address .. address + 3. */
    method Write32(address: Addr, value: Word, allowDma: bool)
      requires Valid()
      modifies Repr
      decreases if allowDma then 1 else 0, 14
      ensures Valid()
      ensures !allowDma ==> transfers == old(transfers) && irq.raised == old(irq.raised)
      ensures PlainRam(address, 4) ==> memory[..] == PutWord(old(memory[..]), address, value) && unchanged(Repr - {memory})
    {
      Write16(address, (value & 0xFFFF) as Half, allowDma);
      Write16(Next(address, 2), (value >> 16) as Half, allowDma);
    }

    /** A plain RAM byte reads back as the cell itself. */
    lemma PlainRead8(b: Addr)
      requires Valid() && PlainRam(b, 1)
      ensures Read8(b) == memory[b]
    {
      PlainRamByte(b);
    }

    /** A plain RAM word reads as the four cells, so a word written there reads back. */
    lemma PlainRead32(a: Addr)
      requires Valid() && PlainRam(a, 4)
      ensures Read32(a) == GetWord(memory[..], a)
    {
      assert Next(a, 1) == a + 1 && Next(a, 2) == a + 2 && Next(a, 3) == a + 3;
      PlainRead8(a);
      PlainRead8(a + 1);
      PlainRead8(a + 2);
      PlainRead8(a + 3);
      assert GetWord(memory[..], a) == Word4(memory[a], memory[a + 1], memory[a + 2], memory[a + 3]);
    }

    /** A plain RAM halfword reads as its two cells. */
    lemma PlainRead16(a: Addr)
      requires Valid() && PlainRam(a, 2)
      ensures Read16(a) == Pack16(memory[a + 1], memory[a])
    {
      assert Next(a, 1) == a + 1;
      PlainRead8(a);
      PlainRead8(a + 1);
    }

    /** The handler address the BIOS's IRQ code loads from 0x3FFFFFC is the last word of IWRAM. */
    lemma IrqHandlerWord()
      requires Valid()
      ensures Read32(0x3FF_FFFC) == GetWord(memory[..], 0x300_7FFC)
    {
      assert Next(0x3FF_FFFC, 1) == 0x3FF_FFFD && Next(0x3FF_FFFC, 2) == 0x3FF_FFFE && Next(0x3FF_FFFC, 3) == 0x3FF_FFFF;
      IwramRead8(0x3FF_FFFC);
      IwramRead8(0x3FF_FFFD);
      IwramRead8(0x3FF_FFFE);
      IwramRead8(0x3FF_FFFF);
      assert GetWord(memory[..], 0x300_7FFC) == Word4(memory[0x300_7FFC], memory[0x300_7FFD], memory[0x300_7FFE], memory[0x300_7FFF]);
    }

    /** An IWRAM-region address reads its cell in the 32K of IWRAM. */
    lemma IwramRead8(b: Addr)
      requires Valid() && Top(b) == 3
      ensures Read8(b) == memory[0x300_0000 + b % 0x8000]
    {
      FoldRange(b);
      PlainRead8(0x300_0000 + b % 0x8000);
      PlainRamByte(0x300_0000 + b % 0x8000);
    }
  }
}
