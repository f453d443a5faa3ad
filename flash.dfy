/**
 * The Flash backup chip of a game cartridge (src/backup/Flash.cpp): a
 * command state machine driven by byte writes to 0x5555 and 0x2AAA, a
 * single-byte program command, 4K-sector and whole-chip erase, chip
 * identification, and bank switching on 128K parts.
 *
 * The state machine is specified by the pure function Step, which returns
 * the new control registers and the effect on the cell array; the class
 * method Write is proved to do exactly that.
 */
module Backup {
  import opened Bits

  datatype FlashState = Ready | Cmd1 | Cmd2 | PrepareToErase | Erase4K | PrepareToWrite | SetMemoryBank

  /** The chip's control registers: command state, bank, chip-id mode and erase arming. */
  datatype Control = Control(state: FlashState, bank: nat, chipIdMode: bool, prepareToErase: bool)

  /** What a write does to the cells. */
  datatype Effect = NoEffect | Store(at: int) | EraseSector(sector: int) | EraseChip

  const Size64K := 0x1_0000
  const Size128K := 0x2_0000
  const BankSize := 0x1_0000
  const SectorSize := 0x1000

  /** Registers that fit the chip: bank 1 and the bank command exist only on 128K parts. */
  predicate WellFormed(c: Control, big: bool)
  {
    c.bank <= 1 && (c.bank == 1 ==> big) && (c.state == SetMemoryBank ==> big)
  }

  /** The 4K sector an index falls in: bits 15-12. */
  function SectorOf(index: int): (n: int)
    ensures 0 <= n < 16
  {
    index / SectorSize % 16
  }

  /** First cell erased for sector n, as the source computes it. */
  function SectorStartAsWritten(n: int): int { n * 0x400 }

  /** First cell of sector n: sectors are SectorSize bytes long. */
  function SectorStart(n: int): int { n * SectorSize }

  /** The erase the source performs for index 0x1FFF misses that cell and wipes part of sector 0. */
  lemma SectorStartAsWrittenMissesCell()
    ensures SectorOf(0x1FFF) == 1
    ensures !(SectorStartAsWritten(1) <= 0x1FFF < SectorStartAsWritten(1) + SectorSize)
    ensures SectorStartAsWritten(1) < SectorStart(1)
  {
  }

  /** With the corrected start, the erased 4K range is exactly the sector that holds the index. */
  lemma SectorStartHoldsIndex(index: int)
    requires 0 <= index < 0x1_0000
    ensures SectorStart(SectorOf(index)) <= index < SectorStart(SectorOf(index)) + SectorSize
    ensures SectorStart(SectorOf(index)) % SectorSize == 0
    ensures SectorStart(SectorOf(index)) + SectorSize <= Size64K
  {
  }

  /** The response to a command byte written at 0x5555. */
  function CommandAt5555(c: Control, big: bool, value: Byte): (Control, Effect)
  {
    match value
    case 0xAA => (if c.state == Ready then c.(state := Cmd1) else c, NoEffect)
    case 0x90 => (if c.state == Cmd2 then c.(chipIdMode := true, state := Ready) else c, NoEffect)
    case 0xF0 => (if c.state == Cmd2 then c.(chipIdMode := false, state := Ready) else c, NoEffect)
    case 0x80 => (if c.state == Cmd2 then c.(prepareToErase := true, state := Ready) else c, NoEffect)
    case 0x10 =>
      if c.state == Cmd2 && c.prepareToErase then (c.(prepareToErase := false, state := Ready), EraseChip)
      else (c, NoEffect)
    case 0x30 => (if c.state == Cmd2 && c.prepareToErase then c.(state := Ready) else c, NoEffect)
    case 0xA0 => (if c.state == Cmd2 then c.(state := PrepareToWrite) else c, NoEffect)
    case 0xB0 => (if c.state == Cmd2 && big then c.(state := SetMemoryBank) else c, NoEffect)
    case _ => (c.(state := Ready), NoEffect)
  }

  /** Flash::write on the control registers: the new registers and the effect on the cells. */
  function Step(c: Control, big: bool, index: int, value: Byte): (Control, Effect)
  {
    if c.state == PrepareToWrite then (c.(state := Ready), Store(index + c.bank * BankSize))
    else if c.prepareToErase && value == 0x30 then
      (c.(prepareToErase := false, state := Ready), EraseSector(SectorOf(index)))
    else if c.state == SetMemoryBank && index == 0 then
      (c.(bank := if value == 0 then 0 else 1, state := Ready), NoEffect)
    else if index == 0x5555 then CommandAt5555(c, big, value)
    else if index == 0x2AAA then (if value == 0x55 && c.state == Cmd1 then c.(state := Cmd2) else c, NoEffect)
    else (c, NoEffect)
  }

  /** The cells with count cells from `from` on set to 0xFF (memset). */
  function Erased(cells: seq<Byte>, from: int, count: int): (r: seq<Byte>)
    ensures |r| == |cells|
    ensures forall k :: 0 <= k < |r| ==> r[k] == if from <= k < from + count then 0xFF else cells[k]
  {
    seq(|cells|, k requires 0 <= k < |cells| => if from <= k < from + count then 0xFF else cells[k])
  }

  /** The cells after an effect; value is the byte being written. */
  function Apply(cells: seq<Byte>, e: Effect, value: Byte): seq<Byte>
  {
    match e
    case NoEffect => cells
    case Store(at) => if 0 <= at < |cells| then cells[at := value] else cells
    case EraseSector(n) => Erased(cells, SectorStart(n), SectorSize)
    case EraseChip => Erased(cells, 0, |cells|)
  }

  /** Flash::read: the two chip-id bytes in chip-id mode, otherwise the cell in the current bank. */
  function ReadCell(c: Control, big: bool, cells: seq<Byte>, index: int): Byte
    requires 0 <= index < 0x1_0000 && WellFormed(c, big)
    requires |cells| == if big then Size128K else Size64K
  {
    if index == 0 && c.chipIdMode then (if big then 0x62 else 0x32)
    else if index == 1 && c.chipIdMode then (if big then 0x13 else 0x1B)
    else cells[index + c.bank * BankSize]
  }

  /** Every write keeps the registers well-formed: bank 1 cannot be reached on a 64K part. */
  lemma StepKeepsWellFormed(c: Control, big: bool, index: int, value: Byte)
    requires WellFormed(c, big)
    ensures WellFormed(Step(c, big, index, value).0, big)
  {
  }

  /**
   * Which state a write can lead to. 0xAA at 0x5555 moves READY to CMD_1 and
   * 0x55 at 0x2AAA moves CMD_1 to CMD_2; the command states are entered only
   * from CMD_2 by their command byte; every other write keeps the state or
   * returns to READY.
   */
  lemma StepStates(c: Control, big: bool, index: int, value: Byte)
    ensures var s := Step(c, big, index, value).0.state;
      s == Ready || s == c.state
      || (s == Cmd1 && c.state == Ready && index == 0x5555 && value == 0xAA)
      || (s == Cmd2 && c.state == Cmd1 && index == 0x2AAA && value == 0x55)
      || (s == PrepareToWrite && c.state == Cmd2 && index == 0x5555 && value == 0xA0)
      || (s == SetMemoryBank && c.state == Cmd2 && index == 0x5555 && value == 0xB0 && big)
    ensures c.state == Ready && index == 0x5555 && value == 0xAA ==> Step(c, big, index, value).0.state == Cmd1
    ensures c.state == Cmd1 && index == 0x2AAA && value == 0x55 ==> Step(c, big, index, value) == (c.(state := Cmd2), NoEffect)
  {
  }

  /** Only a write in SET_MEMORY_BANK changes the bank, so a 64K chip stays in bank 0. */
  lemma BankOnlyFor128K(c: Control, big: bool, index: int, value: Byte)
    requires WellFormed(c, big)
    ensures Step(c, big, index, value).0.bank != c.bank ==> c.state == SetMemoryBank && big
    ensures !big ==> Step(c, big, index, value).0.bank == 0
    ensures WellFormed(c, false) ==> Step(c, false, 0x5555, 0xB0).0.state != SetMemoryBank
  {
  }

  /** The four-write program sequence stores exactly one byte in the current bank and ends in READY. */
  lemma ProgramByte(c: Control, big: bool, index: int, value: Byte)
    requires c.state == Ready
    ensures var c1 := Step(c, big, 0x5555, 0xAA);
      var c2 := Step(c1.0, big, 0x2AAA, 0x55);
      var c3 := Step(c2.0, big, 0x5555, 0xA0);
      c1.1 == NoEffect && c2.1 == NoEffect && c3.1 == NoEffect
      && c3.0 == c.(state := PrepareToWrite)
      && Step(c3.0, big, index, value) == (c, Store(index + c.bank * BankSize))
  {
  }

  /** After the program sequence, reading the cell back gives the byte written. */
  lemma ProgramThenRead(c: Control, big: bool, cells: seq<Byte>, index: int, value: Byte)
    requires c.state == PrepareToWrite && WellFormed(c, big) && 0 <= index < 0x1_0000
    requires |cells| == if big then Size128K else Size64K
    requires !c.chipIdMode || index > 1
    ensures var (c', e) := Step(c, big, index, value);
      ReadCell(c', big, Apply(cells, e, value), index) == value
  {
  }

  /** Chip erase (0x10 at 0x5555 once armed by 0x80) fills every cell with 0xFF and disarms erasing. */
  lemma ChipErase(c: Control, big: bool, cells: seq<Byte>)
    requires c.state == Cmd2 && c.prepareToErase && c.state != PrepareToWrite
    ensures var (c', e) := Step(c, big, 0x5555, 0x10);
      e == EraseChip && c' == c.(prepareToErase := false, state := Ready)
      && forall k :: 0 <= k < |cells| ==> Apply(cells, e, 0x10)[k] == 0xFF
  {
  }

  /** Once armed, a 0x30 byte at any index erases the 4K sector holding that index and disarms. */
  lemma SectorErase(c: Control, big: bool, cells: seq<Byte>, index: int)
    requires c.state != PrepareToWrite && c.prepareToErase && 0 <= index < 0x1_0000
    requires |cells| == if big then Size128K else Size64K
    ensures var (c', e) := Step(c, big, index, 0x30);
      c' == c.(prepareToErase := false, state := Ready)
      && Apply(cells, e, 0x30)[index] == 0xFF
      && forall k :: 0 <= k < |cells| && k / SectorSize != index / SectorSize ==> Apply(cells, e, 0x30)[k] == cells[k]
  {
    SectorStartHoldsIndex(index);
  }

  /** Chip-id reads: 0x32/0x1B on a 64K part and 0x62/0x13 on a 128K part; any other read is the banked cell. */
  lemma ReadChipId(c: Control, big: bool, cells: seq<Byte>, index: int)
    requires 0 <= index < 0x1_0000 && WellFormed(c, big)
    requires |cells| == if big then Size128K else Size64K
    ensures c.chipIdMode ==> ReadCell(c, big, cells, 0) == (if big then 0x62 else 0x32)
    ensures c.chipIdMode ==> ReadCell(c, big, cells, 1) == (if big then 0x13 else 0x1B)
    ensures !c.chipIdMode || index > 1 ==> ReadCell(c, big, cells, index) == cells[index + c.bank * BankSize]
  {
  }

  class Flash {
    const size: int
    const big: bool
    const cartRam: array<Byte>
    var state: FlashState
    var bank: nat
    var chipIdMode: bool
    var prepareToErase: bool

    function Ctl(): Control
      reads this
    {
      Control(state, bank, chipIdMode, prepareToErase)
    }

    ghost predicate Valid()
      reads this
    {
      (size == Size64K || size == Size128K) && big == (size == Size128K)
      && cartRam.Length == size && WellFormed(Ctl(), big)
    }

    /**
     * Flash(size): a 64K or 128K chip in READY, bank 0, chip-id mode off and
     * erasing armed. The cells are the contents of the save file, passed in.
     */
    constructor (size: int, saved: seq<Byte>)
      requires size == Size64K || size == Size128K
      requires |saved| == size
      ensures Valid() && fresh(cartRam)
      ensures Ctl() == Control(Ready, 0, false, true) && this.size == size
      ensures cartRam[..] == saved
    {
      this.size := size;
      big := size == Size128K;
      cartRam := new Byte[size](k requires 0 <= k < size => saved[k]);
      state := Ready;
      bank := 0;
      chipIdMode := false;
      prepareToErase := true;
    }

    /** memset(&cart_ram[from], 0xFF, count). */
    method Fill(from: int, count: int)
      requires Valid() && 0 <= from && 0 <= count && from + count <= cartRam.Length
      modifies cartRam
      ensures cartRam[..] == Erased(old(cartRam[..]), from, count)
    {
      var i := 0;
      while i < count
        invariant 0 <= i <= count
        invariant forall k :: 0 <= k < cartRam.Length ==>
          cartRam[k] == if from <= k < from + i then 0xFF else old(cartRam[k])
      {
        cartRam[from + i] := 0xFF;
        i := i + 1;
      }
      assert cartRam[..] == Erased(old(cartRam[..]), from, count);
    }

    /** Flash::write: the registers move as Step says and the cells take its effect. */
    method Write(index: int, value: Byte)
      requires Valid() && 0 <= index < 0x1_0000
      modifies this, cartRam
      ensures Valid()
      ensures Ctl() == Step(old(Ctl()), big, index, value).0
      ensures cartRam[..] == Apply(old(cartRam[..]), Step(old(Ctl()), big, index, value).1, value)
    {
      if state == PrepareToWrite {
        cartRam[index + bank * BankSize] := value;
        state := Ready;
        return;
      }

      if prepareToErase && value == 0x30 {
        var n := index / SectorSize % 16;
        Fill(n * SectorSize, SectorSize);
        prepareToErase := false;
        state := Ready;
        return;
      }

      if state == SetMemoryBank && index == 0 {
        if value == 0 {
          bank := 0;
        } else {
          bank := 1;
        }
        state := Ready;
        return;
      }

      if index == 0x5555 {
        match value
        case 0xAA =>
          if state == Ready { state := Cmd1; }
        case 0x90 =>
          if state == Cmd2 { chipIdMode := true; state := Ready; }
        case 0xF0 =>
          if state == Cmd2 { chipIdMode := false; state := Ready; }
        case 0x80 =>
          if state == Cmd2 { prepareToErase := true; state := Ready; }
        case 0x10 =>
          if state == Cmd2 && prepareToErase {
            Fill(0, size);
            prepareToErase := false;
            state := Ready;
          }
        case 0x30 =>
          // The armed case has already been handled as a sector erase above.
          assert !prepareToErase;
        case 0xA0 =>
          if state == Cmd2 { state := PrepareToWrite; }
        case 0xB0 =>
          if state == Cmd2 && big { state := SetMemoryBank; }
        case _ =>
          state := Ready;
      } else if index == 0x2AAA {
        if value == 0x55 && state == Cmd1 {
          state := Cmd2;
        }
      }
    }

    /** Flash::read. */
    function Read(index: int): Byte
      requires Valid() && 0 <= index < 0x1_0000
      reads this, cartRam
    {
      ReadCell(Ctl(), big, cartRam[..], index)
    }
  }
}
