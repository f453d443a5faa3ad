/**
 * The interrupt controller the bus and the timers report to (include/IRQ.h):
 * the IE, IF and IME registers with their getters and setters. The bodies
 * of raise and clear (src/IRQ.cpp) are not part of this model: each call is
 * recorded, in order, so that callers can state which requests they made.
 */
module Irqs {
  import opened Bits

  /** An InterruptOccasion, numbered by its bit in IE/IF (VBLANK = 0 ... GAMEPAK = 13). */
  type Occasion = k: nat | k < 14

  const Timer0: Occasion := 3
  const Dma0: Occasion := 8

  /** The IRQ_* bit of an occasion. */
  function OccasionBit(o: Occasion): (b: Half)
    ensures b != 0 && b & (b - 1) == 0
  {
    match o
    case 0 => 0x0001 case 1 => 0x0002 case 2 => 0x0004 case 3 => 0x0008
    case 4 => 0x0010 case 5 => 0x0020 case 6 => 0x0040 case 7 => 0x0080
    case 8 => 0x0100 case 9 => 0x0200 case 10 => 0x0400 case 11 => 0x0800
    case 12 => 0x1000 case 13 => 0x2000
  }

  class Irq {
    var ie: Half
    var iflags: Half
    var ime: Half
    /** Every raise(occasion) made so far, oldest first. */
    var raised: seq<Occasion>
    /** Every clear(mask) made so far, oldest first. */
    var cleared: seq<Half>

    constructor ()
      ensures ie == 0 && iflags == 0 && ime == 0 && raised == [] && cleared == []
    {
      ie, iflags, ime := 0, 0, 0;
      raised, cleared := [], [];
    }

    method Raise(o: Occasion)
      modifies this
      ensures raised == old(raised) + [o]
      ensures ie == old(ie) && iflags == old(iflags) && ime == old(ime) && cleared == old(cleared)
    {
      raised := raised + [o];
    }

    method Clear(mask: Half)
      modifies this
      ensures cleared == old(cleared) + [mask]
      ensures ie == old(ie) && iflags == old(iflags) && ime == old(ime) && raised == old(raised)
    {
      cleared := cleared + [mask];
    }

    method SetIE(v: Half)
      modifies this
      ensures ie == v && iflags == old(iflags) && ime == old(ime)
      ensures raised == old(raised) && cleared == old(cleared)
    {
      ie := v;
    }

    method SetIME(v: Half)
      modifies this
      ensures ime == v && ie == old(ie) && iflags == old(iflags)
      ensures raised == old(raised) && cleared == old(cleared)
    {
      ime := v;
    }
  }
}
