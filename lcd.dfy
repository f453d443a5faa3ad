/**
 * LCD status block (include/LcdStat.h): display control and status words,
 * the four background controls, the two window rectangles with their
 * clamping rules, and the 4 x 6 window-content table.
 */
module Lcd {
  import opened Bits

  /** One BGxCNT register plus the values the bus derives from neighbouring registers. */
  datatype BgControl = BgControl(
    raw: Half,       // priority, char/screen base block, mosaic, colour mode, wrap, size
    enabled: bool,   // copy of the matching DISPCNT bit
    dx: Word, dy: Word,
    width: int, height: int,
    voff: int, hoff: int)

  const ZeroBg := BgControl(0, false, 0, 0, 0, 0, 0, 0)

  /** Horizontal window bounds: right edge (exclusive) and left edge, in pixels. */
  datatype WinH = WinH(right: Byte, left: Byte)

  /** Vertical window bounds: bottom edge (exclusive) and top edge, in scanlines. */
  datatype WinV = WinV(bottom: Byte, top: Byte)

  const ScreenWidth: Byte := 240
  const ScreenHeight: Byte := 160

  /**
   * writeWinh's decoding of a WINxH value: the high byte is the left edge
   * and the low byte the right edge, which is forced to 240 when it lies
   * off screen or to the left of the left edge.
   */
  function WinHOf(value: Half): (w: WinH)
    ensures w.left == Hi8(value)
    ensures w.right <= ScreenWidth
    ensures w.left <= w.right || w.left > ScreenWidth
    ensures Lo8(value) <= ScreenWidth && w.left <= Lo8(value) ==> w.right == Lo8(value)
    ensures !(Lo8(value) <= ScreenWidth && w.left <= Lo8(value)) ==> w.right == ScreenWidth
  {
    var right := Lo8(value);
    var left := Hi8(value);
    if right > ScreenWidth || left > right then WinH(ScreenWidth, left) else WinH(right, left)
  }

  /** writeWinv's decoding of a WINxV value, with bottom clamped to 160 in the same way. */
  function WinVOf(value: Half): (w: WinV)
    ensures w.top == Hi8(value)
    ensures w.bottom <= ScreenHeight
    ensures w.top <= w.bottom || w.top > ScreenHeight
    ensures Lo8(value) <= ScreenHeight && w.top <= Lo8(value) ==> w.bottom == Lo8(value)
    ensures !(Lo8(value) <= ScreenHeight && w.top <= Lo8(value)) ==> w.bottom == ScreenHeight
  {
    var bottom := Lo8(value);
    var top := Hi8(value);
    if bottom > ScreenHeight || top > bottom then WinV(ScreenHeight, top) else WinV(bottom, top)
  }

  /** The register value that reads back as a window (left edge in the high byte). */
  function PackWinH(w: WinH): Half { Pack16(w.left, w.right) }

  function PackWinV(w: WinV): Half { Pack16(w.top, w.bottom) }

  /** Writing back a clamped window changes nothing: clamping is idempotent. */
  lemma WinHIdempotent(value: Half)
    ensures WinHOf(PackWinH(WinHOf(value))) == WinHOf(value)
  {
    var w := WinHOf(value);
    Pack16RoundTrip(value, w.left, w.right);
  }

  lemma WinVIdempotent(value: Half)
    ensures WinVOf(PackWinV(WinVOf(value))) == WinVOf(value)
  {
    var w := WinVOf(value);
    Pack16RoundTrip(value, w.top, w.bottom);
  }

  /** A well-formed window survives the round trip through its register unchanged. */
  lemma WinHRoundTrip(w: WinH)
    requires w.left <= w.right <= ScreenWidth
    ensures WinHOf(PackWinH(w)) == w
  {
    Pack16RoundTrip(0, w.left, w.right);
  }

  lemma WinVRoundTrip(w: WinV)
    requires w.top <= w.bottom <= ScreenHeight
    ensures WinVOf(PackWinV(w)) == w
  {
    Pack16RoundTrip(0, w.top, w.bottom);
  }

  /** Bit i of a window-content byte, as the int the table stores. */
  function ContentBit(content: Byte, i: nat): (b: int)
    requires i < 8
    ensures b == 0 || b == 1
  {
    if (content >> i) & 1 == 1 then 1 else 0
  }

  class LcdStat {
    var scanline: Byte
    var dispcnt: Half
    var dispstat: Half
    const bgcnt: array<BgControl>
    const winh: array<WinH>
    const winv: array<WinV>
    const windowContent: array2<int>
    var oamChanged: bool

    ghost const Repr: set<object>

    /** The block's fixed shape: its arrays and their sizes, which no method changes. */
    ghost predicate Valid()
    {
      Repr == {this, bgcnt, winh, winv, windowContent}
      && bgcnt.Length == 4 && winh.Length == 2 && winv.Length == 2
      && windowContent.Length0 == 4 && windowContent.Length1 == 6
    }

    /** The constructor zeroes every register, background and window. */
    constructor ()
      ensures Valid() && fresh(Repr)
      ensures scanline == 0 && dispcnt == 0 && dispstat == 0 && !oamChanged
      ensures forall k :: 0 <= k < 4 ==> bgcnt[k] == ZeroBg
      ensures forall k :: 0 <= k < 2 ==> winh[k] == WinH(0, 0) && winv[k] == WinV(0, 0)
      ensures forall w, i :: 0 <= w < 4 && 0 <= i < 6 ==> windowContent[w, i] == 0
    {
      scanline := 0;
      dispcnt := 0;
      dispstat := 0;
      oamChanged := false;
      bgcnt := new BgControl[4](_ => ZeroBg);
      winh := new WinH[2](_ => WinH(0, 0));
      winv := new WinV[2](_ => WinV(0, 0));
      windowContent := new int[4, 6]((_, _) => 0);
      Repr := {this, bgcnt, winh, winv, windowContent};
    }

    /** writeWinh: window win takes the decoded bounds; the other window is untouched. */
    method WriteWinh(win: int, value: Half)
      requires Valid() && 0 <= win < 2
      modifies winh
      ensures winh[win] == WinHOf(value)
      ensures forall k :: 0 <= k < 2 && k != win ==> winh[k] == old(winh[k])
    {
      var right := Lo8(value);
      var left := Hi8(value);
      if right > ScreenWidth || left > right {
        right := ScreenWidth;
      }
      winh[win] := WinH(right, left);
    }

    /** writeWinv, with the bottom edge clamped to 160. */
    method WriteWinv(win: int, value: Half)
      requires Valid() && 0 <= win < 2
      modifies winv
      ensures winv[win] == WinVOf(value)
      ensures forall k :: 0 <= k < 2 && k != win ==> winv[k] == old(winv[k])
    {
      var bottom := Lo8(value);
      var top := Hi8(value);
      if bottom > ScreenHeight || top > bottom {
        bottom := ScreenHeight;
      }
      winv[win] := WinV(bottom, top);
    }

    /** writeWindowContent: row win becomes bits 0-5 of content; other rows are untouched. */
    method WriteWindowContent(win: int, content: Byte)
      requires Valid() && 0 <= win < 4
      modifies windowContent
      ensures forall i :: 0 <= i < 6 ==> windowContent[win, i] == ContentBit(content, i)
      ensures forall w, i :: 0 <= w < 4 && w != win && 0 <= i < 6 ==> windowContent[w, i] == old(windowContent[w, i])
    {
      var i := 0;
      while i < 6
        invariant 0 <= i <= 6
        invariant forall j :: 0 <= j < i ==> windowContent[win, j] == ContentBit(content, j)
        invariant forall w, j :: 0 <= w < 4 && w != win && 0 <= j < 6 ==> windowContent[w, j] == old(windowContent[w, j])
      {
        windowContent[win, i] := if (content >> i) & 1 == 1 then 1 else 0;
        i := i + 1;
      }
    }
  }
}
