/**
 * The ARM7TDMI core (src/Arm7Tdmi.cpp, include/Arm7Tdmi.h): processor modes,
 * the status registers, the banked register file, condition codes, the flag
 * updates of the ALU and the barrel shifter. The Arm7Tdmi object itself, with
 * its cycle counter, interrupt entry and exit and memory accesses, follows
 * these pure definitions.
 *
 * Registers hold U32 numbers; every sum or difference that can leave the
 * 32-bit range is wrapped with Wrap, as the u32 arithmetic of the source does.
 */
module Cpu {
  import opened Bits
  import Bus
  import Irqs

  // ---------------------------------------------------------------------
  // Numbers
  // ---------------------------------------------------------------------

  /** Bit 31, as the `x & 0x80000000 ? 1 : 0` tests read it. */
  predicate Msb(x: U32) { x >= 0x8000_0000 }

  /** The two's-complement reading of a word. */
  function SInt(x: U32): int { if x >= 0x8000_0000 then x - 0x1_0000_0000 else x }

  /** A mathematical integer that a 32-bit signed word can hold. */
  predicate FitsSigned(v: int) { -0x8000_0000 <= v < 0x8000_0000 }

  function Bit(b: bool): int { if b then 1 else 0 }

  /** The bit pattern of a word, assembled byte by byte. */
  function ToWord(x: U32): Word
  {
    Bus.Word4((x % 0x100) as Byte, (x / 0x100 % 0x100) as Byte, (x / 0x1_0000 % 0x100) as Byte, (x / 0x100_0000) as Byte)
  }

  /** The unsigned value of a bit pattern, byte by byte. */
  function OfWord(w: Word): U32
  {
    Bus.ByteOf(w, 0) as int + 0x100 * (Bus.ByteOf(w, 1) as int + 0x100 * (Bus.ByteOf(w, 2) as int + 0x100 * Bus.ByteOf(w, 3) as int))
  }
  function OfHalf(h: Half): U16 { h as int }

  /** A word and its bit pattern convert into each other. */
  lemma WordRoundTrip(x: U32)
    ensures OfWord(ToWord(x)) == x
  {
    var b0, b1, b2, b3 := (x % 0x100) as Byte, (x / 0x100 % 0x100) as Byte, (x / 0x1_0000 % 0x100) as Byte, (x / 0x100_0000) as Byte;
    Bus.Word4RoundTrip(0, b0, b1, b2, b3);
    ByteRoundTrip(x % 0x100);
    ByteRoundTrip(x / 0x100 % 0x100);
    ByteRoundTrip(x / 0x1_0000 % 0x100);
    ByteRoundTrip(x / 0x100_0000);
    Digits(x);
  }

  /** A word is its four base-256 digits. */
  lemma Digits(x: U32)
    ensures x == x % 0x100 + 0x100 * (x / 0x100 % 0x100 + 0x100 * (x / 0x1_0000 % 0x100 + 0x100 * (x / 0x100_0000)))
  {
    var q1 := x / 0x100;
    var q2 := q1 / 0x100;
    assert x / 0x1_0000 == q2;
    assert x / 0x100_0000 == q2 / 0x100;
  }

  /** The bitwise operators of the ALU, on the bit patterns of two words. */
  function And(a: U32, b: U32): U32 { OfWord(ToWord(a) & ToWord(b)) }
  function Or(a: U32, b: U32): U32 { OfWord(ToWord(a) | ToWord(b)) }
  function Xor(a: U32, b: U32): U32 { OfWord(ToWord(a) ^ ToWord(b)) }

  /** ~x: every bit flipped. */
  function Not(x: U32): U32 { 0xFFFF_FFFF - x }

  /** x & ~(k - 1) for a power of two k: x rounded down to a multiple of k. */
  function AlignDown(x: U32, k: nat): (r: U32)
    requires k == 2 || k == 4
    ensures r % k == 0 && r <= x < r + k
  {
    x - x % k
  }

  // ---------------------------------------------------------------------
  // Modes
  // ---------------------------------------------------------------------

  datatype Mode = USR | FIQ | IRQ | SVC | ABT | SYS | UND

  /** SetMode: the five mode bits stored for each mode. */
  function ModeBits(m: Mode): (b: int)
    ensures 0x10 <= b < 0x20
  {
    match m
    case USR => 0x10 case FIQ => 0x11 case IRQ => 0x12 case SVC => 0x13
    case ABT => 0x17 case SYS => 0x1F case UND => 0x1B
  }

  /** GetMode: the mode five bits name; None for the patterns on which the source exits with code 21. */
  function ModeOf(bits: int): (m: Option<Mode>)
    ensures m.Some? ==> ModeBits(m.value) == bits
    ensures m.None? <==> bits !in {0x10, 0x11, 0x12, 0x13, 0x17, 0x1F, 0x1B}
  {
    if bits == 0x10 then Some(USR)
    else if bits == 0x11 then Some(FIQ)
    else if bits == 0x12 then Some(IRQ)
    else if bits == 0x13 then Some(SVC)
    else if bits == 0x17 then Some(ABT)
    else if bits == 0x1F then Some(SYS)
    else if bits == 0x1B then Some(UND)
    else None
  }

  /** SetMode followed by GetMode returns the mode that was set, and distinct modes have distinct bits. */
  lemma ModeRoundTrip(m: Mode, m': Mode)
    ensures ModeOf(ModeBits(m)) == Some(m)
    ensures ModeBits(m) == ModeBits(m') ==> m == m'
  {
  }

  // ---------------------------------------------------------------------
  // Program status registers
  // ---------------------------------------------------------------------

  /**
   * StatusRegister: the bit fields of the union, from bit 0 up: mode (4-0),
   * t (5), f (6), i (7), reserved (27-8), v (28), c (29), z (30), n (31).
   * A one-bit field holds 0 or 1.
   */
  datatype Psr = Psr(n: int, z: int, c: int, v: int, reserved: int, i: int, f: int, t: int, mode: int)

  predicate IsBit(b: int) { b == 0 || b == 1 }

  /** Every field fits its width. */
  predicate Fit(p: Psr)
  {
    IsBit(p.n) && IsBit(p.z) && IsBit(p.c) && IsBit(p.v) && IsBit(p.i) && IsBit(p.f) && IsBit(p.t)
    && 0 <= p.reserved < 0x10_0000 && 0 <= p.mode < 0x20
  }

  /** The raw word of the union. */
  function Raw(p: Psr): U32
    requires Fit(p)
  {
    p.mode + 0x20 * (p.t + 2 * (p.f + 2 * (p.i + 2 * (p.reserved
      + 0x10_0000 * (p.v + 2 * (p.c + 2 * (p.z + 2 * p.n)))))))
  }

  /** The bit fields of a raw word, peeled off from bit 0 up. */
  function FromRaw(x: U32): (p: Psr)
    ensures Fit(p)
  {
    var x5 := x / 0x20;
    var x6 := x5 / 2;
    var x7 := x6 / 2;
    var x8 := x7 / 2;
    var x28 := x8 / 0x10_0000;
    var x29 := x28 / 2;
    var x30 := x29 / 2;
    var x31 := x30 / 2;
    Psr(x31 % 2, x30 % 2, x29 % 2, x28 % 2, x8 % 0x10_0000, x7 % 2, x6 % 2, x5 % 2, x % 0x20)
  }

  /** Reading the fields of a raw word back packs the same word. */
  lemma RawOfFromRaw(x: U32)
    ensures Raw(FromRaw(x)) == x
  {
    var x5 := x / 0x20;
    var x6 := x5 / 2;
    var x7 := x6 / 2;
    var x8 := x7 / 2;
    var x28 := x8 / 0x10_0000;
    var x29 := x28 / 2;
    var x30 := x29 / 2;
    var x31 := x30 / 2;
    assert x31 < 2;
    var h30 := x30 % 2 + 2 * x31;
    assert x30 == h30;
    var h29 := x29 % 2 + 2 * h30;
    assert x29 == h29;
    var h28 := x28 % 2 + 2 * h29;
    assert x28 == h28;
    var h8 := x8 % 0x10_0000 + 0x10_0000 * h28;
    assert x8 == h8;
    var h7 := x7 % 2 + 2 * h8;
    assert x7 == h7;
    var h6 := x6 % 2 + 2 * h7;
    assert x6 == h6;
    var h5 := x5 % 2 + 2 * h6;
    assert x5 == h5;
    assert x == x % 0x20 + 0x20 * h5;
    var p := FromRaw(x);
    assert p == Psr(x31, x30 % 2, x29 % 2, x28 % 2, x8 % 0x10_0000, x7 % 2, x6 % 2, x5 % 2, x % 0x20);
    assert Raw(p) == x % 0x20 + 0x20 * h5;
  }

  /** Dividing b + k*a by one of the field sizes k, for b below k, gives back a and b. */
  lemma Unstep(a: int, b: int, k: int)
    requires k == 2 || k == 0x20 || k == 0x10_0000
    requires 0 <= b < k
    ensures (b + k * a) / k == a && (b + k * a) % k == b
  {
  }

  /** Packing the fields and reading them back gives the same fields. */
  lemma FromRawOfRaw(p: Psr)
    requires Fit(p)
    ensures FromRaw(Raw(p)) == p
  {
    var t31 := p.n;
    var t30 := p.z + 2 * t31;
    var t29 := p.c + 2 * t30;
    var t28 := p.v + 2 * t29;
    var t8 := p.reserved + 0x10_0000 * t28;
    var t7 := p.i + 2 * t8;
    var t6 := p.f + 2 * t7;
    var t5 := p.t + 2 * t6;
    var x := Raw(p);
    assert x == p.mode + 0x20 * t5;
    assert x / 0x20 == t5 && x % 0x20 == p.mode by { Unstep(t5, p.mode, 0x20); }
    assert t5 / 2 == t6 && t5 % 2 == p.t by { Unstep(t6, p.t, 2); }
    assert t6 / 2 == t7 && t6 % 2 == p.f by { Unstep(t7, p.f, 2); }
    assert t7 / 2 == t8 && t7 % 2 == p.i by { Unstep(t8, p.i, 2); }
    assert t8 / 0x10_0000 == t28 && t8 % 0x10_0000 == p.reserved by { Unstep(t28, p.reserved, 0x10_0000); }
    assert t28 / 2 == t29 && t28 % 2 == p.v by { Unstep(t29, p.v, 2); }
    assert t29 / 2 == t30 && t29 % 2 == p.c by { Unstep(t30, p.c, 2); }
    assert t30 / 2 == t31 && t30 % 2 == p.z by { Unstep(t31, p.z, 2); }
    assert t31 % 2 == p.n;
  }

  datatype ConditionFlag = N | Z | C | V

  /** GetConditionCodeFlag: the flag as the 0 or 1 its bit field holds. */
  function GetFlag(p: Psr, flag: ConditionFlag): (b: int)
    requires Fit(p)
    ensures IsBit(b)
  {
    match flag case N => p.n case Z => p.z case C => p.c case V => p.v
  }

  /** The fields other than N, Z, C and V agree. */
  predicate SameControl(p: Psr, q: Psr)
  {
    p.reserved == q.reserved && p.i == q.i && p.f == q.f && p.t == q.t && p.mode == q.mode
  }

  /** SetConditionCodeFlag: a bit above 1 is refused; 0 or 1 goes into the named flag alone. */
  function SetFlag(p: Psr, flag: ConditionFlag, bit: U8): (r: Psr)
    requires Fit(p)
    ensures Fit(r)
    ensures bit > 1 ==> r == p
    ensures bit <= 1 ==> GetFlag(r, flag) == bit
    ensures forall g :: g != flag ==> GetFlag(r, g) == GetFlag(p, g)
    ensures SameControl(r, p)
  {
    if bit > 1 then p
    else match flag
      case N => p.(n := bit)
      case Z => p.(z := bit)
      case C => p.(c := bit)
      case V => p.(v := bit)
  }

  // ---------------------------------------------------------------------
  // Condition codes
  // ---------------------------------------------------------------------

  /** ConditionMet: EQ, NE, CS, CC, MI, PL, VS, VC, HI, LS, GE, LT, GT, LE, AL are 0 .. 14; any other value is not met. */
  predicate ConditionMet(p: Psr, cond: int)
  {
    if cond == 0 then p.z == 1
    else if cond == 1 then p.z == 0
    else if cond == 2 then p.c == 1
    else if cond == 3 then p.c == 0
    else if cond == 4 then p.n == 1
    else if cond == 5 then p.n == 0
    else if cond == 6 then p.v == 1
    else if cond == 7 then p.v == 0
    else if cond == 8 then p.c == 1 && p.z == 0
    else if cond == 9 then p.c == 0 || p.z == 1
    else if cond == 10 then p.n == p.v
    else if cond == 11 then p.n != p.v
    else if cond == 12 then p.z == 0 && p.n == p.v
    else if cond == 13 then p.z == 1 || p.n != p.v
    else cond == 14
  }

  /** The codes come in complementary pairs, AL always holds, and only N, Z, C and V are consulted. */
  lemma ConditionPairs(p: Psr, q: Psr, cond: int)
    requires Fit(p)
    ensures 0 <= cond < 14 && cond % 2 == 0 ==> ConditionMet(p, cond + 1) == !ConditionMet(p, cond)
    ensures ConditionMet(p, 14) && !ConditionMet(p, 15)
    ensures p.n == q.n && p.z == q.z && p.c == q.c && p.v == q.v ==> ConditionMet(p, cond) == ConditionMet(q, cond)
  {
  }

  // ---------------------------------------------------------------------
  // Flag updates
  // ---------------------------------------------------------------------

  /** UpdateFlagsLogical: C from the shifter's carry-out, Z when the result is zero, N from bit 31; V is kept. */
  function FlagsLogical(p: Psr, result: U32, carry: U8): (r: Psr)
    requires Fit(p)
    ensures Fit(r) && SameControl(r, p)
    ensures r.z == Bit(result == 0) && r.n == Bit(Msb(result)) && r.v == p.v
    ensures r.c == if carry > 1 then p.c else carry
  {
    var q := SetFlag(p, C, carry);
    var q := SetFlag(q, Z, Bit(result == 0));
    SetFlag(q, N, Bit(Msb(result)))
  }

  /** UpdateFlagsAddition, as the source tests the operands against the result. */
  function FlagsAddition(p: Psr, op1: U32, op2: U32, result: U32): (r: Psr)
    requires Fit(p)
    ensures Fit(r) && SameControl(r, p)
    ensures r.c == Bit(op1 > result || op2 > result)
    ensures r.z == Bit(result == 0) && r.n == Bit(Msb(result))
    ensures r.v == Bit(Msb(op1) == Msb(op2) && Msb(result) != Msb(op1))
  {
    var q := SetFlag(p, C, Bit(op1 > result || op2 > result));
    var q := SetFlag(q, Z, Bit(result == 0));
    var q := SetFlag(q, N, Bit(Msb(result)));
    SetFlag(q, V, Bit(Msb(op1) == Msb(op2) && Msb(result) != Msb(op1)))
  }

  /** UpdateFlagsSubtraction: C is the inverted borrow, cleared when the result exceeds op1 or equals it with op2 non-zero. */
  function FlagsSubtraction(p: Psr, op1: U32, op2: U32, result: U32): (r: Psr)
    requires Fit(p)
    ensures Fit(r) && SameControl(r, p)
    ensures r.c == Bit(!(result > op1 || (result == op1 && op2 != 0)))
    ensures r.z == Bit(result == 0) && r.n == Bit(Msb(result))
    ensures r.v == Bit(Msb(op1) != Msb(op2) && Msb(result) != Msb(op1))
  {
    var q := SetFlag(p, C, Bit(!(result > op1 || (result == op1 && op2 != 0))));
    var q := SetFlag(q, Z, Bit(result == 0));
    var q := SetFlag(q, N, Bit(Msb(result)));
    SetFlag(q, V, Bit(Msb(op1) != Msb(op2) && Msb(result) != Msb(op1)))
  }

  /**
   * The flags after an addition mean what the ALU flags mean: C is the carry
   * out of bit 31 of the true sum, V says the signed sum does not fit in 32
   * bits, and N is the sign of the result.
   */
  lemma AdditionFlagsMeaning(p: Psr, op1: U32, op2: U32)
    requires Fit(p)
    ensures var r := FlagsAddition(p, op1, op2, Wrap(op1 + op2));
      && (r.c == 1 <==> op1 + op2 >= 0x1_0000_0000)
      && (r.v == 1 <==> !FitsSigned(SInt(op1) + SInt(op2)))
      && (r.z == 1 <==> Wrap(op1 + op2) == 0)
      && (r.n == 1 <==> SInt(Wrap(op1 + op2)) < 0)
  {
  }

  /**
   * The flags after a subtraction op1 - op2: C is set exactly when no borrow
   * occurs (op1 >= op2 unsigned), V says the signed difference does not fit.
   */
  lemma SubtractionFlagsMeaning(p: Psr, op1: U32, op2: U32)
    requires Fit(p)
    ensures var r := FlagsSubtraction(p, op1, op2, Wrap(op1 - op2));
      && (r.c == 1 <==> op1 >= op2)
      && (r.v == 1 <==> !FitsSigned(SInt(op1) - SInt(op2)))
      && (r.z == 1 <==> op1 == op2)
      && (r.n == 1 <==> SInt(Wrap(op1 - op2)) < 0)
  {
  }

  /**
   * After CMP a, b the condition codes compare a with b: EQ/NE equality,
   * CS/HI/LS/CC unsigned order, GE/LT/GT/LE signed order.
   */
  lemma ConditionAfterCompare(p: Psr, a: U32, b: U32)
    requires Fit(p)
    ensures var q := FlagsSubtraction(p, a, b, Wrap(a - b));
      && (ConditionMet(q, 0) <==> a == b)
      && (ConditionMet(q, 2) <==> a >= b)
      && (ConditionMet(q, 8) <==> a > b)
      && (ConditionMet(q, 9) <==> a <= b)
      && (ConditionMet(q, 10) <==> SInt(a) >= SInt(b))
      && (ConditionMet(q, 11) <==> SInt(a) < SInt(b))
      && (ConditionMet(q, 12) <==> SInt(a) > SInt(b))
      && (ConditionMet(q, 13) <==> SInt(a) <= SInt(b))
  {
    SubtractionFlagsMeaning(p, a, b);
  }

  // ---------------------------------------------------------------------
  // The register file
  // ---------------------------------------------------------------------

  /**
   * The registers struct: the 31 general words in their declaration order
   * (r0 .. r15, r8_fiq .. r14_fiq, r13_svc, r14_svc, r13_abt, r14_abt,
   * r13_irq, r14_irq, r13_und, r14_und), the CPSR, and the five SPSRs in the
   * order FIQ, SVC, ABT, IRQ, UND.
   */
  datatype Registers = Registers(bank: seq<U32>, cpsr: Psr, spsr: seq<Psr>)

  /** Register numbers past r15 that GetRegister and SetRegister accept. */
  const CpsrReg := 16
  const SpsrReg := 17

  /** Every word and field fits, and the CPSR names a mode. */
  predicate Sane(r: Registers)
  {
    |r.bank| == 31 && |r.spsr| == 5 && Fit(r.cpsr) && ModeOf(r.cpsr.mode).Some?
    && forall k :: 0 <= k < 5 ==> Fit(r.spsr[k])
  }

  /** GetMode on the register file. */
  function CurrentMode(r: Registers): Mode
    requires ModeOf(r.cpsr.mode).Some?
  {
    ModeOf(r.cpsr.mode).value
  }

  /** The word of the bank that register reg (0 .. 15) names in mode m. */
  function Slot(m: Mode, reg: int): (k: int)
    requires 0 <= reg < 16
    ensures 0 <= k < 31
  {
    if reg < 8 || reg == 15 then reg
    else if reg < 13 then (if m == FIQ then reg + 8 else reg)
    else match m
      case USR => reg
      case SYS => reg
      case FIQ => reg + 8
      case SVC => reg + 10
      case ABT => reg + 12
      case IRQ => reg + 14
      case UND => reg + 16
  }

  /** The SPSR a mode other than USR and SYS owns. */
  function SpsrSlot(m: Mode): (k: int)
    requires m != USR && m != SYS
    ensures 0 <= k < 5
  {
    match m
    case FIQ => 0
    case SVC => 1
    case ABT => 2
    case IRQ => 3
    case UND => 4
  }

  /**
   * GetRegister: r0 .. r15 through the banks of the current mode, the raw
   * CPSR, and the raw SPSR of the mode (the CPSR in SYS, and the source's
   * fall-through value 100 in USR); any other number reads 0.
   */
  function ReadReg(r: Registers, reg: U32): U32
    requires Sane(r)
  {
    var m := CurrentMode(r);
    if reg < 16 then r.bank[Slot(m, reg)]
    else if reg == CpsrReg then Raw(r.cpsr)
    else if reg == SpsrReg then
      (if m == USR then 100 else if m == SYS then Raw(r.cpsr) else Raw(r.spsr[SpsrSlot(m)]))
    else 0
  }

  /**
   * SetRegister: r0 .. r15 through the banks of the current mode, or the raw
   * CPSR; the SPSR and any other number are not written.
   */
  function WriteReg(r: Registers, reg: U32, val: U32): (r': Registers)
    requires Sane(r)
    ensures |r'.bank| == 31 && r'.spsr == r.spsr && Fit(r'.cpsr)
    ensures reg != CpsrReg ==> r'.cpsr == r.cpsr
    ensures Sane(r') <==> reg != CpsrReg || ModeOf(val % 0x20).Some?
  {
    if reg < 16 then r.(bank := r.bank[Slot(CurrentMode(r), reg) := val])
    else if reg == CpsrReg then r.(cpsr := FromRaw(val))
    else r
  }

  /** r0 .. r7 and r15 are one register in every mode. */
  lemma SharedRegisters(m: Mode, m': Mode, reg: int)
    requires 0 <= reg < 8 || reg == 15
    ensures Slot(m, reg) == Slot(m', reg) == reg
  {
  }

  /** r8 .. r12 have a second copy in FIQ mode only. */
  lemma FiqBankedRegisters(m: Mode, m': Mode, reg: int)
    requires 8 <= reg < 13
    ensures Slot(m, reg) == Slot(m', reg) <==> (m == FIQ <==> m' == FIQ)
  {
  }

  /** r13 and r14 have a copy per mode, with USR and SYS sharing one. */
  lemma ModeBankedRegisters(m: Mode, m': Mode, reg: int)
    requires reg == 13 || reg == 14
    ensures Slot(m, reg) == Slot(m', reg) <==> m == m' || (m in {USR, SYS} && m' in {USR, SYS})
  {
  }

  /**
   * In one mode, SetRegister then GetRegister returns the value written, and
   * every other register keeps its value; a CPSR write reads back unchanged.
   */
  lemma SetGetRoundTrip(r: Registers, reg: U32, other: U32, val: U32)
    requires Sane(r) && reg < 16
    ensures ReadReg(WriteReg(r, reg, val), reg) == val
    ensures other != reg ==> ReadReg(WriteReg(r, reg, val), other) == ReadReg(r, other)
  {
  }

  /** Writing a CPSR with a valid mode and reading it back gives the same word. */
  lemma CpsrRoundTrip(r: Registers, val: U32)
    requires Sane(r) && ModeOf(val % 0x20).Some?
    ensures ReadReg(WriteReg(r, CpsrReg, val), CpsrReg) == val
  {
    RawOfFromRaw(val);
  }

  // ---------------------------------------------------------------------
  // The barrel shifter
  // ---------------------------------------------------------------------

  /** A shifted operand and the shifter's carry-out. */
  datatype Shifted = Shifted(value: U32, carry: int)

  /** One step of the ASR loop: shift right by one, copying bit 31 back in. */
  function AsrStep(x: U32): U32 { x / 2 + (if Msb(x) then 0x8000_0000 else 0) }

  /** One step of the ROR loop: shift right by one, moving bit 0 to bit 31. */
  function RorStep(x: U32): U32 { x / 2 + x % 2 * 0x8000_0000 }

  /** The ASR loop run k times; each step's carry is the bit it drops. */
  function AsrSteps(num: U32, k: nat, carry: int): Shifted
    decreases k
  {
    if k == 0 then Shifted(num, carry) else AsrSteps(AsrStep(num), k - 1, num % 2)
  }

  /** The ROR loop run k times. */
  function RorSteps(num: U32, k: nat, carry: int): Shifted
    decreases k
  {
    if k == 0 then Shifted(num, carry) else RorSteps(RorStep(num), k - 1, num % 2)
  }

  /**
   * BarrelShift: opcode 0 LSL, 1 LSR, 2 ASR, 3 ROR, with c the C flag. An
   * amount of 0 changes nothing; LSL and LSR by more than 32 give 0 with carry
   * 0, and otherwise shift by amount - 1, take the carry, and shift once more;
   * ASR and ROR repeat one-bit steps; ROR by 0xFFFFFFFF is RRX.
   */
  function Shift(amount: U32, num: U32, opcode: int, c: int): Shifted
    requires IsBit(c)
  {
    if amount == 0 then Shifted(num, c)
    else if opcode == 0 then
      if amount > 32 then Shifted(0, 0)
      else var n1 := Wrap(num * Pow2(amount - 1)); Shifted(Wrap(n1 * 2), n1 / 0x8000_0000)
    else if opcode == 1 then
      if amount > 32 then Shifted(0, 0)
      else var n1 := num / Pow2(amount - 1); Shifted(n1 / 2, n1 % 2)
    else if opcode == 2 then AsrSteps(num, amount, c)
    else if opcode == 3 then
      if amount == 0xFFFF_FFFF then Shifted(num / 2 + c * 0x8000_0000, num % 2)
      else RorSteps(num, amount, c)
    else Shifted(num, c)
  }

  /** The special cases: no shift keeps num and C, an over-long LSL or LSR gives 0 and 0, RRX shifts C into bit 31. */
  lemma ShiftSpecialCases(amount: U32, num: U32, opcode: int, c: int)
    requires IsBit(c)
    ensures amount == 0 ==> Shift(amount, num, opcode, c) == Shifted(num, c)
    ensures amount > 32 && (opcode == 0 || opcode == 1) ==> Shift(amount, num, opcode, c) == Shifted(0, 0)
    ensures amount == 0xFFFF_FFFF && opcode == 3 ==> Shift(amount, num, opcode, c) == Shifted(num / 2 + c * 0x8000_0000, num % 2)
  {
  }

  /** The shifter's carry-out is always a bit. */
  lemma ShiftCarryIsBit(amount: U32, num: U32, opcode: int, c: int)
    requires IsBit(c)
    ensures IsBit(Shift(amount, num, opcode, c).carry)
  {
    AsrCarryIsBit(num, amount, c);
    RorCarryIsBit(num, amount, c);
  }

  lemma {:induction false} AsrCarryIsBit(num: U32, k: nat, c: int)
    requires IsBit(c)
    ensures IsBit(AsrSteps(num, k, c).carry)
    decreases k
  {
    if k > 0 {
      AsrCarryIsBit(AsrStep(num), k - 1, num % 2);
    }
  }

  lemma {:induction false} RorCarryIsBit(num: U32, k: nat, c: int)
    requires IsBit(c)
    ensures IsBit(RorSteps(num, k, c).carry)
    decreases k
  {
    if k > 0 {
      RorCarryIsBit(RorStep(num), k - 1, num % 2);
    }
  }

  /** 2^(k+1) = 2 * 2^k. */
  lemma Pow2Succ(k: nat)
    requires k < 32
    ensures Pow2(k + 1) == 2 * Pow2(k)
  {
  }

  /** Halving after dividing by d is dividing by 2d. */
  lemma DivHalf(x: int, d: int)
    requires d > 0
    ensures x / d / 2 == x / (2 * d)
  {
    var q, r := x / d, x % d;
    var q2, b := q / 2, q % 2;
    assert x == q * d + r;
    assert q * d == q2 * (2 * d) + b * d by {
      assert q == 2 * q2 + b;
      MulSum(2 * q2, b, d);
    }
    if b == 0 {
      DivOfSplit(x, q2, r, 2 * d);
    } else {
      DivOfSplit(x, q2, d + r, 2 * d);
    }
  }

  /** (a + b) * d, distributed, with the factor 2 of a regrouped into d. */
  lemma MulSum(a: int, b: int, d: int)
    requires a % 2 == 0
    ensures (a + b) * d == a / 2 * (2 * d) + b * d
  {
  }

  lemma MulAtLeast(d: int, m: int)
    requires d >= 1 && m > 0
    ensures d * m >= m
  {
  }

  /** x = q * m + r with 0 <= r < m determines x / m. */
  lemma DivOfSplit(x: int, q: int, r: int, m: int)
    requires m > 0 && 0 <= r < m && x == q * m + r
    ensures x / m == q
  {
    var q' := x / m;
    var r' := x % m;
    assert x == q' * m + r';
    if q' > q {
      assert (q' - q) * m == q' * m - q * m;
      MulAtLeast(q' - q, m);
    } else if q' < q {
      assert (q - q') * m == q * m - q' * m;
      MulAtLeast(q - q', m);
    }
  }

  /** LSR by 1 .. 32 divides by 2^amount, and its carry is bit amount - 1 of num. */
  lemma LsrMeaning(amount: U32, num: U32, c: int)
    requires 1 <= amount <= 32 && IsBit(c)
    ensures Shift(amount, num, 1, c) == Shifted(num / Pow2(amount), num / Pow2(amount - 1) % 2)
  {
    Pow2Succ(amount - 1);
    DivHalf(num, Pow2(amount - 1));
  }

  /** One ASR step halves the signed value, rounding towards minus infinity. */
  lemma AsrStepHalves(x: U32)
    ensures SInt(AsrStep(x)) == SInt(x) / 2
  {
  }

  /** ASR by k <= 32 divides the signed value by 2^k, rounding towards minus infinity; the sign never changes. */
  lemma {:induction false} AsrMeaning(num: U32, k: nat, c: int)
    requires k <= 32
    ensures SInt(AsrSteps(num, k, c).value) == SInt(num) / Pow2(k)
    ensures Msb(AsrSteps(num, k, c).value) == Msb(num)
    decreases k
  {
    if k > 0 {
      AsrMeaning(AsrStep(num), k - 1, num % 2);
      AsrStepHalves(num);
      Pow2Succ(k - 1);
      DivHalfFirst(SInt(num), Pow2(k - 1));
    }
  }

  /** Halving first and then dividing by d is dividing by 2d. */
  lemma DivHalfFirst(x: int, d: int)
    requires d > 0
    ensures x / 2 / d == x / (2 * d)
  {
    var q := x / 2;
    var q2 := q / d;
    assert x == 2 * q + x % 2;
    assert q == q2 * d + q % d;
    assert x == q2 * (2 * d) + (2 * (q % d) + x % 2) by {
      assert 2 * q == 2 * (q2 * d) + 2 * (q % d);
    }
    DivOfSplit(x, q2, 2 * (q % d) + x % 2, 2 * d);
  }

  /** Every ROR step leaves the carry equal to bit 31 of the result. */
  lemma {:induction false} RorCarryIsMsb(num: U32, k: nat, c: int)
    requires k >= 1
    ensures RorSteps(num, k, c).carry == Bit(Msb(RorSteps(num, k, c).value))
    decreases k
  {
    if k > 1 {
      RorCarryIsMsb(RorStep(num), k - 1, num % 2);
    }
  }

  /** 2^k * 2^(32 - k) = 2^32. */
  lemma {:induction false} PowSplit(k: nat)
    requires k <= 32
    ensures Pow2(k) * Pow2(32 - k) == 0x1_0000_0000
    decreases 32 - k
  {
    if k < 32 {
      PowSplit(k + 1);
      Pow2Succ(k);
      Pow2Succ(31 - k);
      assert Pow2(k + 1) * Pow2(31 - k) == 2 * Pow2(k) * Pow2(31 - k);
    }
  }

  /** A word rotated right by k <= 32 bits: bits k-1 .. 0 move to the top. */
  function Ror(x: U32, k: nat): U32
    requires k <= 32
  {
    PowSplit(k);
    RorBound(x, Pow2(k), Pow2(32 - k));
    x / Pow2(k) + x % Pow2(k) * Pow2(32 - k)
  }

  /** Splitting a word at a power of two p and swapping the parts stays inside 32 bits. */
  lemma RorBound(x: U32, p: int, p': int)
    requires p >= 1 && p' >= 1 && p * p' == 0x1_0000_0000
    ensures 0 <= x / p + x % p * p' < 0x1_0000_0000
  {
    assert x == (x / p) * p + x % p;
    MulCancel(x / p, p', p);
    assert x % p * p' <= (p - 1) * p';
  }

  /** A product with a positive factor below another one has the smaller other factor. */
  lemma MulCancel(a: int, b: int, p: int)
    requires p > 0 && a * p < b * p
    ensures a < b
  {
  }

  /** The ROR loop run once more: one more step on the last value, whose bit 0 is the carry. */
  lemma {:induction false} RorStepsLast(num: U32, k: nat, c: int)
    ensures RorSteps(num, k + 1, c) == Shifted(RorStep(RorSteps(num, k, c).value), RorSteps(num, k, c).value % 2)
    decreases k
  {
    if k > 0 {
      RorStepsLast(RorStep(num), k - 1, num % 2);
    }
  }

  /** One ROR step after a rotation by j is the rotation by j + 1. */
  lemma RorStepOfRor(x: U32, j: nat)
    requires j < 32
    ensures RorStep(Ror(x, j)) == Ror(x, j + 1)
  {
    Pow2Succ(j);
    Pow2Succ(31 - j);
    PowSplit(j);
    RorStepAlgebra(x, Pow2(j), Pow2(31 - j));
  }

  /** The arithmetic of RorStepOfRor, with p = 2^j and h = 2^(31 - j). */
  lemma RorStepAlgebra(x: U32, p: int, h: int)
    requires p >= 1 && h >= 1 && p * (2 * h) == 0x1_0000_0000
    ensures var y := x / p + x % p * (2 * h);
      y / 2 + y % 2 * 0x8000_0000 == x / (2 * p) + x % (2 * p) * h
  {
    var q, r := x / p, x % p;
    var y := q + r * (2 * h);
    assert y == (q / 2 + r * h) * 2 + q % 2;
    DivOfSplit(y, q / 2 + r * h, q % 2, 2);
    assert y % 2 == q % 2;
    assert x == q * p + r;
    assert x == (q / 2) * (2 * p) + (q % 2 * p + r) by {
      assert q == q / 2 * 2 + q % 2;
    }
    DivOfSplit(x, q / 2, q % 2 * p + r, 2 * p);
    assert x % (2 * p) == q % 2 * p + r;
    assert (q % 2 * p + r) * h == q % 2 * (p * h) + r * h;
    assert p * h == 0x8000_0000;
  }

  /** The ROR loop run k <= 32 times rotates right by k bits. */
  lemma {:induction false} RorMeaning(num: U32, k: nat, c: int)
    requires k <= 32
    ensures RorSteps(num, k, c).value == Ror(num, k)
  {
    if k > 0 {
      RorMeaning(num, k - 1, c);
      RorStepsLast(num, k - 1, c);
      RorStepOfRor(num, k - 1);
    }
  }

  /** Adding a multiple of m does not change the remainder modulo m. */
  lemma ModAddMultiple(a: int, k: int, m: int)
    requires m > 0
    ensures (a + k * m) % m == a % m
  {
    assert a == a / m * m + a % m;
    assert a + k * m == (a / m + k) * m + a % m;
    DivOfSplit(a + k * m, a / m + k, a % m, m);
  }

  /** LSL by 1 .. 32 multiplies by 2^amount, modulo 2^32. */
  lemma LslMeaning(amount: U32, num: U32, c: int)
    requires 1 <= amount <= 32 && IsBit(c)
    ensures Shift(amount, num, 0, c).value == Wrap(num * Pow2(amount))
  {
    var m := 0x1_0000_0000;
    var x := num * Pow2(amount - 1);
    Pow2Succ(amount - 1);
    assert x * 2 == num * Pow2(amount);
    assert x * 2 == 2 * (x % m) + (2 * (x / m)) * m;
    ModAddMultiple(2 * (x % m), 2 * (x / m), m);
  }

  // ---------------------------------------------------------------------
  // Mode changes, status register writes and cycle accounting
  // ---------------------------------------------------------------------

  /** SetMode: the mode bits of the CPSR name m, and nothing else changes. */
  function WithMode(r: Registers, m: Mode): (r': Registers)
    requires Sane(r)
    ensures Sane(r') && CurrentMode(r') == m
    ensures r'.bank == r.bank && r'.spsr == r.spsr && r'.cpsr.(mode := r.cpsr.mode) == r.cpsr
  {
    ModeRoundTrip(m, m);
    r.(cpsr := r.cpsr.(mode := ModeBits(m)))
  }

  /** N, Z, C and V of p, the other fields of q. */
  function WithFlagsOf(q: Psr, p: Psr): (r: Psr)
    requires Fit(p) && Fit(q)
    ensures Fit(r) && SameControl(r, q)
    ensures forall g :: GetFlag(r, g) == GetFlag(p, g)
  {
    q.(n := p.n, z := p.z, c := p.c, v := p.v)
  }

  /**
   * UpdateCPSR: with flags_only set, or in USR mode, only N, Z, C and V are
   * taken from value; otherwise the CPSR becomes value, which names a mode
   * only if its low five bits are one of the seven patterns.
   */
  function CpsrWrite(r: Registers, value: U32, flagsOnly: bool): (r': Registers)
    requires Sane(r)
    ensures r'.bank == r.bank && r'.spsr == r.spsr && Fit(r'.cpsr)
    ensures forall g :: GetFlag(r'.cpsr, g) == GetFlag(FromRaw(value), g)
    ensures flagsOnly || CurrentMode(r) == USR ==> SameControl(r'.cpsr, r.cpsr)
    ensures !(flagsOnly || CurrentMode(r) == USR) ==> Raw(r'.cpsr) == value
    ensures Sane(r') <==> flagsOnly || CurrentMode(r) == USR || ModeOf(value % 0x20).Some?
  {
    RawOfFromRaw(value);
    if flagsOnly || CurrentMode(r) == USR then r.(cpsr := WithFlagsOf(r.cpsr, FromRaw(value)))
    else r.(cpsr := FromRaw(value))
  }

  /**
   * UpdateSPSR outside USR mode: in SYS nothing is stored; otherwise the SPSR
   * of the mode takes N, Z, C and V from value (flags_only) or becomes value.
   */
  function SpsrWrite(r: Registers, value: U32, flagsOnly: bool): (r': Registers)
    requires Sane(r) && CurrentMode(r) != USR
    ensures Sane(r') && r'.bank == r.bank && r'.cpsr == r.cpsr
    ensures CurrentMode(r) == SYS ==> r' == r
    ensures CurrentMode(r) != SYS ==>
      var k := SpsrSlot(CurrentMode(r));
      (forall j :: 0 <= j < 5 && j != k ==> r'.spsr[j] == r.spsr[j])
      && (forall g :: GetFlag(r'.spsr[k], g) == GetFlag(FromRaw(value), g))
      && (flagsOnly ==> SameControl(r'.spsr[k], r.spsr[k]))
      && (!flagsOnly ==> ReadReg(r', SpsrReg) == value)
  {
    var m := CurrentMode(r);
    if m == SYS then r
    else
      var k := SpsrSlot(m);
      RawOfFromRaw(value);
      if flagsOnly then r.(spsr := r.spsr[k := WithFlagsOf(r.spsr[k], FromRaw(value))])
      else r.(spsr := r.spsr[k := FromRaw(value)])
  }

  /** The state bit: T set is THUMB, clear is ARM. */
  predicate Thumb(r: Registers) { r.cpsr.t == 1 }

  /** IncrementPC: r15 advances by one instruction, 4 bytes in ARM and 2 in THUMB. */
  function AdvancePc(r: Registers): (r': Registers)
    requires Sane(r)
    ensures Sane(r') && r'.cpsr == r.cpsr && r'.spsr == r.spsr
    ensures r'.bank == r.bank[15 := Wrap(r.bank[15] as int + if Thumb(r) then 2 else 4)]
    ensures ReadReg(r', 15) != ReadReg(r, 15)
  {
    r.(bank := r.bank[15 := Wrap(r.bank[15] as int + if Thumb(r) then 2 else 4)])
  }

  /**
   * The cycles Tick adds: n non-sequential accesses of 1 + nc cycles, s
   * sequential ones of 1 + sc cycles and i internal cycles, summed in the
   * 16-bit access_cycles counter.
   */
  function TickCost(n: nat, s: nat, i: nat, nc: nat, sc: nat): (k: nat)
    ensures k < 0x1_0000
    ensures n * (1 + nc) + s * (1 + sc) + i < 0x1_0000 ==> k == n * (1 + nc) + s * (1 + sc) + i
  {
    (n * (1 + nc) + s * (1 + sc) + i) % 0x1_0000
  }

  /** Adding to a 16-bit counter commutes with taking the remainder. */
  lemma ModStep(a: int, b: int)
    ensures (a % 0x1_0000 + b) % 0x1_0000 == (a + b) % 0x1_0000
  {
    var q := a / 0x1_0000;
    assert a == q * 0x1_0000 + a % 0x1_0000;
    assert a + b == (a % 0x1_0000 + b) + q * 0x1_0000;
  }

  /** The power-on register file: r15 at the cart ROM, the USR, SVC and IRQ stacks, SVC mode, ARM state, IRQ and FIQ disabled. */
  function ResetRegisters(): (r: Registers)
    ensures Sane(r) && CurrentMode(r) == SVC && !Thumb(r) && r.cpsr.i == 1 && r.cpsr.f == 1
    ensures ReadReg(r, 15) == 0x800_0000 && ReadReg(r, 13) == 0x300_7FE0
    ensures r.bank[Slot(USR, 13)] == 0x300_7F00 && r.bank[Slot(IRQ, 13)] == 0x300_7FA0
    ensures forall k :: 0 <= k < 13 ==> ReadReg(r, k) == 0
  {
    Registers(seq(31, k => if k == 15 then 0x800_0000 else if k == 13 then 0x300_7F00
                           else if k == 23 then 0x300_7FE0 else if k == 27 then 0x300_7FA0 else 0),
              Psr(0, 0, 0, 0, 0, 1, 1, 0, 0x13),
              seq(5, _ => Psr(0, 0, 0, 0, 0, 0, 0, 0, 0)))
  }

  // ---------------------------------------------------------------------
  // SetRegister as a function on the register file
  // ---------------------------------------------------------------------

  /**
   * A CPSR word whose mode bits name no mode. The emulator stores such a word and exits with
   * code 21 at the next reading of the mode; the model records the exit at the write itself.
   */
  predicate BadCpsrWrite(reg: U32, val: U32) { reg == CpsrReg && ModeOf(val % 0x20).None? }

  /**
   * What SetRegister leaves in the register file: the write of WriteReg,
   * except for a CPSR word naming no mode, which is where the emulator stops.
   */
  function Put(r: Registers, reg: U32, val: U32): (r': Registers)
    requires Sane(r)
    ensures Sane(r') && r'.spsr == r.spsr
    ensures BadCpsrWrite(reg, val) ==> r' == r
    ensures reg < 16 ==> ReadReg(r', reg) == val && r'.cpsr == r.cpsr
  {
    if BadCpsrWrite(reg, val) then r else WriteReg(r, reg, val)
  }

  /** Writing one of r0-r15 leaves the others of the current mode as they were. */
  lemma PutOther(r: Registers, reg: U32, val: U32, k: U32)
    requires Sane(r) && reg < 16 && k < 16 && k != reg
    ensures ReadReg(Put(r, reg, val), k) == ReadReg(r, k)
  {
  }

  // ---------------------------------------------------------------------
  // Interrupt entry and exit, as the BIOS performs them
  // ---------------------------------------------------------------------

  /** Source j is enabled in IE and requested in IF. */
  predicate Pending(ie: Half, iflags: Half, j: Irqs.Occasion)
  {
    ie & Irqs.OccasionBit(j) != 0 && iflags & Irqs.OccasionBit(j) != 0
  }

  /** What the entry remembers of IF for source k: IF masked to k's bit, the request being serviced. */
  function Served(requested: Half, k: Irqs.Occasion): U32
  {
    OfHalf(requested & Irqs.OccasionBit(k))
  }

  /** The lowest source, from `from` up, that is both enabled and requested: the one HandleInterrupt's loop services. */
  function FirstPending(ie: Half, iflags: Half, from: nat): (k: Option<Irqs.Occasion>)
    requires from <= 14
    ensures k.Some? ==> from <= k.value && Pending(ie, iflags, k.value)
    ensures forall j: Irqs.Occasion :: from <= j && (k.None? || j < k.value) ==> !Pending(ie, iflags, j)
    decreases 14 - from
  {
    if from == 14 then None
    else if Pending(ie, iflags, from) then Some(from)
    else FirstPending(ie, iflags, from + 1)
  }

  /** The words the IRQ entry pushes, lowest address first: r0, r1, r2, r3, r12 and r14. */
  function IrqFrame(r: Registers): (f: seq<U32>)
    requires Sane(r)
    ensures |f| == 6
  {
    [ReadReg(r, 0), ReadReg(r, 1), ReadReg(r, 2), ReadReg(r, 3), ReadReg(r, 12), ReadReg(r, 14)]
  }

  /** Register values as the bit patterns a store writes. */
  function Words(f: seq<U32>): (ws: seq<Word>)
    ensures |ws| == |f|
  {
    if f == [] then [] else [ToWord(f[0])] + Words(f[1..])
  }

  /** Loaded bit patterns as the register values a load produces. */
  function Values(ws: seq<Word>): (f: seq<U32>)
    ensures |f| == |ws|
  {
    if ws == [] then [] else [OfWord(ws[0])] + Values(ws[1..])
  }

  /** Storing register values and loading them back gives the same values. */
  lemma {:induction false} ValuesOfWords(f: seq<U32>)
    ensures Values(Words(f)) == f
  {
    if f != [] {
      WordRoundTrip(f[0]);
      assert Words(f)[1..] == Words(f[1..]);
      ValuesOfWords(f[1..]);
    }
  }

  /** The return address saved in r14_irq: pc - 4 in ARM and pc in THUMB with a full pipeline, pc + 4 right after a branch. */
  function IrqReturn(r: Registers, pipelineFull: bool): U32
    requires Sane(r)
  {
    var pc := ReadReg(r, 15);
    if !pipelineFull then Wrap(pc + 4) else if Thumb(r) then pc else Wrap(pc - 4)
  }

  /** SetMode(IRQ) then UpdateSPSR(old CPSR): IRQ mode, with the interrupted CPSR as SPSR_irq. */
  function IrqMode(r: Registers): (r': Registers)
    requires Sane(r)
    ensures Sane(r') && CurrentMode(r') == IRQ && r'.bank == r.bank
  {
    ModeRoundTrip(IRQ, IRQ);
    r.(cpsr := r.cpsr.(mode := ModeBits(IRQ)), spsr := r.spsr[SpsrSlot(IRQ) := r.cpsr])
  }

  /** Storing the raw old CPSR into SPSR_irq after the mode switch stores the old CPSR itself. */
  lemma IrqModeIsSpsrWrite(r: Registers)
    requires Sane(r)
    ensures SpsrWrite(WithMode(r, IRQ), Raw(r.cpsr), false) == IrqMode(r)
  {
    FromRawOfRaw(r.cpsr);
  }

  /** The switch to IRQ mode keeps pc and the T bit, so the return address is the same before and after it. */
  lemma IrqModeKeepsReturn(r: Registers, pipelineFull: bool)
    requires Sane(r)
    ensures IrqReturn(IrqMode(r), pipelineFull) == IrqReturn(r, pipelineFull)
  {
    SharedRegisters(CurrentMode(r), IRQ, 15);
  }

  /** IRQ entry before the pushes: IRQ mode, SPSR_irq holding the old CPSR, r14_irq the return address. */
  function IrqSwitch(r: Registers, pipelineFull: bool): (r': Registers)
    requires Sane(r)
    ensures Sane(r') && CurrentMode(r') == IRQ && r'.cpsr.i == r.cpsr.i
    ensures ReadReg(r', SpsrReg) == Raw(r.cpsr) && ReadReg(r', 14) == IrqReturn(r, pipelineFull)
  {
    Put(IrqMode(r), 14, IrqReturn(r, pipelineFull))
  }

  /**
   * IRQ entry after the pushes: SP lowered by the 24 bytes pushed, r0 =
   * 0x4000000, r14 = 0x138 (where the BIOS returns from the handler), pc the
   * given handler address, IRQs disabled, ARM state.
   */
  function IrqVector(r: Registers, pc: U32): (r': Registers)
    requires Sane(r)
    ensures Sane(r') && r'.cpsr.i == 1 && !Thumb(r') && r'.cpsr.mode == r.cpsr.mode && r'.spsr == r.spsr
    ensures ReadReg(r', 13) == Wrap(ReadReg(r, 13) - 24) && ReadReg(r', 0) == 0x400_0000
    ensures ReadReg(r', 14) == 0x138 && ReadReg(r', 15) == pc
  {
    var r1 := Put(r, 13, Wrap(ReadReg(r, 13) - 24));
    var r2 := Put(Put(r1, 0, 0x400_0000), 14, 0x138);
    var r3 := Put(r2, 15, pc);
    r3.(cpsr := r3.cpsr.(i := 1, t := 0))
  }

  /** The SPSR of r's mode names a mode, so that copying it into the CPSR is a valid write (always so in SYS, never in USR). */
  predicate SpsrNamesMode(r: Registers)
    requires Sane(r)
  {
    var m := CurrentMode(r);
    m == SYS || (m != USR && ModeOf(r.spsr[SpsrSlot(m)].mode).Some?)
  }

  /** `SetRegister(cpsr, GetRegister(spsr))`: the CPSR becomes the mode's SPSR when that names a mode; otherwise nothing changes. */
  function SpsrRestored(r: Registers): (r': Registers)
    requires Sane(r)
    ensures Sane(r')
  {
    var m := CurrentMode(r);
    if m == USR || m == SYS || !SpsrNamesMode(r) then r else r.(cpsr := r.spsr[SpsrSlot(m)])
  }

  /** The copy goes through the raw word: a bad write exactly when the SPSR names no mode, and the fields come back unchanged. */
  lemma SpsrRestoredIsPut(r: Registers)
    requires Sane(r)
    ensures BadCpsrWrite(CpsrReg, ReadReg(r, SpsrReg)) <==> !SpsrNamesMode(r)
    ensures Put(r, CpsrReg, ReadReg(r, SpsrReg)) == SpsrRestored(r)
  {
    var m := CurrentMode(r);
    FromRawOfRaw(r.cpsr);
    RawMode(r.cpsr);
    if m != USR && m != SYS {
      FromRawOfRaw(r.spsr[SpsrSlot(m)]);
      RawMode(r.spsr[SpsrSlot(m)]);
    }
  }

  /** `ldmfd r13!, {r0-r3, r12, r14}`, register side: the six banked values taken from the frame. */
  function BankPopped(r: Registers, frame: seq<U32>): (r': Registers)
    requires Sane(r) && |frame| == 6
    ensures Sane(r') && r'.cpsr == r.cpsr && r'.spsr == r.spsr
    ensures ReadReg(r', 14) == frame[5]
  {
    var r1 := Put(Put(Put(Put(r, 0, frame[0]), 1, frame[1]), 2, frame[2]), 3, frame[3]);
    Put(Put(r1, 12, frame[4]), 14, frame[5])
  }

  /** The stack released past the six popped words (sp + 24) and `subs pc, r14, #4`. */
  function StackReleased(r: Registers, sp: U32): (r': Registers)
    requires Sane(r)
    ensures Sane(r') && r'.cpsr == r.cpsr && r'.spsr == r.spsr
    ensures ReadReg(r', 13) == Wrap(sp as int + 24) && ReadReg(r', 15) == Wrap(ReadReg(r, 14) as int - 4)
  {
    var r1 := Put(r, 13, Wrap(sp as int + 24));
    PutOther(r, 13, Wrap(sp as int + 24), 14);
    Put(r1, 15, Wrap(ReadReg(r1, 14) as int - 4))
  }

  /** The CPSR restored from the SPSR, then IRQs enabled. */
  function SpsrResumed(r: Registers): (r': Registers)
    requires Sane(r)
    ensures Sane(r') && r'.cpsr.i == 0
  {
    var r1 := SpsrRestored(r);
    r1.(cpsr := r1.cpsr.(i := 0))
  }

  /**
   * IRQ exit from 0x138: r0-r3, r12 and r14 popped from the frame, SP raised
   * by 24, pc = r14 - 4, the CPSR restored from the SPSR, IRQs enabled.
   */
  function IrqRestore(r: Registers, frame: seq<U32>): (r': Registers)
    requires Sane(r) && |frame| == 6
    ensures Sane(r') && r'.cpsr.i == 0
  {
    SpsrResumed(StackReleased(BankPopped(r, frame), ReadReg(r, 13)))
  }

  /**
   * Memory after a full-descending push of frame below top: frame[0] at the
   * lowest address, top - 4 * |frame|, each later word 4 bytes above; the
   * last word is stored first.
   */
  function PushWords(m: seq<Byte>, top: int, frame: seq<Word>): (r: seq<Byte>)
    requires 4 * |frame| <= top <= |m|
    ensures |r| == |m|
    decreases |frame|
  {
    if frame == [] then m
    else Bus.PutWord(PushWords(m, top, frame[1..]), top - 4 * |frame|, frame[0])
  }

  /** A push leaves every word outside the pushed block as it was. */
  lemma {:induction false} PushWordsElsewhere(m: seq<Byte>, top: int, frame: seq<Word>, b: int)
    requires 4 * |frame| <= top <= |m| && 0 <= b <= |m| - 4
    requires b + 4 <= top - 4 * |frame| || top <= b
    ensures Bus.GetWord(PushWords(m, top, frame), b) == Bus.GetWord(m, b)
    decreases |frame|
  {
    if frame != [] {
      PushWordsElsewhere(m, top, frame[1..], b);
      Bus.GetPutWord(PushWords(m, top, frame[1..]), top - 4 * |frame|, b, frame[0]);
    }
  }

  /** Each pushed word reads back from its slot. */
  lemma {:induction false} PushWordsReadBack(m: seq<Byte>, top: int, frame: seq<Word>, j: nat)
    requires 4 * |frame| <= top <= |m| && j < |frame|
    ensures Bus.GetWord(PushWords(m, top, frame), top - 4 * |frame| + 4 * j) == frame[j]
    decreases |frame|
  {
    var low := top - 4 * |frame|;
    var rest := PushWords(m, top, frame[1..]);
    if j == 0 {
      Bus.GetPutWord(rest, low, low, frame[0]);
    } else {
      PushWordsReadBack(m, top, frame[1..], j - 1);
      Bus.GetPutWord(rest, low, low + 4 * j, frame[0]);
    }
  }

  /** The n words stored from a upwards, lowest address first. */
  function WordsAt(m: seq<Byte>, a: int, n: nat): (f: seq<Word>)
    requires 0 <= a && a + 4 * n <= |m|
    ensures |f| == n
    decreases n
  {
    if n == 0 then [] else [Bus.GetWord(m, a)] + WordsAt(m, a + 4, n - 1)
  }

  /** Word j of WordsAt is the word 4 * j bytes above a. */
  lemma {:induction false} WordsAtIndex(m: seq<Byte>, a: int, n: nat, j: nat)
    requires 0 <= a && a + 4 * n <= |m| && j < n
    ensures WordsAt(m, a, n)[j] == Bus.GetWord(m, a + 4 * j)
    decreases n
  {
    if j > 0 {
      WordsAtIndex(m, a + 4, n - 1, j - 1);
    }
  }

  /** A frame pushed below top reads back, word by word, from the new stack pointer. */
  lemma WordsAtPush(m: seq<Byte>, top: int, frame: seq<Word>)
    requires 4 * |frame| <= top <= |m|
    ensures WordsAt(PushWords(m, top, frame), top - 4 * |frame|, |frame|) == frame
  {
    var low := top - 4 * |frame|;
    forall j | 0 <= j < |frame|
      ensures WordsAt(PushWords(m, top, frame), low, |frame|)[j] == frame[j]
    {
      WordsAtIndex(PushWords(m, top, frame), low, |frame|, j);
      PushWordsReadBack(m, top, frame, j);
    }
  }

  /** The mode field of a packed status register is its low five bits. */
  lemma RawMode(p: Psr)
    requires Fit(p)
    ensures Raw(p) % 0x20 == p.mode && FromRaw(Raw(p)) == p
  {
    FromRawOfRaw(p);
  }

  /**
   * Entering an IRQ from any mode but IRQ with IRQs enabled, and leaving it
   * with the frame that entry pushed, gives back the CPSR and r0-r14 of the
   * interrupted mode; pc is the saved return address less 4.
   */
  lemma IrqRoundTrip(r: Registers, pipelineFull: bool, handler: U32)
    requires Sane(r) && r.cpsr.i == 0 && CurrentMode(r) != IRQ
    ensures var s := IrqSwitch(r, pipelineFull);
      var x := IrqRestore(IrqVector(s, handler), IrqFrame(s));
      x.cpsr == r.cpsr
      && (forall k :: 0 <= k < 15 ==> ReadReg(x, k) == ReadReg(r, k))
      && ReadReg(x, 15) == Wrap(IrqReturn(r, pipelineFull) - 4)
  {
    RawMode(r.cpsr);
  }

  /** A full-descending push of six words from sp stays inside plain EWRAM or IWRAM. */
  predicate StackInRam(sp: U32) { 24 <= sp && Bus.PlainRam(sp - 24, 24) }

  /** Memory after the IRQ entry's pushes: r0-r3, r12 and r14 of s stored below the r13 of s, r14 highest. */
  function IrqPushed(m: seq<Byte>, s: Registers): (m': seq<Byte>)
    requires Sane(s) && |m| == Bus.MemSize && StackInRam(ReadReg(s, 13))
    ensures |m'| == |m|
  {
    PushWords(m, ReadReg(s, 13), Words(IrqFrame(s)))
  }

  /** The handler address the IRQ entry jumps to: the last word of IWRAM, aligned down to a word. */
  function IrqHandlerAt(m: seq<Byte>): (pc: U32)
    requires |m| == Bus.MemSize
    ensures pc % 4 == 0
  {
    AlignDown(OfWord(Bus.GetWord(m, 0x300_7FFC)), 4)
  }

  /** The six words the IRQ entry pushes are, read back from the new stack pointer, the registers it saved. */
  lemma IrqFrameReadsBack(m: seq<Byte>, s: Registers)
    requires Sane(s) && |m| == Bus.MemSize && StackInRam(ReadReg(s, 13))
    ensures Values(WordsAt(IrqPushed(m, s), ReadReg(s, 13) - 24, 6)) == IrqFrame(s)
  {
    WordsAtPush(m, ReadReg(s, 13), Words(IrqFrame(s)));
    ValuesOfWords(IrqFrame(s));
  }

  /** The n-th push below top lands 4 bytes under the one before; on a RAM stack, with no wrap-around. */
  lemma PushSlot(top: U32, n: nat)
    requires 1 <= n <= 6
    ensures Wrap(Wrap(top - 4 * (n - 1)) - 4) == Wrap(top - 4 * n)
    ensures StackInRam(top) ==> Wrap(top - 4 * n) == top - 4 * n && Bus.PlainRam(top - 4 * n, 4)
  {
    WrapShift(top - 4 * (n - 1), -4);
  }

  /**
   * Memory after the IRQ exit's acknowledgement: IME = 1, then the word at
   * IF with the bits of the serviced request cleared.
   */
  function IrqAcknowledged(m: seq<Byte>, serviced: Word): (r: seq<Byte>)
    requires |m| == Bus.MemSize
    ensures |r| == |m|
  {
    var m1 := Bus.PutWord(m, Bus.RegIme, 1);
    Bus.PutWord(m1, Bus.RegIf, Cleared(Bus.GetWord(m1, Bus.RegIf), serviced))
  }

  /** w with the bits of mask cleared: `w & ~mask`. */
  function Cleared(w: Word, mask: Word): Word { w & !mask }

  /** The acknowledgement leaves IME = 1 and, in the IF word, exactly the requests that were not serviced. */
  lemma IrqAcknowledgedRegisters(m: seq<Byte>, serviced: Word)
    requires |m| == Bus.MemSize
    ensures Bus.GetWord(IrqAcknowledged(m, serviced), Bus.RegIme) == 1
    ensures Bus.GetWord(IrqAcknowledged(m, serviced), Bus.RegIf) == Cleared(Bus.GetWord(m, Bus.RegIf), serviced)
  {
    var m1 := Bus.PutWord(m, Bus.RegIme, 1);
    var w := Cleared(Bus.GetWord(m1, Bus.RegIf), serviced);
    Bus.GetPutWord(m, Bus.RegIme, Bus.RegIf, 1);
    Bus.GetPutWord(m1, Bus.RegIf, Bus.RegIme, w);
  }

  /** The acknowledgement leaves every word outside IF and IME alone. */
  lemma IrqAcknowledgedElsewhere(m: seq<Byte>, serviced: Word, b: int)
    requires |m| == Bus.MemSize && 0 <= b <= |m| - 4
    requires b + 4 <= Bus.RegIf || Bus.RegIme + 4 <= b
    ensures Bus.GetWord(IrqAcknowledged(m, serviced), b) == Bus.GetWord(m, b)
  {
    var m1 := Bus.PutWord(m, Bus.RegIme, 1);
    var w := Cleared(Bus.GetWord(m1, Bus.RegIf), serviced);
    Bus.GetPutWord(m, Bus.RegIme, b, 1);
    Bus.GetPutWord(m1, Bus.RegIf, b, w);
  }

  // ---------------------------------------------------------------------
  // The processor's view of memory
  // ---------------------------------------------------------------------

  /** The unmapped address ranges, which the read handlers answer from the open bus. */
  predicate Unused(address: U32) { 0x4000 <= address <= 0x1FF_FFFF || address >= 0x1000_0000 }

  /** The write-only I/O halfwords Read16 answers with 0: the background, window and mosaic registers, and the DMA words. */
  predicate WriteOnly16(address: U32)
  {
    (0x400_0010 <= address <= 0x400_004E && address % 2 == 0)
    || (0x400_00B0 <= address <= 0x400_00DC && address % 4 == 0)
  }

  /** MemCheckWrite: the top four bits of the address bus are not connected. */
  function Mirror(address: U32): (a: U32)
    ensures a < 0x1000_0000 && a % 0x1000_0000 == address % 0x1000_0000
  {
    if address >= 0x1000_0000 then address % 0x1000_0000 else address
  }

  /** The byte at an odd address of a halfword read, sign-extended, as Read16 computes it. */
  function SignedHalfAsWritten(address: U32, d: U16): U32
  {
    if address % 2 == 1 then (if d % 0x100 >= 0x80 then 0xFFFF_FF00 + d % 0x100 else d)
    else if d >= 0x8000 then 0xFFFF_0000 + d else d
  }

  /**
   * A signed halfword load: at an even address the halfword, at an odd
   * address the byte, sign-extended to 32 bits either way.
   */
  function SignedHalf(address: U32, d: U16): (r: U32)
    ensures address % 2 == 0 ==> SInt(r) == (if d >= 0x8000 then d - 0x1_0000 else d)
    ensures address % 2 == 1 ==> SInt(r) == (if d % 0x100 >= 0x80 then d % 0x100 - 0x100 else d % 0x100)
  {
    if address % 2 == 1 then (if d % 0x100 >= 0x80 then 0xFFFF_FF00 + d % 0x100 else d % 0x100)
    else if d >= 0x8000 then 0xFFFF_0000 + d else d
  }

  /** The two agree except on an odd address whose byte is non-negative and whose next byte is not 0. */
  lemma SignedHalfDiffers(address: U32, data: U16)
    ensures SignedHalfAsWritten(address, data) != SignedHalf(address, data) <==>
      address % 2 == 1 && data % 0x100 < 0x80 && data >= 0x100
    ensures SignedHalfAsWritten(1, 0x1201) == 0x1201 && SignedHalf(1, 0x1201) == 0x01
  {
  }

  /** Write8: palette RAM and the background part of VRAM take the byte in both halves of the halfword. */
  predicate Doubled(a: U32, dispcnt: Half)
  {
    var mode := dispcnt as int % 8;
    (0x500_0000 <= a <= 0x500_03FF)
    || (0x600_0000 <= a <= Bus.VramEnd && ((mode <= 2 && a < 0x601_0000) || (3 <= mode <= 5 && a < 0x601_4000)))
  }

  /** Write8: a byte write to the BIOS, to OAM, or to the object part of VRAM (all of it in modes 6 and 7) is dropped. */
  predicate Dropped(a: U32, dispcnt: Half)
  {
    a <= Bus.BiosEnd || (0x700_0000 <= a <= 0x700_03FF)
    || (0x600_0000 <= a <= Bus.VramEnd && !Doubled(a, dispcnt))
  }

  // ---------------------------------------------------------------------
  // The processor object
  // ---------------------------------------------------------------------

  /** A load or a store the processor made through its Read and Write operations. */
  datatype Access = Load(width: int, address: int, value: int) | Store(width: int, address: int, value: int)

  /** Where Write32 puts a word: the address aligned down to a word, its top four bits dropped. */
  function WordCell(address: U32): U32 { Mirror(AlignDown(address, 4)) }

  /** A word store whose cell is plain EWRAM or IWRAM. */
  predicate WordInRam(s: Access)
  {
    s.Store? && s.width == 4 && 0 <= s.address < 0x1_0000_0000 && 0 <= s.value < 0x1_0000_0000
    && Bus.PlainRam(WordCell(s.address), 4)
  }

  predicate WordsInRam(log: seq<Access>)
  {
    forall i :: 0 <= i < |log| ==> WordInRam(log[i])
  }

  /** memory[] after the word stores of log, in order: each one puts its word at its cell. */
  function ApplyStores(m: seq<Byte>, log: seq<Access>): (r: seq<Byte>)
    requires |m| == Bus.MemSize && WordsInRam(log)
    ensures |r| == |m|
    decreases |log|
  {
    if log == [] then m
    else
      var s := log[|log| - 1];
      Bus.PutWord(ApplyStores(m, log[..|log| - 1]), WordCell(s.address), ToWord(s.value))
  }

  /** After the stores, the cell of the last one holds its word. */
  lemma ApplyStoresLast(m: seq<Byte>, log: seq<Access>)
    requires |m| == Bus.MemSize && WordsInRam(log) && log != []
    ensures var s := log[|log| - 1]; Bus.GetWord(ApplyStores(m, log), WordCell(s.address)) == ToWord(s.value)
  {
    var s := log[|log| - 1];
    Bus.GetPutWord(ApplyStores(m, log[..|log| - 1]), WordCell(s.address), WordCell(s.address), ToWord(s.value));
  }

  /** A word no store of the log overlaps keeps its value. */
  lemma {:induction false} ApplyStoresFrame(m: seq<Byte>, log: seq<Access>, a: int)
    requires |m| == Bus.MemSize && WordsInRam(log) && 0 <= a <= |m| - 4
    requires forall i :: 0 <= i < |log| ==> a + 4 <= WordCell(log[i].address) || WordCell(log[i].address) + 4 <= a
    ensures Bus.GetWord(ApplyStores(m, log), a) == Bus.GetWord(m, a)
    decreases |log|
  {
    if log != [] {
      var s, rest := log[|log| - 1], log[..|log| - 1];
      ApplyStoresFrame(m, rest, a);
      Bus.GetPutWord(ApplyStores(m, rest), WordCell(s.address), a, ToWord(s.value));
    }
  }

  /** One more store in plain RAM puts its word on top of the earlier ones. */
  lemma ApplyStoresAppend(m: seq<Byte>, log: seq<Access>, s: Access)
    requires |m| == Bus.MemSize && WordsInRam(log + [s])
    ensures WordsInRam(log) && WordInRam(s)
    ensures ApplyStores(m, log + [s]) == Bus.PutWord(ApplyStores(m, log), WordCell(s.address), ToWord(s.value))
  {
    var longer := log + [s];
    assert longer[|log|] == s;
    assert forall i :: 0 <= i < |log| ==> longer[i] == log[i];
    assert longer[..|log|] == log;
  }

  /** A single store in plain RAM puts its word into memory. */
  lemma ApplyStoresSingle(m: seq<Byte>, s: Access)
    requires |m| == Bus.MemSize && WordInRam(s)
    ensures WordsInRam([s]) && ApplyStores(m, [s]) == Bus.PutWord(m, WordCell(s.address), ToWord(s.value))
  {
    ApplyStoresAppend(m, [], s);
  }

  /**
   * Arm7Tdmi: the register file, the pipeline and interrupt flags, the cycle
   * counter, the last word fetched from the BIOS and the bus it is wired to.
   * exitCode records the code with which the emulator would have stopped.
   */
  class Arm7Tdmi {
    var regs: Registers
    var pipelineFull: bool
    var inInterrupt: bool
    var cycles: U32
    var currentInterrupt: U32
    var lastReadBios: U32
    var exitCode: Option<int>
    /** Every access made through Read8/16/32 and Write8/16/32, oldest first. */
    ghost var accesses: seq<Access>
    const mem: Bus.Memory

    ghost predicate Valid()
      reads this`regs, mem, mem.timer, mem.timer.channel, mem.backup
    {
      mem.Valid() && this !in mem.Repr && Sane(regs)
    }

    /** Arm7Tdmi(mem): the reset register file, an empty pipeline, no cycles, not in an interrupt. */
    constructor (mem: Bus.Memory)
      requires mem.Valid()
      ensures Valid() && this.mem == mem && regs == ResetRegisters()
      ensures !pipelineFull && !inInterrupt && cycles == 0 && currentInterrupt == 0
      ensures lastReadBios == 0xE129_F000 && exitCode == None && accesses == []
    {
      this.mem := mem;
      regs := ResetRegisters();
      pipelineFull, inInterrupt := false, false;
      cycles, currentInterrupt, lastReadBios := 0, 0, 0xE129_F000;
      exitCode := None;
      accesses := [];
    }

    /** SetMode. */
    method SetMode(m: Mode)
      requires Sane(regs)
      modifies this`regs
      ensures regs == WithMode(old(regs), m)
    {
      regs := regs.(cpsr := regs.cpsr.(mode := ModeBits(m)));
    }

    /** SetState: T set for THUMB, clear for ARM. */
    method SetState(thumb: bool)
      requires Sane(regs)
      modifies this`regs
      ensures Sane(regs) && Thumb(regs) == thumb
      ensures regs == old(regs).(cpsr := old(regs).cpsr.(t := Bit(thumb)))
    {
      regs := regs.(cpsr := regs.cpsr.(t := Bit(thumb)));
    }

    /** SetConditionCodeFlag. */
    method SetConditionCodeFlag(flag: ConditionFlag, bit: U8)
      requires Sane(regs)
      modifies this`regs
      ensures Sane(regs) && regs == old(regs).(cpsr := SetFlag(old(regs).cpsr, flag, bit))
    {
      if bit > 1 {
        return;
      }
      match flag
      case N => regs := regs.(cpsr := regs.cpsr.(n := bit));
      case Z => regs := regs.(cpsr := regs.cpsr.(z := bit));
      case C => regs := regs.(cpsr := regs.cpsr.(c := bit));
      case V => regs := regs.(cpsr := regs.cpsr.(v := bit));
    }

    /**
     * SetRegister. A CPSR word whose mode bits name no mode would be stored
     * and make the next mode lookup exit with code 21; the model sets the
     * exit code here and keeps the registers, which nothing reads afterwards.
     */
    method SetRegister(reg: U32, val: U32)
      requires Sane(regs)
      modifies this`regs, this`exitCode
      ensures Sane(regs)
      ensures regs == Put(old(regs), reg, val)
      ensures exitCode == if BadCpsrWrite(reg, val) then Some(21) else old(exitCode)
    {
      if reg == CpsrReg && ModeOf(val % 0x20).None? {
        exitCode := Some(21);
        return;
      }
      if reg < 16 {
        var k := Slot(CurrentMode(regs), reg);
        regs := regs.(bank := regs.bank[k := val]);
      } else if reg == CpsrReg {
        regs := regs.(cpsr := FromRaw(val));
      }
    }

    /** UpdateFlagsLogical. */
    method UpdateFlagsLogical(result: U32, carry: U8)
      requires Sane(regs)
      modifies this`regs
      ensures Sane(regs) && regs == old(regs).(cpsr := FlagsLogical(old(regs).cpsr, result, carry))
    {
      SetConditionCodeFlag(C, carry);
      SetConditionCodeFlag(Z, Bit(result == 0));
      SetConditionCodeFlag(N, Bit(Msb(result)));
    }

    /** UpdateFlagsAddition. */
    method UpdateFlagsAddition(op1: U32, op2: U32, result: U32)
      requires Sane(regs)
      modifies this`regs
      ensures Sane(regs) && regs == old(regs).(cpsr := FlagsAddition(old(regs).cpsr, op1, op2, result))
    {
      SetConditionCodeFlag(C, Bit(op1 > result || op2 > result));
      SetConditionCodeFlag(Z, Bit(result == 0));
      SetConditionCodeFlag(N, Bit(Msb(result)));
      SetConditionCodeFlag(V, Bit(Msb(op1) == Msb(op2) && Msb(result) != Msb(op1)));
    }

    /** UpdateFlagsSubtraction. */
    method UpdateFlagsSubtraction(op1: U32, op2: U32, result: U32)
      requires Sane(regs)
      modifies this`regs
      ensures Sane(regs) && regs == old(regs).(cpsr := FlagsSubtraction(old(regs).cpsr, op1, op2, result))
    {
      SetConditionCodeFlag(C, Bit(!(result > op1 || (result == op1 && op2 != 0))));
      SetConditionCodeFlag(Z, Bit(result == 0));
      SetConditionCodeFlag(N, Bit(Msb(result)));
      SetConditionCodeFlag(V, Bit(Msb(op1) != Msb(op2) && Msb(result) != Msb(op1)));
    }

    /**
     * BarrelShift: the shifted num and the carry-out, starting from the C
     * flag; ASR and ROR run the source's one-bit loops.
     */
    method BarrelShift(amount: U32, num: U32, opcode: int) returns (carry: int, result: U32)
      requires Sane(regs)
      ensures Shifted(result, carry) == Shift(amount, num, opcode, regs.cpsr.c)
    {
      carry, result := regs.cpsr.c, num;
      if amount == 0 {
        return;
      }
      if opcode == 0 {
        if amount > 32 {
          carry, result := 0, 0;
        } else {
          result := Wrap(result * Pow2(amount - 1));
          carry := result / 0x8000_0000;
          result := Wrap(result * 2);
        }
      } else if opcode == 1 {
        if amount > 32 {
          carry, result := 0, 0;
        } else {
          result := result / Pow2(amount - 1);
          carry := result % 2;
          result := result / 2;
        }
      } else if opcode == 2 {
        var i := 0;
        while i < amount
          invariant 0 <= i <= amount
          invariant AsrSteps(result, amount - i, carry) == AsrSteps(num, amount, regs.cpsr.c)
        {
          carry := result % 2;
          var msb := result / 0x8000_0000;
          result := result / 2 + msb * 0x8000_0000;
          i := i + 1;
        }
      } else if opcode == 3 {
        if amount == 0xFFFF_FFFF {
          carry := result % 2;
          result := result / 2 + regs.cpsr.c * 0x8000_0000;
        } else {
          var i := 0;
          while i < amount
            invariant 0 <= i <= amount
            invariant RorSteps(result, amount - i, carry) == RorSteps(num, amount, regs.cpsr.c)
          {
            carry := result % 2;
            var droppedLsb := result % 2;
            result := result / 2 + droppedLsb * 0x8000_0000;
            i := i + 1;
          }
        }
      }
    }

    /** IncrementPC. */
    method IncrementPC()
      requires Sane(regs)
      modifies this`regs
      ensures regs == AdvancePc(old(regs))
    {
      regs := regs.(bank := regs.bank[15 := Wrap(regs.bank[15] as int + if regs.cpsr.t == 0 then 4 else 2)]);
    }

    /**
     * UpdateCPSR. A full write whose mode bits name no mode makes the mode
     * lookup that follows the store exit with code 21; the model keeps the
     * registers as they were, since nothing reads them after the exit.
     */
    method UpdateCPSR(value: U32, flagsOnly: bool)
      requires Sane(regs)
      modifies this`regs, this`exitCode
      ensures Sane(regs)
      ensures Sane(CpsrWrite(old(regs), value, flagsOnly)) ==>
        regs == CpsrWrite(old(regs), value, flagsOnly) && exitCode == old(exitCode)
      ensures !Sane(CpsrWrite(old(regs), value, flagsOnly)) ==> regs == old(regs) && exitCode == Some(21)
    {
      var sr := FromRaw(value);
      if flagsOnly || CurrentMode(regs) == USR {
        regs := regs.(cpsr := regs.cpsr.(n := sr.n, z := sr.z, c := sr.c, v := sr.v));
        return;
      }
      if ModeOf(sr.mode).None? {
        exitCode := Some(21);
        return;
      }
      regs := regs.(cpsr := sr);
    }

    /** UpdateSPSR: in USR mode the emulator exits with code 6. */
    method UpdateSPSR(value: U32, flagsOnly: bool)
      requires Sane(regs)
      modifies this`regs, this`exitCode
      ensures Sane(regs)
      ensures CurrentMode(old(regs)) == USR ==> regs == old(regs) && exitCode == Some(6)
      ensures CurrentMode(old(regs)) != USR ==> regs == SpsrWrite(old(regs), value, flagsOnly) && exitCode == old(exitCode)
    {
      var m := CurrentMode(regs);
      if m == USR {
        exitCode := Some(6);
        return;
      }
      if m == SYS {
        return;
      }
      var k := SpsrSlot(m);
      var newSpsr := FromRaw(value);
      if flagsOnly {
        var o := regs.spsr[k];
        regs := regs.(spsr := regs.spsr[k := o.(n := newSpsr.n, z := newSpsr.z, c := newSpsr.c, v := newSpsr.v)]);
      } else {
        regs := regs.(spsr := regs.spsr[k := newSpsr]);
      }
    }

    /** Tick: add n, s and i accesses' cycles, counted in 16 bits, to the 32-bit cycle counter. */
    method Tick(n: U8, s: U8, i: U8)
      modifies this`cycles
      ensures cycles == Wrap(old(cycles) + TickCost(n, s, i, mem.nCycles as int, mem.sCycles as int))
    {
      var nc: int := mem.nCycles as int;
      var sc: int := mem.sCycles as int;
      var access := AddCycles(0, n, 1 + nc);
      access := AddCycles(access, s, 1 + sc);
      ModStep(n * (1 + nc), s * (1 + sc));
      access := AddCycles(access, i, 1);
      ModStep(n * (1 + nc) + s * (1 + sc), i);
      cycles := Wrap(cycles + access);
    }

    /** One of Tick's loops: count accesses of cost cycles each, added to a 16-bit counter. */
    static method AddCycles(start: nat, count: U8, cost: nat) returns (access: nat)
      requires start < 0x1_0000
      ensures access == (start + count * cost) % 0x1_0000
    {
      access := start;
      var x := 0;
      while x < count
        invariant 0 <= x <= count && access == (start + x * cost) % 0x1_0000
      {
        ModStep(start + x * cost, cost);
        assert (x + 1) * cost == x * cost + cost;
        access := (access + cost) % 0x1_0000;
        x := x + 1;
      }
    }
  

    /** GetRegister: r0 .. r15 of the current mode's bank, the CPSR, or the current mode's SPSR. */
    function GetRegister(reg: U32): U32
      requires Sane(regs)
      reads this`regs
    {
      ReadReg(regs, reg)
    }

    // -------------------------------------------------------------------
    // Memory access through the processor
    // -------------------------------------------------------------------

    /** The cycle MemCheckWrite adds: palette RAM, VRAM or OAM written outside v-blank. */
    function VideoPenalty(a: U32): nat
      reads mem.stat
    {
      if 0x500_0000 <= a <= 0x700_03FF && mem.stat.dispstat % 2 == 0 then 1 else 0
    }

    /** MemCheckWrite: the address with its top four bits dropped, and whether it may be written (not the BIOS). */
    method MemCheckWrite(address: U32) returns (ok: bool, a: U32)
      modifies this`cycles
      ensures a == Mirror(address) && ok == (a > Bus.BiosEnd)
      ensures cycles == Wrap(old(cycles) + VideoPenalty(a))
    {
      a := address;
      if a >= 0x1000_0000 {
        a := a % 0x1000_0000;
      }
      if 0x500_0000 <= a <= 0x700_03FF && mem.stat.dispstat % 2 == 0 {
        cycles := Wrap(cycles + 1);
      }
      ok := a > Bus.BiosEnd;
    }

    /**
     * Write8: after MemCheckWrite, palette RAM and background VRAM take the
     * byte at a and a + 1, OAM and object VRAM drop it, and any other address
     * is an ordinary bus write.
     */
    method Write8(address: U32, value: U8)
      requires Valid()
      modifies this`cycles, this`accesses, mem.Repr
      ensures Valid() && accesses == old(accesses) + [Store(1, address, value)]
      ensures cycles == Wrap(old(cycles) + old(VideoPenalty(Mirror(address))))
      ensures Dropped(Mirror(address), old(mem.stat.dispcnt)) ==> unchanged(mem.Repr)
      ensures var a := Mirror(address);
        Doubled(a, old(mem.stat.dispcnt)) ==>
          mem.memory[..] == old(mem.memory[..])[a := value as Byte][Bus.Fold(a + 1).address := value as Byte]
          && unchanged(mem.Repr - {mem.memory})
      ensures Bus.PlainRam(Mirror(address), 1) ==>
        mem.memory[..] == old(mem.memory[..])[Mirror(address) := value as Byte] && unchanged(mem.Repr - {mem.memory})
    {
      accesses := accesses + [Store(1, address, value)];
      var ok, a := MemCheckWrite(address);
      ghost var charged := cycles;
      if ok {
        StoreByte(a, value);
      }
      assert cycles == charged;
    }

    /** Write8 once the address has passed MemCheckWrite. */
    method StoreByte(a: U32, value: U8)
      requires Valid() && Bus.BiosEnd < a < 0x1000_0000
      modifies mem.Repr
      ensures Valid()
      ensures Dropped(a, old(mem.stat.dispcnt)) ==> unchanged(mem.Repr)
      ensures Doubled(a, old(mem.stat.dispcnt)) ==>
        mem.memory[..] == old(mem.memory[..])[a := value as Byte][Bus.Fold(a + 1).address := value as Byte]
        && unchanged(mem.Repr - {mem.memory})
      ensures Bus.PlainRam(a, 1) ==> mem.memory[..] == old(mem.memory[..])[a := value as Byte] && unchanged(mem.Repr - {mem.memory})
    {
      if 0x500_0000 <= a <= 0x500_03FF {
        WriteTwice(a, value);
      } else if 0x700_0000 <= a <= 0x700_03FF {
      } else if 0x600_0000 <= a <= Bus.VramEnd {
        var mode := mem.stat.dispcnt as int % 8;
        if mode <= 2 {
          if a < 0x601_0000 {
            WriteTwice(a, value);
          }
        } else if mode <= 5 {
          if a < 0x601_4000 {
            WriteTwice(a, value);
          }
        }
      } else {
        WriteOnce(a, value);
      }
    }

    /** An ordinary byte write through the bus. */
    method WriteOnce(a: U32, value: U8)
      requires Valid()
      modifies mem.Repr
      ensures Valid()
      ensures Bus.PlainRam(a, 1) ==> mem.memory[..] == old(mem.memory[..])[a := value as Byte] && unchanged(mem.Repr - {mem.memory})
    {
      mem.Write8(a, value as Byte, true);
    }

    /** The byte written at a and at a + 1, for palette RAM and background VRAM. */
    method WriteTwice(a: U32, value: U8)
      requires Valid() && (0x500_0000 <= a <= 0x500_03FF || 0x600_0000 <= a < 0x601_4000)
      modifies mem.Repr
      ensures Valid()
      ensures mem.memory[..] == old(mem.memory[..])[a := value as Byte][Bus.Fold(a + 1).address := value as Byte]
      ensures unchanged(mem.Repr - {mem.memory})
    {
      Bus.CellFoldsToItself(a);
      mem.WriteRam8(a, value as Byte);
      mem.WriteRam8(a + 1, value as Byte);
    }

    /** Write16: aligned down to a halfword, then MemCheckWrite, then the bus write. */
    method Write16(address: U32, value: U16)
      requires Valid()
      modifies this`cycles, this`accesses, mem.Repr
      ensures Valid() && accesses == old(accesses) + [Store(2, address, value)]
      ensures var a := Mirror(AlignDown(address, 2));
        cycles == Wrap(old(cycles) + old(VideoPenalty(a)))
        && (a <= Bus.BiosEnd ==> unchanged(mem.Repr))
        && (Bus.PlainRam(a, 2) ==>
              mem.memory[..] == old(mem.memory[..])[a := Lo8(value as Half)][a + 1 := Hi8(value as Half)]
              && unchanged(mem.Repr - {mem.memory}))
    {
      accesses := accesses + [Store(2, address, value)];
      var ok, a := MemCheckWrite(AlignDown(address, 2));
      ghost var charged := cycles;
      if ok {
        mem.Write16(a, value as Half, true);
      }
      assert cycles == charged;
    }

    /** Write32: aligned down to a word, then MemCheckWrite, then the bus write. */
    method Write32(address: U32, value: U32)
      requires Valid()
      modifies this`cycles, this`accesses, mem.Repr
      ensures Valid() && accesses == old(accesses) + [Store(4, address, value)]
      ensures var a := Mirror(AlignDown(address, 4));
        cycles == Wrap(old(cycles) + old(VideoPenalty(a)))
        && (a <= Bus.BiosEnd ==> unchanged(mem.Repr))
        && (Bus.PlainRam(a, 4) ==>
              mem.memory[..] == Bus.PutWord(old(mem.memory[..]), a, ToWord(value))
              && unchanged(mem.Repr - {mem.memory}))
    {
      accesses := accesses + [Store(4, address, value)];
      var ok, a := MemCheckWrite(AlignDown(address, 4));
      ghost var charged := cycles;
      if ok {
        StoreWord(a, value);
      }
      assert cycles == charged;
    }

    /** Write32 once the address has passed MemCheckWrite. */
    method StoreWord(a: U32, value: U32)
      requires Valid()
      modifies mem.Repr
      ensures Valid()
      ensures Bus.PlainRam(a, 4) ==> mem.memory[..] == Bus.PutWord(old(mem.memory[..]), a, ToWord(value)) && unchanged(mem.Repr - {mem.memory})
    {
      mem.Write32(a, ToWord(value), true);
    }

    /** A word Write32 stored in plain RAM is what Read32 then returns there. */
    lemma StoredWordLoads(a: U32, value: U32, before: seq<Byte>)
      requires Valid() && a % 4 == 0 && Bus.PlainRam(a, 4) && |before| == mem.memory.Length
      requires mem.memory[..] == Bus.PutWord(before, a, ToWord(value))
      ensures Load32(a, false) == value
    {
      Bus.GetPutWord(before, a, a, ToWord(value));
      Load32Plain(a, false);
      WordRoundTrip(value);
    }

    /**
     * What a read of an unused address returns: the word at pc on the bus in
     * ARM state; in THUMB state the emulator stops there, and the value is 0.
     */
    function OpenBus(): U32
      requires Valid()
      reads this`regs, this`lastReadBios, mem, mem.stat, mem.timer, mem.timer.channel, mem.backup, mem.irq, mem.memory, mem.cartRom, mem.backup.cartRam
    {
      if Thumb(regs) then 0 else OfWord(mem.Read32(ReadReg(regs, 15)))
    }

    /** The read of an unused address, where a THUMB-state read exits with code 0. */
    method ReadUnused() returns (value: U32)
      requires Valid()
      modifies this`exitCode
      ensures value == OpenBus() && exitCode == if Thumb(regs) then Some(0) else old(exitCode)
    {
      if Thumb(regs) {
        exitCode := Some(0);
        value := 0;
      } else {
        value := OfWord(mem.Read32(ReadReg(regs, 15)));
      }
    }

    /** What Read8 returns: a byte of the open bus word at pc for an unused address, otherwise the bus byte (0 where THUMB code stops the emulator). */
    function Load8(address: U32): U8
      requires Valid()
      reads this`regs, this`lastReadBios, mem, mem.stat, mem.timer, mem.timer.channel, mem.backup, mem.irq, mem.memory, mem.cartRom, mem.backup.cartRam
    {
      if Unused(address) then OpenBus() % 0x100
      else mem.Read8(address) as int
    }

    /**
     * What Read16 returns: half of the last BIOS word for a BIOS address read
     * from outside the BIOS, 0 for a write-only register, the open bus word
     * at pc for an unused address; otherwise a sign-extended halfword (or
     * byte, at an odd address), or the aligned halfword rotated right by 8 at
     * an odd address.
     */
    function Load16(address: U32, sign: bool): U32
      requires Valid()
      reads this`regs, this`lastReadBios, mem, mem.stat, mem.timer, mem.timer.channel, mem.backup, mem.irq, mem.memory, mem.cartRom, mem.backup.cartRam
    {
      if address <= Bus.BiosEnd && ReadReg(regs, 15) > Bus.BiosEnd then
        (if address % 2 == 0 then lastReadBios % 0x1_0000 else lastReadBios / 0x1_0000)
      else if WriteOnly16(address) then 0
      else if Unused(address) then OpenBus()
      else BusHalf(address, sign)
    }

    /** A halfword read through the bus: sign-extended (a byte at an odd address), or rotated right by 8 at an odd address. */
    function BusHalf(address: U32, sign: bool): U32
      requires Valid()
      reads this`regs, this`lastReadBios, mem, mem.stat, mem.timer, mem.timer.channel, mem.backup, mem.irq, mem.memory, mem.cartRom, mem.backup.cartRam
    {
      if sign then SignedHalf(address, OfHalf(mem.Read16(address)))
      else
        var d := OfHalf(mem.Read16(AlignDown(address, 2)));
        if address % 2 == 1 then Ror(d, 8) else d
    }

    /** The BIOS word Read32 returns for a BIOS address: re-read while pc is inside the BIOS, otherwise the last one read. */
    function BiosWord(address: U32): U32
      requires Valid() && address <= Bus.BiosEnd
      reads this`regs, this`lastReadBios, mem, mem.timer, mem.timer.channel, mem.backup, mem.memory
    {
      if ReadReg(regs, 15) < Bus.BiosEnd then OfWord(mem.Read32Unsafe(address)) else lastReadBios
    }

    /**
     * What Read32 returns: the BIOS word, the open bus word at pc for an
     * unused address, otherwise the word at the address aligned down, which
     * LDR and SWP rotate right by 8 bits per byte of misalignment.
     */
    function Load32(address: U32, ldr: bool): U32
      requires Valid()
      reads this`regs, this`lastReadBios, mem, mem.stat, mem.timer, mem.timer.channel, mem.backup, mem.irq, mem.memory, mem.cartRom, mem.backup.cartRam
    {
      if address <= Bus.BiosEnd then BiosWord(address)
      else if Unused(address) then OpenBus()
      else
        var d := OfWord(mem.Read32(AlignDown(address, 4)));
        if ldr && address % 4 != 0 then Ror(d, 8 * (address % 4)) else d
    }

    /** BarrelShift's ROR, used for a misaligned load, as a rotation. */
    method RotateRight(x: U32, k: U32) returns (y: U32)
      requires Sane(regs) && 1 <= k <= 32
      ensures y == Ror(x, k)
    {
      var carry;
      carry, y := BarrelShift(k, x, 3);
      RorMeaning(x, k, regs.cpsr.c);
    }

    /** A word of plain RAM loads as its four cells, rotated for a misaligned LDR. */
    lemma Load32Plain(address: U32, ldr: bool)
      requires Valid() && Bus.PlainRam(AlignDown(address, 4), 4)
      ensures var d := OfWord(Bus.GetWord(mem.memory[..], AlignDown(address, 4)));
        Load32(address, ldr) == if ldr && address % 4 != 0 then Ror(d, 8 * (address % 4)) else d
    {
      mem.PlainRead32(AlignDown(address, 4));
    }

    /** Read8: the THUMB-state read of an unused address is where the emulator exits with code 0. */
    method Read8(address: U32) returns (value: U8)
      requires Valid()
      modifies this`exitCode, this`accesses
      ensures value == Load8(address) && accesses == old(accesses) + [Load(1, address, value)]
      ensures exitCode == if Unused(address) && Thumb(regs) then Some(0) else old(exitCode)
    {
      if Unused(address) {
        var word := ReadUnused();
        value := word % 0x100;
        assert value == OpenBus() % 0x100;
      } else {
        value := mem.Read8(address) as int;
      }
      accesses := accesses + [Load(1, address, value)];
    }

    /** Read16: the THUMB-state read of an unused address is where the emulator exits with code 0. */
    method Read16(address: U32, sign: bool) returns (value: U32)
      requires Valid()
      modifies this`exitCode, this`accesses
      ensures value == old(Load16(address, sign)) && accesses == old(accesses) + [Load(2, address, value)]
      ensures exitCode == if Unused(address) && Thumb(regs) then Some(0) else old(exitCode)
    {
      if address <= Bus.BiosEnd && ReadReg(regs, 15) > Bus.BiosEnd {
        value := if address % 2 == 0 then lastReadBios % 0x1_0000 else lastReadBios / 0x1_0000;
      } else if WriteOnly16(address) {
        value := 0;
      } else if Unused(address) {
        value := ReadUnused();
        assert value == OpenBus();
        assert value == Load16(address, sign);
      } else {
        value := ReadBusHalf(address, sign);
        assert value == BusHalf(address, sign);
        assert value == Load16(address, sign);
      }
      accesses := accesses + [Load(2, address, value)];
    }

    /** Read16's bus read, with BarrelShift's ROR for an odd address. */
    method ReadBusHalf(address: U32, sign: bool) returns (value: U32)
      requires Valid()
      ensures value == BusHalf(address, sign)
    {
      if sign {
        value := SignedHalf(address, OfHalf(mem.Read16(address)));
      } else {
        value := OfHalf(mem.Read16(AlignDown(address, 2)));
        if address % 2 == 1 {
          value := RotateRight(value, 8);
        }
      }
    }

    /**
     * Read32: a BIOS read while pc is inside the BIOS refreshes the last BIOS
     * word; the THUMB-state read of an unused address is where the emulator
     * exits with code 0.
     */
    method Read32(address: U32, ldr: bool) returns (value: U32)
      requires Valid()
      modifies this`exitCode, this`accesses, this`lastReadBios
      ensures value == old(Load32(address, ldr)) && accesses == old(accesses) + [Load(4, address, value)]
      ensures lastReadBios == if address <= Bus.BiosEnd then value else old(lastReadBios)
      ensures exitCode == if Unused(address) && Thumb(regs) then Some(0) else old(exitCode)
    {
      if address <= Bus.BiosEnd {
        if ReadReg(regs, 15) < Bus.BiosEnd {
          lastReadBios := OfWord(mem.Read32Unsafe(address));
        }
        value := lastReadBios;
      } else if Unused(address) {
        value := ReadUnused();
      } else {
        value := OfWord(mem.Read32(AlignDown(address, 4)));
        if ldr && address % 4 != 0 {
          value := RotateRight(value, 8 * (address % 4));
        }
      }
      accesses := accesses + [Load(4, address, value)];
    }
  

    // -------------------------------------------------------------------
    // Interrupts
    // -------------------------------------------------------------------

    /** The n words from sp upwards, read through the bus: what an `ldmfd` of n registers loads. */
    function StackWords(sp: U32, n: nat): (f: seq<Word>)
      requires mem.Valid()
      reads mem, mem.stat, mem.timer, mem.timer.channel, mem.backup, mem.irq, mem.memory, mem.cartRom, mem.backup.cartRam
      ensures |f| == n
      decreases n
    {
      if n == 0 then [] else [mem.Read32(sp)] + StackWords(Bus.Next(sp, 4), n - 1)
    }

    /** On a stack in plain RAM, the bus loads are the stored words. */
    lemma {:induction false} StackWordsPlain(sp: U32, n: nat)
      requires mem.Valid() && Bus.PlainRam(sp, 4 * n)
      ensures sp + 4 * n <= Bus.MemSize && StackWords(sp, n) == WordsAt(mem.memory[..], sp, n)
      decreases n
    {
      if n > 0 {
        assert Bus.Next(sp, 4) == sp + 4;
        mem.PlainRead32(sp);
        StackWordsPlain(sp + 4, n - 1);
      }
    }

    /** The interrupt HandleInterrupt would enter: IME bit 0 set, CPSR.I clear, and the lowest source both enabled and requested. */
    function Servable(): Option<Irqs.Occasion>
      requires Valid()
      reads this`regs, mem, mem.timer, mem.timer.channel, mem.backup, mem.memory
    {
      if mem.Read32Unsafe(Bus.RegIme) & 1 != 0 && regs.cpsr.i == 0
      then FirstPending(mem.Read16Unsafe(Bus.RegIe), mem.Read16Unsafe(Bus.RegIf), 0)
      else None
    }

    /** The BIOS return point 0x138 reached inside an interrupt. */
    predicate AtIrqReturn()
      requires Sane(regs)
      reads this`regs, this`inInterrupt
    {
      inInterrupt && ReadReg(regs, 15) == 0x138
    }

    /**
     * HandleInterrupt, as the BIOS would: at 0x138 inside an interrupt,
     * return from it (LeaveInterrupt); otherwise, with interrupts enabled,
     * enter the lowest source that is both enabled and requested
     * (EnterInterrupt); otherwise change nothing.
     */
    method HandleInterrupt()
      requires Valid()
      modifies this`regs, this`pipelineFull, this`inInterrupt, this`currentInterrupt, this`exitCode, mem.Repr
      ensures Valid()
      ensures old(AtIrqReturn()) ==>
        regs == IrqRestore(old(regs), Values(old(StackWords(ReadReg(regs, 13), 6))))
        && exitCode == (if !SpsrNamesMode(old(regs)) then Some(21) else old(exitCode))
        && !pipelineFull && !inInterrupt && currentInterrupt == old(currentInterrupt)
        && mem.memory[..] == IrqAcknowledged(old(mem.memory[..]), ToWord(currentInterrupt))
        && unchanged(mem.Repr - {mem.memory})
      ensures !old(AtIrqReturn()) && old(Servable()).None? ==>
        regs == old(regs) && pipelineFull == old(pipelineFull) && inInterrupt == old(inInterrupt)
        && currentInterrupt == old(currentInterrupt) && exitCode == old(exitCode) && unchanged(mem.Repr)
      ensures !old(AtIrqReturn()) && old(Servable()).Some? ==>
        var s := IrqSwitch(old(regs), old(pipelineFull));
        inInterrupt && !pipelineFull && exitCode == old(exitCode)
        && currentInterrupt == Served(old(mem.Read16Unsafe(Bus.RegIf)), old(Servable()).value)
        && regs == IrqVector(s, ReadReg(regs, 15)) && ReadReg(regs, 15) % 4 == 0
        && (StackInRam(ReadReg(s, 13)) ==>
              var m := IrqPushed(old(mem.memory[..]), s);
              ReadReg(regs, 15) == IrqHandlerAt(m)
              && mem.memory[..] == Bus.PutWord(m, Bus.RegIme, 0) && unchanged(mem.Repr - {mem.memory}))
    {
      if inInterrupt && GetRegister(15) == 0x138 {
        LeaveInterrupt();
        return;
      }
      ServeInterrupt();
    }

    /** The scan of HandleInterrupt: the lowest source both enabled and requested, or 14 when there is none. */
    static method ScanPending(enabled: Half, requested: Half) returns (i: nat)
      ensures i <= 14 && FirstPending(enabled, requested, 0) == if i < 14 then Some(i) else None
    {
      i := 0;
      while i < 14 && !Pending(enabled, requested, i)
        invariant 0 <= i <= 14 && FirstPending(enabled, requested, 0) == FirstPending(enabled, requested, i)
      {
        i := i + 1;
      }
    }

    /**
     * The entry half of HandleInterrupt: with IME bit 0 set and CPSR.I clear,
     * scan the 14 sources from bit 0 up and enter the first one that is both
     * enabled and requested; otherwise change nothing.
     */
    method ServeInterrupt()
      requires Valid()
      modifies this`regs, this`pipelineFull, this`inInterrupt, this`currentInterrupt, this`exitCode, mem.Repr
      ensures Valid()
      ensures old(Servable()).None? ==>
        regs == old(regs) && pipelineFull == old(pipelineFull) && inInterrupt == old(inInterrupt)
        && currentInterrupt == old(currentInterrupt) && exitCode == old(exitCode) && unchanged(mem.Repr)
      ensures old(Servable()).Some? ==>
        var s := IrqSwitch(old(regs), old(pipelineFull));
        inInterrupt && !pipelineFull && exitCode == old(exitCode)
        && currentInterrupt == Served(old(mem.Read16Unsafe(Bus.RegIf)), old(Servable()).value)
        && regs == IrqVector(s, ReadReg(regs, 15)) && ReadReg(regs, 15) % 4 == 0
        && (StackInRam(ReadReg(s, 13)) ==>
              var m := IrqPushed(old(mem.memory[..]), s);
              ReadReg(regs, 15) == IrqHandlerAt(m)
              && mem.memory[..] == Bus.PutWord(m, Bus.RegIme, 0) && unchanged(mem.Repr - {mem.memory}))
    {
      if mem.Read32Unsafe(Bus.RegIme) & 1 != 0 && regs.cpsr.i == 0 {
        var enabled := mem.Read16Unsafe(Bus.RegIe);
        var requested := mem.Read16Unsafe(Bus.RegIf);
        var i := ScanPending(enabled, requested);
        if i < 14 {
          EnterInterrupt(i, requested);
        }
      }
    }

    /**
     * The return from an interrupt at 0x138: pop r0-r3, r12 and r14, return
     * to r14 - 4 with the saved CPSR and IRQs enabled, set IME, and clear the
     * serviced request in IF.
     */
    method LeaveInterrupt()
      requires Valid()
      modifies this`regs, this`pipelineFull, this`inInterrupt, this`exitCode, mem.memory
      ensures Valid() && !pipelineFull && !inInterrupt
      ensures currentInterrupt == old(currentInterrupt) && unchanged(mem.Repr - {mem.memory})
      ensures regs == IrqRestore(old(regs), Values(old(StackWords(ReadReg(regs, 13), 6))))
      ensures exitCode == if !SpsrNamesMode(old(regs)) then Some(21) else old(exitCode)
      ensures mem.memory[..] == IrqAcknowledged(old(mem.memory[..]), ToWord(currentInterrupt))
    {
      PopRegisters();
      Acknowledge();
    }

    /** `ldmfd r13!, {r0-r3, r12, r14}`, `subs pc, r14, #4`: the register side of the IRQ exit. */
    method PopRegisters()
      requires Valid()
      modifies this`regs, this`exitCode
      ensures Valid()
      ensures regs == IrqRestore(old(regs), Values(old(StackWords(ReadReg(regs, 13), 6))))
      ensures exitCode == if !SpsrNamesMode(old(regs)) then Some(21) else old(exitCode)
    {
      var frame := PopFrame(GetRegister(13), 6);
      RestoreRegisters(Values(frame));
    }

    /** The memory side of the IRQ exit: IME set, the serviced request cleared in IF; the pipeline emptied. */
    method Acknowledge()
      requires Valid()
      modifies this`pipelineFull, this`inInterrupt, mem.memory
      ensures Valid() && !pipelineFull && !inInterrupt
      ensures mem.memory[..] == IrqAcknowledged(old(mem.memory[..]), ToWord(currentInterrupt))
    {
      mem.Write32Unsafe(Bus.RegIme, 1);
      pipelineFull := false;
      inInterrupt := false;
      var requested := Cleared(mem.Read32Unsafe(Bus.RegIf), ToWord(currentInterrupt));
      mem.Write32Unsafe(Bus.RegIf, requested);
    }

    /** The loads of `ldmfd r13!, {...}`: n words through the bus, from sp upwards. */
    method PopFrame(sp: U32, n: nat) returns (frame: seq<Word>)
      requires Valid()
      ensures frame == old(StackWords(sp, n))
      decreases n
    {
      if n == 0 {
        return [];
      }
      var w := mem.Read32(sp);
      var rest := PopFrame(Bus.Next(sp, 4), n - 1);
      frame := [w] + rest;
    }

    /** The register writes of the IRQ exit, given the popped frame. */
    method RestoreRegisters(frame: seq<U32>)
      requires Sane(regs) && |frame| == 6
      modifies this`regs, this`exitCode
      ensures regs == IrqRestore(old(regs), frame)
      ensures exitCode == if !SpsrNamesMode(old(regs)) then Some(21) else old(exitCode)
    {
      var sp := GetRegister(13);
      PopBank(frame);
      ReleaseStack(sp);
      ResumeSpsr();
    }

    /** The six SetRegister calls of the `ldmfd`. */
    method PopBank(frame: seq<U32>)
      requires Sane(regs) && |frame| == 6
      modifies this`regs, this`exitCode
      ensures regs == BankPopped(old(regs), frame) && exitCode == old(exitCode)
    {
      SetRegister(0, frame[0]);
      SetRegister(1, frame[1]);
      SetRegister(2, frame[2]);
      SetRegister(3, frame[3]);
      SetRegister(12, frame[4]);
      SetRegister(14, frame[5]);
    }

    /** r13 = sp + 24, then pc = r14 - 4. */
    method ReleaseStack(sp: U32)
      requires Sane(regs)
      modifies this`regs, this`exitCode
      ensures regs == StackReleased(old(regs), sp) && exitCode == old(exitCode)
    {
      SetRegister(13, Wrap(sp as int + 24));
      SetRegister(15, Wrap(GetRegister(14) as int - 4));
    }

    /** `SetRegister(cpsr, GetRegister(spsr))`, then CPSR.I cleared; a bad mode in the SPSR sets exit code 21. */
    method ResumeSpsr()
      requires Sane(regs)
      modifies this`regs, this`exitCode
      ensures regs == SpsrResumed(old(regs))
      ensures exitCode == if !SpsrNamesMode(old(regs)) then Some(21) else old(exitCode)
    {
      SpsrRestoredIsPut(regs);
      SetRegister(CpsrReg, GetRegister(SpsrReg));
      regs := regs.(cpsr := regs.cpsr.(i := 0));
    }

    /**
     * The entry into interrupt k: IRQ mode with the old CPSR in SPSR_irq,
     * the return address in r14_irq, r0-r3, r12 and r14 pushed on the IRQ
     * stack, r0 = 0x4000000, r14 = 0x138, pc at the handler the BIOS vector
     * at 0x3FFFFFC names, IRQs disabled, ARM state, IME cleared.
     */
    method EnterInterrupt(k: Irqs.Occasion, requested: Half)
      requires Valid()
      modifies this`regs, this`pipelineFull, this`inInterrupt, this`currentInterrupt, this`exitCode, mem.Repr
      ensures Valid() && inInterrupt && !pipelineFull && exitCode == old(exitCode)
      ensures currentInterrupt == Served(requested, k)
      ensures var s := IrqSwitch(old(regs), old(pipelineFull));
        regs == IrqVector(s, ReadReg(regs, 15)) && ReadReg(regs, 15) % 4 == 0
        && (StackInRam(ReadReg(s, 13)) ==>
              var m := IrqPushed(old(mem.memory[..]), s);
              ReadReg(regs, 15) == IrqHandlerAt(m)
              && mem.memory[..] == Bus.PutWord(m, Bus.RegIme, 0) && unchanged(mem.Repr - {mem.memory}))
    {
      SwitchToIrq();
      var sp, handler := EntryMemory(GetRegister(13), Words(IrqFrame(regs)));
      EntryRegisters(sp, handler, k, requested);
    }

    /** The register side of the IRQ entry after the pushes: the vector registers, then the flags. */
    method EntryRegisters(sp: U32, handler: U32, k: Irqs.Occasion, requested: Half)
      requires Valid() && sp == Wrap(ReadReg(regs, 13) - 24)
      modifies this`regs, this`pipelineFull, this`inInterrupt, this`currentInterrupt, this`exitCode
      ensures Valid() && inInterrupt && !pipelineFull && exitCode == old(exitCode)
      ensures currentInterrupt == Served(requested, k)
      ensures regs == IrqVector(old(regs), AlignDown(handler, 4))
      ensures mem.memory[..] == old(mem.memory[..]) && unchanged(mem.Repr)
    {
      EnterVector(sp, handler);
      FinishEntry(k, requested);
    }

    /**
     * The bus side of the IRQ entry: the pushes below top, the load of the
     * handler address, and IME cleared (which the source does last; nothing
     * in between reads it).
     */
    method EntryMemory(top: U32, frame: seq<Word>) returns (sp: U32, handler: U32)
      requires Valid() && |frame| == 6
      modifies mem.Repr
      ensures Valid() && sp == Wrap(top - 24) && regs == old(regs) && exitCode == old(exitCode)
      ensures StackInRam(top) ==>
        var m := PushWords(old(mem.memory[..]), top, frame);
        handler == OfWord(Bus.GetWord(m, 0x300_7FFC))
        && mem.memory[..] == Bus.PutWord(m, Bus.RegIme, 0) && unchanged(mem.Repr - {mem.memory})
    {
      sp := PushFrame(top, frame);
      handler := VectorHandler();
      mem.Write32Unsafe(Bus.RegIme, 0);
    }

    /** The mode switch of the IRQ entry: IRQ mode, the old CPSR saved in SPSR_irq, the return address in r14_irq. */
    method SwitchToIrq()
      requires Sane(regs)
      modifies this`regs, this`exitCode
      ensures regs == IrqSwitch(old(regs), pipelineFull) && exitCode == old(exitCode)
    {
      EnterIrqMode();
      var ret := ReturnAddress();
      IrqModeKeepsReturn(old(regs), pipelineFull);
      SetRegister(14, ret);
    }

    /** SetMode(IRQ), then UpdateSPSR with the CPSR read before the switch. */
    method EnterIrqMode()
      requires Sane(regs)
      modifies this`regs, this`exitCode
      ensures regs == IrqMode(old(regs)) && exitCode == old(exitCode)
    {
      var oldCpsr := GetRegister(CpsrReg);
      IrqModeIsSpsrWrite(regs);
      SetMode(IRQ);
      UpdateSPSR(oldCpsr, false);
    }

    /** The r14 of the IRQ entry: pc - 4 in ARM state and pc in THUMB state with a full pipeline, pc + 4 with an empty one. */
    method ReturnAddress() returns (ret: U32)
      requires Sane(regs)
      ensures ret == IrqReturn(regs, pipelineFull)
    {
      if pipelineFull {
        if !Thumb(regs) {
          ret := Wrap(GetRegister(15) as int - 4);
        } else {
          ret := GetRegister(15);
        }
      } else {
        ret := Wrap(GetRegister(15) as int + 4);
      }
    }

    /** `ldr r15, [r0, -4]` with r0 = 0x4000000: the handler address the BIOS keeps at 0x3FFFFFC, a mirror of 0x3007FFC. */
    method VectorHandler() returns (handler: U32)
      requires Valid()
      ensures handler == old(OfWord(Bus.GetWord(mem.memory[..], 0x300_7FFC)))
    {
      var w := mem.Read32(Bus.Next(0x400_0000, -4));
      mem.IrqHandlerWord();
      handler := OfWord(w);
    }

    /** The register writes of the IRQ entry after the pushes. */
    method EnterVector(sp: U32, handler: U32)
      requires Sane(regs) && sp == Wrap(ReadReg(regs, 13) - 24)
      modifies this`regs, this`exitCode
      ensures regs == IrqVector(old(regs), AlignDown(handler, 4)) && exitCode == old(exitCode)
    {
      SetRegister(13, sp);
      SetRegister(0, 0x400_0000);
      SetRegister(14, 0x138);
      SetRegister(15, AlignDown(handler, 4));
      regs := regs.(cpsr := regs.cpsr.(i := 1));
      SetState(false);
    }

    /** The end of the IRQ entry: the pipeline emptied, and the serviced request remembered. */
    method FinishEntry(k: Irqs.Occasion, requested: Half)
      modifies this`pipelineFull, this`inInterrupt, this`currentInterrupt
      ensures inInterrupt && !pipelineFull
      ensures currentInterrupt == Served(requested, k)
    {
      pipelineFull := false;
      inInterrupt := true;
      currentInterrupt := Served(requested, k);
    }

    /**
     * The stores of `stmfd r13!, {...}` below top: the last word first, each
     * 4 bytes below the one before; the new stack pointer is returned.
     */
    method PushFrame(top: U32, frame: seq<Word>) returns (sp: U32)
      requires Valid() && |frame| <= 6
      modifies mem.Repr
      ensures Valid() && sp == Wrap(top - 4 * |frame|) && regs == old(regs) && exitCode == old(exitCode)
      ensures StackInRam(top) ==>
        mem.memory[..] == PushWords(old(mem.memory[..]), top, frame) && unchanged(mem.Repr - {mem.memory})
      decreases |frame|
    {
      if frame == [] {
        return top;
      }
      var above := PushFrame(top, frame[1..]);
      sp := Wrap(above as int - 4);
      PushSlot(top, |frame|);
      mem.Write32(sp, frame[0], true);
    }
  }
}
