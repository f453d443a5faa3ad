/**
 * Instruction-format decoders (src/Util.cpp): the nested tests of bit masks
 * that pick the handler for a 32-bit ARM or a 16-bit Thumb instruction.
 *
 * Each decoder is paired with a flat reference table of mask/value
 * patterns, one per instruction format: the bits the source decoder itself
 * tests for that format, written as one mask/value pair. Where the ARM7TDMI
 * data sheet fixes more bits (bit 22 of MUL, bit 24 of MULL, bits 21-20
 * and 11-8 of SWP), the table, like the source, does not test them. The
 * lemmas below prove, format by format and in both directions, that the
 * if-chain returns a format exactly on its pattern.
 */
module Decoder {
  import opened Bits

  datatype ArmInstruction = BEX | B | SWP | HDT | PSR | DP | MULL | MUL | SDT | BDT | INT | UNDEF

  datatype ThumbInstruction =
    | ADDSUB | MSR | IMM | ALU | HI | PC | MOV | MOVS | MOVI | MOVH | SP | LDA
    | ADDSP | POP | MOVM | SWI | B | BAL | BL | UND

  /** Util::GetInstructionFormat(u32), test by test in the source's order. */
  function ArmFormat(i: Word): ArmInstruction
  {
    if (i >> 4) & 0xFF_FFFF == 0x12_FFF1 then BEX
    else if (i >> 25) & 7 == 5 then ArmInstruction.B
    else if i & 0xD90_0000 == 0x100_0000 then
      (if i & 0x80 != 0 && i & 0x10 != 0 && i & 0x200_0000 == 0 then
         (if (i >> 5) & 3 == 0 then SWP else HDT)
       else PSR)
    else if (i >> 26) & 3 == 0 then
      (if i & 0x80 != 0 && i & 0x10 == 0 then
         (if i & 0x200_0000 != 0 then DP
          else if i & 0x10_0000 != 0 && (i >> 23) & 3 == 2 then DP
          else if (i >> 23) & 3 != 2 then DP
          else if i & 0x80_0000 != 0 then MULL
          else MUL)
       else if i & 0x80 != 0 && i & 0x10 != 0 then
         (if (i >> 4) & 0xF == 9 then
            (if i & 0x200_0000 != 0 then DP
             else if (i >> 23) & 3 == 2 then SWP
             else if i & 0x80_0000 != 0 then MULL
             else MUL)
          else if i & 0x200_0000 != 0 then DP
          else HDT)
       else DP)
    else if (i >> 26) & 3 == 1 then SDT
    else if (i >> 25) & 7 == 4 then BDT
    else if (i >> 24) & 0xF == 0xF then INT
    else UNDEF
  }

  // The flat ARM pattern table, one mask/value pair per encoding class
  // (bit 27 is the top bit that matters; bits 31-28 are the condition).

  predicate IsBex(i: Word) { i & 0x0FFF_FFF0 == 0x012F_FF10 }
  predicate IsBranch(i: Word) { i & 0x0E00_0000 == 0x0A00_0000 }
  /** bits 27-23 = 00010, bits 7-4 = 1001 */
  predicate IsSwap(i: Word) { i & 0x0F80_00F0 == 0x0100_0090 }
  /** bits 27-23 = 00000, bits 7-4 = 1001 */
  predicate IsMul(i: Word) { i & 0x0F80_00F0 == 0x0000_0090 }
  /** bits 27-25 = 000, bit 23 = 1, bits 7-4 = 1001 */
  predicate IsMull(i: Word) { i & 0x0E80_00F0 == 0x0080_0090 }
  /** bits 27-25 = 000, bit 7 = 1, bit 4 = 1, bits 6-5 not 00 */
  predicate IsHalfword(i: Word) { i & 0x0E00_0090 == 0x0000_0090 && i & 0x60 != 0 }
  /** bits 27-26 = 00, bits 24-23 = 10, bit 20 = 0, except BX and the swap/halfword encodings */
  predicate IsPsr(i: Word)
  {
    i & 0x0D90_0000 == 0x0100_0000 && !IsBex(i) && i & 0x0200_0090 != 0x0000_0090
  }
  predicate IsDataProcessing(i: Word)
  {
    i & 0x0C00_0000 == 0
    && !IsBex(i) && !IsSwap(i) && !IsMul(i) && !IsMull(i) && !IsHalfword(i) && !IsPsr(i)
  }
  /** bits 27-26 = 01 */
  predicate IsSingleTransfer(i: Word) { i & 0x0C00_0000 == 0x0400_0000 }
  /** bits 27-25 = 100 */
  predicate IsBlockTransfer(i: Word) { i & 0x0E00_0000 == 0x0800_0000 }
  /** bits 27-24 = 1111 */
  predicate IsSoftwareInterrupt(i: Word) { i & 0x0F00_0000 == 0x0F00_0000 }
  /** Coprocessor encodings (bits 27-25 = 110, bits 27-24 = 1110) and nothing else. */
  predicate IsUndefined(i: Word) { i & 0x0E00_0000 == 0x0C00_0000 || i & 0x0F00_0000 == 0x0E00_0000 }

  /** Bits 27-25 = 101 decode as a branch, and nothing else does. */
  lemma ArmBranchExactly(i: Word)
    ensures ArmFormat(i) == ArmInstruction.B <==> IsBranch(i)
  {
  }

  /** Bits 27-24 = 1111 decode as a software interrupt; the coprocessor space decodes as UNDEF. */
  lemma ArmInterruptAndUndefinedExactly(i: Word)
    ensures ArmFormat(i) == INT <==> IsSoftwareInterrupt(i)
    ensures ArmFormat(i) == UNDEF <==> IsUndefined(i)
  {
  }

  /** Bits 27-26 = 01 decode as a single transfer, bits 27-25 = 100 as a block transfer. */
  lemma ArmTransferExactly(i: Word)
    ensures ArmFormat(i) == SDT <==> IsSingleTransfer(i)
    ensures ArmFormat(i) == BDT <==> IsBlockTransfer(i)
  {
  }

  /**
   * The multiply, swap and halfword encodings with bits 7-4 all decided by the
   * flat table. The first multiply test of the source (bit 7 set, bit 4 clear)
   * never returns MUL or MULL: those inputs were already taken as PSR.
   */
  lemma ArmMultiplySwapHalfwordExactly(i: Word)
    ensures ArmFormat(i) == MUL <==> IsMul(i)
    ensures ArmFormat(i) == MULL <==> IsMull(i)
    ensures ArmFormat(i) == SWP <==> IsSwap(i)
    ensures ArmFormat(i) == HDT <==> IsHalfword(i)
  {
  }

  /** The BX pattern (bits 27-4 = 0001 0010 1111 1111 1111 0001) is tried first. */
  lemma ArmBexExactly(i: Word)
    ensures ArmFormat(i) == BEX <==> IsBex(i)
  {
  }

  /** The status-register transfers: the PSR group of the source minus swap, halfword and BX. */
  lemma ArmPsrExactly(i: Word)
    ensures ArmFormat(i) == PSR <==> IsPsr(i)
  {
  }

  /** Every other encoding with bits 27-26 = 00 is data processing. */
  lemma ArmDataProcessingExactly(i: Word)
    ensures ArmFormat(i) == DP <==> IsDataProcessing(i)
  {
    ArmBexExactly(i);
    ArmPsrExactly(i);
    ArmMultiplySwapHalfwordExactly(i);
  }

  /** Util::GetInstructionFormat(u16), test by test in the source's order. */
  function ThumbFormat(i: Half): ThumbInstruction
  {
    if (i >> 13) & 7 == 0 then (if (i >> 11) & 3 == 3 then ADDSUB else MSR)
    else if (i >> 13) & 7 == 1 then IMM
    else if (i >> 10) & 0x3F == 0x10 then ALU
    else if (i >> 10) & 0x3F == 0x11 then HI
    else if (i >> 11) & 0x1F == 0x09 then ThumbInstruction.PC
    else if (i >> 12) & 0xF == 5 then (if (i >> 9) & 1 == 0 then MOV else MOVS)
    else if (i >> 13) & 7 == 3 then MOVI
    else if (i >> 12) & 0xF == 8 then MOVH
    else if (i >> 12) & 0xF == 9 then SP
    else if (i >> 12) & 0xF == 0xA then LDA
    else if (i >> 12) & 0xF == 0xB then (if (i >> 9) & 7 == 0 then ADDSP else POP)
    else if (i >> 12) & 0xF == 0xC then MOVM
    else if (i >> 12) & 0xF == 0xD then (if (i >> 8) & 0xF == 0xF then SWI else ThumbInstruction.B)
    else if (i >> 11) & 0x1F == 0x1C then BAL
    else if (i >> 12) & 0xF == 0xF then BL
    else UND
  }

  // The flat Thumb pattern table, one mask/value pair per format (bits 15-8
  // are the only ones that matter).

  /** Format 2, add/subtract: bits 15-11 = 00011. */
  predicate IsAddSub(i: Half) { i & 0xF800 == 0x1800 }
  /** Format 1, move shifted register: bits 15-13 = 000 other than format 2. */
  predicate IsShifted(i: Half) { i & 0xE000 == 0x0000 && !IsAddSub(i) }
  /** Format 3, move/compare/add/subtract immediate: bits 15-13 = 001. */
  predicate IsImmediateOp(i: Half) { i & 0xE000 == 0x2000 }
  /** Format 4, ALU operations: bits 15-10 = 010000. */
  predicate IsAluOp(i: Half) { i & 0xFC00 == 0x4000 }
  /** Format 5, high-register operations and BX: bits 15-10 = 010001. */
  predicate IsHiOp(i: Half) { i & 0xFC00 == 0x4400 }
  /** Format 6, PC-relative load: bits 15-11 = 01001. */
  predicate IsPcLoad(i: Half) { i & 0xF800 == 0x4800 }
  /** Format 7, load/store with register offset: bits 15-12 = 0101, bit 9 = 0. */
  predicate IsRegOffset(i: Half) { i & 0xF200 == 0x5000 }
  /** Format 8, sign-extended byte/halfword: bits 15-12 = 0101, bit 9 = 1. */
  predicate IsSignExtended(i: Half) { i & 0xF200 == 0x5200 }
  /** Format 9, load/store with immediate offset: bits 15-13 = 011. */
  predicate IsImmediateOffset(i: Half) { i & 0xE000 == 0x6000 }
  /** Format 10, load/store halfword: bits 15-12 = 1000. */
  predicate IsHalfwordOffset(i: Half) { i & 0xF000 == 0x8000 }
  /** Format 11, SP-relative load/store: bits 15-12 = 1001. */
  predicate IsSpRelative(i: Half) { i & 0xF000 == 0x9000 }
  /** Format 12, load address: bits 15-12 = 1010. */
  predicate IsLoadAddress(i: Half) { i & 0xF000 == 0xA000 }
  /** Format 13, add offset to SP: bits 15-9 = 1011000. */
  predicate IsSpOffset(i: Half) { i & 0xFE00 == 0xB000 }
  /** Format 14, push/pop: every other encoding with bits 15-12 = 1011. */
  predicate IsPushPop(i: Half) { i & 0xF000 == 0xB000 && i & 0x0E00 != 0 }
  /** Format 15, multiple load/store: bits 15-12 = 1100. */
  predicate IsMultiple(i: Half) { i & 0xF000 == 0xC000 }
  /** Format 17, software interrupt: bits 15-8 = 11011111. */
  predicate IsSwi(i: Half) { i & 0xFF00 == 0xDF00 }
  /** Format 16, conditional branch: bits 15-12 = 1101 other than SWI. */
  predicate IsCondBranch(i: Half) { i & 0xF000 == 0xD000 && !IsSwi(i) }
  /** Format 18, unconditional branch: bits 15-11 = 11100. */
  predicate IsUncondBranch(i: Half) { i & 0xF800 == 0xE000 }
  /** Format 19, long branch with link: bits 15-12 = 1111. */
  predicate IsLongBranch(i: Half) { i & 0xF000 == 0xF000 }
  /** The one unassigned pattern: bits 15-11 = 11101. */
  predicate IsThumbUndefined(i: Half) { i & 0xF800 == 0xE800 }

  /** Formats 1-3: the shift, add/subtract and immediate encodings under bits 15-13 = 00x. */
  lemma ThumbShiftImmediateExactly(i: Half)
    ensures ThumbFormat(i) == ADDSUB <==> IsAddSub(i)
    ensures ThumbFormat(i) == MSR <==> IsShifted(i)
    ensures ThumbFormat(i) == IMM <==> IsImmediateOp(i)
  {
  }

  /** Formats 4-9: ALU, high registers, PC-relative load and the register and immediate transfers. */
  lemma ThumbRegisterFormatsExactly(i: Half)
    ensures ThumbFormat(i) == ALU <==> IsAluOp(i)
    ensures ThumbFormat(i) == HI <==> IsHiOp(i)
    ensures ThumbFormat(i) == ThumbInstruction.PC <==> IsPcLoad(i)
    ensures ThumbFormat(i) == MOV <==> IsRegOffset(i)
    ensures ThumbFormat(i) == MOVS <==> IsSignExtended(i)
    ensures ThumbFormat(i) == MOVI <==> IsImmediateOffset(i)
  {
  }

  /** Formats 10-15: halfword, SP-relative, load address, SP offset, push/pop and multiple transfers. */
  lemma ThumbStackFormatsExactly(i: Half)
    ensures ThumbFormat(i) == MOVH <==> IsHalfwordOffset(i)
    ensures ThumbFormat(i) == SP <==> IsSpRelative(i)
    ensures ThumbFormat(i) == LDA <==> IsLoadAddress(i)
    ensures ThumbFormat(i) == ADDSP <==> IsSpOffset(i)
    ensures ThumbFormat(i) == POP <==> IsPushPop(i)
    ensures ThumbFormat(i) == MOVM <==> IsMultiple(i)
  {
  }

  /** Formats 16-19 and the unassigned 11101 pattern, which decodes as UND. */
  lemma ThumbBranchFormatsExactly(i: Half)
    ensures ThumbFormat(i) == SWI <==> IsSwi(i)
    ensures ThumbFormat(i) == ThumbInstruction.B <==> IsCondBranch(i)
    ensures ThumbFormat(i) == BAL <==> IsUncondBranch(i)
    ensures ThumbFormat(i) == BL <==> IsLongBranch(i)
    ensures ThumbFormat(i) == UND <==> IsThumbUndefined(i)
  {
  }

  /** The format is fixed by the high byte alone: operand bits 7-0 never change it. */
  lemma ThumbFormatHighByteOnly(i: Half, j: Half)
    requires i >> 8 == j >> 8
    ensures ThumbFormat(i) == ThumbFormat(j)
  {
  }
}
