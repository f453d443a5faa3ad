# discovery: a verified model of the emulator core

discovery is a Game Boy Advance emulator. Its core is the ARM7TDMI
processor, which runs 32-bit ARM and 16-bit THUMB instructions, together
with the memory bus the processor reads and writes through. This project
models that core in Dafny and proves properties of the model.

The model is organised in modules, one per source file:

- `Bits` (bits.dfy): the `bitseq<hi, lo>` field extractor, on 32-bit and
  16-bit values (include/util.inl).
- `Decoder` (decoder.dfy): the two instruction-format decoders
  (src/Util.cpp). Each is proved equal to a flat table of mask/value
  patterns, one pattern per format.
- `Cpu` (cpu.dfy): the processor (src/Arm7Tdmi.cpp).
  - The register file is a datatype with explicit banks and a packed status
    register.
  - Mode lookup, register access through the banks, the condition codes,
    the flag updates and the barrel shifter are pure functions.
  - The class `Arm7Tdmi` holds the state the emulator changes in place:
    registers, pipeline flag, cycle counter, interrupt state and the exit
    code. Its methods are the memory accessors (Read8/16/32,
    Write8/16/32), Tick and HandleInterrupt.
- `HandlerArm` and `HandlerThumb` (handler_arm.dfy, handler_thumb.dfy):
  one method per instruction handler (src/HandlerArm.cpp,
  src/HandlerThumb.cpp).
  - Each handler is specified by a pure function of the old register file.
  - The instruction's memory accesses are kept in a ghost log.
  - Each handler states the cycles it ticks.
  - Lemmas state what the instruction means: arithmetic results, flags,
    write-back, round trips between stores and loads.
- `Bus` (bus.dfy): the memory bus (src/Memory.cpp). It covers address
  folding and mirroring, the byte, halfword and word accessors, the I/O
  register switch of write8, and the four DMA channels with their copy
  loops.
- `Backup` (flash.dfy): the Flash save chip's command state machine
  (src/backup/Flash.cpp).
- `Timers` (timers.dfy): the four timers with prescalers and cascading
  (src/Timer.cpp).
- `Lcd` (lcd.dfy): the window registers of the LCD status block
  (include/LcdStat.h).
- `Irqs` (irqs.dfy): the interrupt registers IE, IF and IME
  (include/IRQ.h).

Machine words are `bv32`/`bv16`/`bv8` in the decoder and the bus. The
processor works on numbers below 2^32, and every sum or difference that
can leave that range is wrapped explicitly (`Wrap`). The instruction
handlers are `Arm7Tdmi` member functions in the source. Here they are
module-level methods that take the processor object, because a Dafny
class cannot span modules.

## Model

| member | source | states |
|---|---|---|
| `Bits.Bitseq` | include/util.inl:9-19 | bitseq<hi, lo> on a 32-bit value; a field with hi below lo is 0 |
| `Bits.Bitseq16` | include/util.inl:21-31 | bitseq<hi, lo> on a 16-bit value; a field with hi below lo is 0 |
| `Bits.Bitseq16Agrees` | include/util.inl:9-31 | the u16 overload of bitseq extracts the same field as the u32 one from the widened value, for every hi below 16 and every lo |
| `Bits.MaskWidens` | include/util.inl:9-31 | the 16-bit mask `~0 >> (15 - hi)` applied to a halfword is the 32-bit mask `~0 >> (31 - hi)` applied to the widened halfword |
| `Bits.BitseqFieldMask` | include/util.inl:9-19 | the extracted field, moved back up to bit lo, is exactly bits hi..lo of the input |
| `Bits.BitseqFits` | include/util.inl:9-19 | the field has no bit at or above position hi - lo + 1 |
| `Bits.BitseqExamples` | include/util.inl:7 | concrete extractions, among them the header's example bitseq<7, 4>(0b11110000) = 0b1111 |
| `Bits.Field` | include/util.inl:9-19 | bitseq on a number: the result is below 2^(hi-lo+1), and 0 when hi is below lo |
| `Bits.FieldExamples` | include/util.inl:7 | the same extraction examples on numbers |
| `Bits.Wrap` | src/HandlerArm.cpp:191-194 | a u32 result is the arithmetic value modulo 2^32 |
| `Bits.WrapShift` | src/HandlerArm.cpp:582-588 | wrapping once at the end equals wrapping an intermediate sum, so chained u32 pointer updates compose |
| `Bits.Pack16RoundTrip` | src/Memory.cpp:189-192 | splitting a halfword into its two bytes and packing them again are inverse, both ways |
| `Decoder.ArmBranchExactly` | src/Util.cpp:16-88 | the ARM decoder returns B exactly for bits 27-25 = 101 |
| `Decoder.ArmInterruptAndUndefinedExactly` | src/Util.cpp:16-88 | SWI exactly for bits 27-24 = 1111; UNDEF exactly for the coprocessor encodings |
| `Decoder.ArmTransferExactly` | src/Util.cpp:16-88 | single data transfer exactly for bits 27-26 = 01; block data transfer exactly for bits 27-25 = 100 |
| `Decoder.ArmMultiplySwapHalfwordExactly` | src/Util.cpp:16-88 | MUL, MULL, SWP and halfword transfer each exactly on its pattern, which is the source decoder's own mask/value test for that format (looser than the data sheet's for MUL, MULL and SWP); the source's first multiply test can never fire |
| `Decoder.ArmBexExactly` | src/Util.cpp:16-88 | BX exactly for its 24-bit pattern |
| `Decoder.ArmPsrExactly` | src/Util.cpp:16-88 | MRS/MSR exactly for the PSR group minus BX, swap and halfword encodings |
| `Decoder.ArmDataProcessingExactly` | src/Util.cpp:16-88 | data processing exactly for the remaining bits 27-26 = 00 encodings |
| `Decoder.ThumbShiftImmediateExactly` | src/Util.cpp:91-160 | THUMB formats 1-3 (move shifted register, add/subtract, immediate operations) each exactly on its pattern |
| `Decoder.ThumbRegisterFormatsExactly` | src/Util.cpp:91-160 | formats 4-9 (ALU, high registers/BX, PC-relative load, register-offset, sign-extended and immediate-offset transfers) each exactly on its pattern |
| `Decoder.ThumbStackFormatsExactly` | src/Util.cpp:91-160 | formats 10-15 (halfword, SP-relative, load address, SP offset, push/pop, multiple transfer) each exactly on its pattern |
| `Decoder.ThumbBranchFormatsExactly` | src/Util.cpp:91-160 | formats 16-19 (conditional branch, SWI, branch, long branch with link) and UND each exactly on its pattern |
| `Decoder.ThumbFormatHighByteOnly` | src/Util.cpp:91-160 | the THUMB format depends only on bits 15-8 |
| `Cpu.AlignDown` | src/Arm7Tdmi.cpp:1266-1286 | `x & ~(k - 1)` is the largest multiple of k not above x |
| `Cpu.ModeBits` | src/Arm7Tdmi.cpp:70-96 | SetMode stores a distinct five-bit pattern for each of the seven modes |
| `Cpu.ModeOf` | src/Arm7Tdmi.cpp:53-68 | GetMode names a mode exactly for the seven valid patterns; any other pattern is where the emulator exits with code 21 |
| `Cpu.ModeRoundTrip` | src/Arm7Tdmi.cpp:53-96 | SetMode then GetMode returns the mode set, and distinct modes have distinct bits |
| `Cpu.FromRaw` | include/Arm7Tdmi.h:33-52 | the status-register bit fields unpacked from a raw word each fit their width |
| `Cpu.RawOfFromRaw` | include/Arm7Tdmi.h:33-52 | unpacking a raw status word and packing it again gives the same word |
| `Cpu.FromRawOfRaw` | include/Arm7Tdmi.h:33-52 | packing fields that fit and unpacking them again gives the same fields |
| `Cpu.GetFlag` | src/Arm7Tdmi.cpp:98-110 | GetConditionCodeFlag returns the named flag as 0 or 1 |
| `Cpu.SetFlag` | src/Arm7Tdmi.cpp:112-131 | SetConditionCodeFlag with a bit above 1 changes nothing; otherwise it sets the named flag alone, which then reads back |
| `Cpu.ConditionPairs` | src/Arm7Tdmi.cpp:134-157 | the condition codes come in complementary pairs, AL always holds, code 15 never holds, and only N, Z, C and V are consulted |
| `Cpu.FlagsLogical` | src/Arm7Tdmi.cpp:523-535 | a logical result sets Z when zero, N from bit 31, C from the shifter's carry-out, and keeps V and every other field |
| `Cpu.FlagsAddition` | src/Arm7Tdmi.cpp:538-565 | an addition's flags change only N, Z, C and V |
| `Cpu.FlagsSubtraction` | src/Arm7Tdmi.cpp:568-597 | a subtraction's flags change only N, Z, C and V |
| `Cpu.AdditionFlagsMeaning` | src/Arm7Tdmi.cpp:538-565 | after op1 + op2, C is the carry out of the true sum, V says the signed sum overflows, N is bit 31 and Z says the wrapped sum is 0 |
| `Cpu.SubtractionFlagsMeaning` | src/Arm7Tdmi.cpp:568-597 | after op1 - op2, C is set exactly when op1 >= op2 unsigned (no borrow) and V says the signed difference overflows |
| `Cpu.ConditionAfterCompare` | src/Arm7Tdmi.cpp:134-157 | after CMP a, b: EQ/NE is equality, CS/CC/HI/LS unsigned order, GE/LT/GT/LE signed order |
| `Cpu.Slot` | src/Arm7Tdmi.cpp:302-390 | the bank word register r names in mode m: FIQ's own r8-r12, a per-mode r13/r14 with USR and SYS sharing one |
| `Cpu.SpsrSlot` | src/Arm7Tdmi.cpp:302-390 | every mode other than USR and SYS owns its SPSR |
| `Cpu.WriteReg` | src/Arm7Tdmi.cpp:392-520 | SetRegister writes exactly one bank word, or the raw CPSR; an SPSR number or any other number writes nothing |
| `Cpu.SharedRegisters` | src/Arm7Tdmi.cpp:302-390 | r0-r7 and r15 are one register in every mode |
| `Cpu.FiqBankedRegisters` | src/Arm7Tdmi.cpp:302-390 | r8-r12 have a second copy in FIQ mode and in no other |
| `Cpu.ModeBankedRegisters` | src/Arm7Tdmi.cpp:302-390 | r13 and r14 have one copy per mode, shared by USR and SYS |
| `Cpu.SetGetRoundTrip` | src/Arm7Tdmi.cpp:302-520 | in one mode, SetRegister then GetRegister returns the value written and every other register keeps its value |
| `Cpu.CpsrRoundTrip` | src/Arm7Tdmi.cpp:392-520 | a CPSR word that names a mode, written and read back, is the same word |
| `Cpu.ShiftSpecialCases` | src/Arm7Tdmi.cpp:607-687 | shift amount 0 keeps the value and C; LSL/LSR above 32 give 0 with carry 0; RRX shifts C into bit 31 |
| `Cpu.ShiftCarryIsBit` | src/Arm7Tdmi.cpp:607-687 | the barrel shifter's carry-out is always 0 or 1 |
| `Cpu.LslMeaning` | src/Arm7Tdmi.cpp:607-687 | LSL by 1..32 multiplies by 2^k modulo 2^32, with carry bit 32 - k of the input |
| `Cpu.LsrMeaning` | src/Arm7Tdmi.cpp:607-687 | LSR by 1..32 divides by 2^k, with carry bit k - 1 of the input |
| `Cpu.AsrMeaning` | src/Arm7Tdmi.cpp:607-687 | the source's one-bit ASR loop run k times (k <= 32) divides the signed value by 2^k rounding down and keeps the sign |
| `Cpu.RorMeaning` | src/Arm7Tdmi.cpp:607-687 | the source's one-bit ROR loop run k times (k <= 32) is a rotation right by k |
| `Cpu.RorCarryIsMsb` | src/Arm7Tdmi.cpp:607-687 | after every ROR step the carry equals bit 31 of the result |
| `Cpu.WithMode` | src/Arm7Tdmi.cpp:70-96 | SetMode changes the mode field to the mode's bits and nothing else |
| `Cpu.CpsrWrite` | src/Arm7Tdmi.cpp:698-738 | UpdateCPSR: a flags-only write, or any write in USR mode, takes N, Z, C and V alone; otherwise the CPSR becomes the value |
| `Cpu.SpsrWrite` | src/Arm7Tdmi.cpp:743-796 | UpdateSPSR: nothing is stored in SYS; otherwise the mode's SPSR takes the flags or the whole value; no other field changes |
| `Cpu.AdvancePc` | src/Arm7Tdmi.cpp:689-692 | IncrementPC moves r15 by 4 in ARM state and by 2 in THUMB state, modulo 2^32, and changes nothing else |
| `Cpu.TickCost` | src/Arm7Tdmi.cpp:801-819 | Tick adds n(1 + N wait) + s(1 + S wait) + i cycles, summed in a 16-bit counter |
| `Cpu.ResetRegisters` | src/Arm7Tdmi.cpp:20-49 | the power-on register file: pc at the cart ROM, the USR, SVC and IRQ stacks, SVC mode, ARM state, IRQ and FIQ disabled |
| `Cpu.Put` | src/Arm7Tdmi.cpp:392-520 | SetRegister's effect on the register file, which stays well-formed; a bad CPSR word leaves it unchanged |
| `Cpu.PutOther` | src/Arm7Tdmi.cpp:392-520 | writing one of r0-r15 leaves the other fifteen of the current mode unchanged |
| `Cpu.FirstPending` | src/Arm7Tdmi.cpp:864-876 | the source HandleInterrupt's loop enters is the lowest one, from the given start, that is both enabled in IE and requested in IF |
| `Cpu.IrqFrame` | src/Arm7Tdmi.cpp:906-914 | the IRQ entry pushes six words: r0, r1, r2, r3, r12 and r14 |
| `Cpu.ValuesOfWords` | src/Arm7Tdmi.cpp:1115-1206 | storing register values as words and loading them back gives the same values |
| `Cpu.IrqMode` | src/Arm7Tdmi.cpp:879-884 | SetMode(IRQ) then UpdateSPSR(old CPSR) gives IRQ mode with the interrupted CPSR in SPSR_irq |
| `Cpu.IrqModeIsSpsrWrite` | src/Arm7Tdmi.cpp:879-884 | storing the raw old CPSR into SPSR_irq after the switch stores the old CPSR itself |
| `Cpu.IrqModeKeepsReturn` | src/Arm7Tdmi.cpp:886-904 | the switch to IRQ mode keeps pc and the T bit, so the return address is the same before and after it |
| `Cpu.IrqSwitch` | src/Arm7Tdmi.cpp:879-904 | IRQ entry before the pushes: IRQ mode, SPSR_irq the old CPSR, r14_irq the return address |
| `Cpu.IrqVector` | src/Arm7Tdmi.cpp:915-927 | IRQ entry after the pushes: sp lowered by 24, r0 = 0x4000000, r14 = 0x138, pc the handler, IRQs disabled, ARM state |
| `Cpu.SpsrRestored` | src/Arm7Tdmi.cpp:843-844 | the CPSR becomes the mode's SPSR when that names a mode; otherwise nothing changes |
| `Cpu.SpsrRestoredIsPut` | src/Arm7Tdmi.cpp:843-844 | the copy through the raw word is a bad write exactly when the SPSR names no mode, and otherwise restores the fields unchanged |
| `Cpu.BankPopped` | src/Arm7Tdmi.cpp:828-836 | `ldmfd r13!, {r0-r3, r12, r14}`: the six registers take the six frame words in order |
| `Cpu.StackReleased` | src/Arm7Tdmi.cpp:837-841 | sp raised by 24, then pc = r14 - 4 |
| `Cpu.SpsrResumed` | src/Arm7Tdmi.cpp:843-847 | the CPSR restored from the SPSR, then the I bit cleared |
| `Cpu.IrqRestore` | src/Arm7Tdmi.cpp:824-851 | IRQ exit at 0x138: the popped registers, the released stack, the restored CPSR with IRQs enabled |
| `Cpu.PushWords` | src/Arm7Tdmi.cpp:906-915 | a full-descending push puts frame[0] at top - 4n and each later word 4 bytes higher; memory keeps its size |
| `Cpu.PushWordsElsewhere` | src/Arm7Tdmi.cpp:906-915 | a push leaves every word outside the pushed block unchanged |
| `Cpu.PushWordsReadBack` | src/Arm7Tdmi.cpp:906-915 | each pushed word reads back from its slot |
| `Cpu.WordsAt` | src/Arm7Tdmi.cpp:828-836 | the n words read upwards from an address, lowest first |
| `Cpu.WordsAtIndex` | src/Arm7Tdmi.cpp:828-836 | word j of that read is the word 4j bytes above the address |
| `Cpu.WordsAtPush` | src/Arm7Tdmi.cpp:828-915 | a frame pushed below top reads back, word for word, upwards from the new stack pointer |
| `Cpu.RawMode` | include/Arm7Tdmi.h:33-52 | the mode field of a packed status word is its low five bits |
| `Cpu.IrqRoundTrip` | src/Arm7Tdmi.cpp:821-938 | entering an IRQ (from any mode but IRQ, with IRQs enabled) and leaving it with the frame the entry pushed restores the CPSR and r0-r14 of the interrupted mode, and pc is the return address less 4 |
| `Cpu.IrqPushed` | src/Arm7Tdmi.cpp:906-915 | memory after the entry's pushes: r0-r3, r12 and r14 below r13, r14 highest |
| `Cpu.IrqHandlerAt` | src/Arm7Tdmi.cpp:923-924 | the handler address is the last word of IWRAM aligned down to a word |
| `Cpu.IrqFrameReadsBack` | src/Arm7Tdmi.cpp:828-915 | the six pushed words, read back from the new stack pointer, are the saved registers in order |
| `Cpu.PushSlot` | src/Arm7Tdmi.cpp:906-915 | each push lands 4 bytes below the one before, with no wrap-around on a RAM stack |
| `Cpu.IrqAcknowledged` | src/Arm7Tdmi.cpp:848-857 | memory after the exit's acknowledgement: IME = 1, then IF with the serviced request cleared |
| `Cpu.IrqAcknowledgedRegisters` | src/Arm7Tdmi.cpp:848-857 | after the acknowledgement IME reads 1 and IF holds exactly the requests that were not serviced |
| `Cpu.IrqAcknowledgedElsewhere` | src/Arm7Tdmi.cpp:848-857 | the acknowledgement leaves every word other than IF and IME unchanged |
| `Cpu.Mirror` | src/Arm7Tdmi.cpp:1328-1345 | MemCheckWrite drops the top four address bits and keeps the low 28 |
| `Cpu.SignedHalf` | src/Arm7Tdmi.cpp:1079-1095 | a signed halfword load: the sign-extended halfword at an even address and the sign-extended byte at an odd one (corrected form, see Findings) |
| `Cpu.SignedHalfDiffers` | src/Arm7Tdmi.cpp:1079-1095 | the as-written odd-address read differs from the corrected one exactly when the byte is non-negative and the next byte is not 0 |
| `Cpu.ApplyStores` | src/Arm7Tdmi.cpp:1275-1286 | memory after a sequence of word stores in plain RAM keeps its size |
| `Cpu.ApplyStoresLast` | src/Arm7Tdmi.cpp:1275-1286 | after the stores, the cell of the last one holds its word |
| `Cpu.ApplyStoresFrame` | src/Arm7Tdmi.cpp:1275-1286 | a word that no store of the log overlaps keeps its value |
| `Cpu.ApplyStoresAppend` | src/Arm7Tdmi.cpp:1275-1286 | one more store in plain RAM puts its word over the earlier ones |
| `Cpu.ApplyStoresSingle` | src/Arm7Tdmi.cpp:1275-1286 | a single store in plain RAM puts its word into memory |
| `Cpu.Arm7Tdmi.constructor` | src/Arm7Tdmi.cpp:20-49 | the reset register file, an empty pipeline, zero cycles, not in an interrupt, the given bus |
| `Cpu.Arm7Tdmi.SetMode` | src/Arm7Tdmi.cpp:70-96 | the registers become WithMode of the old ones |
| `Cpu.Arm7Tdmi.SetState` | include/Arm7Tdmi.h:173 | the T bit alone is set or cleared |
| `Cpu.Arm7Tdmi.SetConditionCodeFlag` | src/Arm7Tdmi.cpp:112-131 | the registers become SetFlag of the old ones |
| `Cpu.Arm7Tdmi.SetRegister` | src/Arm7Tdmi.cpp:392-520 | the registers become Put of the old ones, and exit code 21 is recorded exactly for a bad CPSR word |
| `Cpu.Arm7Tdmi.UpdateFlagsLogical` | src/Arm7Tdmi.cpp:523-535 | the CPSR takes FlagsLogical of the result and carry |
| `Cpu.Arm7Tdmi.UpdateFlagsAddition` | src/Arm7Tdmi.cpp:538-565 | the CPSR takes FlagsAddition of the operands and result |
| `Cpu.Arm7Tdmi.UpdateFlagsSubtraction` | src/Arm7Tdmi.cpp:568-597 | the CPSR takes FlagsSubtraction of the operands and result |
| `Cpu.Arm7Tdmi.BarrelShift` | src/Arm7Tdmi.cpp:607-687 | the shifted value and carry-out are Shift of the input and the C flag; the ASR and ROR loops carry invariants tying each step to AsrSteps/RorSteps |
| `Cpu.Arm7Tdmi.IncrementPC` | src/Arm7Tdmi.cpp:689-692 | the registers become AdvancePc of the old ones |
| `Cpu.Arm7Tdmi.UpdateCPSR` | src/Arm7Tdmi.cpp:698-738 | the CPSR becomes CpsrWrite of the value; a full write naming no mode records exit code 21 |
| `Cpu.Arm7Tdmi.UpdateSPSR` | src/Arm7Tdmi.cpp:743-796 | the SPSR becomes SpsrWrite of the value; in USR mode exit code 6 is recorded and nothing changes |
| `Cpu.Arm7Tdmi.Tick` | src/Arm7Tdmi.cpp:801-819 | the cycle counter grows by TickCost with the bus's wait states, modulo 2^32; the loop's invariant is the partial cost |
| `Cpu.Arm7Tdmi.MemCheckWrite` | src/Arm7Tdmi.cpp:1328-1345 | the address with its top four bits dropped, refused exactly in the BIOS, with the video penalty cycle added outside v-blank |
| `Cpu.Arm7Tdmi.Write8` | src/Arm7Tdmi.cpp:1209-1264 | palette RAM and background VRAM take the byte at both halves of the halfword; BIOS, OAM and object VRAM drop it; any other address is one bus write; the access is logged |
| `Cpu.Arm7Tdmi.StoreByte` | src/Arm7Tdmi.cpp:1220-1264 | Write8 after MemCheckWrite: one of the doubled, dropped or ordinary cases |
| `Cpu.Arm7Tdmi.WriteOnce` | src/Arm7Tdmi.cpp:1255-1264 | an ordinary byte write goes to the bus at its address |
| `Cpu.Arm7Tdmi.WriteTwice` | src/Arm7Tdmi.cpp:1225-1240 | the byte is written at a and at a + 1 |
| `Cpu.Arm7Tdmi.Write16` | src/Arm7Tdmi.cpp:1266-1273 | the address aligned down to a halfword, checked, then written through the bus |
| `Cpu.Arm7Tdmi.Write32` | src/Arm7Tdmi.cpp:1275-1286 | the address aligned down to a word, checked, then written; in plain RAM memory becomes PutWord at WordCell and the cycles do not change |
| `Cpu.Arm7Tdmi.StoreWord` | src/Arm7Tdmi.cpp:1275-1286 | Write32 once the address has passed MemCheckWrite |
| `Cpu.Arm7Tdmi.StoredWordLoads` | src/Arm7Tdmi.cpp:1115-1286 | a word Write32 stored in plain RAM is what Read32 then returns there |
| `Cpu.Arm7Tdmi.ReadUnused` | src/Arm7Tdmi.cpp:959-970 | an unused address answers the open-bus word in ARM state; a THUMB-state read there records exit code 0 |
| `Cpu.Arm7Tdmi.RotateRight` | src/Arm7Tdmi.cpp:1180-1200 | BarrelShift's ROR on a misaligned LDR word is the rotation Ror |
| `Cpu.Arm7Tdmi.Load32Plain` | src/Arm7Tdmi.cpp:1115-1206 | a word of plain RAM loads as its four cells, rotated right by 8 per byte of misalignment for LDR |
| `Cpu.Arm7Tdmi.Read8` | src/Arm7Tdmi.cpp:940-982 | the value is Load8 of the address, and the read is logged; THUMB code reading unused memory records exit code 0 |
| `Cpu.Arm7Tdmi.Read16` | src/Arm7Tdmi.cpp:989-1108 | the value is Load16 of the address and sign flag, and the read is logged |
| `Cpu.Arm7Tdmi.ReadBusHalf` | src/Arm7Tdmi.cpp:1070-1100 | Read16's bus read: the signed form, or the halfword rotated right by 8 at an odd address |
| `Cpu.Arm7Tdmi.Read32` | src/Arm7Tdmi.cpp:1115-1206 | the value is Load32 of the address; a BIOS read from inside the BIOS refreshes the last BIOS word |
| `Cpu.Arm7Tdmi.StackWords` | src/Arm7Tdmi.cpp:828-836 | the n words an `ldmfd` reads upwards from sp through the bus |
| `Cpu.Arm7Tdmi.StackWordsPlain` | src/Arm7Tdmi.cpp:828-836 | on a stack in plain RAM those bus reads are the stored words |
| `Cpu.Arm7Tdmi.HandleInterrupt` | src/Arm7Tdmi.cpp:821-938 | at 0x138 inside an interrupt the registers become IrqRestore and memory IrqAcknowledged; otherwise, with IME bit 0 set and CPSR.I clear, the lowest pending source is entered with IrqVector and IrqPushed; otherwise nothing changes |
| `Cpu.Arm7Tdmi.ServeInterrupt` | src/Arm7Tdmi.cpp:863-937 | the entry half: the scan of the 14 sources from bit 0 enters FirstPending, or nothing changes when none is pending |
| `Cpu.Arm7Tdmi.LeaveInterrupt` | src/Arm7Tdmi.cpp:824-861 | the exit half: registers IrqRestore of the old ones, memory IrqAcknowledged, pipeline emptied, not in an interrupt |
| `Cpu.Arm7Tdmi.PopRegisters` | src/Arm7Tdmi.cpp:828-841 | the registers after the pops and the return: StackReleased of BankPopped |
| `Cpu.Arm7Tdmi.Acknowledge` | src/Arm7Tdmi.cpp:848-857 | memory becomes IrqAcknowledged of the old memory |
| `Cpu.Arm7Tdmi.PopFrame` | src/Arm7Tdmi.cpp:830-836 | the n words read upwards from sp, each read logged |
| `Cpu.Arm7Tdmi.RestoreRegisters` | src/Arm7Tdmi.cpp:831-847 | the registers become IrqRestore of the old ones, given the popped frame |
| `Cpu.Arm7Tdmi.PopBank` | src/Arm7Tdmi.cpp:831-836 | the registers become BankPopped of the frame |
| `Cpu.Arm7Tdmi.ReleaseStack` | src/Arm7Tdmi.cpp:837-841 | the registers become StackReleased of the old ones |
| `Cpu.Arm7Tdmi.ResumeSpsr` | src/Arm7Tdmi.cpp:843-847 | the registers become SpsrResumed; an SPSR naming no mode records exit code 21 |
| `Cpu.Arm7Tdmi.EnterInterrupt` | src/Arm7Tdmi.cpp:879-933 | IRQ entry for source k: registers IrqVector of IrqSwitch, memory IrqPushed with IME cleared, the request remembered |
| `Cpu.Arm7Tdmi.EntryRegisters` | src/Arm7Tdmi.cpp:915-927 | the registers after the pushes become IrqVector with the handler address |
| `Cpu.Arm7Tdmi.EntryMemory` | src/Arm7Tdmi.cpp:906-930 | the pushes below top, the handler load, and IME cleared |
| `Cpu.Arm7Tdmi.SwitchToIrq` | src/Arm7Tdmi.cpp:879-904 | the registers become IrqSwitch of the old ones |
| `Cpu.Arm7Tdmi.EnterIrqMode` | src/Arm7Tdmi.cpp:879-884 | the registers become IrqMode of the old ones |
| `Cpu.Arm7Tdmi.ReturnAddress` | src/Arm7Tdmi.cpp:886-904 | r14_irq is pc - 4 in ARM and pc in THUMB with a full pipeline, and pc + 4 with an empty one |
| `Cpu.Arm7Tdmi.VectorHandler` | src/Arm7Tdmi.cpp:923-924 | `ldr r15, [r0, -4]` returns IrqHandlerAt of memory |
| `Cpu.Arm7Tdmi.EnterVector` | src/Arm7Tdmi.cpp:917-927 | r0 = 0x4000000, r14 = 0x138, pc the handler, IRQs disabled, ARM state |
| `Cpu.Arm7Tdmi.FinishEntry` | src/Arm7Tdmi.cpp:928-933 | pipeline emptied, in an interrupt, the serviced request remembered |
| `Cpu.Arm7Tdmi.PushFrame` | src/Arm7Tdmi.cpp:906-915 | the frame stored from the last word down below top; memory becomes PushWords and the new sp is top - 4n |
| `HandlerArm.Exchanged` | src/HandlerArm.cpp:17-45 | after BX, pc is the target with bit 0 cleared, THUMB state exactly when bit 0 was set, and no other register moves |
| `HandlerArm.BranchExchange` | src/HandlerArm.cpp:17-45 | Rn = r15 enters UND mode and records exit code 0; otherwise the registers become Exchanged, the pipeline is flushed and 2S + 1N are ticked |
| `HandlerArm.Exchange` | src/HandlerArm.cpp:26-41 | the register writes of BX: the registers become Exchanged |
| `HandlerArm.BranchOffsetSigned` | src/HandlerArm.cpp:47-78 | adding the sign-filled offset to pc adds four times the signed 24-bit field, modulo 2^32 |
| `HandlerArm.Branched` | src/HandlerArm.cpp:47-78 | after B/BL, pc is pc + 4 * signed offset; with the link bit r14 is pc - 4 rounded down to a word; nothing else changes |
| `HandlerArm.Linked` | src/HandlerArm.cpp:60-66 | with bit 24 set r14 takes the return address; otherwise nothing changes |
| `HandlerArm.BranchLink` | src/HandlerArm.cpp:47-78 | the registers become Branched, the pipeline is flushed and 2S + 1N are ticked |
| `HandlerArm.Branch` | src/HandlerArm.cpp:60-75 | the registers become Branched |
| `HandlerArm.SupervisorEntry` | src/HandlerArm.cpp:1015-1064 | SVC entry: SVC mode, r14_svc the return address, I set, SPSR_svc the caller's CPSR |
| `HandlerArm.EnterSupervisor` | src/HandlerArm.cpp:1015-1064 | the registers become SupervisorEntry |
| `HandlerArm.SoftwareInterruptArm` | src/HandlerArm.cpp:1015-1064 | SVC entry with r14 = pc - 4, pc = 0x08, pipeline flushed, 2S + 1N |
| `HandlerArm.SoftwareInterruptEntry` | src/HandlerArm.cpp:1015-1064 | ARM SWI in full: SVC mode with IRQs disabled, r14_svc the next instruction, SPSR_svc the old CPSR, pc the vector, other registers kept |
| `HandlerArm.Operand2` | src/HandlerArm.cpp:104-160 | the second operand is a rotated 8-bit immediate or the shifted Rm, and its carry is a bit |
| `HandlerArm.AluFlags` | src/HandlerArm.cpp:169-246 | logical operations take C from the shifter, the others the addition or subtraction flags (reversed for RSB and RSC); only N, Z, C, V change |
| `HandlerArm.AluApplied` | src/HandlerArm.cpp:169-246 | Rd takes the result unless the operation only compares, then the flags with S set |
| `HandlerArm.DataProcessed` | src/HandlerArm.cpp:80-264 | the register file after DataProcessing, with the CPSR restored from the SPSR for S and Rd = r15 |
| `HandlerArm.DataProcessing` | src/HandlerArm.cpp:80-264 | the registers become DataProcessed, a write to r15 empties the pipeline, and the cycles grow by DataProcessingCycles |
| `HandlerArm.AluToPc` | src/HandlerArm.cpp:253-260 | a write to r15 empties the pipeline and with S copies SPSR into CPSR |
| `HandlerArm.TickDataProcessing` | src/HandlerArm.cpp:248-263 | one tick of DataProcessingCycles |
| `HandlerArm.Alu` | src/HandlerArm.cpp:104-246 | the operand fetch, the operation and the flags: the registers become AluApplied |
| `HandlerArm.UpdateAluFlags` | src/HandlerArm.cpp:169-246 | the flags become AluFlags of the operation |
| `HandlerArm.ShifterOperand` | src/HandlerArm.cpp:104-160 | the operand and carry are Operand2 |
| `HandlerArm.ImmediateOperandRotates` | src/HandlerArm.cpp:104-125 | an immediate operand is the 8-bit value rotated right by twice the rotate field; C passes through for rotation 0 |
| `HandlerArm.ZeroAmountEncodings` | src/HandlerArm.cpp:140-155 | LSR #0 means LSR #32, ASR #0 means ASR #32, ROR #0 means RRX |
| `HandlerArm.ComparisonsKeepRegisters` | src/HandlerArm.cpp:211-226 | TST, TEQ, CMP and CMN leave r0-r15 alone unless S with Rd = r15 restores the CPSR |
| `HandlerArm.AddMeaning` | src/HandlerArm.cpp:191-195 | ADDS into Rd other than r15: Rd is the wrapped sum, C the unsigned carry, V the signed overflow |
| `HandlerArm.SubtractMeaning` | src/HandlerArm.cpp:181-185 | SUBS into Rd other than r15: Rd is the wrapped difference, C set exactly when op1 >= op2, V the signed overflow |
| `HandlerArm.MultiplierCycles` | src/HandlerArm.cpp:292-302 | the intended multiplier cycles: 1, 2, 3 or 4 by the number of significant bytes of op2 (corrected form, see Findings) |
| `HandlerArm.MultiplyCyclesDiscrepancy` | src/HandlerArm.cpp:292-302 | the as-written chains never give 1 or 2 cycles: 0x12 costs 3 where 1 is meant |
| `HandlerArm.MultiplyFlags` | src/HandlerArm.cpp:312-318 | MUL's flags with S: N from bit 31, Z for a zero result, C set, V kept |
| `HandlerArm.Multiplied` | src/HandlerArm.cpp:266-325 | Rd = Rm * Rs (+ Rn) modulo 2^32 and the flags with S |
| `HandlerArm.MultiplyMeaning` | src/HandlerArm.cpp:266-325 | MUL and MLA leave Rm * Rs (+ Rn) modulo 2^32 in Rd and change no other register |
| `HandlerArm.Multiply` | src/HandlerArm.cpp:266-325 | r15 as Rd or Rm changes nothing; otherwise the registers become Multiplied and 1S + m I are ticked |
| `HandlerArm.MultiplyRegisters` | src/HandlerArm.cpp:304-320 | the registers become Multiplied |
| `HandlerArm.SetMultiplyFlags` | src/HandlerArm.cpp:312-318 | the flags become MultiplyFlags |
| `HandlerArm.LongResult` | src/HandlerArm.cpp:327-466 | the 64-bit product, unsigned or signed, plus RdHi:RdLo when accumulating, is below 2^64 |
| `HandlerArm.LongFlags` | src/HandlerArm.cpp:385-391 | N from bit 63, Z when all 64 bits are 0, C cleared |
| `HandlerArm.LongMultiplied` | src/HandlerArm.cpp:327-466 | the high word in RdHi, the low word in RdLo, and the flags with S |
| `HandlerArm.LongStored` | src/HandlerArm.cpp:370-391 | the 64-bit value split into RdHi and RdLo with the flags |
| `HandlerArm.LongMultiplyMeaning` | src/HandlerArm.cpp:327-466 | after an accepted long multiply RdHi:RdLo reads back as the 64-bit result and no other register changes |
| `HandlerArm.SignedLongProductExact` | src/HandlerArm.cpp:353-380 | SMULL's 64 bits, read as signed, are exactly the signed product |
| `HandlerArm.ProductBound` | src/HandlerArm.cpp:353-380 | two signed 32-bit factors have a product within 2^62 of zero |
| `HandlerArm.MultiplyLong` | src/HandlerArm.cpp:327-466 | r15 anywhere or overlapping registers change nothing; otherwise the registers become LongMultiplied and 1S + (m + 1 + A) I are ticked |
| `HandlerArm.LongMultiplyRegisters` | src/HandlerArm.cpp:353-450 | the registers become LongMultiplied |
| `HandlerArm.StoreLong` | src/HandlerArm.cpp:370-391 | the registers become LongStored |
| `HandlerArm.PsrExit` | src/HandlerArm.cpp:469-530 | an MSR exits with 6 for an SPSR write in USR mode, with 21 for a CPSR word naming no mode, and otherwise does not exit |
| `HandlerArm.PsrTransferred` | src/HandlerArm.cpp:469-530 | MRS copies the CPSR or SPSR into Rd; MSR writes the CPSR or SPSR, flags alone with bit 16 clear |
| `HandlerArm.PSRTransfer` | src/HandlerArm.cpp:469-530 | refused transfers change nothing; otherwise the registers become PsrTransferred, the exit code PsrExit, and 1S is ticked |
| `HandlerArm.TransferPsr` | src/HandlerArm.cpp:473-526 | the register and status-register writes of PsrTransferred |
| `HandlerArm.CpsrTransferRoundTrip` | src/HandlerArm.cpp:469-530 | MSR then MRS on the CPSR: outside USR mode a full write of a word naming a mode reads back as that word; a flags-only write, or any write in USR mode, keeps the mode, I, F, T and the banks |
| `HandlerArm.SpsrTransferRoundTrip` | src/HandlerArm.cpp:469-530 | MSR then MRS on the SPSR of a mode that owns one reads back as the word written |
| `HandlerArm.Offsetted` | src/HandlerArm.cpp:582-588 | the base moved up or down by the offset, modulo 2^32 |
| `HandlerArm.Loaded` | src/HandlerArm.cpp:591-646 | after a load, Rd holds the value, then the base is written back |
| `HandlerArm.Stored` | src/HandlerArm.cpp:623-646 | after a store, only the written-back base changes |
| `HandlerArm.LoadWriteBack` | src/HandlerArm.cpp:580-646 | a load leaves the value in Rd; Rn holds the moved base when W is set or the transfer is post-indexed and Rd is another register; other registers keep their values |
| `HandlerArm.StoreWriteBack` | src/HandlerArm.cpp:580-646 | a store changes no register but the base, which moves exactly when W is set or the transfer is post-indexed |
| `HandlerArm.SingleDataTransfer` | src/HandlerArm.cpp:532-649 | an r15 register offset changes nothing; a load puts the byte or the rotated word in Rd, a store writes Rd (pc + 12 for r15), with write-back and 1S + 1N + 1I or 2N |
| `HandlerArm.LoadTransfer` | src/HandlerArm.cpp:550-620 | an accepted LDR: the registers become Loaded of the value read, and the cycles |
| `HandlerArm.LoadFinish` | src/HandlerArm.cpp:608-620 | a load into r15 flushes the pipeline and costs one more N and S |
| `HandlerArm.StoreTransfer` | src/HandlerArm.cpp:550-648 | an accepted STR: the registers become Stored, the access is the store of StoreSource, 2N |
| `HandlerArm.LoadSingle` | src/HandlerArm.cpp:591-646 | LDR's read, Rd and the base write-back: the registers become Loaded |
| `HandlerArm.WriteLoaded` | src/HandlerArm.cpp:600-646 | the registers become Loaded |
| `HandlerArm.StoreSingle` | src/HandlerArm.cpp:623-646 | STR's write and write-back: the access logged, the registers become Stored |
| `HandlerArm.WriteBackStored` | src/HandlerArm.cpp:638-646 | the registers become Stored |
| `HandlerArm.HdtOffset` | src/HandlerArm.cpp:676-686 | the offset is the 8-bit immediate split over bits 11-8 and 3-0, or Rm |
| `HandlerArm.HdtImmediateDiscrepancy` | src/HandlerArm.cpp:670 | LDRH r0, [r1, #0xF] is refused as written although its offset is an immediate |
| `HandlerArm.ExtendByte` | src/HandlerArm.cpp:705-720 | bits 31-8 are set exactly when bit 7 is, and the low byte is kept |
| `HandlerArm.ExtendHalf` | src/HandlerArm.cpp:721-735 | bits 31-16 are set exactly when bit 15 is, and the low halfword is kept |
| `HandlerArm.SignedHalfExtended` | src/HandlerArm.cpp:721-735 | Read16's signed value is already sign-extended, so the handler's extension keeps it |
| `HandlerArm.HalfwordDataTransfer` | src/HandlerArm.cpp:652-773 | refused or ignored encodings change nothing; LDRH, LDRSB, LDRSH load the extended value into Rd and STRH stores the low halfword (in plain RAM, memory is the two bytes put at the cell), with write-back and cycles |
| `HandlerArm.HdtLoadOf` | src/HandlerArm.cpp:676-772 | an accepted halfword load: the registers become Loaded of HalfLoadValue, and the cycles |
| `HandlerArm.HdtStoreOf` | src/HandlerArm.cpp:676-772 | an accepted STRH: the write, the registers Stored, and the cycles |
| `HandlerArm.HalfLoadTransfer` | src/HandlerArm.cpp:689-772 | with the offset computed: the read, Rd, the base, the cycles |
| `HandlerArm.HalfLoadTicks` | src/HandlerArm.cpp:753-772 | 1S + 1N + 1I, one more S and N for r15, pipeline left as it is |
| `HandlerArm.HalfLoadSingle` | src/HandlerArm.cpp:696-751 | the read, the extension into Rd and the write-back |
| `HandlerArm.HalfRead` | src/HandlerArm.cpp:696-735 | the value is HalfLoadValue of Read8 or Read16 for the kind |
| `HandlerArm.HalfStoreTransfer` | src/HandlerArm.cpp:689-772 | STRH with the offset computed: the write, the base, 2N |
| `HandlerArm.HalfStoreSingle` | src/HandlerArm.cpp:696-751 | STRH writes the low halfword; in plain RAM the cell takes its two bytes and nothing else in memory changes |
| `HandlerArm.SingleDataSwap` | src/HandlerArm.cpp:978-1013 | r15 anywhere changes nothing; otherwise Rd takes the old byte or rotated word at Rn, Rm's byte or word is stored there, 1S + 2N + 1I |
| `HandlerArm.Swap` | src/HandlerArm.cpp:985-1011 | the read, the write, then Rd |
| `HandlerArm.SwapMemory` | src/HandlerArm.cpp:994-1010 | the old value is read and then source is written at the same address |
| `HandlerArm.SwapByte` | src/HandlerArm.cpp:994-1001 | SWPB's byte read and write |
| `HandlerArm.SwapWord` | src/HandlerArm.cpp:1002-1010 | SWP's word read and write |
| `HandlerArm.ListedBelow` | src/HandlerArm.cpp:828-840 | the set bits below k in ascending order, each below 16 |
| `HandlerArm.ListedBelowAscending` | src/HandlerArm.cpp:828-840 | the collected list is strictly ascending |
| `HandlerArm.ListedBelowMembers` | src/HandlerArm.cpp:828-840 | a register is collected exactly when its bit below k is set |
| `HandlerArm.RegisterList` | src/HandlerArm.cpp:828-840 | the register list holds at most 16 registers, each below 16 |
| `HandlerArm.RegisterListMeaning` | src/HandlerArm.cpp:828-840 | the list is strictly ascending and holds exactly the registers whose bits are set |
| `HandlerArm.PcListed` | src/HandlerArm.cpp:828-840 | r15 is listed exactly when bit 15 is set |
| `HandlerArm.Visit` | src/HandlerArm.cpp:856-945 | step t visits position t going up and position n - 1 - t going down |
| `HandlerArm.SlotAddressStep` | src/HandlerArm.cpp:856-945 | the word at step t is the base after t moves (post-indexed) or t + 1 moves (pre-indexed), in either direction |
| `HandlerArm.SlotAddressUp` | src/HandlerArm.cpp:856-878 | going up, the slots are base + 4t, one word further when pre-indexed |
| `HandlerArm.SlotAddressDown` | src/HandlerArm.cpp:879-901 | going down, the slots count back from base, one word lower when pre-indexed |
| `HandlerArm.BlockLoads` | src/HandlerArm.cpp:849-901 | step t of an LDM reads the word at its slot, and values[t] is what it returned |
| `HandlerArm.BlockStores` | src/HandlerArm.cpp:905-946 | step t of an STM writes the register at its position (pc + 12 for r15) to its slot |
| `HandlerArm.LoggedWords` | src/HandlerArm.cpp:849-901 | the words carried by a sequence of accesses, one per access |
| `HandlerArm.LoggedBlockLoads` | src/HandlerArm.cpp:849-901 | the logged words of an LDM's loads are the words loaded |
| `HandlerArm.LoadedBlock` | src/HandlerArm.cpp:849-901 | the register at Visit(t) takes values[t], with bit 0 cleared for r15 |
| `HandlerArm.LoadedBlockMeaning` | src/HandlerArm.cpp:849-901 | with distinct registers, each listed register ends with the word loaded at its step and no unlisted register changes |
| `HandlerArm.TransferBank` | src/HandlerArm.cpp:844-848 | with bit 22 set the USR bank is transferred; otherwise the current one |
| `HandlerArm.BlockFinished` | src/HandlerArm.cpp:948-972 | the base written back in the transferred bank when W is set, then the mode restored |
| `HandlerArm.BlockLoaded` | src/HandlerArm.cpp:775-976 | after a non-empty LDM the listed registers hold the loaded words, the base is written back unless Rb was loaded, and the mode restored |
| `HandlerArm.BlockStored` | src/HandlerArm.cpp:775-976 | after a non-empty STM only the written-back base changes, and the mode is restored |
| `HandlerArm.BlockLoadedMeaning` | src/HandlerArm.cpp:775-976 | without bit 22, each listed register holds the word read at its step, the base is moved past the block when written back and not loaded, and nothing else changes |
| `HandlerArm.BlockStoredMeaning` | src/HandlerArm.cpp:775-976 | without bit 22, a non-empty STM changes no register but the written-back base, and not the CPSR |
| `HandlerArm.PushPopRoundTrip` | src/HandlerArm.cpp:775-976 | the words STMDB Rb! stores for n registers are the words LDMIA Rb! then reads, register for register, from the same addresses |
| `HandlerArm.CollectRegisters` | src/HandlerArm.cpp:828-840 | the first loop's list is RegisterList, and Rb-in-list says whether bit Rb is set |
| `HandlerArm.LoadMultiple` | src/HandlerArm.cpp:849-901 | the load loop logs BlockLoads, leaves the registers LoadedBlock of the words read, and returns the moved base |
| `HandlerArm.LoadStep` | src/HandlerArm.cpp:858-900 | one load: the slot's address, Read32 there into the visited register, the moved base |
| `HandlerArm.LoadInto` | src/HandlerArm.cpp:862-870 | Read32 into the register, with a pipeline flush for r15 |
| `HandlerArm.NextSlot` | src/HandlerArm.cpp:858-875 | the address of step t and the base after it |
| `HandlerArm.VisitCovers` | src/HandlerArm.cpp:856-901 | visiting every step in either order meets r15 exactly when the list holds it |
| `HandlerArm.StoreMultiple` | src/HandlerArm.cpp:905-946 | the store loop logs BlockStores and, when every store is in plain RAM, leaves memory ApplyStores of them with no cycle charged |
| `HandlerArm.StoreStep` | src/HandlerArm.cpp:909-945 | one store: the slot's address, Write32 of the register there, the moved base |
| `HandlerArm.StoredStep` | src/HandlerArm.cpp:905-946 | one more store in RAM puts its register's word at its slot's cell |
| `HandlerArm.BlockStoresPrefix` | src/HandlerArm.cpp:905-946 | the first t stores of a block are a prefix of any longer run |
| `HandlerArm.BlockStoresStep` | src/HandlerArm.cpp:905-946 | one more step appends the store of its register at its slot |
| `HandlerArm.EmptyLoaded` | src/HandlerArm.cpp:803-826 | an LDM with an empty list loads r15 and moves Rb by 0x40 |
| `HandlerArm.EmptyStored` | src/HandlerArm.cpp:803-826 | an STM with an empty list moves Rb by 0x40 |
| `HandlerArm.BlockCycles` | src/HandlerArm.cpp:849-975 | LDM ticks nS + 1N + 1I, one more N and S with r15; STM ticks nS + 2N, one S per word as the code counts (its comment says (n - 1)S) |
| `HandlerArm.BlockDataTransfer` | src/HandlerArm.cpp:775-976 | Rb = r15 changes nothing; an empty list transfers r15 alone (an STM's word, inside RAM, left in memory without a tick); a non-empty LDM leaves BlockLoaded of the logged words with BlockCycles; a non-empty STM logs StmStores, leaves BlockStored and, in plain RAM, memory ApplyStores of the stores with BlockCycles |
| `HandlerArm.EmptyListTransfer` | src/HandlerArm.cpp:803-826 | the registers become EmptyLoaded or EmptyStored; an LDM logs the load of r15 and flushes the pipeline without ticking; an STM logs the store of r15 + 4 and, when that word is in RAM, memory holds it at the base with no cycles added |
| `HandlerArm.ListTransfer` | src/HandlerArm.cpp:828-975 | a non-empty list: LDM's or STM's whole post-state |
| `HandlerArm.LoadList` | src/HandlerArm.cpp:828-975 | LDM: the log grows by BlockLoads of the words read, the registers become BlockLoaded, the cycles grow by BlockCycles |
| `HandlerArm.StoreList` | src/HandlerArm.cpp:828-975 | STM: the log grows by StmStores, the registers become BlockStored; in plain RAM memory is ApplyStores and the cycles grow by BlockCycles |
| `HandlerArm.EmptyListLoad` | src/HandlerArm.cpp:806-814 | r15 loaded from the base, the pipeline flushed, the base moved by 0x40 |
| `HandlerArm.EmptyListStore` | src/HandlerArm.cpp:815-824 | r15 + 4 stored at the base (logged, and in RAM the word PutWord leaves in memory, with no tick), the base moved by 0x40 |
| `HandlerArm.LoadBlock` | src/HandlerArm.cpp:844-975 | the loads and one tick of BlockCycles |
| `HandlerArm.TickBlock` | src/HandlerArm.cpp:975 | one tick of BlockCycles |
| `HandlerArm.LoadRegisters` | src/HandlerArm.cpp:844-972 | the loads in the transferred bank, write-back unless Rb was loaded, the mode restored |
| `HandlerArm.LoadBanked` | src/HandlerArm.cpp:849-972 | the loads in the transferred bank, then write-back and mode restore |
| `HandlerArm.EnterBank` | src/HandlerArm.cpp:844-848 | the mode to restore, and a switch to USR with bit 22 |
| `HandlerArm.LeaveBank` | src/HandlerArm.cpp:948-972 | the final base written back when asked, then the mode restored |
| `HandlerArm.LoggedLoads` | src/HandlerArm.cpp:849-901 | the words an LDM's log suffix carries are the words it loaded |
| `HandlerArm.StoreBlock` | src/HandlerArm.cpp:844-975 | STM: the stores, write-back, mode restore and one tick; in plain RAM memory is ApplyStores of StmStores |
| `HandlerArm.StmStores` | src/HandlerArm.cpp:905-946 | an STM makes one word store per listed register |
| `HandlerArm.StoreRegisters` | src/HandlerArm.cpp:844-972 | STM's register work; in plain RAM memory is ApplyStores of StmStores and no cycle is charged yet |
| `HandlerThumb.LowReg` | src/HandlerThumb.cpp:11-34 | a three-bit register field names r0-r7 |
| `HandlerThumb.ArmState` | src/HandlerThumb.cpp:315-345 | SetState(ARM) clears the T bit and nothing else |
| `HandlerThumb.ImmediateShift` | src/HandlerThumb.cpp:11-34 | Rs shifted by the 5-bit immediate; LSR #0, ASR #0, ROR #0 mean LSR #32, ASR #32, RRX; the carry is a bit |
| `HandlerThumb.ShiftMoved` | src/HandlerThumb.cpp:11-34 | Rd takes the shifted value; N and Z follow it, C is the carry-out |
| `HandlerThumb.MoveShiftedRegister` | src/HandlerThumb.cpp:11-34 | the registers become ShiftMoved and 1S is ticked |
| `HandlerThumb.ShiftRegisters` | src/HandlerThumb.cpp:11-33 | the registers become ShiftMoved |
| `HandlerThumb.ShiftMovedMeaning` | src/HandlerThumb.cpp:11-34 | LSL #k multiplies Rs by 2^k modulo 2^32, LSR #k divides by 2^k, LSR #0 gives 0; N and Z describe Rd, V is kept, and no other register changes |
| `HandlerThumb.AddSubFlags` | src/HandlerThumb.cpp:36-68 | the flags of the addition or subtraction change only N, Z, C, V |
| `HandlerThumb.AddSubtracted` | src/HandlerThumb.cpp:36-68 | the flags, then Rd takes Rs +/- op2 |
| `HandlerThumb.AddSubtract` | src/HandlerThumb.cpp:36-68 | the registers become AddSubtracted and 1S is ticked |
| `HandlerThumb.AddSubRegisters` | src/HandlerThumb.cpp:36-66 | the registers become AddSubtracted |
| `HandlerThumb.AddSubCompute` | src/HandlerThumb.cpp:36-66 | the value and flags of the addition or subtraction |
| `HandlerThumb.AddSubtractMeaning` | src/HandlerThumb.cpp:36-68 | Rd holds Rs + op2 or Rs - op2 modulo 2^32; C is the carry or no-borrow, V the signed overflow; nothing else changes |
| `HandlerThumb.ImmediateMoved` | src/HandlerThumb.cpp:70-104 | MOV puts the immediate in Rd, CMP sets the flags of Rd - imm, ADD and SUB write Rd with their flags |
| `HandlerThumb.MoveImmediate` | src/HandlerThumb.cpp:70-104 | the registers become ImmediateMoved and 1S is ticked |
| `HandlerThumb.MoveImmediateRegisters` | src/HandlerThumb.cpp:70-102 | the registers become ImmediateMoved |
| `HandlerThumb.MoveImmediateMeaning` | src/HandlerThumb.cpp:70-104 | CMP writes no register and orders Rd against the immediate; MOV leaves the immediate in Rd with N clear and Z for 0 |
| `HandlerThumb.RegisterShift` | src/HandlerThumb.cpp:135-178 | Rd shifted by the low byte of Rs; amount 0 keeps Rd and C |
| `HandlerThumb.AluOutcome` | src/HandlerThumb.cpp:121-227 | the value of each operation on Rs and Rd, with the shifter's carry for the shifts |
| `HandlerThumb.NegFlagsAsWritten` | src/HandlerThumb.cpp:184-189 | NEG's flags as written are those of Rd - Rs (see Findings) |
| `HandlerThumb.NegFlags` | src/HandlerThumb.cpp:184-189 | NEG's flags are those of 0 - Rs: C only for Rs = 0, V only for Rs = 0x80000000 (corrected form, see Findings) |
| `HandlerThumb.NegFlagsDiscrepancy` | src/HandlerThumb.cpp:184-189 | NEG with Rs = 2 and Rd = 0xFFFFFFFF: 0 - 2 borrows, yet the as-written flags set C |
| `HandlerThumb.AluThumbFlags` | src/HandlerThumb.cpp:121-227 | the flags of each operation: addition for ADC, CMN and MUL, subtraction for SBC and CMP, NEG's own, logical otherwise |
| `HandlerThumb.AluApplied` | src/HandlerThumb.cpp:106-230 | Rd takes the result unless the operation only compares, then the flags |
| `HandlerThumb.AluThumb` | src/HandlerThumb.cpp:106-230 | the registers become AluApplied; 1S, plus 1I for a shift |
| `HandlerThumb.AluRegisters` | src/HandlerThumb.cpp:106-228 | the registers become AluApplied |
| `HandlerThumb.AluOperation` | src/HandlerThumb.cpp:121-227 | the value and carry are AluOutcome |
| `HandlerThumb.UpdateAluThumbFlags` | src/HandlerThumb.cpp:121-227 | the flags become AluThumbFlags |
| `HandlerThumb.AluComparisonsMeaning` | src/HandlerThumb.cpp:179-199 | TST, CMP and CMN write no register; CMP's flags order Rd against Rs |
| `HandlerThumb.NegMeaning` | src/HandlerThumb.cpp:184-189 | NEG leaves -Rs modulo 2^32 in Rd; C only for Rs = 0, V only for Rs = 0x80000000, whatever Rd held |
| `HandlerThumb.ShiftByRegisterMeaning` | src/HandlerThumb.cpp:135-158 | LSL by 1..32 multiplies Rd by 2^k modulo 2^32, amount 0 keeps Rd and C, above 32 gives 0 |
| `HandlerThumb.HiRs` | src/HandlerThumb.cpp:242 | H2 adds 8 to Rs |
| `HandlerThumb.HiRd` | src/HandlerThumb.cpp:243 | H1 adds 8 to Rd |
| `HandlerThumb.HiApplied` | src/HandlerThumb.cpp:232-351 | ADD puts Rs + Rd in Rd and MOV Rs (bit 0 cleared for pc); CMP sets the flags only; BX jumps and may switch state |
| `HandlerThumb.HiRegisterOps` | src/HandlerThumb.cpp:232-351 | undefined forms change nothing; otherwise the registers become HiApplied, with 2S + 1N and a flush when pc is written, 1S otherwise |
| `HandlerThumb.RefillOrStep` | src/HandlerThumb.cpp:264-350 | a pc write flushes the pipeline and costs 2S + 1N; otherwise 1S |
| `HandlerThumb.HiRegisters` | src/HandlerThumb.cpp:245-348 | the registers become HiApplied |
| `HandlerThumb.BxToArm` | src/HandlerThumb.cpp:323-333 | pc takes the target aligned to a word, then ARM state |
| `HandlerThumb.BxMeaning` | src/HandlerThumb.cpp:315-345 | BX to an even address enters ARM state at the word-aligned target; to an odd one stays in THUMB at target - 1; nothing else changes |
| `HandlerThumb.HiArithmeticMeaning` | src/HandlerThumb.cpp:256-313 | ADD and MOV change only Rd and not the flags; CMP changes only the flags, ordering Rd against Rs |
| `HandlerThumb.LoadWidth` | src/HandlerThumb.cpp:369-607 | the bytes each load kind reads |
| `HandlerThumb.LoadRead` | src/HandlerThumb.cpp:369-607 | Read8 for bytes, Read16 (signed for LDSH), Read32 with LDR's rotation |
| `HandlerThumb.LoadedValue` | src/HandlerThumb.cpp:450-460 | LDSB sign-extends its byte; the other reads are taken as they are |
| `HandlerThumb.StoredCells` | src/HandlerThumb.cpp:369-607 | memory after a plain-RAM store of the width keeps its size |
| `HandlerThumb.StoredCellsElsewhere` | src/HandlerThumb.cpp:369-607 | a plain-RAM store changes only its own cells |
| `HandlerThumb.StoredCellsReadBack` | src/HandlerThumb.cpp:369-607 | the stored cells read back as the value cut to the width |
| `HandlerThumb.HalfReadBack` | src/HandlerThumb.cpp:534-570 | the two stored bytes of a halfword pack back into it |
| `HandlerThumb.Move` | src/HandlerThumb.cpp:369-607 | a load or a store between Rd and the address, with its cycles |
| `HandlerThumb.LoadTicked` | src/HandlerThumb.cpp:386-412 | a load into Rd: 1S + 1N + 1I |
| `HandlerThumb.StoreTicked` | src/HandlerThumb.cpp:398-412 | a store of Rd: 2N |
| `HandlerThumb.ThumbLoad` | src/HandlerThumb.cpp:386-400 | the read of the kind, and Rd takes LoadedValue of it |
| `HandlerThumb.ReadKind` | src/HandlerThumb.cpp:386-470 | the value is LoadRead of the kind |
| `HandlerThumb.ThumbStore` | src/HandlerThumb.cpp:398-410 | Write8 of the low byte, Write16 of the low halfword, or Write32 |
| `HandlerThumb.PcRelLoad` | src/HandlerThumb.cpp:353-367 | Rd takes the word at (pc & ~2) + imm * 4; 1S + 1N + 1I |
| `HandlerThumb.PcRelAligned` | src/HandlerThumb.cpp:353-367 | with pc on a halfword, the PC-relative address is a word address |
| `HandlerThumb.WrapAligned` | src/HandlerThumb.cpp:353-367 | wrapping modulo 2^32 keeps the remainder modulo 2 and 4 |
| `HandlerThumb.LoadStoreRegOffset` | src/HandlerThumb.cpp:369-413 | LDR, LDRB, STR, STRB at Rb + Ro |
| `HandlerThumb.LoadStoreSignedHalfword` | src/HandlerThumb.cpp:415-475 | STRH, LDRH, LDSB, LDSH at Rb + Ro |
| `HandlerThumb.LoadStoreImmediate` | src/HandlerThumb.cpp:477-532 | LDR, LDRB, STR, STRB at Rb + imm (in words unless a byte) |
| `HandlerThumb.LoadStoreHalfword` | src/HandlerThumb.cpp:534-570 | LDRH, STRH at Rb + imm * 2 |
| `HandlerThumb.ImmediateAddressesAligned` | src/HandlerThumb.cpp:477-570 | with an aligned base, word transfers hit word addresses and halfword transfers halfword addresses |
| `HandlerThumb.SpRelLoadStore` | src/HandlerThumb.cpp:572-607 | LDR, STR at sp + imm * 4 |
| `HandlerThumb.AddressLoaded` | src/HandlerThumb.cpp:609-636 | Rd takes sp, or pc with bit 1 cleared, plus imm * 4 |
| `HandlerThumb.LoadAddress` | src/HandlerThumb.cpp:609-636 | the registers become AddressLoaded; 1S |
| `HandlerThumb.LoadAddressRegisters` | src/HandlerThumb.cpp:609-634 | the registers become AddressLoaded |
| `HandlerThumb.LoadAddressMeaning` | src/HandlerThumb.cpp:609-636 | ADD Rd, PC/SP, #imm computes the address LDR Rd, [PC/SP, #imm] reads; the flags are kept |
| `HandlerThumb.SpAdjusted` | src/HandlerThumb.cpp:638-656 | sp moved up or down by the 7-bit word offset |
| `HandlerThumb.AddOffsetToSp` | src/HandlerThumb.cpp:638-656 | the registers become SpAdjusted; 1S |
| `HandlerThumb.AdjustSp` | src/HandlerThumb.cpp:645-653 | the registers become SpAdjusted |
| `HandlerThumb.SpAdjustRoundTrip` | src/HandlerThumb.cpp:638-656 | ADD SP, #imm then ADD SP, #-imm (either order) gives sp back and touches nothing else |
| `HandlerThumb.LowList` | src/HandlerThumb.cpp:673-680 | the set bits among bits 7-0 in ascending order |
| `HandlerThumb.CollectLow` | src/HandlerThumb.cpp:673-680 | the first loop's list is LowList |
| `HandlerThumb.AscendingStores` | src/HandlerThumb.cpp:715-730 | one word store per register, at consecutive words from the base up |
| `HandlerThumb.AscendingLoads` | src/HandlerThumb.cpp:734-750 | one word load per value, at consecutive words from the base up |
| `HandlerThumb.AscendingStoresStep` | src/HandlerThumb.cpp:715-730 | one more store appends its access |
| `HandlerThumb.AscendingLoadsStep` | src/HandlerThumb.cpp:734-750 | one more load appends its access |
| `HandlerThumb.LoggedAscendingLoads` | src/HandlerThumb.cpp:734-750 | the logged words of ascending loads are the words loaded |
| `HandlerThumb.AscendingBlockStores` | src/HandlerThumb.cpp:815-830 | an ascending post-indexed block store stores the registers in order from the base up |
| `HandlerThumb.AscendingStoresAgree` | src/HandlerThumb.cpp:715-730 | register files that agree on the stored registers give the same stores |
| `HandlerThumb.AscendingReadBack` | src/HandlerThumb.cpp:715-750 | words stored ascending and loaded back ascending into the same distinct registers restore them |
| `HandlerThumb.LoadAscending` | src/HandlerThumb.cpp:734-740 | Read32 of consecutive words into the listed registers, in order |
| `HandlerThumb.LoadAscendingStep` | src/HandlerThumb.cpp:734-740 | one step: Read32 at b into the next listed register |
| `HandlerThumb.PushList` | src/HandlerThumb.cpp:703-730 | the low registers, then lr when R is set |
| `HandlerThumb.Pushed` | src/HandlerThumb.cpp:703-714 | sp lowered by a word per register pushed |
| `HandlerThumb.PoppedList` | src/HandlerThumb.cpp:731-755 | the listed registers take the words in order, pc the next when asked, sp raised |
| `HandlerThumb.Popped` | src/HandlerThumb.cpp:731-755 | POP's register file |
| `HandlerThumb.PushPop` | src/HandlerThumb.cpp:658-759 | PUSH lowers sp and stores the list and lr upwards (in plain RAM memory is ApplyStores of them); POP loads upwards, then sp; both tick |
| `HandlerThumb.PushOf` | src/HandlerThumb.cpp:703-758 | PUSH from the instruction: registers Pushed, stores logged, memory and cycles in plain RAM |
| `HandlerThumb.PopOf` | src/HandlerThumb.cpp:731-758 | POP from the instruction: the registers become Popped of the words logged |
| `HandlerThumb.PopLogged` | src/HandlerThumb.cpp:731-758 | POP through the words it logged |
| `HandlerThumb.Push` | src/HandlerThumb.cpp:703-758 | sp first, then the stores; memory ApplyStores in plain RAM; nS + 2N, one S per word stored (lr included) |
| `HandlerThumb.PushStores` | src/HandlerThumb.cpp:715-758 | the stores from the new sp up, then the tick |
| `HandlerThumb.LowerSp` | src/HandlerThumb.cpp:705-713 | sp lowered by 4n, and 4 more for lr |
| `HandlerThumb.StoreAscending` | src/HandlerThumb.cpp:715-730 | the listed registers and lr stored upwards; memory ApplyStores in plain RAM |
| `HandlerThumb.StoreLow` | src/HandlerThumb.cpp:715-721 | the low registers stored upwards from base |
| `HandlerThumb.StoreLr` | src/HandlerThumb.cpp:722-728 | lr stored one word above the list |
| `HandlerThumb.Pop` | src/HandlerThumb.cpp:731-758 | the loads, pc last, then sp; nS + 1N + 1I, one more S and N for pc |
| `HandlerThumb.PopLoads` | src/HandlerThumb.cpp:731-755 | POP's loads and register writes |
| `HandlerThumb.PopWithoutPc` | src/HandlerThumb.cpp:731-755 | the loads then sp |
| `HandlerThumb.PopWithPc` | src/HandlerThumb.cpp:731-755 | the loads, pc, then sp |
| `HandlerThumb.LoadWithPc` | src/HandlerThumb.cpp:734-750 | the list, then pc from the word above it |
| `HandlerThumb.PoppedWithPc` | src/HandlerThumb.cpp:731-755 | PoppedList with pc is the loaded registers, then pc, then sp |
| `HandlerThumb.PoppedWithoutPc` | src/HandlerThumb.cpp:731-755 | PoppedList without pc is the loaded registers, then sp |
| `HandlerThumb.PopPc` | src/HandlerThumb.cpp:741-750 | pc takes the word with bit 0 cleared, and the pipeline is flushed |
| `HandlerThumb.PushPopThumbRoundTrip` | src/HandlerThumb.cpp:658-759 | a POP with the list and R bit of a PUSH, sp where the PUSH left it, reads the pushed words from the addresses written and restores the registers and sp |
| `HandlerThumb.LoadsFollowStores` | src/HandlerThumb.cpp:715-750 | loading what an ascending store wrote, from the same base, visits the same addresses |
| `HandlerThumb.PopReadsBack` | src/HandlerThumb.cpp:731-755 | popping the words stored from sp restores the listed registers |
| `HandlerThumb.BlockEnd` | src/HandlerThumb.cpp:786-830 | Rb ends at base + 4n, or base + 0x40 for an empty list |
| `HandlerThumb.LdmiaCount` | src/HandlerThumb.cpp:786-815 | one word per listed register, or one for pc alone |
| `HandlerThumb.Ldmia` | src/HandlerThumb.cpp:786-815 | the listed registers take the words in order (pc alone for an empty list), then Rb unless listed |
| `HandlerThumb.LoadedBlockOf` | src/HandlerThumb.cpp:805-815 | Ldmia for a list of low registers and a base register |
| `HandlerThumb.Stmia` | src/HandlerThumb.cpp:816-830 | after STMIA only Rb changes |
| `HandlerThumb.StmiaStores` | src/HandlerThumb.cpp:786-830 | the listed registers as they were, in order from the base up; an empty list stores r15 + 4 |
| `HandlerThumb.StoredBlock` | src/HandlerThumb.cpp:816-830 | STMIA's stores for a list and base |
| `HandlerThumb.MultipleLoadStore` | src/HandlerThumb.cpp:761-837 | LDMIA reads upwards into the listed registers; STMIA stores them upwards (in plain RAM memory is ApplyStores of StmiaStores); Rb written back; cycles |
| `HandlerThumb.LdmiaOf` | src/HandlerThumb.cpp:786-836 | LDMIA from the instruction: the registers become Ldmia of the words logged |
| `HandlerThumb.LoadBlock` | src/HandlerThumb.cpp:805-815 | the loads and write-back; returns the words read |
| `HandlerThumb.LoadPcOnly` | src/HandlerThumb.cpp:786-795 | Read32 at Rb into pc, a flush, Rb + 0x40, no cycles |
| `HandlerThumb.LoadPc` | src/HandlerThumb.cpp:788-792 | Read32 at base into pc with bit 0 kept, and a flush |
| `HandlerThumb.FirstSlot` | src/HandlerThumb.cpp:788-792 | a one-word load logs the base itself |
| `HandlerThumb.LoadListed` | src/HandlerThumb.cpp:805-836 | the load loop, Rb written back, nS + 1N + 1I |
| `HandlerThumb.StmiaOf` | src/HandlerThumb.cpp:786-836 | STMIA from the instruction: stores StmiaStores, registers Stmia; memory and cycles in plain RAM |
| `HandlerThumb.StoreBlock` | src/HandlerThumb.cpp:786-836 | STMIA's stores and write-back; memory ApplyStores in plain RAM |
| `HandlerThumb.StorePcOnly` | src/HandlerThumb.cpp:796-802 | r15 + 4 stored at Rb, Rb + 0x40, no tick; in plain RAM memory is PutWord at the base |
| `HandlerThumb.StoreListed` | src/HandlerThumb.cpp:816-836 | the store loop, Rb written back, nS + 2N; memory ApplyStores in plain RAM |
| `HandlerThumb.StmiaLdmiaRoundTrip` | src/HandlerThumb.cpp:761-837 | LDMIA after STMIA with the same Rb and list reads the stored words from the addresses they were stored to and restores the listed registers |
| `HandlerThumb.Signed8` | src/HandlerThumb.cpp:852-860 | an 8-bit field read as two's complement lies in -128..127 |
| `HandlerThumb.Signed11` | src/HandlerThumb.cpp:940-950 | an 11-bit field read as two's complement lies in -1024..1023 |
| `HandlerThumb.CondTarget` | src/HandlerThumb.cpp:852-866 | the target is pc + 2 * sign-extended offset, modulo 2^32 (corrected form, see Findings) |
| `HandlerThumb.CondTargetDiscrepancy` | src/HandlerThumb.cpp:852-866 | offset 0x80 (-256 bytes) branches to pc itself as written |
| `HandlerThumb.CondBranched` | src/HandlerThumb.cpp:839-875 | pc takes the target exactly when the condition holds |
| `HandlerThumb.ConditionalBranch` | src/HandlerThumb.cpp:839-875 | a failing condition ticks 1S; a holding one moves pc, flushes and ticks 2S + 1N |
| `HandlerThumb.BranchRegisters` | src/HandlerThumb.cpp:862-870 | pc takes the target when taken |
| `HandlerThumb.CondBranchMeaning` | src/HandlerThumb.cpp:839-875 | a failing condition leaves every register; a holding one moves pc by twice the signed offset |
| `HandlerThumb.UncondTarget` | src/HandlerThumb.cpp:933-967 | pc + 2 * sign-extended 11-bit offset, modulo 2^32 |
| `HandlerThumb.UnconditionalBranch` | src/HandlerThumb.cpp:933-967 | pc takes the target; 2S + 1N and a flush |
| `HandlerThumb.LongBranchHigh` | src/HandlerThumb.cpp:996-1010 | pc + (sign-extended 22-bit offset high part) modulo 2^32 |
| `HandlerThumb.LongBranched` | src/HandlerThumb.cpp:969-1020 | with H clear lr takes pc plus the high offset; with H set pc takes lr plus the low offset and lr the return address with bit 0 set |
| `HandlerThumb.LongBranchLink` | src/HandlerThumb.cpp:969-1020 | the second half branches, flushes and ticks 3S + 1N; the first ticks nothing |
| `HandlerThumb.LongBranchRegisters` | src/HandlerThumb.cpp:975-1015 | the registers become LongBranched |
| `HandlerThumb.LongBranchPair` | src/HandlerThumb.cpp:969-1020 | the two halves together land on the first half's pc plus the 22-bit offset times 2, whatever the fetch did to pc in between |
| `HandlerThumb.ThumbSwiEntered` | src/HandlerThumb.cpp:877-931 | SVC entry with lr = pc - 2, ARM state, pc at 0x08 |
| `HandlerThumb.SoftwareInterruptThumb` | src/HandlerThumb.cpp:877-931 | the registers become ThumbSwiEntered; 2S + 1N and a flush |
| `HandlerThumb.ThumbSwiRegisters` | src/HandlerThumb.cpp:916-929 | the register writes of the THUMB SWI |
| `HandlerThumb.ThumbSwiMeaning` | src/HandlerThumb.cpp:877-931 | THUMB SWI in full: SVC mode, IRQs disabled, ARM state, r14_svc the next instruction, SPSR_svc the old CPSR |
| `Bus.RegionUnknownExactly` | src/Memory.cpp:1242-1265 | the mapped regions are named by their top bytes and every other top byte is UNKNOWN |
| `Bus.FoldVramAsWrittenEscapes` | src/Memory.cpp:357-363 | the as-written VRAM fold leaves 0x6038000 above VRAM |
| `Bus.FoldVramInVram` | src/Memory.cpp:357-363 | the corrected fold lands in VRAM, is the identity on VRAM, is idempotent, folds 0x6018000-0x601FFFF down by 0x8000 and repeats every 128K |
| `Bus.FoldVramAgreesBelowMirror` | src/Memory.cpp:357-363 | the two folds agree on the first 128K and differ on the upper 32K of every later copy |
| `Bus.Fold` | src/Memory.cpp:332-400 | the address switch of read8 and write8 (with the corrected VRAM fold): the folded address lies below 2^32 |
| `Bus.FoldAsWrittenLeavesVram` | src/Memory.cpp:357-363 | folding as written can land outside VRAM |
| `Bus.FoldRange` | src/Memory.cpp:197-260 | RAM regions stay in their region, VRAM in VRAM, ROM images in the cart ROM, cart RAM in the 64K chip |
| `Bus.CellFoldsToItself` | src/Memory.cpp:197-260 | an address already inside a region is its own fold |
| `Bus.FoldIdempotent` | src/Memory.cpp:197-260 | folding is idempotent |
| `Bus.FoldMirrors` | src/Memory.cpp:197-260 | ROM images 2 and 3 mirror image 1; cart RAM repeats every 64K, EWRAM every 256K, IWRAM every 32K |
| `Bus.PutWord` | src/Memory.cpp:315-321 | the word's four bytes at a, lowest first; memory keeps its size |
| `Bus.GetPutWord` | src/Memory.cpp:181-187 | a stored word reads back and words that do not overlap it are unchanged |
| `Bus.Word4RoundTrip` | src/Memory.cpp:181-187 | splitting a word into bytes and composing them again are inverse, both ways |
| `Bus.WaitN` | src/Memory.cpp:528-536 | WAITCNT bits 3-2 select 4, 3, 2 or 8 |
| `Bus.WaitS` | src/Memory.cpp:537-543 | the value above bit 3: 0 gives 2, 1 gives 1, anything else keeps the old count |
| `Bus.ControlRoundTrip` | src/Memory.cpp:643-661 | decoding inverts encoding on channels whose fields fit, and encoding a decoded channel gives back its control bits |
| `Bus.DmaStartAligned` | src/Memory.cpp:1146-1190 | a start address is the stored value masked to its span; on DMA3 the largest multiple of the chunk width not above it |
| `Bus.DispstatWritable` | src/Memory.cpp:436-447 | the read-only status bits and the trigger survive a low-byte write; a high-byte write changes only the trigger |
| `Bus.NoWrapBytes` | src/Memory.cpp:448-467 | clearing bit 13 clears bit 5 of the high byte only |
| `Bus.Plan` | src/Memory.cpp:914-940 | the first k chunks of a transfer, each of the transfer's width, in copy order |
| `Bus.PlanAt` | src/Memory.cpp:914-940 | chunk i is i steps along both pointer walks |
| `Bus.AdvanceFixed` | src/Memory.cpp:891-912 | a fixed pointer stays where it started |
| `Bus.FixedDestination` | src/Memory.cpp:891-940 | a fixed destination receives every chunk |
| `Bus.CopyRam` | src/Memory.cpp:914-940 | one chunk copied inside RAM; memory keeps its size |
| `Bus.Replay` | src/Memory.cpp:914-940 | memory after the chunks copied in order keeps its size |
| `Bus.CopyRamCopies` | src/Memory.cpp:914-940 | after a copied chunk the destination holds what the source held before, and every byte outside the destination is unchanged |
| `Bus.PlanPrefixInRam` | src/Memory.cpp:914-940 | the first i chunks of a plan in RAM are in RAM |
| `Bus.ReplayStep` | src/Memory.cpp:914-940 | replaying one more chunk copies it over the replay so far |
| `Bus.IoRegisterOf` | src/Memory.cpp:422-823 | each address of write8's switch decodes to the register that owns it |
| `Bus.IoRegisterOwnsAddress` | src/Memory.cpp:422-823 | the decoded register lies in the I/O block and owns the address |
| `Bus.IoRegisterBytes` | src/Memory.cpp:422-823 | every byte of every register decodes to that register |
| `Bus.DisplayBytes` | src/Memory.cpp:422-636 | the display register bytes decode to their registers |
| `Bus.DmaBytes` | src/Memory.cpp:637-755 | the DMA register bytes decode to their registers |
| `Bus.TimerBytes` | src/Memory.cpp:756-800 | the timer register bytes decode to their registers |
| `Bus.PlainRamByte` | src/Memory.cpp:332-421 | a byte of EWRAM or IWRAM is its own fold, outside the BIOS, OAM and I/O, and stored in memory[] |
| `Bus.RamRegionByte` | src/Memory.cpp:332-421 | a RAM-region address folds to a plain cell of its own region |
| `Bus.Memory.constructor` | src/Memory.cpp:47-80 | zeroed memory, cart ROM and DMA channels, n = 4 and s = 2 wait cycles, no key pressed |
| `Bus.Memory.Write8Unsafe` | src/Memory.cpp:857-860 | the raw cell takes the byte and nothing else changes |
| `Bus.Memory.Write16Unsafe` | src/Memory.cpp:851-855 | the two cells take the halfword, low byte first |
| `Bus.Memory.Write32Unsafe` | src/Memory.cpp:843-849 | the four cells take the word, which reads back unchanged |
| `Bus.Memory.WriteDispcnt` | src/Memory.cpp:424-435 | DispcntWritten: DISPCNT is the two stored bytes and bits 8-11 enable backgrounds 0-3; memory and the rest of the bus's state unchanged |
| `Bus.Memory.SetEnables` | src/Memory.cpp:428-434 | the four background entries take their enable bits from bits 8-11, their other fields kept |
| `Bus.Memory.WriteDispstat` | src/Memory.cpp:436-447 | DISPSTAT becomes DispstatFromLow or DispstatFromHigh; nothing else on the bus changes |
| `Bus.Memory.WriteBgcnt` | src/Memory.cpp:448-479 | BGxCNT is the two stored bytes; BG0 and BG1 lose bit 13, in memory too; the other backgrounds and the rest of the bus unchanged |
| `Bus.Memory.WriteBgScroll` | src/Memory.cpp:480-527 | the scroll offset is the two stored bytes; nothing else on the bus changes |
| `Bus.Memory.WriteBgRef` | src/Memory.cpp:546-579 | the reference point is the four stored bytes; nothing else on the bus changes |
| `Bus.Memory.WriteWaitcnt` | src/Memory.cpp:528-545 | the wait cycles become WaitN and WaitS of the value; nothing else on the bus changes |
| `Bus.Memory.WriteWindowContent` | src/Memory.cpp:604-636 | bits 6-7 are dropped in memory and in the window-content row; the other rows and the rest of the bus unchanged |
| `Bus.Memory.WriteWindowBounds` | src/Memory.cpp:578-601 | WinBoundsWritten: WINxH or WINxV is clipped from the two stored bytes; the other window, the other axis, memory and the rest of the bus unchanged |
| `Bus.Memory.WriteDmaCount` | src/Memory.cpp:638-642 | the transfer count is the two stored bytes; the other channels and the rest of the bus unchanged |
| `Bus.Memory.WriteDmaDest` | src/Memory.cpp:643-646 | the destination adjustment is bits 5-6 of the byte; the other channels and the rest of the bus unchanged |
| `Bus.Memory.WriteDmaHigh` | src/Memory.cpp:647-666 | the control fields are Decoded; an enabled immediate-mode channel runs and is then disabled: its DmaPlan logged, the interrupt raised when asked, SAD and DAD holding the end pointers and, when the plan stays in RAM, memory the Replay of the plan from the memory the write found (ControlWritten); otherwise only the control is stored, and nothing else on the bus changes |
| `Bus.Memory.StartImmediate` | src/Memory.cpp:647-666 | a control that enables an immediate channel: the channel runs (ControlWritten's run case) and is disabled |
| `Bus.Memory.StoreControl` | src/Memory.cpp:647-666 | a control that starts nothing is stored, disabled when it asks for a start that is not allowed; the other channels, memory and the rest of the bus unchanged |
| `Bus.Memory.SetChannel` | src/Memory.cpp:647-666 | one channel's registers replaced, the other channels kept |
| `Bus.Memory.RunDma` | src/Memory.cpp:876-964 | the chunks copied are DmaPlan; in RAM memory is Replay of them; the pointers written back; the channel disabled unless it repeats; the interrupt raised when asked |
| `Bus.Memory.FinishDma` | src/Memory.cpp:942-962 | DAD, then SAD written back, the channel disabled unless it repeats, the interrupt raised when asked |
| `Bus.Memory.WriteBack` | src/Memory.cpp:942-950 | DAD then SAD stored as words; both read back as stored |
| `Bus.Memory.CopyChunks` | src/Memory.cpp:914-940 | the copy loop logs the plan's chunks and, in RAM, leaves memory Replay of them; its invariant is the replay of the first i chunks |
| `Bus.Memory.CopyNext` | src/Memory.cpp:914-940 | chunk i copied, the log and the replay one chunk further |
| `Bus.Memory.CopyChunk` | src/Memory.cpp:916-938 | inside RAM the destination takes the source's old bytes (CopyRam) and nothing else changes |
| `Bus.Memory.CopyWord` | src/Memory.cpp:916-924 | read32 then write32 with DMA starts disabled |
| `Bus.Memory.CopyHalf` | src/Memory.cpp:930-938 | read16 then write16 with DMA starts disabled |
| `Bus.Memory.IoWrite` | src/Memory.cpp:422-823 | Written: per register, the device copy takes the stored bytes (or the byte written, for DISPSTAT, WAITCNT, DMAxCNT bytes 2-3 and WININ/WINOUT); memory keeps the bytes as stored except the BG0/BG1 control and window-content bytes rewritten and an immediate DMA's copy; a register kept in an array (backgrounds, DMA channels, timers) changes only at its own index; apart from an immediate DMA run, every other part of the bus's state is unchanged |
| `Bus.Memory.WriteDisplayRegister` | src/Memory.cpp:422-636 | DisplayWritten: DISPCNT, DISPSTAT, BGxCNT, scroll, reference point, WAITCNT, window bounds and contents each take their new value from the stored bytes; memory (bar the rewritten bytes) and the rest of the bus's state unchanged |
| `Bus.Memory.WriteDmaRegister` | src/Memory.cpp:637-755 | DmaWritten: the count is the two stored bytes, byte 2 the destination adjustment, byte 3 ControlWritten; except for an immediate run, the other channels, memory and the rest of the bus unchanged |
| `Bus.Memory.WriteDeviceRegister` | src/Memory.cpp:756-823 | DeviceWritten: a timer's reload and count or control and prescaler, KEYCNT, IE and IME take the stored bytes, a write to IF clears the stored halfword; memory, the other timers and the rest of the bus's state unchanged |
| `Bus.Memory.WriteKeycnt` | src/Memory.cpp:799-803 | KEYCNT is the two stored bytes; nothing else on the bus changes |
| `Bus.Memory.WriteIf` | src/Memory.cpp:805-809 | the stored halfword is handed to the interrupt block's clear; nothing else on the bus changes |
| `Bus.Memory.WriteIe` | src/Memory.cpp:811-815 | IE is the stored halfword; nothing else on the bus changes |
| `Bus.Memory.WriteIme` | src/Memory.cpp:817-821 | IME is the stored halfword; nothing else on the bus changes |
| `Bus.Memory.WriteTimerData` | src/Memory.cpp:755-777 | TimerDataWritten: the timer's reload and count are the two stored bytes; the other timers, memory and the rest of the bus unchanged |
| `Bus.Memory.WriteTimerCnt` | src/Memory.cpp:779-797 | TimerCntWritten: the timer's control is the stored byte and its low bits pick the prescaler; the other timers, memory and the rest of the bus unchanged |
| `Bus.Memory.StoreCell` | src/Memory.cpp:402-823 | the BIOS is not written, above MEM_SIZE the cart ROM takes the byte, anything else is stored in memory[]; for an I/O register the switch's effect is Written from memory with the byte stored, which fixes the rest of the bus's state too (bar an immediate DMA run) |
| `Bus.Memory.WriteRam8` | src/Memory.cpp:329-421 | a byte write to a RAM region changes its folded cell and nothing else |
| `Bus.Memory.Write8` | src/Memory.cpp:329-823 | write8: invalid addresses are not written, cart RAM goes to the Flash chip, any other address to StoreCell (plain cells take the byte, an I/O register has the Written effect); OAM marks OAM as changed; in each case the parts of the bus the write does not address are unchanged (bar an immediate DMA run) |
| `Bus.Memory.StoreFolded` | src/Memory.cpp:365-421 | a write folded to a cell: OAM marked as changed for an OAM address, then StoreCell's effect |
| `Bus.Memory.Write16` | src/Memory.cpp:323-327 | the low byte at address, then the high byte at address + 1: in plain RAM the two cells take them and nothing else changes |
| `Bus.Memory.Write32` | src/Memory.cpp:315-321 | the four bytes, lowest first, at address .. address + 3: in plain RAM memory becomes PutWord and nothing else changes |
| `Bus.Memory.PlainRead8` | src/Memory.cpp:194-313 | a plain RAM byte reads back as its cell |
| `Bus.Memory.PlainRead32` | src/Memory.cpp:181-187 | a plain RAM word reads as its four cells |
| `Bus.Memory.PlainRead16` | src/Memory.cpp:189-192 | a plain RAM halfword reads as its two cells |
| `Bus.Memory.IrqHandlerWord` | src/Memory.cpp:181-260 | 0x3FFFFFC reads the last word of IWRAM |
| `Bus.Memory.IwramRead8` | src/Memory.cpp:212-215 | an IWRAM-region address reads its cell in the 32K of IWRAM |
| `Backup.SectorOf` | src/backup/Flash.cpp:41 | the sector of an index is bits 15-12 |
| `Backup.SectorStartAsWrittenMissesCell` | src/backup/Flash.cpp:41-44 | erasing for index 0x1FFF as written misses that cell and wipes part of sector 0 |
| `Backup.SectorStartHoldsIndex` | src/backup/Flash.cpp:38-49 | with the corrected start, the erased 4K range is exactly the aligned sector holding the index |
| `Backup.Erased` | src/backup/Flash.cpp:44 | memset: the count cells from `from` become 0xFF and every other cell keeps its value |
| `Backup.StepKeepsWellFormed` | src/backup/Flash.cpp:27-135 | every write keeps the registers well-formed: bank 1 is never reached on a 64K part |
| `Backup.StepStates` | src/backup/Flash.cpp:27-135 | 0xAA at 0x5555 moves READY to CMD_1, 0x55 at 0x2AAA CMD_1 to CMD_2, command states are entered only from CMD_2 by their byte, every other write keeps the state or returns to READY |
| `Backup.BankOnlyFor128K` | src/backup/Flash.cpp:51-61 | only a write in SET_MEMORY_BANK changes the bank |
| `Backup.ProgramByte` | src/backup/Flash.cpp:27-135 | the four-write program sequence stores exactly one byte in the current bank and ends in READY |
| `Backup.ProgramThenRead` | src/backup/Flash.cpp:27-160 | after the program sequence, reading the cell gives the byte written |
| `Backup.ChipErase` | src/backup/Flash.cpp:97-105 | chip erase fills every cell with 0xFF and disarms erasing |
| `Backup.SectorErase` | src/backup/Flash.cpp:38-49 | once armed, 0x30 at any index erases the sector holding it and disarms |
| `Backup.ReadChipId` | src/backup/Flash.cpp:137-160 | chip-id reads give 0x32/0x1B on a 64K part and 0x62/0x13 on a 128K part; any other read is the banked cell |
| `Backup.Flash.constructor` | src/backup/Flash.cpp:8-25 | a 64K or 128K chip in READY, bank 0, chip-id mode off and erasing armed, with the given cells |
| `Backup.Flash.Fill` | src/backup/Flash.cpp:44 | the cells become Erased of the old cells |
| `Backup.Flash.Write` | src/backup/Flash.cpp:27-135 | the registers move as Step says and the cells take its effect |
| `Irqs.OccasionBit` | include/IRQ.h:14-27 | each occasion's IRQ bit is a distinct power of two below 2^14 |
| `Irqs.Irq.constructor` | src/IRQ.cpp:11-15 | IE, IF and IME start at 0 |
| `Irqs.Irq.Raise` | include/IRQ.h:35 | the occasion's raise is recorded |
| `Irqs.Irq.Clear` | include/IRQ.h:36 | the clear of the given bits is recorded |
| `Irqs.Irq.SetIE` | include/IRQ.h:46 | IE becomes the value |
| `Irqs.Irq.SetIME` | include/IRQ.h:48 | IME becomes the value |
| `Lcd.WinHOf` | include/LcdStat.h:111-122 | the left edge is the high byte; the right edge is the low byte, or 240 when off screen or left of the left edge |
| `Lcd.WinVOf` | include/LcdStat.h:124-135 | the top edge is the high byte; the bottom edge is the low byte, or 160 when off screen or above the top |
| `Lcd.WinHIdempotent` | include/LcdStat.h:111-122 | writing back a decoded horizontal window changes nothing |
| `Lcd.WinVIdempotent` | include/LcdStat.h:124-135 | writing back a decoded vertical window changes nothing |
| `Lcd.WinHRoundTrip` | include/LcdStat.h:111-122 | a well-formed horizontal window survives the round trip through its register |
| `Lcd.WinVRoundTrip` | include/LcdStat.h:124-135 | a well-formed vertical window survives the round trip through its register |
| `Lcd.ContentBit` | include/LcdStat.h:137-141 | bit i of the content byte is 0 or 1 |
| `Lcd.LcdStat.constructor` | include/LcdStat.h:145-177 | every register, background and window zeroed |
| `Lcd.LcdStat.WriteWinh` | include/LcdStat.h:111-122 | window win takes WinHOf; the other window is untouched |
| `Lcd.LcdStat.WriteWinv` | include/LcdStat.h:124-135 | window win takes WinVOf; the other window is untouched |
| `Lcd.LcdStat.WriteWindowContent` | include/LcdStat.h:137-141 | row win becomes bits 0-5 of content; other rows are untouched |
| `Timers.PrescalarOf` | src/Timer.cpp:39-51 | TMxCNT bits 0-1 select prescaler 1, 64, 256 or 1024 |
| `Timers.Cascade` | src/Timer.cpp:98-116 | an overflow increments the next channel when it is enabled and cascading, carrying on its own overflow |
| `Timers.Step` | src/Timer.cpp:53-96 | channel i's part of tick() keeps the channel table well-formed |
| `Timers.StepsFrom` | src/Timer.cpp:53-96 | channels i..3 of tick() in order keep the table well-formed |
| `Timers.CascadePreserves` | src/Timer.cpp:98-116 | cascading changes only counters, and only above ch |
| `Timers.ChannelThreeNeverCascades` | src/Timer.cpp:98-116 | channel 3's overflow reaches no other channel |
| `Timers.CascadeBumpsNext` | src/Timer.cpp:98-116 | the next channel is incremented exactly when it is enabled and cascading |
| `Timers.StepsFromKeepsIdle` | src/Timer.cpp:53-96 | a disabled channel, or one off its prescaler beat, is not touched by a tick |
| `Timers.StepKeepsIdle` | src/Timer.cpp:53-96 | one channel's step leaves every idle channel alone |
| `Timers.CascadeKeepsIdle` | src/Timer.cpp:98-116 | a cascade walk stops at the first channel that is not enabled and cascading |
| `Timers.StepCounts` | src/Timer.cpp:53-96 | on its beat a counting channel goes up by one and reloads on overflow, requesting its interrupt exactly when it overflowed with IRQ enabled |
| `Timers.StepCarries` | src/Timer.cpp:53-96 | a step appends its requests to the earlier ones |
| `Timers.Timer.constructor` | src/Timer.cpp:15-27 | every channel stopped, at zero, with prescaler 1 |
| `Timers.Timer.Write` | src/Timer.cpp:33-37 | the value becomes both the reload value and the count |
| `Timers.Timer.WriteCnt` | src/Timer.cpp:39-51 | the control word is stored and the prescaler derived from bits 0-1 |
| `Timers.Timer.CascadeFrom` | src/Timer.cpp:98-116 | the channels become Cascade of the old ones |
| `Timers.Timer.StepChannel` | src/Timer.cpp:60-95 | the channels and requests become Step of the old ones |
| `Timers.Timer.Tick` | src/Timer.cpp:53-96 | the tick counter advances and the channels become StepsFrom(0) of the old ones |

## Left out

- Fetch, Execute and CheckState's dispatch (src/Arm7Tdmi.cpp:159-300, 1347-1364) are not modelled. The handlers are modelled one by one, and the decoders are proved against their pattern tables.
- The PPU, APU, gamepad, scheduler and the front end are not part of this model.
- File I/O is not modelled: Memory::loadRom, Memory::loadBios, Flash::loadChip and Flash::writeChip.
- Logging is not modelled.
- `Backup.Flash.constructor`: takes the chip contents as a parameter instead of reading the save file; the size assertion becomes its requires.
- `Bus.Memory.constructor`: the backup is always a Flash chip. The source selects Flash, SRAM or None from the cartridge (Memory.cpp:142); SRAM and None are not modelled.
- `Bus.Memory.WriteDmaHigh`: a DMA start written by a DMA transfer's own writes is suppressed (the copy's writes carry a flag that disables starts). The source would start the nested transfer recursively.
- `Bus.Memory.WriteDmaHigh`: after an immediate transfer runs, the state other than the channel's enable bit, the transfer log, the interrupt requests, SAD/DAD and (inside RAM) memory is not stated; the same holds for IoWrite, WriteDmaRegister, StoreCell and Write8 on that path.
- `Decoder.ArmMultiplySwapHalfwordExactly`: the patterns are the source's own tests, so encodings the data sheet leaves undefined are sent where the source sends them, e.g. 0x00400090 to MUL, 0x01800090 to MULL and 0x01300F90 to SWP.
- `Bus.Memory.IoWrite`: the same nested-DMA suppression as WriteDmaHigh applies to every register write made by a transfer.
- `Bus.Memory.Write16`: an I/O register write is stated only through the two Write8 calls it makes (each with its Written effect); the combined effect on a register is not restated.
- `Bus.Memory.Write32`: likewise, an I/O register write is stated only through the Write16 and Write8 calls it makes.
- `Bus.SrcDelta`: source adjustment 3 (invalid on the hardware) is taken as a fixed pointer. The source leaves the increment unset in that case.
- `Bus.Memory.RunDma`: the transfer count is read once, before the loop. The source re-reads num_transfers on every iteration; only a transfer that rewrites its own count register could tell the difference.
- `Bus.Memory.RunDma`: a count of 0 copies nothing, as the source's loop does; the hardware meaning (0x4000 or 0x10000 chunks) is not modelled.
- `Bus.Memory.CopyChunk`: the memory contents are stated only when source and destination are plain EWRAM/IWRAM; for other regions only the logged transfer is stated.
- `Bus.Memory.Read8`: an address in no region reads as 0. The source logs an error and falls through.
- `Timers.Timer.Tick`: the tick counter is an unbounded integer; its wrap-around after 2^31 ticks is not modelled.
- `Timers.Cascade`: an overflow carried into a cascading channel neither reloads it nor raises its interrupt, as in the source.
- `Cpu.Arm7Tdmi.SetRegister`: a CPSR word whose mode bits name no mode is stored by the source, which exits with code 21 at the next GetMode (src/Arm7Tdmi.cpp:53-66, 515). The model records exit code 21 at the write itself and keeps the old registers, which nothing reads after the exit.
- `Cpu.Arm7Tdmi.UpdateCPSR`: the same early exit as SetRegister for a full write naming no mode.
- `Bits.Field`: the number form of bitseq used by the handlers; its agreement with `Bits.Bitseq` is not proved. Only Bitseq16 against Bitseq is.
- `Irqs.Irq.Raise`: IRQ.cpp's raise and clear bodies are not part of this model; raise and clear are recorded as events, and HandleInterrupt reads IE/IF/IME from memory as the source does.
- `Irqs.Irq.Clear`: IRQ.cpp's clear body is not part of this model; a clear is recorded as the mask it was given, and IF itself is not changed by it.
- `HandlerArm.DataProcessing`: the opcode decode is modelled as a field of the instruction, not through the source's switch over an enum.
- `HandlerArm.BlockDataTransfer`: an LDM does not update the last BIOS word read (lastReadBios) beyond what Read32 does; memory after an LDM is unchanged and not stated.
- `HandlerArm.BlockDataTransfer`: the LDM loaded values are stated through the words logged by Read32, not as memory contents.
- `HandlerThumb.PushPop`: POP's loaded values are stated through the words logged, not as memory contents.
- `HandlerThumb.MultipleLoadStore`: LDMIA's loaded values are stated through the words logged, not as memory contents.
- `HandlerThumb.MultipleLoadStore`: an empty-list LDMIA or STMIA ticks no cycles, as the source's early return does.
- `HandlerArm.HalfwordDataTransfer`: an LDRH into r15 does not flush the pipeline, as in the source.
- `Cpu.Arm7Tdmi.Write8`: the source's duplicated palette/VRAM cases are modelled once.
- `HandlerArm.Multiply`: MUL sets C to 1 with S, as the source does (the ARM7TDMI leaves C meaningless).
- `HandlerArm.MultiplyLong`: the long multiplies clear C with S, as the source does.
- `HandlerArm.MultiplierCycles`: the model ticks the corrected m-cycle count (see Findings). It does not tick the as-written count, in which m is only ever 3 or 4.
- `Cpu.Arm7Tdmi.Read16`: the model returns the corrected sign-extended byte at an odd address (see Findings).
- `HandlerArm.HalfwordDataTransfer`: the model refuses only a register offset in r15, the corrected test (see Findings).
- `HandlerThumb.AluThumb`: NEG sets the corrected flags of 0 - Rs (see Findings).
- `HandlerThumb.ConditionalBranch`: the model branches to the corrected target for offset 0x80 (see Findings).
- `Backup.Flash.Write`: the model erases the corrected 4K sector (see Findings).
- `Bus.Memory.Write8`: the model uses the corrected VRAM fold (see Findings).

## Findings

| source | as written | input that shows it | evidently intended | confidence | as-written member | corrected member |
|---|---|---|---|---|---|---|
| src/Memory.cpp:222-228 | read8 and write8 test the 0x6018000-0x601FFFF mirror before masking with 0x601FFFF | address 0x6038000 folds to 0x6018000, past the 96K of VRAM | mask first, then fold the upper 32K down, so every 0x6xxxxxx address lands in VRAM | not executed | `Bus.FoldAsWrittenLeavesVram` | `Bus.FoldVramInVram` |
| src/backup/Flash.cpp:41-44 | the 4K sector erase starts at n * 0x400 | erasing for index 0x1FFF (sector 1) clears 0x400-0x13FF, missing the cell | start at n * 0x1000 | not executed | `Backup.SectorStartAsWrittenMissesCell` | `Backup.SectorStartHoldsIndex` |
| src/HandlerArm.cpp:295-302 | the m-cycle tests are if, if, if/else, so the last overwrites the others | op2 = 0x12 gives m = 3 | m = 1, 2, 3 or 4 by the significant bytes of op2 | not executed | `HandlerArm.MultiplyCyclesDiscrepancy` | `HandlerArm.MultiplierCycles` |
| src/Arm7Tdmi.cpp:1079-1095 | a signed read at an odd address ORs in 0xFFFFFF00 only when bit 7 is set, keeping the next byte otherwise | an odd address whose byte is 0x01 and next byte 0x80 gives 0x8001 | the byte sign-extended, 0x00000001 | not executed | `Cpu.SignedHalfDiffers` | `Cpu.SignedHalf` |
| src/HandlerArm.cpp:670 | Rm == r15 is refused even when bits 3-0 are the low nibble of an immediate offset | LDRH r0, [r1, #0xF] does nothing | refuse only a register offset in r15 | not executed | `HandlerArm.HdtImmediateDiscrepancy` | `HandlerArm.HalfwordDataTransfer` |
| src/HandlerThumb.cpp:852-860 | the doubled offset's two's complement is taken in a u8 | soffset8 = 0x80 branches to pc itself | branch to pc - 256 | not executed | `HandlerThumb.CondTargetDiscrepancy` | `HandlerThumb.CondBranchMeaning` |
| src/HandlerThumb.cpp:184-187 | NEG computes 0 - Rs but sets the flags of Rd - Rs | Rs = 2, Rd = 0xFFFFFFFF sets C | the flags of 0 - Rs | not executed | `HandlerThumb.NegFlagsDiscrepancy` | `HandlerThumb.NegMeaning` |
