/**
 * Execution of ARM instructions (src/HandlerArm.cpp). Each handler is a
 * method on the processor object; what it leaves in the register file is
 * stated as a function of the register file before it (and, for loads, of
 * the words it reads), and the lemmas below say what those functions mean.
 */
module HandlerArm {
  import opened Bits
  import opened Cpu
  import Bus

  /** Bit k of an instruction is set. */
  predicate BitSet(instruction: U32, k: nat)
    requires k <= 31
  {
    Field(instruction, k, k) == 1
  }

  /** A register number taken from four bits of an instruction. */
  function RegField(instruction: U32, hi: nat): (reg: U32)
    requires 3 <= hi <= 31
    ensures reg < 16
  {
    Field(instruction, hi, hi - 3)
  }

  /** What Tick adds for n, s and i cycles with the bus's current wait states. */
  function Cost(cpu: Arm7Tdmi, n: nat, s: nat, i: nat): nat
    reads cpu.mem
  {
    TickCost(n, s, i, cpu.mem.nCycles as int, cpu.mem.sCycles as int)
  }

  /** Tick after a write whose video penalty is already counted: the cycles become start plus the cost. */
  method TickAfter(cpu: Arm7Tdmi, n: U8, s: U8, i: U8, ghost start: int)
    requires cpu.cycles == Wrap(start)
    modifies cpu`cycles
    ensures cpu.cycles == Wrap(start + Cost(cpu, n, s, i))
  {
    cpu.Tick(n, s, i);
    WrapShift(start, Cost(cpu, n, s, i));
  }

  /** Write32, seen through the access it logs and, inside RAM, the word it leaves in memory. */
  method StoreWord(cpu: Arm7Tdmi, address: U32, value: U32)
    requires cpu.Valid()
    modifies cpu`cycles, cpu`accesses, cpu.mem.Repr
    ensures cpu.Valid() && cpu.accesses == old(cpu.accesses) + [Store(4, address, value)]
    ensures WordInRam(Store(4, address, value)) ==>
      cpu.mem.memory[..] == Bus.PutWord(old(cpu.mem.memory[..]), WordCell(address), ToWord(value)) && cpu.cycles == old(cpu.cycles)
  {
    cpu.Write32(address, value);
  }

  // ---------------------------------------------------------------------
  // BX
  // ---------------------------------------------------------------------

  /**
   * The register file after BX to target: pc takes the target with bit 0
   * cleared, and bit 0 set switches to THUMB state; no other register moves.
   */
  function Exchanged(r: Registers, target: U32): (r': Registers)
    requires Sane(r)
    ensures Sane(r') && ReadReg(r', 15) == target - target % 2
    ensures Thumb(r') <==> target % 2 == 1 || Thumb(r)
    ensures CurrentMode(r') == CurrentMode(r) && r'.spsr == r.spsr
    ensures forall k: U32 :: k < 15 ==> ReadReg(r', k) == ReadReg(r, k)
  {
    var r1 := Put(r, 15, target);
    if target % 2 == 1 then
      var r2 := Put(r1, 15, target - 1);
      r2.(cpsr := r2.cpsr.(t := 1))
    else r1
  }

  /** BranchExchange: Rn == r15 puts the processor in UND mode and stops the emulator (exit code 0). */
  method BranchExchange(cpu: Arm7Tdmi, instruction: U32)
    requires cpu.Valid()
    modifies cpu`regs, cpu`pipelineFull, cpu`cycles, cpu`exitCode
    ensures cpu.Valid()
    ensures var rn := RegField(instruction, 3);
      if rn == 15 then
        cpu.regs == WithMode(old(cpu.regs), UND) && cpu.exitCode == Some(0)
        && cpu.pipelineFull == old(cpu.pipelineFull) && cpu.cycles == old(cpu.cycles)
      else
        cpu.regs == Exchanged(old(cpu.regs), ReadReg(old(cpu.regs), rn)) && cpu.exitCode == old(cpu.exitCode)
        && !cpu.pipelineFull && cpu.cycles == Wrap(old(cpu.cycles) + Cost(cpu, 1, 2, 0))
  {
    var rn := RegField(instruction, 3);
    if rn == 15 {
      cpu.SetMode(UND);
      cpu.exitCode := Some(0);
      return;
    }
    var target := cpu.GetRegister(rn);
    Exchange(cpu, target);
    cpu.pipelineFull := false;
    cpu.Tick(1, 2, 0);
  }

  /** BranchExchange's register writes: pc, then bit 0 cleared and THUMB state when it is set. */
  method Exchange(cpu: Arm7Tdmi, target: U32)
    requires cpu.Valid()
    modifies cpu`regs, cpu`exitCode
    ensures cpu.Valid() && cpu.regs == Exchanged(old(cpu.regs), target) && cpu.exitCode == old(cpu.exitCode)
  {
    cpu.SetRegister(15, target);
    if target % 2 == 1 {
      cpu.SetRegister(15, target - 1);
      cpu.SetState(true);
    }
  }

  // ---------------------------------------------------------------------
  // B and BL
  // ---------------------------------------------------------------------

  /** A 24-bit two's complement field as a number. */
  function Signed24(v: int): int
    requires 0 <= v < 0x100_0000
  {
    if v >= 0x80_0000 then v - 0x100_0000 else v
  }

  /** The offset field shifted left by 2, with bits 31-26 filled with ones when bit 23 is set. */
  function BranchOffset(imm24: int): (offset: U32)
    requires 0 <= imm24 < 0x100_0000
  {
    if imm24 >= 0x80_0000 then imm24 * 4 + 0xFC00_0000 else imm24 * 4
  }

  /** Adding the filled-in offset to pc adds four times the signed field. */
  lemma BranchOffsetSigned(pc: U32, imm24: int)
    requires 0 <= imm24 < 0x100_0000
    ensures Wrap(pc + BranchOffset(imm24)) == Wrap(pc + 4 * Signed24(imm24))
  {
    if imm24 >= 0x80_0000 {
      WrapShift(pc + 4 * Signed24(imm24), 0x1_0000_0000);
      assert Wrap(pc + 4 * Signed24(imm24) + 0x1_0000_0000) == Wrap(pc + 4 * Signed24(imm24));
    }
  }

  /**
   * The register file after B or BL: with the link bit, r14 holds the
   * address of the instruction after the branch, pc - 4 rounded down to a
   * word; pc moves by four times the signed 24-bit offset.
   */
  function Branched(r: Registers, instruction: U32): (r': Registers)
    requires Sane(r)
    ensures Sane(r') && CurrentMode(r') == CurrentMode(r) && r'.cpsr == r.cpsr
    ensures ReadReg(r', 15) == Wrap(ReadReg(r, 15) + 4 * Signed24(Field(instruction, 23, 0)))
    ensures BitSet(instruction, 24) ==> ReadReg(r', 14) == AlignDown(Wrap(ReadReg(r, 15) - 4), 4)
    ensures forall k: U32 :: k < 15 && (k != 14 || !BitSet(instruction, 24)) ==> ReadReg(r', k) == ReadReg(r, k)
  {
    var pc := ReadReg(r, 15);
    BranchOffsetSigned(pc, Field(instruction, 23, 0));
    Put(Linked(r, instruction), 15, BranchTarget(pc, instruction))
  }

  /** The link write alone: with bit 24 set, r14 takes the return address. */
  function Linked(r: Registers, instruction: U32): (r': Registers)
    requires Sane(r)
    ensures Sane(r') && ReadReg(r', 15) == ReadReg(r, 15)
  {
    if BitSet(instruction, 24) then Put(r, 14, LinkAddress(ReadReg(r, 15))) else r
  }

  /** BL's return address: pc - 4 rounded down to a word. */
  function LinkAddress(pc: U32): U32 { AlignDown(Wrap(pc as int - 4), 4) }

  /** B's destination: pc plus the filled-in offset, modulo 2^32. */
  function BranchTarget(pc: U32, instruction: U32): U32 { Wrap(pc as int + BranchOffset(Field(instruction, 23, 0))) }

  /** BranchLink. */
  method BranchLink(cpu: Arm7Tdmi, instruction: U32)
    requires cpu.Valid()
    modifies cpu`regs, cpu`pipelineFull, cpu`cycles, cpu`exitCode
    ensures cpu.Valid() && cpu.regs == Branched(old(cpu.regs), instruction)
    ensures !cpu.pipelineFull && cpu.exitCode == old(cpu.exitCode)
    ensures cpu.cycles == Wrap(old(cpu.cycles) + Cost(cpu, 1, 2, 0))
  {
    Branch(cpu, instruction);
    cpu.pipelineFull := false;
    cpu.Tick(1, 2, 0);
  }

  /** BranchLink's register writes: r14 when linking, then pc. */
  method Branch(cpu: Arm7Tdmi, instruction: U32)
    requires cpu.Valid()
    modifies cpu`regs, cpu`exitCode
    ensures cpu.Valid()
    ensures cpu.regs == Branched(old(cpu.regs), instruction)
    ensures cpu.exitCode == old(cpu.exitCode)
  {
    var pc := ReadReg(cpu.regs, 15);
    ghost var r0 := cpu.regs;
    if BitSet(instruction, 24) {
      var link := LinkAddress(pc);
      cpu.SetRegister(14, link);
    }
    assert cpu.regs == Linked(r0, instruction);
    var target := BranchTarget(pc, instruction);
    cpu.SetRegister(15, target);
  }

  // ---------------------------------------------------------------------
  // SWI
  // ---------------------------------------------------------------------

  /**
   * Entry to the supervisor, before pc moves to the vector: SVC mode, r14_svc
   * the return address, IRQs disabled, and SPSR_svc the CPSR of the caller.
   */
  function SupervisorEntry(r: Registers, returnAddress: U32): (r': Registers)
    requires Sane(r)
    ensures Sane(r') && CurrentMode(r') == SVC && r'.cpsr.i == 1 && Thumb(r') == Thumb(r)
    ensures ReadReg(r', 14) == returnAddress && ReadReg(r', SpsrReg) == Raw(r.cpsr)
    ensures ReadReg(r', 15) == ReadReg(r, 15)
    ensures forall k: U32 :: k < 8 ==> ReadReg(r', k) == ReadReg(r, k)
    ensures forall g :: GetFlag(r'.cpsr, g) == GetFlag(r.cpsr, g)
  {
    var r1 := Put(WithMode(r, SVC), 14, returnAddress);
    var r2 := r1.(cpsr := r1.cpsr.(i := 1));
    r2.(spsr := r2.spsr[SpsrSlot(SVC) := r.cpsr])
  }

  /** SetMode(SVC), r14 = the return address, I = 1, then UpdateSPSR with the CPSR of the caller. */
  method EnterSupervisor(cpu: Arm7Tdmi, returnAddress: U32)
    requires Sane(cpu.regs)
    modifies cpu`regs, cpu`exitCode
    ensures cpu.regs == SupervisorEntry(old(cpu.regs), returnAddress) && cpu.exitCode == old(cpu.exitCode)
  {
    var oldCpsr := cpu.GetRegister(CpsrReg);
    FromRawOfRaw(cpu.regs.cpsr);
    cpu.SetMode(SVC);
    cpu.SetRegister(14, returnAddress);
    cpu.regs := cpu.regs.(cpsr := cpu.regs.cpsr.(i := 1));
    cpu.UpdateSPSR(oldCpsr, false);
  }

  /** The word the BIOS bus last returned, once the BIOS has finished an SWI. */
  const SwiFinishBios: U32 := 0xE3A0_2004

  /** SoftwareInterruptArm: enter SVC with r14 = pc - 4 and continue at the SWI vector 0x08. */
  method SoftwareInterruptArm(cpu: Arm7Tdmi, instruction: U32)
    requires cpu.Valid()
    modifies cpu`regs, cpu`pipelineFull, cpu`cycles, cpu`exitCode, cpu`lastReadBios
    ensures cpu.Valid()
    ensures cpu.regs == Put(SupervisorEntry(old(cpu.regs), Wrap(ReadReg(old(cpu.regs), 15) - 4)), 15, 0x08)
    ensures !cpu.pipelineFull && cpu.lastReadBios == SwiFinishBios && cpu.exitCode == old(cpu.exitCode)
    ensures cpu.cycles == Wrap(old(cpu.cycles) + Cost(cpu, 1, 2, 0))
  {
    EnterSupervisor(cpu, Wrap(cpu.GetRegister(15) - 4));
    cpu.SetRegister(15, 0x08);
    cpu.pipelineFull := false;
    cpu.lastReadBios := SwiFinishBios;
    cpu.Tick(1, 2, 0);
  }

  /**
   * ARM SWI in full: SVC mode with IRQs disabled, r14_svc the address of the
   * instruction after the SWI, SPSR_svc the old CPSR, pc the vector 0x08;
   * the caller's flags and r0-r7 are untouched.
   */
  lemma SoftwareInterruptEntry(r: Registers)
    requires Sane(r)
    ensures var r' := Put(SupervisorEntry(r, Wrap(ReadReg(r, 15) - 4)), 15, 0x08);
      && CurrentMode(r') == SVC && r'.cpsr.i == 1 && ReadReg(r', 15) == 8
      && ReadReg(r', 14) == Wrap(ReadReg(r, 15) - 4) && ReadReg(r', SpsrReg) == Raw(r.cpsr)
      && FromRaw(ReadReg(r', SpsrReg)) == r.cpsr
      && (forall k: U32 :: k < 8 ==> ReadReg(r', k) == ReadReg(r, k))
  {
    var r1 := SupervisorEntry(r, Wrap(ReadReg(r, 15) - 4));
    PutOther(r1, 15, 8, 14);
    FromRawOfRaw(r.cpsr);
    forall k: U32 | k < 8
      ensures ReadReg(Put(r1, 15, 8), k) == ReadReg(r, k)
    {
      PutOther(r1, 15, 8, k);
    }
  }

  // ---------------------------------------------------------------------
  // Data processing
  // ---------------------------------------------------------------------

  /** The operations of bits 24-21, in the ARM7TDMI data sheet's order. */
  datatype AluOp = AND | EOR | SUB | RSB | ADD | ADC | SBC | RSC | TST | TEQ | CMP | CMN | ORR | MOV | BIC | MVN

  function OpcodeOf(k: int): AluOp
    requires 0 <= k < 16
  {
    [AND, EOR, SUB, RSB, ADD, ADC, SBC, RSC, TST, TEQ, CMP, CMN, ORR, MOV, BIC, MVN][k]
  }

  /** TST, TEQ, CMP and CMN only set the flags; every other operation writes Rd. */
  predicate WritesRd(op: AluOp) { !(op == TST || op == TEQ || op == CMP || op == CMN) }

  /** An immediate shift amount of 0 means 32 for LSR and ASR, and RRX for ROR. */
  function ImmediateAmount(amount: int, shiftType: int): U32
    requires 0 <= amount < 32
  {
    if amount == 0 && shiftType != 0 then (if shiftType == 3 then 0xFFFF_FFFF else 32) else amount
  }

  /**
   * The second operand and the shifter's carry: an 8-bit immediate rotated
   * right by twice the rotate field, or Rm shifted by an immediate amount
   * or by the low byte of Rs; with a register amount, r15 as Rn, Rm or Rs
   * adds 4 to the operand for the extra prefetch.
   */
  function Operand2(r: Registers, instruction: U32): (s: Shifted)
    requires Sane(r)
    ensures IsBit(s.carry)
  {
    var c := r.cpsr.c;
    if BitSet(instruction, 25) then
      ShiftCarryIsBit(2 * Field(instruction, 11, 8), Field(instruction, 7, 0), 3, c);
      Shift(2 * Field(instruction, 11, 8), Field(instruction, 7, 0), 3, c)
    else
      var rm, typ := RegField(instruction, 3), Field(instruction, 6, 5);
      if BitSet(instruction, 4) then
        var rs := RegField(instruction, 11);
        var s := Shift(ReadReg(r, rs) % 0x100, ReadReg(r, rm), typ, c);
        ShiftCarryIsBit(ReadReg(r, rs) % 0x100, ReadReg(r, rm), typ, c);
        if RegField(instruction, 19) == 15 || rm == 15 || rs == 15 then Shifted(Wrap(s.value + 4), s.carry) else s
      else
        ShiftCarryIsBit(ImmediateAmount(Field(instruction, 11, 7), typ), ReadReg(r, rm), typ, c);
        Shift(ImmediateAmount(Field(instruction, 11, 7), typ), ReadReg(r, rm), typ, c)
  }

  /** The value each operation computes, with c the C flag before the instruction. */
  function AluResult(op: AluOp, op1: U32, op2: U32, c: int): U32
  {
    match op
    case AND => And(op1, op2)
    case EOR => Xor(op1, op2)
    case SUB => Wrap(op1 - op2)
    case RSB => Wrap(op2 - op1)
    case ADD => Wrap(op1 + op2)
    case ADC => Wrap(op1 + op2 + c)
    case SBC => Wrap(op1 - op2 + c - 1)
    case RSC => Wrap(op2 - op1 + c - 1)
    case TST => And(op1, op2)
    case TEQ => Xor(op1, op2)
    case CMP => Wrap(op1 - op2)
    case CMN => Wrap(op1 + op2)
    case ORR => Or(op1, op2)
    case MOV => op2
    case BIC => And(op1, Not(op2))
    case MVN => Not(op2)
  }

  /** The flags with S set: logical operations take C from the shifter, the others from the addition or subtraction (reversed for RSB and RSC). */
  function AluFlags(op: AluOp, p: Psr, op1: U32, op2: U32, result: U32, carry: U8): (q: Psr)
    requires Fit(p)
    ensures Fit(q) && SameControl(q, p)
  {
    match op
    case SUB => FlagsSubtraction(p, op1, op2, result)
    case SBC => FlagsSubtraction(p, op1, op2, result)
    case CMP => FlagsSubtraction(p, op1, op2, result)
    case RSB => FlagsSubtraction(p, op2, op1, result)
    case RSC => FlagsSubtraction(p, op2, op1, result)
    case ADD => FlagsAddition(p, op1, op2, result)
    case ADC => FlagsAddition(p, op1, op2, result)
    case CMN => FlagsAddition(p, op1, op2, result)
    case _ => FlagsLogical(p, result, carry)
  }

  /** The register file after the operation and its flags, before an S-suffixed write to r15 restores the CPSR. */
  function AluApplied(r: Registers, instruction: U32): (r': Registers)
    requires Sane(r)
    ensures Sane(r') && CurrentMode(r') == CurrentMode(r) && r'.spsr == r.spsr
  {
    var op := OpcodeOf(Field(instruction, 24, 21));
    var op1 := ReadReg(r, RegField(instruction, 19));
    var s := Operand2(r, instruction);
    var result := AluResult(op, op1, s.value, r.cpsr.c);
    var r1 := if WritesRd(op) then Put(r, RegField(instruction, 15), result) else r;
    if BitSet(instruction, 20) then r1.(cpsr := AluFlags(op, r1.cpsr, op1, s.value, result, s.carry)) else r1
  }

  /** The register file after DataProcessing: with S set and Rd = r15, the CPSR is then restored from the SPSR. */
  function DataProcessed(r: Registers, instruction: U32): (r': Registers)
    requires Sane(r)
    ensures Sane(r')
  {
    var r1 := AluApplied(r, instruction);
    if RegField(instruction, 15) == 15 && BitSet(instruction, 20) then Put(r1, CpsrReg, ReadReg(r1, SpsrReg)) else r1
  }

  /** The cycles DataProcessing charges: 1S, plus 1I for a register operand, plus 1S + 1N when r15 is written. */
  function DataProcessingCycles(instruction: U32): (nsi: (nat, nat, nat))
  {
    var pc := Bit(RegField(instruction, 15) == 15);
    (pc, 1 + pc, Bit(!BitSet(instruction, 25)))
  }

  /** DataProcessing: a write to r15 empties the pipeline. */
  method DataProcessing(cpu: Arm7Tdmi, instruction: U32)
    requires cpu.Valid()
    modifies cpu`regs, cpu`pipelineFull, cpu`cycles, cpu`exitCode
    ensures cpu.Valid() && cpu.regs == DataProcessed(old(cpu.regs), instruction)
    ensures var restore := RegField(instruction, 15) == 15 && BitSet(instruction, 20);
      cpu.exitCode == if restore && BadCpsrWrite(CpsrReg, ReadReg(AluApplied(old(cpu.regs), instruction), SpsrReg))
                      then Some(21) else old(cpu.exitCode)
    ensures cpu.pipelineFull == (old(cpu.pipelineFull) && RegField(instruction, 15) != 15)
    ensures var c := DataProcessingCycles(instruction); cpu.cycles == Wrap(old(cpu.cycles) + Cost(cpu, c.0, c.1, c.2))
  {
    ghost var c0 := cpu.cycles;
    Alu(cpu, instruction);
    AluToPc(cpu, instruction);
    assert cpu.cycles == c0;
    TickDataProcessing(cpu, instruction);
  }

  /** DataProcessing after the operation: a write to r15 empties the pipeline, and with S set copies SPSR into CPSR. */
  method AluToPc(cpu: Arm7Tdmi, instruction: U32)
    requires cpu.Valid()
    modifies cpu`regs, cpu`pipelineFull, cpu`exitCode
    ensures cpu.Valid()
    ensures var restore := RegField(instruction, 15) == 15 && BitSet(instruction, 20);
      && cpu.regs == (if restore then Put(old(cpu.regs), CpsrReg, ReadReg(old(cpu.regs), SpsrReg)) else old(cpu.regs))
      && cpu.exitCode == if restore && BadCpsrWrite(CpsrReg, ReadReg(old(cpu.regs), SpsrReg)) then Some(21) else old(cpu.exitCode)
    ensures cpu.pipelineFull == (old(cpu.pipelineFull) && RegField(instruction, 15) != 15)
  {
    if RegField(instruction, 15) == 15 {
      cpu.pipelineFull := false;
      if BitSet(instruction, 20) {
        var spsr := cpu.GetRegister(SpsrReg);
        cpu.SetRegister(CpsrReg, spsr);
      }
    }
  }

  /** DataProcessing's one tick, of DataProcessingCycles. */
  method TickDataProcessing(cpu: Arm7Tdmi, instruction: U32)
    modifies cpu`cycles
    ensures var c := DataProcessingCycles(instruction); cpu.cycles == Wrap(old(cpu.cycles) + Cost(cpu, c.0, c.1, c.2))
  {
    var c := DataProcessingCycles(instruction);
    cpu.Tick(c.0, c.1, c.2);
  }

  /** DataProcessing's operand fetch, the operation, and its flags. */
  method Alu(cpu: Arm7Tdmi, instruction: U32)
    requires cpu.Valid()
    modifies cpu`regs, cpu`exitCode
    ensures cpu.Valid() && cpu.regs == AluApplied(old(cpu.regs), instruction) && cpu.exitCode == old(cpu.exitCode)
  {
    var op1 := cpu.GetRegister(RegField(instruction, 19));
    var carry, op2 := ShifterOperand(cpu, instruction);
    var op := OpcodeOf(Field(instruction, 24, 21));
    var result := AluResult(op, op1, op2, cpu.regs.cpsr.c);
    if WritesRd(op) {
      cpu.SetRegister(RegField(instruction, 15), result);
    }
    if BitSet(instruction, 20) {
      UpdateAluFlags(cpu, op, op1, op2, result, carry);
    }
  }

  /** The switch's flag updates: subtraction, reversed subtraction, addition or logical. */
  method UpdateAluFlags(cpu: Arm7Tdmi, op: AluOp, op1: U32, op2: U32, result: U32, carry: U8)
    requires Sane(cpu.regs)
    modifies cpu`regs
    ensures Sane(cpu.regs) && cpu.regs == old(cpu.regs).(cpsr := AluFlags(op, old(cpu.regs).cpsr, op1, op2, result, carry))
  {
    match op
    case SUB => cpu.UpdateFlagsSubtraction(op1, op2, result);
    case SBC => cpu.UpdateFlagsSubtraction(op1, op2, result);
    case CMP => cpu.UpdateFlagsSubtraction(op1, op2, result);
    case RSB => cpu.UpdateFlagsSubtraction(op2, op1, result);
    case RSC => cpu.UpdateFlagsSubtraction(op2, op1, result);
    case ADD => cpu.UpdateFlagsAddition(op1, op2, result);
    case ADC => cpu.UpdateFlagsAddition(op1, op2, result);
    case CMN => cpu.UpdateFlagsAddition(op1, op2, result);
    case _ => cpu.UpdateFlagsLogical(result, carry);
  }

  /** The second operand through BarrelShift. */
  method ShifterOperand(cpu: Arm7Tdmi, instruction: U32) returns (carry: int, op2: U32)
    requires Sane(cpu.regs)
    ensures Shifted(op2, carry) == Operand2(cpu.regs, instruction)
  {
    if BitSet(instruction, 25) {
      carry, op2 := cpu.BarrelShift(2 * Field(instruction, 11, 8), Field(instruction, 7, 0), 3);
    } else {
      var rm, typ := RegField(instruction, 3), Field(instruction, 6, 5);
      var num := cpu.GetRegister(rm);
      if BitSet(instruction, 4) {
        var rs := RegField(instruction, 11);
        carry, op2 := cpu.BarrelShift(cpu.GetRegister(rs) % 0x100, num, typ);
        if RegField(instruction, 19) == 15 || rm == 15 || rs == 15 {
          op2 := Wrap(op2 + 4);
        }
      } else {
        carry, op2 := cpu.BarrelShift(ImmediateAmount(Field(instruction, 11, 7), typ), num, typ);
      }
    }
  }

  /** An immediate operand is the 8-bit value rotated right by twice the rotate field, and the C flag passes through when the rotation is 0. */
  lemma ImmediateOperandRotates(r: Registers, instruction: U32)
    requires Sane(r) && BitSet(instruction, 25)
    ensures Operand2(r, instruction).value == Ror(Field(instruction, 7, 0), 2 * Field(instruction, 11, 8))
    ensures Field(instruction, 11, 8) == 0 ==> Operand2(r, instruction).carry == r.cpsr.c
  {
    var k := 2 * Field(instruction, 11, 8);
    if k > 0 {
      RorMeaning(Field(instruction, 7, 0), k, r.cpsr.c);
    } else {
      assert Ror(Field(instruction, 7, 0), 0) == Field(instruction, 7, 0);
    }
  }

  /**
   * The immediate shift encodings with amount 0: LSR #0 is LSR #32 (0, with
   * bit 31 as carry), ASR #0 is ASR #32 (every bit a copy of bit 31), and
   * ROR #0 is RRX (C shifted into bit 31, bit 0 as carry).
   */
  lemma ZeroAmountEncodings(num: U32, c: int)
    requires IsBit(c)
    ensures Shift(ImmediateAmount(0, 1), num, 1, c) == Shifted(0, Bit(Msb(num)))
    ensures Shift(ImmediateAmount(0, 2), num, 2, c).value == if Msb(num) then 0xFFFF_FFFF else 0
    ensures Shift(ImmediateAmount(0, 3), num, 3, c) == Shifted(num / 2 + c * 0x8000_0000, num % 2)
  {
    LsrMeaning(32, num, c);
    assert Pow2(32) == 0x1_0000_0000 && Pow2(31) == 0x8000_0000;
    AsrMeaning(num, 32, c);
    var v := AsrSteps(num, 32, c).value;
    assert SInt(v) == SInt(num) / 0x1_0000_0000;
    if Msb(num) {
      assert SInt(v) == -1;
    } else {
      assert SInt(v) == 0;
    }
  }

  /** TST, TEQ, CMP and CMN leave r0-r15 alone unless they restore the CPSR (S set with Rd = r15). */
  lemma ComparisonsKeepRegisters(r: Registers, instruction: U32)
    requires Sane(r) && !WritesRd(OpcodeOf(Field(instruction, 24, 21)))
    requires !(RegField(instruction, 15) == 15 && BitSet(instruction, 20))
    ensures DataProcessed(r, instruction).bank == r.bank
  {
  }

  /**
   * ADD with S set and Rd other than r15: Rd holds the wrapped sum, C is the
   * carry out of the unsigned addition and V the signed overflow.
   */
  lemma AddMeaning(r: Registers, instruction: U32)
    requires Sane(r) && BitSet(instruction, 20) && RegField(instruction, 15) != 15
    requires OpcodeOf(Field(instruction, 24, 21)) == ADD
    ensures var r' := DataProcessed(r, instruction);
      var op1, op2 := ReadReg(r, RegField(instruction, 19)), Operand2(r, instruction).value;
      && ReadReg(r', RegField(instruction, 15)) == Wrap(op1 + op2)
      && (r'.cpsr.c == 1 <==> op1 + op2 >= 0x1_0000_0000)
      && (r'.cpsr.v == 1 <==> !FitsSigned(SInt(op1) + SInt(op2)))
  {
    var op1, op2 := ReadReg(r, RegField(instruction, 19)), Operand2(r, instruction).value;
    var r1 := Put(r, RegField(instruction, 15), Wrap(op1 as int + op2));
    assert AluResult(ADD, op1, op2, r.cpsr.c) == Wrap(op1 as int + op2);
    assert AluApplied(r, instruction) == r1.(cpsr := FlagsAddition(r1.cpsr, op1, op2, Wrap(op1 as int + op2)));
    AdditionFlagsMeaning(r1.cpsr, op1, op2);
  }

  /**
   * SUB with S set and Rd other than r15: Rd holds the wrapped difference, C
   * is set exactly when op1 >= op2 (no borrow) and V is the signed overflow.
   */
  lemma SubtractMeaning(r: Registers, instruction: U32)
    requires Sane(r) && BitSet(instruction, 20) && RegField(instruction, 15) != 15
    requires OpcodeOf(Field(instruction, 24, 21)) == SUB
    ensures var r' := DataProcessed(r, instruction);
      var op1, op2 := ReadReg(r, RegField(instruction, 19)), Operand2(r, instruction).value;
      && ReadReg(r', RegField(instruction, 15)) == Wrap(op1 - op2)
      && (r'.cpsr.c == 1 <==> op1 >= op2)
      && (r'.cpsr.v == 1 <==> !FitsSigned(SInt(op1) - SInt(op2)))
  {
    var op1, op2 := ReadReg(r, RegField(instruction, 19)), Operand2(r, instruction).value;
    var r1 := Put(r, RegField(instruction, 15), Wrap(op1 as int - op2));
    assert AluResult(SUB, op1, op2, r.cpsr.c) == Wrap(op1 as int - op2);
    assert AluApplied(r, instruction) == r1.(cpsr := FlagsSubtraction(r1.cpsr, op1, op2, Wrap(op1 as int - op2)));
    SubtractionFlagsMeaning(r1.cpsr, op1, op2);
  }

  // ---------------------------------------------------------------------
  // MUL, MLA, UMULL, UMLAL, SMULL, SMLAL
  // ---------------------------------------------------------------------

  /** Bits 31 .. 8k of op2 are all zero, or, when ones is set, all one. */
  predicate TopBitsAlike(op2: U32, k: nat, ones: bool)
    requires 1 <= k <= 3
  {
    op2 / Pow2(8 * k) == 0 || (ones && op2 / Pow2(8 * k) == Pow2(32 - 8 * k) - 1)
  }

  /**
   * The multiplier's internal cycles for op2: 1, 2 or 3 when bits 31-8,
   * 31-16 or 31-24 are all zero (or all one, for a signed multiplier), else 4;
   * that is, the fewest bytes the multiplier has to step through.
   */
  function MultiplierCycles(op2: U32, ones: bool): (m: nat)
    ensures 1 <= m <= 4
    ensures m < 4 ==> TopBitsAlike(op2, m, ones)
    ensures forall k :: 1 <= k < m ==> !TopBitsAlike(op2, k, ones)
  {
    if TopBitsAlike(op2, 1, ones) then 1
    else if TopBitsAlike(op2, 2, ones) then 2
    else if TopBitsAlike(op2, 3, ones) then 3
    else 4
  }

  /** MUL and MLA's cycle count as written: each test overwrites the last, so only the bits 31-24 test decides. */
  function MultiplyCyclesAsWritten(op2: U32): nat
  {
    if op2 / 0x100_0000 == 0xFF || op2 / 0x100_0000 == 0 then 3 else 4
  }

  /**
   * The long multiplies' cycle count as written: the same overwritten chain,
   * with the sign-extended 64-bit op2 of SMULL and SMLAL never equal to 0xFF
   * after the shift; the accumulate cycle is added to m before it is set.
   */
  function LongMultiplyCyclesAsWritten(op2: U32, signed: bool): nat
  {
    if signed then (if 0 <= SInt(op2) < 0x100_0000 then 3 else 4)
    else if op2 / 0x100_0000 == 0 then 3 else 4
  }

  /**
   * The cycle chains as written never give 1 or 2 cycles: a small multiplier
   * such as 0x12 costs 3 instead of 1, and SMULL by -1 costs 4 instead of 1.
   */
  lemma MultiplyCyclesDiscrepancy(op2: U32)
    ensures MultiplyCyclesAsWritten(op2) >= 3 && LongMultiplyCyclesAsWritten(op2, true) >= 3
    ensures MultiplyCyclesAsWritten(0x12) == 3 && MultiplierCycles(0x12, true) == 1
    ensures LongMultiplyCyclesAsWritten(0xFFFF_FFFF, true) == 4 && MultiplierCycles(0xFFFF_FFFF, true) == 1
    ensures LongMultiplyCyclesAsWritten(0x12, false) == 3 && MultiplierCycles(0x12, false) + 1 == 2
  {
    assert TopBitsAlike(0x12, 1, true) && TopBitsAlike(0x12, 1, false);
    assert TopBitsAlike(0xFFFF_FFFF, 1, true);
  }

  /** MUL's flags with S set: N from bit 31, Z when the result is 0, and C set to 1. */
  function MultiplyFlags(p: Psr, result: U32): (q: Psr)
    requires Fit(p)
    ensures Fit(q) && SameControl(q, p) && q.v == p.v
    ensures q.n == Bit(Msb(result)) && q.z == Bit(result == 0) && q.c == 1
  {
    SetFlag(SetFlag(SetFlag(p, N, Bit(Msb(result))), Z, Bit(result == 0)), C, 1)
  }

  /** The register file after MUL (Rd = Rm * Rs) or MLA (Rd = Rm * Rs + Rn), modulo 2^32. */
  function Multiplied(r: Registers, instruction: U32): (r': Registers)
    requires Sane(r)
    ensures Sane(r')
  {
    var result := Product(r, instruction);
    var r1 := Put(r, RegField(instruction, 19), result);
    if BitSet(instruction, 20) then r1.(cpsr := MultiplyFlags(r1.cpsr, result)) else r1
  }

  /** What MUL and MLA write to Rd: Rm * Rs, plus Rn with the accumulate bit, each step modulo 2^32. */
  function Product(r: Registers, instruction: U32): U32
    requires Sane(r)
  {
    var product := Wrap(ReadReg(r, RegField(instruction, 3)) * ReadReg(r, RegField(instruction, 11)));
    if BitSet(instruction, 21) then Wrap(product + ReadReg(r, RegField(instruction, 15))) else product
  }

  /** MUL and MLA leave Rm * Rs (+ Rn) modulo 2^32 in Rd and change no other of r0-r15. */
  lemma MultiplyMeaning(r: Registers, instruction: U32)
    requires Sane(r)
    ensures var r', rd := Multiplied(r, instruction), RegField(instruction, 19);
      var acc := if BitSet(instruction, 21) then ReadReg(r, RegField(instruction, 15)) else 0;
      && ReadReg(r', rd) == (ReadReg(r, RegField(instruction, 3)) * ReadReg(r, RegField(instruction, 11)) + acc) % 0x1_0000_0000
      && forall k: U32 :: k < 16 && k != rd ==> ReadReg(r', k) == ReadReg(r, k)
  {
    var x := ReadReg(r, RegField(instruction, 3)) * ReadReg(r, RegField(instruction, 11));
    WrapShift(x, ReadReg(r, RegField(instruction, 15)));
    forall k: U32 | k < 16 && k != RegField(instruction, 19)
      ensures ReadReg(Multiplied(r, instruction), k) == ReadReg(r, k)
    {
      PutOther(r, RegField(instruction, 19), Multiplied(r, instruction).bank[Slot(CurrentMode(r), RegField(instruction, 19))], k);
    }
  }

  /** Multiply: r15 as Rd or Rm makes it do nothing; MUL, MLA and S-suffixed forms otherwise. */
  method Multiply(cpu: Arm7Tdmi, instruction: U32)
    requires cpu.Valid()
    modifies cpu`regs, cpu`cycles, cpu`exitCode
    ensures cpu.Valid() && cpu.exitCode == old(cpu.exitCode)
    ensures if RegField(instruction, 19) == 15 || RegField(instruction, 3) == 15 then
        cpu.regs == old(cpu.regs) && cpu.cycles == old(cpu.cycles)
      else
        var m := MultiplierCycles(ReadReg(old(cpu.regs), RegField(instruction, 11)), true);
        cpu.regs == Multiplied(old(cpu.regs), instruction)
        && cpu.cycles == Wrap(old(cpu.cycles) + Cost(cpu, 0, 1, m + Bit(BitSet(instruction, 21))))
  {
    if RegField(instruction, 19) == 15 || RegField(instruction, 3) == 15 {
      return;
    }
    var m := MultiplierCycles(cpu.GetRegister(RegField(instruction, 11)), true);
    if BitSet(instruction, 21) {
      m := m + 1;
    }
    MultiplyRegisters(cpu, instruction);
    cpu.Tick(0, 1, m);
  }

  /** Multiply's product, its write to Rd, and its flags. */
  method MultiplyRegisters(cpu: Arm7Tdmi, instruction: U32)
    requires cpu.Valid()
    modifies cpu`regs, cpu`exitCode
    ensures cpu.Valid() && cpu.regs == Multiplied(old(cpu.regs), instruction) && cpu.exitCode == old(cpu.exitCode)
  {
    var result := Wrap(cpu.GetRegister(RegField(instruction, 3)) * cpu.GetRegister(RegField(instruction, 11)));
    if BitSet(instruction, 21) {
      result := Wrap(result + cpu.GetRegister(RegField(instruction, 15)));
    }
    assert result == Product(cpu.regs, instruction);
    cpu.SetRegister(RegField(instruction, 19), result);
    if BitSet(instruction, 20) {
      SetMultiplyFlags(cpu, result);
    }
  }

  /** MUL's flag updates with S: N and Z from the result, C set. */
  method SetMultiplyFlags(cpu: Arm7Tdmi, result: U32)
    requires Sane(cpu.regs)
    modifies cpu`regs
    ensures Sane(cpu.regs) && cpu.regs == old(cpu.regs).(cpsr := MultiplyFlags(old(cpu.regs).cpsr, result))
  {
    cpu.SetConditionCodeFlag(N, Bit(Msb(result)));
    cpu.SetConditionCodeFlag(Z, Bit(result == 0));
    cpu.SetConditionCodeFlag(C, 1);
  }

  const Two32: int := 0x1_0000_0000
  const Two64: int := 0x1_0000_0000_0000_0000

  /** r15 anywhere, or RdHi, RdLo and Rm not all different: the long multiply does nothing. */
  predicate LongRejected(instruction: U32)
  {
    var hi, lo, rs, rm := RegField(instruction, 19), RegField(instruction, 15), RegField(instruction, 11), RegField(instruction, 3);
    hi == 15 || lo == 15 || rm == 15 || rs == 15 || hi == lo || hi == rm || lo == rm
  }

  /**
   * The 64-bit result: Rm * Rs, unsigned or (bit 22) signed, plus RdHi:RdLo
   * with the accumulate bit, as the 64 bits the source's u64 or s64 holds.
   */
  function LongResult(r: Registers, instruction: U32): (v: int)
    requires Sane(r)
    ensures 0 <= v < Two64
  {
    var a, b := ReadReg(r, RegField(instruction, 3)), ReadReg(r, RegField(instruction, 11));
    var product := if BitSet(instruction, 22) then SInt(a) * SInt(b) else a * b;
    var acc := if BitSet(instruction, 21) then ReadReg(r, RegField(instruction, 19)) * Two32 + ReadReg(r, RegField(instruction, 15)) else 0;
    (product + acc) % Two64
  }

  /** The long multiplies' flags with S set: N from bit 63, Z when all 64 bits are 0, and C cleared. */
  function LongFlags(p: Psr, v: int): (q: Psr)
    requires Fit(p)
    ensures Fit(q) && SameControl(q, p) && q.v == p.v
    ensures q.n == Bit(v >= 0x8000_0000_0000_0000) && q.z == Bit(v == 0) && q.c == 0
  {
    SetFlag(SetFlag(SetFlag(p, N, Bit(v >= 0x8000_0000_0000_0000)), Z, Bit(v == 0)), C, 0)
  }

  /** The register file after a long multiply: the high word in RdHi, the low word in RdLo. */
  function LongMultiplied(r: Registers, instruction: U32): (r': Registers)
    requires Sane(r)
    ensures Sane(r')
  {
    LongStored(r, instruction, LongResult(r, instruction))
  }

  /** The high word of the 64-bit v in RdHi, the low word in RdLo, and the flags with S set. */
  function LongStored(r: Registers, instruction: U32, v: int): (r': Registers)
    requires Sane(r) && 0 <= v < Two64
    ensures Sane(r')
  {
    var r1 := Put(Put(r, RegField(instruction, 19), v / Two32), RegField(instruction, 15), v % Two32);
    if BitSet(instruction, 20) then r1.(cpsr := LongFlags(r1.cpsr, v)) else r1
  }

  /** After an accepted long multiply, RdHi:RdLo reads back as the 64-bit result and no other of r0-r15 changes. */
  lemma LongMultiplyMeaning(r: Registers, instruction: U32)
    requires Sane(r) && !LongRejected(instruction)
    ensures var r', hi, lo := LongMultiplied(r, instruction), RegField(instruction, 19), RegField(instruction, 15);
      && ReadReg(r', hi) * Two32 + ReadReg(r', lo) == LongResult(r, instruction)
      && forall k: U32 :: k < 16 && k != hi && k != lo ==> ReadReg(r', k) == ReadReg(r, k)
  {
    var v := LongResult(r, instruction);
    var hi, lo := RegField(instruction, 19), RegField(instruction, 15);
    var r1 := Put(r, hi, v / Two32);
    PutOther(r1, lo, v % Two32, hi);
    forall k: U32 | k < 16 && k != hi && k != lo
      ensures ReadReg(LongMultiplied(r, instruction), k) == ReadReg(r, k)
    {
      PutOther(r1, lo, v % Two32, k);
      PutOther(r, hi, v / Two32, k);
    }
  }

  /** SMULL's 64 bits, read as a signed number, are exactly the signed product: it cannot overflow. */
  lemma SignedLongProductExact(a: U32, b: U32)
    ensures var v := (SInt(a) * SInt(b)) % Two64;
      (if v >= 0x8000_0000_0000_0000 then v - Two64 else v) == SInt(a) * SInt(b)
  {
    var x, y := SInt(a), SInt(b);
    assert -0x8000_0000 <= x <= 0x7FFF_FFFF && -0x8000_0000 <= y <= 0x7FFF_FFFF;
    ProductBound(x, y);
    var p := x * y;
    if p >= 0 {
      assert p % Two64 == p;
    } else {
      assert (p + Two64) % Two64 == p % Two64;
      assert p % Two64 == p + Two64;
    }
  }

  /** Two signed 32-bit factors have a product within 2^62 of zero. */
  lemma ProductBound(x: int, y: int)
    requires -0x8000_0000 <= x <= 0x7FFF_FFFF && -0x8000_0000 <= y <= 0x7FFF_FFFF
    ensures -0x4000_0000_0000_0000 <= x * y <= 0x4000_0000_0000_0000
  {
    var ax, ay := if x < 0 then -x else x, if y < 0 then -y else y;
    ScaleUp(ax, 0x8000_0000, ay);
    ScaleUp(ay, 0x8000_0000, 0x8000_0000);
    assert x * y == ax * ay || x * y == -(ax * ay);
  }

  /** a <= b scales to a * c <= b * c for c >= 0. */
  lemma ScaleUp(a: int, b: int, c: int)
    requires 0 <= a <= b && 0 <= c
    ensures a * c <= b * c
  {
  }

  /** MultiplyLong: r15 or overlapping registers make it do nothing. */
  method MultiplyLong(cpu: Arm7Tdmi, instruction: U32)
    requires cpu.Valid()
    modifies cpu`regs, cpu`cycles, cpu`exitCode
    ensures cpu.Valid() && cpu.exitCode == old(cpu.exitCode)
    ensures if LongRejected(instruction) then cpu.regs == old(cpu.regs) && cpu.cycles == old(cpu.cycles)
      else
        var m := MultiplierCycles(ReadReg(old(cpu.regs), RegField(instruction, 11)), BitSet(instruction, 22));
        cpu.regs == LongMultiplied(old(cpu.regs), instruction)
        && cpu.cycles == Wrap(old(cpu.cycles) + Cost(cpu, 0, 1, m + Bit(BitSet(instruction, 21))))
  {
    if LongRejected(instruction) {
      return;
    }
    var m := MultiplierCycles(cpu.GetRegister(RegField(instruction, 11)), BitSet(instruction, 22));
    var i := m + Bit(BitSet(instruction, 21));
    LongMultiplyRegisters(cpu, instruction);
    cpu.Tick(0, 1, i);
  }

  /** MultiplyLong's product, its writes to RdHi and RdLo, and its flags. */
  method LongMultiplyRegisters(cpu: Arm7Tdmi, instruction: U32)
    requires cpu.Valid()
    modifies cpu`regs, cpu`exitCode
    ensures cpu.Valid() && cpu.regs == LongMultiplied(old(cpu.regs), instruction) && cpu.exitCode == old(cpu.exitCode)
  {
    var a, b := cpu.GetRegister(RegField(instruction, 3)), cpu.GetRegister(RegField(instruction, 11));
    var result: int := if BitSet(instruction, 22) then SInt(a) * SInt(b) else a as int * b;
    if BitSet(instruction, 21) {
      result := result + cpu.GetRegister(RegField(instruction, 19)) as int * Two32 + cpu.GetRegister(RegField(instruction, 15));
    }
    result := result % Two64;
    assert result == LongResult(cpu.regs, instruction);
    StoreLong(cpu, instruction, result);
  }

  /** Writes the 64-bit v to RdHi:RdLo and sets the flags when S is set. */
  method StoreLong(cpu: Arm7Tdmi, instruction: U32, result: int)
    requires cpu.Valid() && 0 <= result < Two64
    modifies cpu`regs, cpu`exitCode
    ensures cpu.Valid() && cpu.regs == LongStored(old(cpu.regs), instruction, result) && cpu.exitCode == old(cpu.exitCode)
  {
    cpu.SetRegister(RegField(instruction, 19), result / Two32);
    cpu.SetRegister(RegField(instruction, 15), result % Two32);
    if BitSet(instruction, 20) {
      cpu.SetConditionCodeFlag(N, Bit(result >= 0x8000_0000_0000_0000));
      cpu.SetConditionCodeFlag(Z, Bit(result == 0));
      cpu.SetConditionCodeFlag(C, 0);
    }
  }

  // ---------------------------------------------------------------------
  // MRS and MSR
  // ---------------------------------------------------------------------

  /** MRS into r15, or MSR from r15: the transfer is refused and nothing happens. */
  predicate PsrRejected(instruction: U32)
  {
    if !BitSet(instruction, 21) then RegField(instruction, 15) == 15
    else !BitSet(instruction, 25) && RegField(instruction, 3) == 15
  }

  /** MSR's source: an 8-bit immediate rotated right by twice the rotate field, or Rm. */
  function MsrValue(r: Registers, instruction: U32): U32
    requires Sane(r)
  {
    if BitSet(instruction, 25) then Shift(2 * Field(instruction, 11, 8), Field(instruction, 7, 0), 3, r.cpsr.c).value
    else ReadReg(r, RegField(instruction, 3))
  }

  /** The exit code an MSR stops the emulator with: 6 for an SPSR write in USR mode, 21 for a CPSR word naming no mode. */
  function PsrExit(r: Registers, instruction: U32): (code: Option<int>)
    requires Sane(r)
    ensures code.Some? ==> BitSet(instruction, 21)
    ensures code == Some(6) <==> BitSet(instruction, 21) && BitSet(instruction, 22) && CurrentMode(r) == USR
    ensures code == Some(21) <==>
      (BitSet(instruction, 21) && !BitSet(instruction, 22) && !Sane(CpsrWrite(r, MsrValue(r, instruction), !BitSet(instruction, 16))))
  {
    if !BitSet(instruction, 21) then None
    else if BitSet(instruction, 22) then (if CurrentMode(r) == USR then Some(6) else None)
    else if Sane(CpsrWrite(r, MsrValue(r, instruction), !BitSet(instruction, 16))) then None
    else Some(21)
  }

  /**
   * The register file after an accepted PSR transfer: MRS copies the CPSR
   * or the mode's SPSR into Rd; MSR writes the value to the CPSR or SPSR,
   * only N, Z, C and V when bit 16 is clear; an exiting MSR changes nothing.
   */
  function PsrTransferred(r: Registers, instruction: U32): (r': Registers)
    requires Sane(r)
    ensures Sane(r')
    ensures PsrExit(r, instruction).Some? ==> r' == r
  {
    if !BitSet(instruction, 21) then
      Put(r, RegField(instruction, 15), ReadReg(r, if BitSet(instruction, 22) then SpsrReg else CpsrReg))
    else
      var value, flagsOnly := MsrValue(r, instruction), !BitSet(instruction, 16);
      if BitSet(instruction, 22) then (if CurrentMode(r) == USR then r else SpsrWrite(r, value, flagsOnly))
      else
        var r1 := CpsrWrite(r, value, flagsOnly);
        if Sane(r1) then r1 else r
  }

  /** PSRTransfer: refused transfers take no cycle; the others 1S, exiting ones included. */
  method PSRTransfer(cpu: Arm7Tdmi, instruction: U32)
    requires cpu.Valid()
    modifies cpu`regs, cpu`cycles, cpu`exitCode
    ensures cpu.Valid()
    ensures if PsrRejected(instruction) then
        cpu.regs == old(cpu.regs) && cpu.cycles == old(cpu.cycles) && cpu.exitCode == old(cpu.exitCode)
      else
        cpu.regs == PsrTransferred(old(cpu.regs), instruction)
        && cpu.exitCode == (if PsrExit(old(cpu.regs), instruction).Some? then PsrExit(old(cpu.regs), instruction) else old(cpu.exitCode))
        && cpu.cycles == Wrap(old(cpu.cycles) + Cost(cpu, 0, 1, 0))
  {
    if PsrRejected(instruction) {
      return;
    }
    TransferPsr(cpu, instruction);
    cpu.Tick(0, 1, 0);
  }

  /** PSRTransfer's register and status-register writes. */
  method TransferPsr(cpu: Arm7Tdmi, instruction: U32)
    requires cpu.Valid()
    modifies cpu`regs, cpu`exitCode
    ensures cpu.Valid() && cpu.regs == PsrTransferred(old(cpu.regs), instruction)
    ensures cpu.exitCode == if PsrExit(old(cpu.regs), instruction).Some? then PsrExit(old(cpu.regs), instruction) else old(cpu.exitCode)
  {
    if !BitSet(instruction, 21) {
      var psr := cpu.GetRegister(if BitSet(instruction, 22) then SpsrReg else CpsrReg);
      cpu.SetRegister(RegField(instruction, 15), psr);
      return;
    }
    var value: U32;
    if BitSet(instruction, 25) {
      var _, rotated := cpu.BarrelShift(2 * Field(instruction, 11, 8), Field(instruction, 7, 0), 3);
      value := rotated;
    } else {
      value := cpu.GetRegister(RegField(instruction, 3));
    }
    if BitSet(instruction, 22) {
      cpu.UpdateSPSR(value, !BitSet(instruction, 16));
    } else {
      cpu.UpdateCPSR(value, !BitSet(instruction, 16));
    }
  }

  /**
   * MSR then MRS on the CPSR: outside USR mode a full write of a word that
   * names a mode reads back as that word; a flags-only write, or any write
   * in USR mode, changes N, Z, C and V and keeps the mode, I, F and T.
   */
  lemma CpsrTransferRoundTrip(r: Registers, value: U32, flagsOnly: bool)
    requires Sane(r)
    ensures !flagsOnly && CurrentMode(r) != USR && ModeOf(value % 0x20).Some? ==>
      ReadReg(CpsrWrite(r, value, flagsOnly), CpsrReg) == value
    ensures flagsOnly || CurrentMode(r) == USR ==>
      var r' := CpsrWrite(r, value, flagsOnly);
      Sane(r') && CurrentMode(r') == CurrentMode(r) && r'.cpsr.i == r.cpsr.i && r'.cpsr.f == r.cpsr.f
      && r'.cpsr.t == r.cpsr.t && r'.bank == r.bank
  {
    if flagsOnly || CurrentMode(r) == USR {
      var r' := CpsrWrite(r, value, flagsOnly);
      assert SameControl(r'.cpsr, r.cpsr);
    } else if ModeOf(value % 0x20).Some? {
      RawOfFromRaw(value);
    }
  }

  /** MSR then MRS on the SPSR of a mode that has one: a full write reads back as the word written. */
  lemma SpsrTransferRoundTrip(r: Registers, value: U32)
    requires Sane(r) && CurrentMode(r) != USR && CurrentMode(r) != SYS
    ensures ReadReg(SpsrWrite(r, value, false), SpsrReg) == value
    ensures SpsrWrite(r, value, false).bank == r.bank && SpsrWrite(r, value, false).cpsr == r.cpsr
  {
  }

  // ---------------------------------------------------------------------
  // Addressing shared by LDR/STR and LDRH/STRH/LDRSB/LDRSH
  // ---------------------------------------------------------------------

  /** base moved by offset, up (added) or down (subtracted), modulo 2^32. */
  function Offsetted(base: U32, offset: U32, up: bool): (a: U32)
    ensures up ==> a == (base + offset) % Two32
    ensures !up ==> a == (base - offset) % Two32
  {
    if up then Wrap(base + offset) else Wrap(base - offset)
  }

  /** The base after the transfer: Rn moved by the offset, up when bit 23 is set. */
  function FinalBase(r: Registers, instruction: U32, offset: U32): U32
    requires Sane(r)
  {
    Offsetted(ReadReg(r, RegField(instruction, 19)), offset, BitSet(instruction, 23))
  }

  /** The address transferred: the moved base with pre-indexing (bit 24), Rn itself with post-indexing. */
  function TransferAddress(r: Registers, instruction: U32, offset: U32): U32
    requires Sane(r)
  {
    if BitSet(instruction, 24) then FinalBase(r, instruction, offset) else ReadReg(r, RegField(instruction, 19))
  }

  /** The base is written back with W (bit 21) or post-indexing, unless a load's Rd is Rn. */
  predicate WritesBack(instruction: U32)
  {
    (BitSet(instruction, 21) || !BitSet(instruction, 24))
    && !(BitSet(instruction, 20) && RegField(instruction, 15) == RegField(instruction, 19))
  }

  /** The register file after a load of value: Rd, then the written-back base. */
  function Loaded(r: Registers, instruction: U32, offset: U32, value: U32): (r': Registers)
    requires Sane(r)
    ensures Sane(r')
  {
    var r1 := Put(r, RegField(instruction, 15), value);
    if WritesBack(instruction) then Put(r1, RegField(instruction, 19), FinalBase(r, instruction, offset)) else r1
  }

  /** The register file after a store: only the written-back base changes. */
  function Stored(r: Registers, instruction: U32, offset: U32): (r': Registers)
    requires Sane(r)
    ensures Sane(r')
  {
    if WritesBack(instruction) then Put(r, RegField(instruction, 19), FinalBase(r, instruction, offset)) else r
  }

  /**
   * A load leaves the value in Rd; Rn holds the moved base when W is set or
   * the transfer is post-indexed (and Rd is another register), else keeps
   * its value; no other of r0-r15 changes.
   */
  lemma LoadWriteBack(r: Registers, instruction: U32, offset: U32, value: U32)
    requires Sane(r) && BitSet(instruction, 20)
    ensures var r', rd, rn := Loaded(r, instruction, offset, value), RegField(instruction, 15), RegField(instruction, 19);
      && ReadReg(r', rd) == value
      && ReadReg(r', rn) == (if rd == rn then value
                             else if BitSet(instruction, 21) || !BitSet(instruction, 24) then FinalBase(r, instruction, offset)
                             else ReadReg(r, rn))
      && forall k: U32 :: k < 16 && k != rd && k != rn ==> ReadReg(r', k) == ReadReg(r, k)
  {
    var rd, rn := RegField(instruction, 15), RegField(instruction, 19);
    var r1 := Put(r, rd, value);
    if WritesBack(instruction) {
      PutOther(r1, rn, FinalBase(r, instruction, offset), rd);
      forall k: U32 | k < 16 && k != rd && k != rn
        ensures ReadReg(Loaded(r, instruction, offset, value), k) == ReadReg(r, k)
      {
        PutOther(r1, rn, FinalBase(r, instruction, offset), k);
        PutOther(r, rd, value, k);
      }
    } else {
      if rd != rn {
        PutOther(r, rd, value, rn);
      }
      forall k: U32 | k < 16 && k != rd
        ensures ReadReg(Loaded(r, instruction, offset, value), k) == ReadReg(r, k)
      {
        PutOther(r, rd, value, k);
      }
    }
  }

  /** A store changes no register but the base, which moves exactly when W is set or the transfer is post-indexed. */
  lemma StoreWriteBack(r: Registers, instruction: U32, offset: U32)
    requires Sane(r) && !BitSet(instruction, 20)
    ensures var r', rn := Stored(r, instruction, offset), RegField(instruction, 19);
      && ReadReg(r', rn) == (if BitSet(instruction, 21) || !BitSet(instruction, 24) then FinalBase(r, instruction, offset) else ReadReg(r, rn))
      && forall k: U32 :: k < 16 && k != rn ==> ReadReg(r', k) == ReadReg(r, k)
  {
    var rn := RegField(instruction, 19);
    forall k: U32 | k < 16 && k != rn
      ensures ReadReg(Stored(r, instruction, offset), k) == ReadReg(r, k)
    {
      PutOther(r, rn, FinalBase(r, instruction, offset), k);
    }
  }

  /** A store of Rd reads r15 as the address of the instruction plus 12, 4 more than pc. */
  function StoreSource(r: Registers, instruction: U32): U32
    requires Sane(r)
  {
    var rd := RegField(instruction, 15);
    if rd == 15 then Wrap(ReadReg(r, rd) + 4) else ReadReg(r, rd)
  }

  // ---------------------------------------------------------------------
  // LDR, STR, LDRB, STRB
  // ---------------------------------------------------------------------

  /** A register offset (bit 25) in r15: the transfer is refused and nothing happens. */
  predicate SdtRejected(instruction: U32)
  {
    BitSet(instruction, 25) && RegField(instruction, 3) == 15
  }

  /** The offset: the 12-bit immediate, or Rm shifted by an immediate amount (0 meaning 32 or RRX). */
  function SdtOffset(r: Registers, instruction: U32): U32
    requires Sane(r)
  {
    if !BitSet(instruction, 25) then Field(instruction, 11, 0)
    else
      var typ := Field(instruction, 6, 5);
      Shift(ImmediateAmount(Field(instruction, 11, 7), typ), ReadReg(r, RegField(instruction, 3)), typ, r.cpsr.c).value
  }

  /**
   * SingleDataTransfer in ARM state. A load puts the byte (bit 22) or the
   * word, rotated when misaligned, in Rd; a store writes the low byte or the
   * word of Rd; then the base is written back. Cycles: LDR 1S + 1N + 1I,
   * LDR pc 2S + 2N + 1I and a pipeline flush, STR 2N.
   */
  method SingleDataTransfer(cpu: Arm7Tdmi, instruction: U32)
    requires cpu.Valid() && !Thumb(cpu.regs)
    modifies cpu`regs, cpu`pipelineFull, cpu`cycles, cpu`exitCode, cpu`accesses, cpu`lastReadBios, cpu.mem.Repr
    ensures cpu.Valid() && cpu.exitCode == old(cpu.exitCode)
    ensures SdtRejected(instruction) ==>
      cpu.regs == old(cpu.regs) && cpu.cycles == old(cpu.cycles) && cpu.accesses == old(cpu.accesses) && unchanged(cpu.mem.Repr)
    ensures !SdtRejected(instruction) && BitSet(instruction, 20) ==>
      var offset := SdtOffset(old(cpu.regs), instruction);
      var address := TransferAddress(old(cpu.regs), instruction, offset);
      var value := if BitSet(instruction, 22) then old(cpu.Load8(address)) else old(cpu.Load32(address, true));
      && cpu.regs == Loaded(old(cpu.regs), instruction, offset, value)
      && cpu.accesses == old(cpu.accesses) + [Load(if BitSet(instruction, 22) then 1 else 4, address, value)]
      && cpu.pipelineFull == (old(cpu.pipelineFull) && RegField(instruction, 15) != 15)
      && cpu.lastReadBios == (if !BitSet(instruction, 22) && address <= Bus.BiosEnd then value else old(cpu.lastReadBios))
      && unchanged(cpu.mem.Repr)
      && cpu.cycles == Wrap(old(cpu.cycles) + if RegField(instruction, 15) == 15 then Cost(cpu, 2, 2, 1) else Cost(cpu, 1, 1, 1))
    ensures !SdtRejected(instruction) && !BitSet(instruction, 20) ==>
      var offset := SdtOffset(old(cpu.regs), instruction);
      var address := TransferAddress(old(cpu.regs), instruction, offset);
      var byte := BitSet(instruction, 22);
      var value := if byte then StoreSource(old(cpu.regs), instruction) % 0x100 else StoreSource(old(cpu.regs), instruction);
      var a := Mirror(if byte then address else AlignDown(address, 4));
      && cpu.regs == Stored(old(cpu.regs), instruction, offset)
      && cpu.accesses == old(cpu.accesses) + [Store(if byte then 1 else 4, address, value)]
      && cpu.pipelineFull == old(cpu.pipelineFull) && cpu.lastReadBios == old(cpu.lastReadBios)
      && cpu.cycles == Wrap(old(cpu.cycles) + old(cpu.VideoPenalty(a)) + Cost(cpu, 2, 0, 0))
      && (byte && Bus.PlainRam(a, 1) ==> cpu.mem.memory[..] == old(cpu.mem.memory[..])[a := value as Byte])
      && (!byte && Bus.PlainRam(a, 4) ==> cpu.mem.memory[..] == Bus.PutWord(old(cpu.mem.memory[..]), a, ToWord(value)))
  {
    if SdtRejected(instruction) {
      return;
    }
    if BitSet(instruction, 20) {
      LoadTransfer(cpu, instruction);
    } else {
      StoreTransfer(cpu, instruction);
    }
  }

  /** An accepted LDR: the offset, the load, the pipeline flush for r15, and the cycles. */
  method LoadTransfer(cpu: Arm7Tdmi, instruction: U32)
    requires cpu.Valid() && !Thumb(cpu.regs)
    modifies cpu`regs, cpu`pipelineFull, cpu`cycles, cpu`exitCode, cpu`accesses, cpu`lastReadBios
    ensures cpu.Valid() && cpu.exitCode == old(cpu.exitCode)
    ensures var offset := SdtOffset(old(cpu.regs), instruction);
      var address := TransferAddress(old(cpu.regs), instruction, offset);
      var value := if BitSet(instruction, 22) then old(cpu.Load8(address)) else old(cpu.Load32(address, true));
      && cpu.regs == Loaded(old(cpu.regs), instruction, offset, value)
      && cpu.accesses == old(cpu.accesses) + [Load(if BitSet(instruction, 22) then 1 else 4, address, value)]
      && cpu.pipelineFull == (old(cpu.pipelineFull) && RegField(instruction, 15) != 15)
      && cpu.lastReadBios == (if !BitSet(instruction, 22) && address <= Bus.BiosEnd then value else old(cpu.lastReadBios))
      && cpu.cycles == Wrap(old(cpu.cycles) + if RegField(instruction, 15) == 15 then Cost(cpu, 2, 2, 1) else Cost(cpu, 1, 1, 1))
  {
    var offset := SdtOffset(cpu.regs, instruction);
    LoadSingle(cpu, instruction, offset);
    LoadFinish(cpu, RegField(instruction, 15) == 15);
  }

  /** The end of LDR: a load into r15 flushes the pipeline and costs one more N and S. */
  method LoadFinish(cpu: Arm7Tdmi, toPc: bool)
    modifies cpu`pipelineFull, cpu`cycles
    ensures cpu.pipelineFull == (old(cpu.pipelineFull) && !toPc)
    ensures cpu.cycles == Wrap(old(cpu.cycles) + if toPc then Cost(cpu, 2, 2, 1) else Cost(cpu, 1, 1, 1))
  {
    var extra: U8 := 0;
    if toPc {
      extra := 1;
      cpu.pipelineFull := false;
    }
    cpu.Tick(1 + extra, 1 + extra, 1);
  }

  /** An accepted STR: the offset, the store and the cycles. */
  method StoreTransfer(cpu: Arm7Tdmi, instruction: U32)
    requires cpu.Valid()
    modifies cpu`regs, cpu`cycles, cpu`exitCode, cpu`accesses, cpu.mem.Repr
    ensures cpu.Valid() && cpu.exitCode == old(cpu.exitCode)
    ensures var offset := SdtOffset(old(cpu.regs), instruction);
      var address := TransferAddress(old(cpu.regs), instruction, offset);
      var byte := BitSet(instruction, 22);
      var value := if byte then StoreSource(old(cpu.regs), instruction) % 0x100 else StoreSource(old(cpu.regs), instruction);
      var a := Mirror(if byte then address else AlignDown(address, 4));
      && cpu.regs == Stored(old(cpu.regs), instruction, offset)
      && cpu.accesses == old(cpu.accesses) + [Store(if byte then 1 else 4, address, value)]
      && cpu.cycles == Wrap(old(cpu.cycles) + old(cpu.VideoPenalty(a)) + Cost(cpu, 2, 0, 0))
      && (byte && Bus.PlainRam(a, 1) ==> cpu.mem.memory[..] == old(cpu.mem.memory[..])[a := value as Byte])
      && (!byte && Bus.PlainRam(a, 4) ==> cpu.mem.memory[..] == Bus.PutWord(old(cpu.mem.memory[..]), a, ToWord(value)))
  {
    var offset := SdtOffset(cpu.regs, instruction);
    ghost var address := TransferAddress(cpu.regs, instruction, offset);
    ghost var penalty := cpu.VideoPenalty(Mirror(if BitSet(instruction, 22) then address else AlignDown(address, 4)));
    StoreSingle(cpu, instruction, offset);
    TickAfter(cpu, 2, 0, 0, old(cpu.cycles) + penalty);
  }

  /** LDR's read, its write to Rd and the base write-back. */
  method LoadSingle(cpu: Arm7Tdmi, instruction: U32, offset: U32)
    requires cpu.Valid() && !Thumb(cpu.regs)
    modifies cpu`regs, cpu`exitCode, cpu`accesses, cpu`lastReadBios
    ensures cpu.Valid() && cpu.exitCode == old(cpu.exitCode)
    ensures var address := TransferAddress(old(cpu.regs), instruction, offset);
      var value := if BitSet(instruction, 22) then old(cpu.Load8(address)) else old(cpu.Load32(address, true));
      && cpu.regs == Loaded(old(cpu.regs), instruction, offset, value)
      && cpu.accesses == old(cpu.accesses) + [Load(if BitSet(instruction, 22) then 1 else 4, address, value)]
      && cpu.lastReadBios == (if !BitSet(instruction, 22) && address <= Bus.BiosEnd then value else old(cpu.lastReadBios))
  {
    var address := TransferAddress(cpu.regs, instruction, offset);
    var value: U32;
    if BitSet(instruction, 22) {
      value := cpu.Read8(address);
    } else {
      value := cpu.Read32(address, true);
    }
    WriteLoaded(cpu, instruction, offset, value);
  }

  /** A load's register writes: Rd, then the base when it is written back. */
  method WriteLoaded(cpu: Arm7Tdmi, instruction: U32, offset: U32, value: U32)
    requires cpu.Valid()
    modifies cpu`regs, cpu`exitCode
    ensures cpu.Valid() && cpu.regs == Loaded(old(cpu.regs), instruction, offset, value) && cpu.exitCode == old(cpu.exitCode)
  {
    var base := FinalBase(cpu.regs, instruction, offset);
    cpu.SetRegister(RegField(instruction, 15), value);
    if WritesBack(instruction) {
      cpu.SetRegister(RegField(instruction, 19), base);
    }
  }

  /** STR's write and the base write-back. */
  method StoreSingle(cpu: Arm7Tdmi, instruction: U32, offset: U32)
    requires cpu.Valid()
    modifies cpu`regs, cpu`cycles, cpu`exitCode, cpu`accesses, cpu.mem.Repr
    ensures cpu.Valid() && cpu.exitCode == old(cpu.exitCode)
    ensures var address := TransferAddress(old(cpu.regs), instruction, offset);
      var byte := BitSet(instruction, 22);
      var value := if byte then StoreSource(old(cpu.regs), instruction) % 0x100 else StoreSource(old(cpu.regs), instruction);
      var a := Mirror(if byte then address else AlignDown(address, 4));
      && cpu.regs == Stored(old(cpu.regs), instruction, offset)
      && cpu.accesses == old(cpu.accesses) + [Store(if byte then 1 else 4, address, value)]
      && cpu.cycles == Wrap(old(cpu.cycles) + old(cpu.VideoPenalty(a)))
      && (byte && Bus.PlainRam(a, 1) ==> cpu.mem.memory[..] == old(cpu.mem.memory[..])[a := value as Byte])
      && (!byte && Bus.PlainRam(a, 4) ==> cpu.mem.memory[..] == Bus.PutWord(old(cpu.mem.memory[..]), a, ToWord(value)))
  {
    var address := TransferAddress(cpu.regs, instruction, offset);
    var value := StoreSource(cpu.regs, instruction);
    if BitSet(instruction, 22) {
      cpu.Write8(address, value % 0x100);
    } else {
      cpu.Write32(address, value);
    }
    WriteBackStored(cpu, instruction, offset, old(cpu.regs));
  }

  /** A store's base write-back, with the base computed from the registers before the store. */
  method WriteBackStored(cpu: Arm7Tdmi, instruction: U32, offset: U32, ghost r: Registers)
    requires cpu.Valid() && cpu.regs == r
    modifies cpu`regs, cpu`exitCode
    ensures cpu.Valid() && cpu.regs == Stored(r, instruction, offset) && cpu.exitCode == old(cpu.exitCode)
  {
    if WritesBack(instruction) {
      cpu.SetRegister(RegField(instruction, 19), FinalBase(cpu.regs, instruction, offset));
    }
  }

  // ---------------------------------------------------------------------
  // LDRH, STRH, LDRSB, LDRSH
  // ---------------------------------------------------------------------

  /** The refusal as written: an Rm field of r15 stops the transfer even when bit 22 makes bits 3-0 part of an immediate. */
  predicate HdtRejectedAsWritten(instruction: U32)
  {
    RegField(instruction, 3) == 15
  }

  /** The refusal as intended: only a register offset (bit 22 clear) in r15 is refused. */
  predicate HdtRejected(instruction: U32)
  {
    !BitSet(instruction, 22) && RegField(instruction, 3) == 15
  }

  /** The offset: the 8-bit immediate split over bits 11-8 and 3-0 (bit 22), or Rm. */
  function HdtOffset(r: Registers, instruction: U32): (offset: U32)
    requires Sane(r)
    ensures BitSet(instruction, 22) ==> offset < 0x100 && offset % 0x10 == Field(instruction, 3, 0)
  {
    if BitSet(instruction, 22) then Field(instruction, 11, 8) * 0x10 + Field(instruction, 3, 0)
    else ReadReg(r, RegField(instruction, 3))
  }

  /** SH = 00 (a swap decoded here), or a store of a signed byte or halfword: the transfer does nothing. */
  predicate HdtIgnored(instruction: U32)
  {
    Field(instruction, 6, 5) == 0 || (!BitSet(instruction, 20) && Field(instruction, 6, 5) != 1)
  }

  /** LDRH r0, [r1, #0xF]: the immediate's low nibble reads as r15, so the load as written does nothing. */
  lemma HdtImmediateDiscrepancy(r: Registers)
    requires Sane(r)
    ensures HdtRejectedAsWritten(0xE1D1_00BF) && !HdtRejected(0xE1D1_00BF)
    ensures BitSet(0xE1D1_00BF, 20) && Field(0xE1D1_00BF, 6, 5) == 1 && HdtOffset(r, 0xE1D1_00BF) == 0xF
    ensures forall instruction: U32 :: HdtRejected(instruction) ==> HdtRejectedAsWritten(instruction)
  {
    assert Pow2(0) == 1 && Pow2(4) == 0x10 && Pow2(8) == 0x100 && Pow2(22) == 0x40_0000;
    assert Pow2(20) == 0x10_0000 && Pow2(5) == 0x20 && Pow2(2) == 4 && Pow2(1) == 2;
  }

  /** A loaded byte with bits 31-8 set when its bit 7 is. */
  function ExtendByte(b: U8): (v: U32)
    ensures SInt(v) == if b >= 0x80 then b - 0x100 else b
  {
    if b >= 0x80 then 0xFFFF_FF00 + b else b
  }

  /** A loaded halfword with bits 31-16 set when its bit 15 is. */
  function ExtendHalf(v: U32): (w: U32)
    ensures w % 0x1_0000 == v % 0x1_0000
    ensures (v / 0x8000) % 2 == 1 ==> SInt(w) == v % 0x1_0000 - 0x1_0000
    ensures (v / 0x8000) % 2 == 0 ==> w == v
  {
    if (v / 0x8000) % 2 == 1 then 0xFFFF_0000 + v % 0x1_0000 else v
  }

  /** Read16's signed value from the bus is sign-extended already, so the handler's extension leaves it alone. */
  lemma SignedHalfExtended(address: U32, d: U16)
    ensures ExtendHalf(SignedHalf(address, d)) == SignedHalf(address, d)
  {
  }

  /** The value a halfword or signed load puts in Rd, from the value Read16 or Read8 returned. */
  function HalfLoadValue(instruction: U32, read: U32): U32
  {
    match Field(instruction, 6, 5)
    case 2 => ExtendByte(read % 0x100)
    case 3 => ExtendHalf(read)
    case _ => read
  }

  /**
   * HalfwordDataTransfer in ARM state. LDRH loads a halfword (rotated at an
   * odd address), LDRSB a sign-extended byte, LDRSH a sign-extended halfword;
   * STRH writes the low half of Rd; then the base is written back. Cycles:
   * 1S + 1N + 1I for a load, one more S and N for Rd = r15, 2N for a store.
   */
  method HalfwordDataTransfer(cpu: Arm7Tdmi, instruction: U32)
    requires cpu.Valid() && !Thumb(cpu.regs)
    modifies cpu`regs, cpu`cycles, cpu`exitCode, cpu`accesses, cpu.mem.Repr
    ensures cpu.Valid() && cpu.exitCode == old(cpu.exitCode)
    ensures HdtRejected(instruction) || HdtIgnored(instruction) ==>
      cpu.regs == old(cpu.regs) && cpu.cycles == old(cpu.cycles) && cpu.accesses == old(cpu.accesses) && unchanged(cpu.mem.Repr)
    ensures !HdtRejected(instruction) && !HdtIgnored(instruction) && BitSet(instruction, 20) ==>
      var offset := HdtOffset(old(cpu.regs), instruction);
      var address := TransferAddress(old(cpu.regs), instruction, offset);
      var byte := Field(instruction, 6, 5) == 2;
      var read := if byte then old(cpu.Load8(address)) else old(cpu.Load16(address, Field(instruction, 6, 5) == 3));
      && cpu.regs == Loaded(old(cpu.regs), instruction, offset, HalfLoadValue(instruction, read))
      && cpu.accesses == old(cpu.accesses) + [Load(if byte then 1 else 2, address, read)]
      && unchanged(cpu.mem.Repr)
      && cpu.cycles == Wrap(old(cpu.cycles) + if RegField(instruction, 15) == 15 then Cost(cpu, 2, 2, 1) else Cost(cpu, 1, 1, 1))
    ensures !HdtRejected(instruction) && !HdtIgnored(instruction) && !BitSet(instruction, 20) ==>
      var offset := HdtOffset(old(cpu.regs), instruction);
      var address := TransferAddress(old(cpu.regs), instruction, offset);
      var value := ReadReg(old(cpu.regs), RegField(instruction, 15)) % 0x1_0000;
      var a := Mirror(AlignDown(address, 2));
      && cpu.regs == Stored(old(cpu.regs), instruction, offset)
      && cpu.accesses == old(cpu.accesses) + [Store(2, address, value)]
      && cpu.cycles == Wrap(old(cpu.cycles) + old(cpu.VideoPenalty(a)) + Cost(cpu, 2, 0, 0))
      && (Bus.PlainRam(a, 2) ==> cpu.mem.memory[..] == old(cpu.mem.memory[..])[a := Lo8(value as Half)][a + 1 := Hi8(value as Half)])
  {
    if HdtRejected(instruction) || HdtIgnored(instruction) {
      return;
    }
    if BitSet(instruction, 20) {
      HdtLoadOf(cpu, instruction);
    } else {
      HdtStoreOf(cpu, instruction);
    }
  }

  /** An accepted LDRH, LDRSB or LDRSH: the offset, the read, Rd, the base and the cycles. */
  method HdtLoadOf(cpu: Arm7Tdmi, instruction: U32)
    requires cpu.Valid() && !Thumb(cpu.regs) && !HdtRejected(instruction) && !HdtIgnored(instruction) && BitSet(instruction, 20)
    modifies cpu`regs, cpu`cycles, cpu`exitCode, cpu`accesses
    ensures cpu.Valid() && cpu.exitCode == old(cpu.exitCode)
    ensures var offset := HdtOffset(old(cpu.regs), instruction);
      var address := TransferAddress(old(cpu.regs), instruction, offset);
      var byte := Field(instruction, 6, 5) == 2;
      var read := if byte then old(cpu.Load8(address)) else old(cpu.Load16(address, Field(instruction, 6, 5) == 3));
      && cpu.regs == Loaded(old(cpu.regs), instruction, offset, HalfLoadValue(instruction, read))
      && cpu.accesses == old(cpu.accesses) + [Load(if byte then 1 else 2, address, read)]
      && cpu.cycles == Wrap(old(cpu.cycles) + if RegField(instruction, 15) == 15 then Cost(cpu, 2, 2, 1) else Cost(cpu, 1, 1, 1))
  {
    var offset := HdtOffset(cpu.regs, instruction);
    HalfLoadTransfer(cpu, instruction, offset);
  }

  /** An accepted STRH: the offset, the write, the base and the cycles. */
  method HdtStoreOf(cpu: Arm7Tdmi, instruction: U32)
    requires cpu.Valid() && !Thumb(cpu.regs) && !HdtRejected(instruction) && !HdtIgnored(instruction) && !BitSet(instruction, 20)
    modifies cpu`regs, cpu`cycles, cpu`exitCode, cpu`accesses, cpu.mem.Repr
    ensures cpu.Valid() && cpu.exitCode == old(cpu.exitCode)
    ensures var offset := HdtOffset(old(cpu.regs), instruction);
      var address := TransferAddress(old(cpu.regs), instruction, offset);
      var value := ReadReg(old(cpu.regs), RegField(instruction, 15)) % 0x1_0000;
      var a := Mirror(AlignDown(address, 2));
      && cpu.regs == Stored(old(cpu.regs), instruction, offset)
      && cpu.accesses == old(cpu.accesses) + [Store(2, address, value)]
      && cpu.cycles == Wrap(old(cpu.cycles) + old(cpu.VideoPenalty(a)) + Cost(cpu, 2, 0, 0))
      && (Bus.PlainRam(a, 2) ==> cpu.mem.memory[..] == old(cpu.mem.memory[..])[a := Lo8(value as Half)][a + 1 := Hi8(value as Half)])
  {
    var offset := HdtOffset(cpu.regs, instruction);
    HalfStoreTransfer(cpu, instruction, offset);
  }

  /** An accepted halfword or signed load with its offset computed: the read, Rd, the base and the cycles. */
  method HalfLoadTransfer(cpu: Arm7Tdmi, instruction: U32, offset: U32)
    requires cpu.Valid() && !Thumb(cpu.regs) && Field(instruction, 6, 5) != 0
    modifies cpu`regs, cpu`cycles, cpu`exitCode, cpu`accesses
    ensures cpu.Valid() && cpu.exitCode == old(cpu.exitCode)
    ensures var address := TransferAddress(old(cpu.regs), instruction, offset);
      var byte := Field(instruction, 6, 5) == 2;
      var read := if byte then old(cpu.Load8(address)) else old(cpu.Load16(address, Field(instruction, 6, 5) == 3));
      && cpu.regs == Loaded(old(cpu.regs), instruction, offset, HalfLoadValue(instruction, read))
      && cpu.accesses == old(cpu.accesses) + [Load(if byte then 1 else 2, address, read)]
      && cpu.cycles == Wrap(old(cpu.cycles) + if RegField(instruction, 15) == 15 then Cost(cpu, 2, 2, 1) else Cost(cpu, 1, 1, 1))
  {
    HalfLoadSingle(cpu, instruction, offset);
    HalfLoadTicks(cpu, RegField(instruction, 15) == 15);
  }

  /** The cycles of a halfword or signed load: one more S and N when Rd is r15 (the pipeline is left as it is). */
  method HalfLoadTicks(cpu: Arm7Tdmi, toPc: bool)
    modifies cpu`cycles
    ensures cpu.cycles == Wrap(old(cpu.cycles) + if toPc then Cost(cpu, 2, 2, 1) else Cost(cpu, 1, 1, 1))
  {
    var extra: U8 := if toPc then 1 else 0;
    cpu.Tick(1 + extra, 1 + extra, 1);
  }

  /** The halfword or byte read, its extension into Rd, and the base write-back. */
  method HalfLoadSingle(cpu: Arm7Tdmi, instruction: U32, offset: U32)
    requires cpu.Valid() && !Thumb(cpu.regs) && Field(instruction, 6, 5) != 0
    modifies cpu`regs, cpu`exitCode, cpu`accesses
    ensures cpu.Valid() && cpu.exitCode == old(cpu.exitCode)
    ensures var address := TransferAddress(old(cpu.regs), instruction, offset);
      var byte := Field(instruction, 6, 5) == 2;
      var read := if byte then old(cpu.Load8(address)) else old(cpu.Load16(address, Field(instruction, 6, 5) == 3));
      && cpu.regs == Loaded(old(cpu.regs), instruction, offset, HalfLoadValue(instruction, read))
      && cpu.accesses == old(cpu.accesses) + [Load(if byte then 1 else 2, address, read)]
  {
    var address := TransferAddress(cpu.regs, instruction, offset);
    var read := HalfRead(cpu, address, Field(instruction, 6, 5));
    WriteLoaded(cpu, instruction, offset, HalfLoadValue(instruction, read));
  }

  /** The read of LDRSB (kind 2), LDRH (kind 1) or LDRSH (kind 3), in ARM state. */
  method HalfRead(cpu: Arm7Tdmi, address: U32, kind: int) returns (read: U32)
    requires cpu.Valid() && !Thumb(cpu.regs)
    modifies cpu`exitCode, cpu`accesses
    ensures cpu.exitCode == old(cpu.exitCode)
    ensures read == old(if kind == 2 then cpu.Load8(address) else cpu.Load16(address, kind == 3))
    ensures cpu.accesses == old(cpu.accesses) + [Load(if kind == 2 then 1 else 2, address, read)]
  {
    if kind == 2 {
      read := cpu.Read8(address);
    } else {
      read := cpu.Read16(address, kind == 3);
    }
  }

  /** STRH with its offset computed: the write, the base and the cycles. */
  method HalfStoreTransfer(cpu: Arm7Tdmi, instruction: U32, offset: U32)
    requires cpu.Valid()
    modifies cpu`regs, cpu`cycles, cpu`exitCode, cpu`accesses, cpu.mem.Repr
    ensures cpu.Valid() && cpu.exitCode == old(cpu.exitCode)
    ensures var address := TransferAddress(old(cpu.regs), instruction, offset);
      var value := ReadReg(old(cpu.regs), RegField(instruction, 15)) % 0x1_0000;
      var a := Mirror(AlignDown(address, 2));
      && cpu.regs == Stored(old(cpu.regs), instruction, offset)
      && cpu.accesses == old(cpu.accesses) + [Store(2, address, value)]
      && cpu.cycles == Wrap(old(cpu.cycles) + old(cpu.VideoPenalty(a)) + Cost(cpu, 2, 0, 0))
      && (Bus.PlainRam(a, 2) ==> cpu.mem.memory[..] == old(cpu.mem.memory[..])[a := Lo8(value as Half)][a + 1 := Hi8(value as Half)])
  {
    ghost var penalty := cpu.VideoPenalty(Mirror(AlignDown(TransferAddress(cpu.regs, instruction, offset), 2)));
    HalfStoreSingle(cpu, instruction, offset);
    TickAfter(cpu, 2, 0, 0, old(cpu.cycles) + penalty);
  }

  /** STRH's write and the base write-back. */
  method HalfStoreSingle(cpu: Arm7Tdmi, instruction: U32, offset: U32)
    requires cpu.Valid()
    modifies cpu`regs, cpu`cycles, cpu`exitCode, cpu`accesses, cpu.mem.Repr
    ensures cpu.Valid() && cpu.exitCode == old(cpu.exitCode)
    ensures var address := TransferAddress(old(cpu.regs), instruction, offset);
      var value := ReadReg(old(cpu.regs), RegField(instruction, 15)) % 0x1_0000;
      var a := Mirror(AlignDown(address, 2));
      && cpu.regs == Stored(old(cpu.regs), instruction, offset)
      && cpu.accesses == old(cpu.accesses) + [Store(2, address, value)]
      && cpu.cycles == Wrap(old(cpu.cycles) + old(cpu.VideoPenalty(a)))
      && (Bus.PlainRam(a, 2) ==> cpu.mem.memory[..] == old(cpu.mem.memory[..])[a := Lo8(value as Half)][a + 1 := Hi8(value as Half)])
  {
    ghost var r0, m0, c0, log0 := cpu.regs, cpu.mem.memory[..], cpu.cycles, cpu.accesses;
    var address := TransferAddress(cpu.regs, instruction, offset);
    var value := cpu.GetRegister(RegField(instruction, 15)) % 0x1_0000;
    ghost var a := Mirror(AlignDown(address, 2));
    ghost var penalty := cpu.VideoPenalty(a);
    cpu.Write16(address, value);
    assert cpu.cycles == Wrap(c0 + penalty) && cpu.accesses == log0 + [Store(2, address, value)];
    assert Bus.PlainRam(a, 2) ==> cpu.mem.memory[..] == m0[a := Lo8(value as Half)][a + 1 := Hi8(value as Half)];
    ghost var m1, c1, a1 := cpu.mem.memory[..], cpu.cycles, cpu.accesses;
    WriteBackStored(cpu, instruction, offset, r0);
    assert cpu.mem.memory[..] == m1 && cpu.cycles == c1 && cpu.accesses == a1;
  }

  // ---------------------------------------------------------------------
  // SWP, SWPB
  // ---------------------------------------------------------------------

  /** r15 as Rn, Rd or Rm: the swap is refused and nothing happens. */
  predicate SwapRejected(instruction: U32)
  {
    RegField(instruction, 19) == 15 || RegField(instruction, 15) == 15 || RegField(instruction, 3) == 15
  }

  /**
   * SingleDataSwap in ARM state: the byte (bit 22) or the word at Rn, rotated
   * when misaligned, goes to Rd, and the low byte or the word of Rm is written
   * there; 1S + 2N + 1I cycles.
   */
  method SingleDataSwap(cpu: Arm7Tdmi, instruction: U32)
    requires cpu.Valid() && !Thumb(cpu.regs)
    modifies cpu`regs, cpu`cycles, cpu`exitCode, cpu`accesses, cpu`lastReadBios, cpu.mem.Repr
    ensures cpu.Valid() && cpu.exitCode == old(cpu.exitCode)
    ensures SwapRejected(instruction) ==>
      cpu.regs == old(cpu.regs) && cpu.cycles == old(cpu.cycles) && cpu.accesses == old(cpu.accesses) && unchanged(cpu.mem.Repr)
    ensures !SwapRejected(instruction) ==>
      var address, byte := ReadReg(old(cpu.regs), RegField(instruction, 19)), BitSet(instruction, 22);
      var temp := if byte then old(cpu.Load8(address)) else old(cpu.Load32(address, true));
      var source := if byte then ReadReg(old(cpu.regs), RegField(instruction, 3)) % 0x100 else ReadReg(old(cpu.regs), RegField(instruction, 3));
      var a := Mirror(if byte then address else AlignDown(address, 4));
      var w := if byte then 1 else 4;
      && cpu.regs == Put(old(cpu.regs), RegField(instruction, 15), temp)
      && cpu.accesses == old(cpu.accesses) + [Load(w, address, temp), Store(w, address, source)]
      && cpu.cycles == Wrap(old(cpu.cycles) + old(cpu.VideoPenalty(a)) + Cost(cpu, 2, 1, 1))
      && (byte && Bus.PlainRam(a, 1) ==> cpu.mem.memory[..] == old(cpu.mem.memory[..])[a := source as Byte])
      && (!byte && Bus.PlainRam(a, 4) ==> cpu.mem.memory[..] == Bus.PutWord(old(cpu.mem.memory[..]), a, ToWord(source)))
  {
    if SwapRejected(instruction) {
      return;
    }
    ghost var address := cpu.GetRegister(RegField(instruction, 19));
    ghost var penalty := cpu.VideoPenalty(Mirror(if BitSet(instruction, 22) then address else AlignDown(address, 4)));
    Swap(cpu, instruction);
    TickAfter(cpu, 2, 1, 1, old(cpu.cycles) + penalty);
  }

  /** SWP's read, write and register write. */
  method Swap(cpu: Arm7Tdmi, instruction: U32)
    requires cpu.Valid() && !Thumb(cpu.regs)
    modifies cpu`regs, cpu`cycles, cpu`exitCode, cpu`accesses, cpu`lastReadBios, cpu.mem.Repr
    ensures cpu.Valid() && cpu.exitCode == old(cpu.exitCode)
    ensures var address, byte := ReadReg(old(cpu.regs), RegField(instruction, 19)), BitSet(instruction, 22);
      var temp := if byte then old(cpu.Load8(address)) else old(cpu.Load32(address, true));
      var source := if byte then ReadReg(old(cpu.regs), RegField(instruction, 3)) % 0x100 else ReadReg(old(cpu.regs), RegField(instruction, 3));
      var a := Mirror(if byte then address else AlignDown(address, 4));
      var w := if byte then 1 else 4;
      && cpu.regs == Put(old(cpu.regs), RegField(instruction, 15), temp)
      && cpu.accesses == old(cpu.accesses) + [Load(w, address, temp), Store(w, address, source)]
      && cpu.cycles == Wrap(old(cpu.cycles) + old(cpu.VideoPenalty(a)))
      && (byte && Bus.PlainRam(a, 1) ==> cpu.mem.memory[..] == old(cpu.mem.memory[..])[a := source as Byte])
      && (!byte && Bus.PlainRam(a, 4) ==> cpu.mem.memory[..] == Bus.PutWord(old(cpu.mem.memory[..]), a, ToWord(source)))
  {
    var address := cpu.GetRegister(RegField(instruction, 19));
    var temp := SwapMemory(cpu, address, cpu.GetRegister(RegField(instruction, 3)), BitSet(instruction, 22));
    cpu.SetRegister(RegField(instruction, 15), temp);
  }

  /** The memory half of a swap: read the old byte or word at address, then write source there. */
  method SwapMemory(cpu: Arm7Tdmi, address: U32, rm: U32, byte: bool) returns (temp: U32)
    requires cpu.Valid() && !Thumb(cpu.regs)
    modifies cpu`cycles, cpu`exitCode, cpu`accesses, cpu`lastReadBios, cpu.mem.Repr
    ensures cpu.Valid() && cpu.exitCode == old(cpu.exitCode)
    ensures var source := if byte then rm % 0x100 else rm;
      var a := Mirror(if byte then address else AlignDown(address, 4));
      var w := if byte then 1 else 4;
      && temp == (if byte then old(cpu.Load8(address)) else old(cpu.Load32(address, true)))
      && cpu.accesses == old(cpu.accesses) + [Load(w, address, temp), Store(w, address, source)]
      && cpu.cycles == Wrap(old(cpu.cycles) + old(cpu.VideoPenalty(a)))
      && (byte && Bus.PlainRam(a, 1) ==> cpu.mem.memory[..] == old(cpu.mem.memory[..])[a := source as Byte])
      && (!byte && Bus.PlainRam(a, 4) ==> cpu.mem.memory[..] == Bus.PutWord(old(cpu.mem.memory[..]), a, ToWord(source)))
  {
    if byte {
      temp := SwapByte(cpu, address, rm % 0x100);
    } else {
      temp := SwapWord(cpu, address, rm);
    }
  }

  /** SWPB's read and write. */
  method SwapByte(cpu: Arm7Tdmi, address: U32, source: U8) returns (temp: U32)
    requires cpu.Valid() && !Thumb(cpu.regs)
    modifies cpu`cycles, cpu`exitCode, cpu`accesses, cpu.mem.Repr
    ensures cpu.Valid() && cpu.exitCode == old(cpu.exitCode)
    ensures var a := Mirror(address);
      && temp == old(cpu.Load8(address))
      && cpu.accesses == old(cpu.accesses) + [Load(1, address, temp), Store(1, address, source)]
      && cpu.cycles == Wrap(old(cpu.cycles) + old(cpu.VideoPenalty(a)))
      && (Bus.PlainRam(a, 1) ==> cpu.mem.memory[..] == old(cpu.mem.memory[..])[a := source as Byte])
  {
    temp := cpu.Read8(address);
    cpu.Write8(address, source);
  }

  /** SWP's read and write. */
  method SwapWord(cpu: Arm7Tdmi, address: U32, source: U32) returns (temp: U32)
    requires cpu.Valid() && !Thumb(cpu.regs)
    modifies cpu`cycles, cpu`exitCode, cpu`accesses, cpu`lastReadBios, cpu.mem.Repr
    ensures cpu.Valid() && cpu.exitCode == old(cpu.exitCode)
    ensures var a := Mirror(AlignDown(address, 4));
      && temp == old(cpu.Load32(address, true))
      && cpu.accesses == old(cpu.accesses) + [Load(4, address, temp), Store(4, address, source)]
      && cpu.cycles == Wrap(old(cpu.cycles) + old(cpu.VideoPenalty(a)))
      && (Bus.PlainRam(a, 4) ==> cpu.mem.memory[..] == Bus.PutWord(old(cpu.mem.memory[..]), a, ToWord(source)))
  {
    temp := cpu.Read32(address, true);
    cpu.Write32(address, source);
  }

  // ---------------------------------------------------------------------
  // LDM, STM
  // ---------------------------------------------------------------------

  /** The registers whose bits are set among bits 0 .. k-1 of list, in ascending order. */
  function ListedBelow(list: int, k: nat): (rs: seq<U32>)
    requires 0 <= list && k <= 16
    ensures |rs| <= k && forall j :: 0 <= j < |rs| ==> rs[j] < k
    decreases k
  {
    if k == 0 then [] else ListedBelow(list, k - 1) + (if Field(list, k - 1, k - 1) == 1 then [k - 1] else [])
  }

  /** ListedBelow is strictly ascending. */
  lemma {:induction false} ListedBelowAscending(list: int, k: nat)
    requires 0 <= list && k <= 16
    ensures forall i, j :: 0 <= i < j < |ListedBelow(list, k)| ==> ListedBelow(list, k)[i] < ListedBelow(list, k)[j]
    decreases k
  {
    if k > 0 {
      ListedBelowAscending(list, k - 1);
      var rs, rs' := ListedBelow(list, k - 1), ListedBelow(list, k);
      forall i, j | 0 <= i < j < |rs'|
        ensures rs'[i] < rs'[j]
      {
        if j < |rs| {
          assert rs'[i] == rs[i] && rs'[j] == rs[j];
        } else {
          assert rs'[i] == rs[i] && rs'[j] == k - 1;
        }
      }
    }
  }

  /** ListedBelow holds exactly the registers whose bits below k are set. */
  lemma {:induction false} ListedBelowMembers(list: int, k: nat)
    requires 0 <= list && k <= 16
    ensures forall reg: U32 :: reg < k ==> (reg in ListedBelow(list, k) <==> Field(list, reg, reg) == 1)
    decreases k
  {
    if k > 0 {
      ListedBelowMembers(list, k - 1);
      var rs := ListedBelow(list, k - 1);
      var tail := if Field(list, k - 1, k - 1) == 1 then [k - 1] else [];
      assert ListedBelow(list, k) == rs + tail;
      forall reg: U32 | reg < k
        ensures reg in rs + tail <==> Field(list, reg, reg) == 1
      {
        assert reg in rs + tail <==> reg in rs || reg in tail;
        if reg == k - 1 {
          assert reg !in rs;
        }
      }
    }
  }

  /** The register list of an LDM or STM: the set bits among bits 15-0, in ascending order. */
  function RegisterList(instruction: U32): (rs: seq<U32>)
    ensures |rs| <= 16 && forall j :: 0 <= j < |rs| ==> rs[j] < 16
  {
    ListedBelow(instruction, 16)
  }

  /** The register list is strictly ascending, and a register is in it exactly when its bit is set. */
  lemma RegisterListMeaning(instruction: U32)
    ensures forall i, j :: 0 <= i < j < |RegisterList(instruction)| ==> RegisterList(instruction)[i] < RegisterList(instruction)[j]
    ensures forall reg: U32 :: reg < 16 ==> (reg in RegisterList(instruction) <==> BitSet(instruction, reg))
  {
    ListedBelowAscending(instruction, 16);
    ListedBelowMembers(instruction, 16);
  }

  /** r15 is in the register list exactly when bit 15 is set. */
  lemma PcListed(instruction: U32)
    ensures (15 in RegisterList(instruction)) == BitSet(instruction, 15)
  {
    RegisterListMeaning(instruction);
  }

  /** base moved by one word per register for n registers, up or down, modulo 2^32. */
  function Moved(base: U32, n: nat, up: bool): U32
  {
    if up then Wrap(base + 4 * n) else Wrap(base - 4 * n)
  }

  /** The position in the ascending list transferred at step t of n: ascending going up, descending going down. */
  function Visit(n: nat, t: nat, up: bool): (j: nat)
    requires t < n
    ensures j < n
  {
    if up then t else n - 1 - t
  }

  /**
   * The address of the register at ascending position j of n: the block
   * starts at base going up and at base - 4n going down, and pre-indexing up
   * or post-indexing down skips the lowest word.
   */
  function SlotAddress(base: U32, n: nat, j: nat, up: bool, pre: bool): U32
  {
    var lowest := if up then base else Moved(base, n, false);
    Wrap(lowest + 4 * j + (if pre == up then 4 else 0))
  }

  /** The word at step t is the base after t moves (post-indexing) or t + 1 moves (pre-indexing), in either direction. */
  lemma SlotAddressStep(base: U32, n: nat, t: nat, up: bool, pre: bool)
    requires t < n
    ensures SlotAddress(base, n, Visit(n, t, up), up, pre) == Moved(base, if pre then t + 1 else t, up)
  {
    if up {
      SlotAddressUp(base, n, t, pre);
    } else {
      SlotAddressDown(base, n, t, pre);
    }
  }

  /** SlotAddressStep going up: the slots are base + 4t, skipping one word when pre-indexed. */
  lemma SlotAddressUp(base: U32, n: nat, t: nat, pre: bool)
    requires t < n
    ensures SlotAddress(base, n, t, true, pre) == Moved(base, if pre then t + 1 else t, true)
  {
    var x := base + 4 * (if pre then t + 1 else t);
    assert base + 4 * t + (if pre then 4 else 0) == x;
  }

  /** SlotAddressStep going down: the slots count back from base - 4n, modulo 2^32. */
  lemma SlotAddressDown(base: U32, n: nat, t: nat, pre: bool)
    requires t < n
    ensures SlotAddress(base, n, n - 1 - t, false, pre) == Moved(base, if pre then t + 1 else t, false)
  {
    var j, k := n - 1 - t, if pre then 0 else 4;
    WrapShift(base - 4 * n, 4 * j + k);
    assert base - 4 * n + (4 * j + k) == base - 4 * (if pre then t + 1 else t);
  }

  /** A store reads r15 as the address of the instruction plus 12, 4 more than pc. */
  function BlockWord(r: Registers, reg: U32): U32
    requires Sane(r)
  {
    if reg == 15 then Wrap(ReadReg(r, 15) + 4) else ReadReg(r, reg)
  }

  /** The loads of the first |values| steps: step t reads the word at its slot, and values[t] is what it returned. */
  function BlockLoads(n: nat, base: U32, up: bool, pre: bool, values: seq<U32>): (log: seq<Access>)
    requires |values| <= n
    ensures |log| == |values|
    decreases |values|
  {
    if values == [] then []
    else
      var t := |values| - 1;
      BlockLoads(n, base, up, pre, values[..t]) + [Load(4, SlotAddress(base, n, Visit(n, t, up), up, pre), values[t])]
  }

  /** The stores of the first t steps: step t writes the register at its position to its slot. */
  function BlockStores(r: Registers, list: seq<U32>, base: U32, up: bool, pre: bool, t: nat): (log: seq<Access>)
    requires Sane(r) && t <= |list|
    ensures |log| == t
  {
    if t == 0 then []
    else
      var j := Visit(|list|, t - 1, up);
      BlockStores(r, list, base, up, pre, t - 1) + [Store(4, SlotAddress(base, |list|, j, up, pre), BlockWord(r, list[j]))]
  }

  /** The words a sequence of accesses carried, as 32-bit values. */
  function LoggedWords(log: seq<Access>): (values: seq<U32>)
    ensures |values| == |log|
  {
    seq(|log|, t requires 0 <= t < |log| => if 0 <= log[t].value < Two32 then log[t].value else 0)
  }

  /** The log of an LDM's loads gives back the words loaded. */
  lemma {:induction false} LoggedBlockLoads(n: nat, base: U32, up: bool, pre: bool, values: seq<U32>)
    requires |values| <= n
    ensures LoggedWords(BlockLoads(n, base, up, pre, values)) == values
    decreases |values|
  {
    if values != [] {
      LoggedBlockLoads(n, base, up, pre, values[..|values| - 1]);
      var log := BlockLoads(n, base, up, pre, values);
      forall t | 0 <= t < |values|
        ensures LoggedWords(log)[t] == values[t]
      {
        if t < |values| - 1 {
          assert log[t] == BlockLoads(n, base, up, pre, values[..|values| - 1])[t];
        }
      }
    }
  }

  /** The register file after the loads of the first |values| steps: the register at Visit(t) takes values[t]. */
  function LoadedBlock(r: Registers, list: seq<U32>, up: bool, values: seq<U32>): (r': Registers)
    requires Sane(r) && |values| <= |list| && forall j :: 0 <= j < |list| ==> list[j] < 16
    ensures Sane(r') && r'.cpsr == r.cpsr && r'.spsr == r.spsr
    decreases |values|
  {
    if values == [] then r
    else
      var t := |values| - 1;
      Put(LoadedBlock(r, list, up, values[..t]), list[Visit(|list|, t, up)], values[t])
  }

  /**
   * With distinct registers, each listed register ends with the word loaded
   * at its step, and no unlisted one changes.
   */
  lemma {:induction false} LoadedBlockMeaning(r: Registers, list: seq<U32>, up: bool, values: seq<U32>)
    requires Sane(r) && |values| <= |list| && forall j :: 0 <= j < |list| ==> list[j] < 16
    requires forall i, j :: 0 <= i < j < |list| ==> list[i] < list[j]
    ensures forall t :: 0 <= t < |values| ==> ReadReg(LoadedBlock(r, list, up, values), list[Visit(|list|, t, up)]) == values[t]
    ensures forall k: U32 :: k < 16 && k !in list ==> ReadReg(LoadedBlock(r, list, up, values), k) == ReadReg(r, k)
    decreases |values|
  {
    if values != [] {
      var last := |values| - 1;
      var prev := LoadedBlock(r, list, up, values[..last]);
      var reg := list[Visit(|list|, last, up)];
      LoadedBlockMeaning(r, list, up, values[..last]);
      forall t | 0 <= t < |values|
        ensures ReadReg(LoadedBlock(r, list, up, values), list[Visit(|list|, t, up)]) == values[t]
      {
        if t < last {
          var i, j := Visit(|list|, t, up), Visit(|list|, last, up);
          assert i != j;
          assert list[i] != list[j] by {
            if i < j { assert list[i] < list[j]; } else { assert list[j] < list[i]; }
          }
          PutOther(prev, reg, values[last], list[i]);
        }
      }
      forall k: U32 | k < 16 && k !in list
        ensures ReadReg(LoadedBlock(r, list, up, values), k) == ReadReg(r, k)
      {
        PutOther(prev, reg, values[last], k);
      }
    }
  }

  /** The bank an LDM or STM transfers: the USR bank when bit 22 is set. */
  function TransferBank(r: Registers, instruction: U32): (r': Registers)
    requires Sane(r)
    ensures Sane(r')
  {
    if BitSet(instruction, 22) then WithMode(r, USR) else r
  }

  /**
   * The end of a non-empty LDM or STM: from r1, the register file after the
   * transfers, the base is written back (in the bank transferred) when
   * writeBack holds, and the mode of r is restored with bit 22.
   */
  function BlockFinished(r: Registers, r1: Registers, instruction: U32, writeBack: bool): (r': Registers)
    requires Sane(r) && Sane(r1)
    ensures Sane(r')
  {
    var rb, up := RegField(instruction, 19), BitSet(instruction, 23);
    var r2 := if writeBack then Put(r1, rb, Moved(ReadReg(r, rb), |RegisterList(instruction)|, up)) else r1;
    if BitSet(instruction, 22) then WithMode(r2, CurrentMode(r)) else r2
  }

  /**
   * The register file after a non-empty LDM that loaded values: the listed
   * registers (of the USR bank with bit 22), the written-back base unless it
   * was loaded, and the mode restored.
   */
  function BlockLoaded(r: Registers, instruction: U32, values: seq<U32>): (r': Registers)
    requires Sane(r) && |values| == |RegisterList(instruction)|
    ensures Sane(r')
  {
    var list := RegisterList(instruction);
    var r1 := LoadedBlock(TransferBank(r, instruction), list, BitSet(instruction, 23), values);
    BlockFinished(r, r1, instruction, BitSet(instruction, 21) && RegField(instruction, 19) !in list)
  }

  /** The register file after a non-empty STM: the written-back base (of the USR bank with bit 22), and the mode restored. */
  function BlockStored(r: Registers, instruction: U32): (r': Registers)
    requires Sane(r)
    ensures Sane(r')
  {
    BlockFinished(r, TransferBank(r, instruction), instruction, BitSet(instruction, 21))
  }

  /**
   * Without bit 22, a non-empty LDM leaves each listed register holding the
   * word read at its step, the base moved past the block when it is written
   * back, every other register and the CPSR as they were.
   */
  lemma BlockLoadedMeaning(r: Registers, instruction: U32, values: seq<U32>)
    requires Sane(r) && |values| == |RegisterList(instruction)| && !BitSet(instruction, 22)
    ensures BlockLoaded(r, instruction, values).cpsr == r.cpsr
    ensures var list := RegisterList(instruction);
      forall t :: 0 <= t < |list| ==>
        ReadReg(BlockLoaded(r, instruction, values), list[Visit(|list|, t, BitSet(instruction, 23))]) == values[t]
    ensures var rb := RegField(instruction, 19);
      forall k: U32 :: k < 16 && !BitSet(instruction, k) ==>
        ReadReg(BlockLoaded(r, instruction, values), k)
          == if BitSet(instruction, 21) && k == rb then Moved(ReadReg(r, rb), |RegisterList(instruction)|, BitSet(instruction, 23))
             else ReadReg(r, k)
  {
    var list, rb, up := RegisterList(instruction), RegField(instruction, 19), BitSet(instruction, 23);
    RegisterListMeaning(instruction);
    LoadedBlockMeaning(r, list, up, values);
    var r1 := LoadedBlock(r, list, up, values);
    if BitSet(instruction, 21) && rb !in list {
      var moved := Moved(ReadReg(r, rb), |list|, up);
      forall t | 0 <= t < |list|
        ensures ReadReg(Put(r1, rb, moved), list[Visit(|list|, t, up)]) == values[t]
      {
        PutOther(r1, rb, moved, list[Visit(|list|, t, up)]);
      }
      forall k: U32 | k < 16 && !BitSet(instruction, k) && k != rb
        ensures ReadReg(Put(r1, rb, moved), k) == ReadReg(r, k)
      {
        PutOther(r1, rb, moved, k);
      }
    }
  }

  /** Without bit 22, a non-empty STM changes no register but the written-back base, and not the CPSR. */
  lemma BlockStoredMeaning(r: Registers, instruction: U32)
    requires Sane(r) && !BitSet(instruction, 22)
    ensures BlockStored(r, instruction).cpsr == r.cpsr
    ensures var rb := RegField(instruction, 19);
      forall k: U32 :: k < 16 ==>
        ReadReg(BlockStored(r, instruction), k)
          == if BitSet(instruction, 21) && k == rb then Moved(ReadReg(r, rb), |RegisterList(instruction)|, BitSet(instruction, 23))
             else ReadReg(r, k)
  {
    var rb := RegField(instruction, 19);
    if BitSet(instruction, 21) {
      var moved := Moved(ReadReg(r, rb), |RegisterList(instruction)|, BitSet(instruction, 23));
      forall k: U32 | k < 16 && k != rb
        ensures ReadReg(Put(r, rb, moved), k) == ReadReg(r, k)
      {
        PutOther(r, rb, moved, k);
      }
    }
  }

  /**
   * A full descending stack: the words an STMDB Rb! of n registers writes are
   * the words an LDMIA Rb! of n registers then reads, register for register,
   * and the base comes back to where it was.
   */
  lemma {:induction false} PushPopRoundTrip(base: U32, n: nat)
    ensures forall j :: 0 <= j < n ==> SlotAddress(base, n, j, false, true) == SlotAddress(Moved(base, n, false), n, j, true, false)
    ensures Moved(Moved(base, n, false), n, true) == base
  {
    WrapShift(base - 4 * n, 4 * n);
    forall j | 0 <= j < n
      ensures SlotAddress(base, n, j, false, true) == SlotAddress(Moved(base, n, false), n, j, true, false)
    {
      WrapShift(base - 4 * n, 4 * j);
    }
  }

  /** BlockDataTransfer's first loop: the set bits 0 .. 15 in ascending order, and whether Rb is among them. */
  method CollectRegisters(instruction: U32, rb: U32) returns (setRegisters: seq<U32>, rbInList: bool)
    ensures setRegisters == RegisterList(instruction) && rbInList == (rb in setRegisters)
  {
    setRegisters, rbInList := [], false;
    var i := 0;
    while i < 16
      invariant 0 <= i <= 16 && setRegisters == ListedBelow(instruction, i) && rbInList == (rb in setRegisters)
    {
      var listed := Field(instruction, i, i) == 1;
      assert ListedBelow(instruction, i + 1) == setRegisters + (if listed then [i] else []);
      if listed {
        assert rb in setRegisters + [i] <==> rb in setRegisters || rb == i;
        setRegisters := setRegisters + [i];
        if i == rb {
          rbInList := true;
        }
      }
      i := i + 1;
    }
  }

  /**
   * BlockDataTransfer's load loop: at each step the base moves a word before
   * (pre-indexing) or after the read, and the word read goes to the register
   * at Visit(t); loading r15 flushes the pipeline.
   */
  method LoadMultiple(cpu: Arm7Tdmi, list: seq<U32>, base: U32, up: bool, pre: bool) returns (values: seq<U32>, b: U32)
    requires cpu.Valid() && !Thumb(cpu.regs) && forall j :: 0 <= j < |list| ==> list[j] < 16
    modifies cpu`regs, cpu`pipelineFull, cpu`exitCode, cpu`accesses, cpu`lastReadBios
    ensures cpu.Valid() && cpu.exitCode == old(cpu.exitCode) && |values| == |list|
    ensures cpu.accesses == old(cpu.accesses) + BlockLoads(|list|, base, up, pre, values)
    ensures cpu.regs == LoadedBlock(old(cpu.regs), list, up, values)
    ensures b == Moved(base, |list|, up)
    ensures cpu.pipelineFull == (old(cpu.pipelineFull) && 15 !in list)
  {
    values, b := [], base;
    var t := 0;
    while t < |list|
      invariant 0 <= t <= |list| && |values| == t
      invariant cpu.Valid() && !Thumb(cpu.regs) && cpu.exitCode == old(cpu.exitCode)
      invariant b == Moved(base, t, up)
      invariant cpu.accesses == old(cpu.accesses) + BlockLoads(|list|, base, up, pre, values)
      invariant cpu.regs == LoadedBlock(old(cpu.regs), list, up, values)
      invariant cpu.pipelineFull == (old(cpu.pipelineFull) && PcUnvisited(list, up, t))
    {
      var value;
      value, b := LoadStep(cpu, list, up, pre, base, values, b, old(cpu.regs), old(cpu.accesses), old(cpu.exitCode), old(cpu.pipelineFull));
      values := values + [value];
      t := t + 1;
    }
    VisitCovers(list, up, |list|);
  }

  /** One more load appends its access to the log. */
  lemma BlockLoadsStep(n: nat, base: U32, up: bool, pre: bool, values: seq<U32>, value: U32)
    requires |values| < n
    ensures BlockLoads(n, base, up, pre, values + [value])
      == BlockLoads(n, base, up, pre, values) + [Load(4, SlotAddress(base, n, Visit(n, |values|, up), up, pre), value)]
  {
    assert (values + [value])[..|values|] == values;
  }

  /** One more load writes its register. */
  lemma LoadedBlockStep(r: Registers, list: seq<U32>, up: bool, values: seq<U32>, value: U32)
    requires Sane(r) && |values| < |list| && forall j :: 0 <= j < |list| ==> list[j] < 16
    ensures LoadedBlock(r, list, up, values + [value]) == Put(LoadedBlock(r, list, up, values), list[Visit(|list|, |values|, up)], value)
  {
    assert (values + [value])[..|values|] == values;
  }

  /** One step of the load loop: the slot's address, then Read32 there into the register of the step; returns the word and the moved base. */
  method LoadStep(cpu: Arm7Tdmi, list: seq<U32>, up: bool, pre: bool, base: U32, values: seq<U32>, b: U32,
                  ghost r: Registers, ghost log: seq<Access>, ghost e: Option<int>, ghost full: bool) returns (value: U32, b': U32)
    requires cpu.Valid() && !Thumb(cpu.regs) && Sane(r) && |values| < |list| && forall j :: 0 <= j < |list| ==> list[j] < 16
    requires b == Moved(base, |values|, up) && cpu.exitCode == e
    requires cpu.regs == LoadedBlock(r, list, up, values) && cpu.accesses == log + BlockLoads(|list|, base, up, pre, values)
    requires cpu.pipelineFull == (full && PcUnvisited(list, up, |values|))
    modifies cpu`regs, cpu`pipelineFull, cpu`exitCode, cpu`accesses, cpu`lastReadBios
    ensures cpu.Valid() && !Thumb(cpu.regs) && cpu.exitCode == e && b' == Moved(base, |values| + 1, up)
    ensures cpu.regs == LoadedBlock(r, list, up, values + [value])
    ensures cpu.accesses == log + BlockLoads(|list|, base, up, pre, values + [value])
    ensures cpu.pipelineFull == (full && PcUnvisited(list, up, |values| + 1))
  {
    var address;
    address, b' := NextSlot(b, up, pre, base, |list|, |values|);
    var reg := list[Visit(|list|, |values|, up)];
    value := LoadInto(cpu, reg, address);
    BlockLoadsStep(|list|, base, up, pre, values, value);
    LoadedBlockStep(r, list, up, values, value);
  }

  /** Read32 at address into reg (bit 0 kept), with a pipeline flush for r15. */
  method LoadInto(cpu: Arm7Tdmi, reg: U32, address: U32) returns (value: U32)
    requires cpu.Valid() && !Thumb(cpu.regs) && reg < 16
    modifies cpu`regs, cpu`pipelineFull, cpu`exitCode, cpu`accesses, cpu`lastReadBios
    ensures cpu.Valid() && !Thumb(cpu.regs) && cpu.exitCode == old(cpu.exitCode)
    ensures cpu.regs == Put(old(cpu.regs), reg, value) && cpu.accesses == old(cpu.accesses) + [Load(4, address, value)]
    ensures cpu.pipelineFull == (old(cpu.pipelineFull) && reg != 15)
  {
    value := cpu.Read32(address, false);
    cpu.SetRegister(reg, value);
    if reg == 15 {
      cpu.pipelineFull := false;
    }
  }

  /** The address of step t (the base after a pre-index move) and the base after step t. */
  method NextSlot(b: U32, up: bool, pre: bool, ghost base: U32, ghost n: nat, ghost t: nat) returns (address: U32, b': U32)
    requires b == Moved(base, t, up) && t < n
    ensures address == SlotAddress(base, n, Visit(n, t, up), up, pre)
    ensures b' == Moved(base, t + 1, up)
  {
    b' := if up then Wrap(b + 4) else Wrap(b - 4);
    WrapShift(base + (if up then 4 * t else -4 * t), if up then 4 else -4);
    SlotAddressStep(base, n, t, up, pre);
    address := if pre then b' else b;
  }

  /** No step before step t of the visit order has loaded r15. */
  ghost function PcUnvisited(list: seq<U32>, up: bool, t: nat): bool
    requires t <= |list|
  {
    t == 0 || (PcUnvisited(list, up, t - 1) && list[Visit(|list|, t - 1, up)] != 15)
  }

  /** Visiting every step of either order meets r15 exactly when the list holds it. */
  lemma {:induction false} VisitCovers(list: seq<U32>, up: bool, t: nat)
    requires t <= |list|
    ensures PcUnvisited(list, up, t) <==> forall u :: 0 <= u < t ==> list[Visit(|list|, u, up)] != 15
    ensures t == |list| ==> (PcUnvisited(list, up, t) <==> 15 !in list)
  {
    if t > 0 {
      VisitCovers(list, up, t - 1);
    }
    if t == |list| && 15 in list {
      var j :| 0 <= j < |list| && list[j] == 15;
      var u := if up then j else |list| - 1 - j;
      assert list[Visit(|list|, u, up)] == 15;
    }
  }

  /** BlockDataTransfer's store loop: at each step the base moves a word before (pre-indexing) or after the write of the register at Visit(t). */
  method StoreMultiple(cpu: Arm7Tdmi, list: seq<U32>, base: U32, up: bool, pre: bool) returns (b: U32)
    requires cpu.Valid() && forall j :: 0 <= j < |list| ==> list[j] < 16
    modifies cpu`cycles, cpu`accesses, cpu.mem.Repr
    ensures cpu.Valid()
    ensures cpu.accesses == old(cpu.accesses) + BlockStores(cpu.regs, list, base, up, pre, |list|)
    ensures b == Moved(base, |list|, up)
    ensures WordsInRam(BlockStores(cpu.regs, list, base, up, pre, |list|)) ==>
      cpu.mem.memory[..] == ApplyStores(old(cpu.mem.memory[..]), BlockStores(cpu.regs, list, base, up, pre, |list|))
      && cpu.cycles == old(cpu.cycles)
  {
    b := base;
    ghost var r0, a0, m0, c0 := cpu.regs, cpu.accesses, cpu.mem.memory[..], cpu.cycles;
    var t := 0;
    while t < |list|
      invariant 0 <= t <= |list| && cpu.Valid() && cpu.regs == r0
      invariant b == Moved(base, t, up)
      invariant cpu.accesses == a0 + BlockStores(r0, list, base, up, pre, t)
      invariant StoredSoFar(cpu, r0, list, base, up, pre, t, m0, c0)
    {
      b := StoreStep(cpu, list, base, up, pre, t, b, a0, r0, m0, c0);
      t := t + 1;
    }
  }

  /** While an STM's stores all land in RAM, memory[] holds the first t of them replayed and no cycle has been charged. */
  ghost predicate StoredSoFar(cpu: Arm7Tdmi, r: Registers, list: seq<U32>, base: U32, up: bool, pre: bool, t: nat,
                              m0: seq<Byte>, c0: U32)
    requires Sane(r) && t <= |list|
    reads cpu, cpu.mem, cpu.mem.memory
  {
    |m0| == Bus.MemSize && WordsInRam(BlockStores(r, list, base, up, pre, |list|)) ==>
      WordsInRam(BlockStores(r, list, base, up, pre, t))
      && cpu.mem.memory[..] == ApplyStores(m0, BlockStores(r, list, base, up, pre, t)) && cpu.cycles == c0
  }

  /** One step of the store loop: the slot's address, then Write32 of reg (r15 as pc + 4) there; returns the moved base. */
  method StoreStep(cpu: Arm7Tdmi, list: seq<U32>, base: U32, up: bool, pre: bool, t: nat, b: U32,
                   ghost log: seq<Access>, ghost r: Registers, ghost m0: seq<Byte>, ghost c0: U32) returns (b': U32)
    requires cpu.Valid() && cpu.regs == r && t < |list| && forall j :: 0 <= j < |list| ==> list[j] < 16
    requires b == Moved(base, t, up)
    requires cpu.accesses == log + BlockStores(r, list, base, up, pre, t)
    requires StoredSoFar(cpu, r, list, base, up, pre, t, m0, c0)
    modifies cpu`cycles, cpu`accesses, cpu.mem.Repr
    ensures cpu.Valid() && cpu.regs == r && b' == Moved(base, t + 1, up)
    ensures cpu.accesses == log + BlockStores(r, list, base, up, pre, t + 1)
    ensures StoredSoFar(cpu, r, list, base, up, pre, t + 1, m0, c0)
  {
    var address;
    address, b' := NextSlot(b, up, pre, base, |list|, t);
    var reg := list[Visit(|list|, t, up)];
    var value := cpu.GetRegister(reg);
    if reg == 15 {
      value := Wrap(value as int + 4);
    }
    assert value == BlockWord(r, reg);
    BlockStoresStep(r, list, base, up, pre, t);
    if |m0| == Bus.MemSize && WordsInRam(BlockStores(r, list, base, up, pre, |list|)) {
      StoredStep(r, list, base, up, pre, t, m0);
    }
    StoreWord(cpu, address, value);
  }

  /** One more store of a block inside RAM puts its register's word at its slot's cell. */
  lemma StoredStep(r: Registers, list: seq<U32>, base: U32, up: bool, pre: bool, t: nat, m: seq<Byte>)
    requires Sane(r) && t < |list| && |m| == Bus.MemSize && WordsInRam(BlockStores(r, list, base, up, pre, |list|))
    ensures WordsInRam(BlockStores(r, list, base, up, pre, t + 1)) && WordsInRam(BlockStores(r, list, base, up, pre, t))
    ensures var j := Visit(|list|, t, up);
      var s := Store(4, SlotAddress(base, |list|, j, up, pre), BlockWord(r, list[j]));
      && WordInRam(s)
      && ApplyStores(m, BlockStores(r, list, base, up, pre, t + 1))
         == Bus.PutWord(ApplyStores(m, BlockStores(r, list, base, up, pre, t)), WordCell(s.address), ToWord(s.value))
  {
    BlockStoresPrefix(r, list, base, up, pre, t + 1, |list|);
    BlockStoresPrefix(r, list, base, up, pre, t, |list|);
    BlockStoresStep(r, list, base, up, pre, t);
    var p := BlockStores(r, list, base, up, pre, t + 1);
    assert p[..t] == BlockStores(r, list, base, up, pre, t);
    assert WordInRam(p[t]);
  }

  /** The first t stores of a block are the first t of any longer run of it. */
  lemma {:induction false} BlockStoresPrefix(r: Registers, list: seq<U32>, base: U32, up: bool, pre: bool, t: nat, k: nat)
    requires Sane(r) && t <= k <= |list|
    ensures forall i :: 0 <= i < t ==> BlockStores(r, list, base, up, pre, k)[i] == BlockStores(r, list, base, up, pre, t)[i]
    decreases k - t
  {
    if t < k {
      BlockStoresPrefix(r, list, base, up, pre, t, k - 1);
      BlockStoresStep(r, list, base, up, pre, k - 1);
    }
  }

  /** One more step of the store loop appends the store of its register at its slot. */
  lemma BlockStoresStep(r: Registers, list: seq<U32>, base: U32, up: bool, pre: bool, t: nat)
    requires Sane(r) && t < |list|
    ensures var j := Visit(|list|, t, up);
      BlockStores(r, list, base, up, pre, t + 1)
        == BlockStores(r, list, base, up, pre, t) + [Store(4, SlotAddress(base, |list|, j, up, pre), BlockWord(r, list[j]))]
  {
  }

  /** The register file after an LDM with an empty list: r15 takes the word loaded, then Rb moves by 0x40. */
  function EmptyLoaded(r: Registers, instruction: U32, value: U32): (r': Registers)
    requires Sane(r)
    ensures Sane(r')
  {
    var rb := RegField(instruction, 19);
    Put(Put(r, 15, value), rb, Moved(ReadReg(r, rb), 16, BitSet(instruction, 23)))
  }

  /** The register file after an STM with an empty list: Rb moves by 0x40. */
  function EmptyStored(r: Registers, instruction: U32): (r': Registers)
    requires Sane(r)
    ensures Sane(r')
  {
    var rb := RegField(instruction, 19);
    Put(r, rb, Moved(ReadReg(r, rb), 16, BitSet(instruction, 23)))
  }

  /** The (n, s, i) cycles BlockDataTransfer ticks for a non-empty list: LDM nS + 1N + 1I, one more N and S for r15; STM nS + 2N. */
  function BlockCycles(instruction: U32): (c: (nat, nat, nat))
    ensures c.1 == |RegisterList(instruction)| + (if BitSet(instruction, 20) && BitSet(instruction, 15) then 1 else 0)
    ensures c.0 <= 2 && c.2 <= 1 && c.1 <= 17 && (c.0 == 2 || BitSet(instruction, 20))
  {
    var list := RegisterList(instruction);
    if BitSet(instruction, 20) then
      var pc := Bit(BitSet(instruction, 15));
      (1 + pc, |list| + pc, 1)
    else (2, |list|, 0)
  }

  /**
   * BlockDataTransfer (LDM/STM): r15 as base is refused; an empty list
   * transfers r15 alone and moves the base by 0x40 without ticking;
   * otherwise the listed registers are transferred through LoadBlock or
   * StoreBlock.
   */
  method BlockDataTransfer(cpu: Arm7Tdmi, instruction: U32)
    requires cpu.Valid() && !Thumb(cpu.regs)
    modifies cpu`regs, cpu`pipelineFull, cpu`cycles, cpu`exitCode, cpu`accesses, cpu`lastReadBios, cpu.mem.Repr
    ensures cpu.Valid() && cpu.exitCode == old(cpu.exitCode) && |old(cpu.accesses)| <= |cpu.accesses|
    ensures RegField(instruction, 19) == 15 ==>
      cpu.regs == old(cpu.regs) && cpu.cycles == old(cpu.cycles) && cpu.accesses == old(cpu.accesses)
      && cpu.pipelineFull == old(cpu.pipelineFull) && unchanged(cpu.mem.Repr)
    ensures RegField(instruction, 19) != 15 && Field(instruction, 15, 0) == 0 ==>
      var base := ReadReg(old(cpu.regs), RegField(instruction, 19));
      if BitSet(instruction, 20) then
        var value := old(cpu.Load32(base, false));
        && cpu.regs == EmptyLoaded(old(cpu.regs), instruction, value)
        && cpu.accesses == old(cpu.accesses) + [Load(4, base, value)]
        && !cpu.pipelineFull && cpu.cycles == old(cpu.cycles)
      else
        && cpu.regs == EmptyStored(old(cpu.regs), instruction)
        && cpu.accesses == old(cpu.accesses) + [Store(4, base, BlockWord(old(cpu.regs), 15))]
        && cpu.pipelineFull == old(cpu.pipelineFull)
        && (WordInRam(Store(4, base, BlockWord(old(cpu.regs), 15))) ==>
              cpu.mem.memory[..] == Bus.PutWord(old(cpu.mem.memory[..]), WordCell(base), ToWord(BlockWord(old(cpu.regs), 15)))
              && cpu.cycles == old(cpu.cycles))
    ensures RegField(instruction, 19) != 15 && Field(instruction, 15, 0) != 0 && BitSet(instruction, 20) ==>
      LdmDone(cpu, instruction, old(cpu.regs), old(cpu.accesses), old(cpu.cycles), old(cpu.pipelineFull))
    ensures RegField(instruction, 19) != 15 && Field(instruction, 15, 0) != 0 && !BitSet(instruction, 20) ==>
      StmDone(cpu, instruction, old(cpu.regs), old(cpu.accesses), old(cpu.mem.memory[..]), old(cpu.cycles), old(cpu.pipelineFull))
  {
    var rb := RegField(instruction, 19);
    if rb == 15 {
      return;
    }
    if Field(instruction, 15, 0) == 0 {
      EmptyListTransfer(cpu, instruction);
      return;
    }
    ListTransfer(cpu, instruction);
  }

  /** BlockDataTransfer with an empty list: r15 alone is transferred. */
  method EmptyListTransfer(cpu: Arm7Tdmi, instruction: U32)
    requires cpu.Valid() && !Thumb(cpu.regs) && RegField(instruction, 19) != 15
    modifies cpu`regs, cpu`pipelineFull, cpu`cycles, cpu`exitCode, cpu`accesses, cpu`lastReadBios, cpu.mem.Repr
    ensures cpu.Valid() && cpu.exitCode == old(cpu.exitCode) && |old(cpu.accesses)| <= |cpu.accesses|
    ensures var base := ReadReg(old(cpu.regs), RegField(instruction, 19));
      if BitSet(instruction, 20) then
        var value := old(cpu.Load32(base, false));
        && cpu.regs == EmptyLoaded(old(cpu.regs), instruction, value)
        && cpu.accesses == old(cpu.accesses) + [Load(4, base, value)]
        && !cpu.pipelineFull && cpu.cycles == old(cpu.cycles)
      else
        && cpu.regs == EmptyStored(old(cpu.regs), instruction)
        && cpu.accesses == old(cpu.accesses) + [Store(4, base, BlockWord(old(cpu.regs), 15))]
        && cpu.pipelineFull == old(cpu.pipelineFull)
        && (WordInRam(Store(4, base, BlockWord(old(cpu.regs), 15))) ==>
              cpu.mem.memory[..] == Bus.PutWord(old(cpu.mem.memory[..]), WordCell(base), ToWord(BlockWord(old(cpu.regs), 15)))
              && cpu.cycles == old(cpu.cycles))
  {
    if BitSet(instruction, 20) {
      EmptyListLoad(cpu, instruction);
    } else {
      EmptyListStore(cpu, instruction);
    }
  }

  /** BlockDataTransfer with a non-empty list: the registers of the list are loaded or stored. */
  method ListTransfer(cpu: Arm7Tdmi, instruction: U32)
    requires cpu.Valid() && !Thumb(cpu.regs) && RegField(instruction, 19) != 15
    modifies cpu`regs, cpu`pipelineFull, cpu`cycles, cpu`exitCode, cpu`accesses, cpu`lastReadBios, cpu.mem.Repr
    ensures cpu.Valid() && cpu.exitCode == old(cpu.exitCode) && |old(cpu.accesses)| <= |cpu.accesses|
    ensures BitSet(instruction, 20) ==>
      LdmDone(cpu, instruction, old(cpu.regs), old(cpu.accesses), old(cpu.cycles), old(cpu.pipelineFull))
    ensures !BitSet(instruction, 20) ==>
      StmDone(cpu, instruction, old(cpu.regs), old(cpu.accesses), old(cpu.mem.memory[..]), old(cpu.cycles), old(cpu.pipelineFull))
  {
    if BitSet(instruction, 20) {
      LoadList(cpu, instruction);
    } else {
      StoreList(cpu, instruction);
    }
  }

  /**
   * What a non-empty LDM leaves behind, given the registers r0, the log a0, the cycles c0 and
   * the pipeline flag p0 from before it: the words it logged fill the list, with write-back.
   */
  ghost predicate LdmDone(cpu: Arm7Tdmi, instruction: U32, r0: Registers, a0: seq<Access>, c0: U32, p0: bool)
    reads cpu, cpu.mem
  {
    && Sane(r0) && |a0| <= |cpu.accesses|
    && var list, base := RegisterList(instruction), ReadReg(r0, RegField(instruction, 19));
      var values, c := LoggedWords(cpu.accesses[|a0|..]), BlockCycles(instruction);
      && |values| == |list|
      && cpu.cycles == Wrap(c0 + Cost(cpu, c.0, c.1, c.2))
      && cpu.accesses == a0 + BlockLoads(|list|, base, BitSet(instruction, 23), BitSet(instruction, 24), values)
      && cpu.regs == BlockLoaded(r0, instruction, values)
      && cpu.pipelineFull == (p0 && !BitSet(instruction, 15))
  }

  /**
   * What a non-empty STM leaves behind, given the registers r0, the log a0, the memory m0, the
   * cycles c0 and the pipeline flag p0 from before it: the stores it logged, the registers after
   * write-back, and, when every store lands in plain RAM, the memory with those stores applied.
   */
  ghost predicate StmDone(cpu: Arm7Tdmi, instruction: U32, r0: Registers, a0: seq<Access>, m0: seq<Byte>, c0: U32, p0: bool)
    reads cpu, cpu.mem, cpu.mem.memory
  {
    && Sane(r0)
    && var stores, c := StmStores(r0, instruction), BlockCycles(instruction);
      && cpu.accesses == a0 + stores
      && cpu.regs == BlockStored(r0, instruction)
      && cpu.pipelineFull == p0
      && (|m0| == Bus.MemSize && WordsInRam(stores) ==>
            cpu.mem.memory[..] == ApplyStores(m0, stores) && cpu.cycles == Wrap(c0 + Cost(cpu, c.0, c.1, c.2)))
  }

  /** LDM with a non-empty list, stated through the words it logged. */
  method LoadList(cpu: Arm7Tdmi, instruction: U32)
    requires cpu.Valid() && !Thumb(cpu.regs) && RegField(instruction, 19) != 15
    modifies cpu`regs, cpu`pipelineFull, cpu`cycles, cpu`exitCode, cpu`accesses, cpu`lastReadBios
    ensures cpu.Valid() && cpu.exitCode == old(cpu.exitCode) && |old(cpu.accesses)| <= |cpu.accesses|
    ensures LdmDone(cpu, instruction, old(cpu.regs), old(cpu.accesses), old(cpu.cycles), old(cpu.pipelineFull))
  {
    ghost var r0, a0 := cpu.regs, cpu.accesses;
    var rb := RegField(instruction, 19);
    var list, rbInList := CollectRegisters(instruction, rb);
    var values := LoadBlock(cpu, instruction, list, rbInList);
    LoggedLoads(a0, cpu.accesses, |list|, ReadReg(r0, rb), BitSet(instruction, 23), BitSet(instruction, 24), values);
  }

  /** STM with a non-empty list. */
  method StoreList(cpu: Arm7Tdmi, instruction: U32)
    requires cpu.Valid() && !Thumb(cpu.regs) && RegField(instruction, 19) != 15
    modifies cpu`regs, cpu`cycles, cpu`exitCode, cpu`accesses, cpu.mem.Repr
    ensures cpu.Valid() && cpu.exitCode == old(cpu.exitCode) && |old(cpu.accesses)| <= |cpu.accesses|
    ensures var list, base := RegisterList(instruction), ReadReg(old(cpu.regs), RegField(instruction, 19));
      && cpu.accesses == old(cpu.accesses) + BlockStores(TransferBank(old(cpu.regs), instruction), list, base, BitSet(instruction, 23), BitSet(instruction, 24), |list|)
      && cpu.regs == BlockStored(old(cpu.regs), instruction)
    ensures var stores, c := StmStores(old(cpu.regs), instruction), BlockCycles(instruction);
      WordsInRam(stores) ==>
        cpu.mem.memory[..] == ApplyStores(old(cpu.mem.memory[..]), stores) && cpu.cycles == Wrap(old(cpu.cycles) + Cost(cpu, c.0, c.1, c.2))
  {
    var rb := RegField(instruction, 19);
    var list, rbInList := CollectRegisters(instruction, rb);
    StoreBlock(cpu, instruction, list);
  }

  /** LDM with an empty list: r15 is loaded from the base, the pipeline flushed, and the base moved by 0x40. */
  method EmptyListLoad(cpu: Arm7Tdmi, instruction: U32)
    requires cpu.Valid() && !Thumb(cpu.regs) && RegField(instruction, 19) != 15
    modifies cpu`regs, cpu`pipelineFull, cpu`exitCode, cpu`accesses, cpu`lastReadBios
    ensures cpu.Valid() && cpu.exitCode == old(cpu.exitCode) && !cpu.pipelineFull
    ensures var base := ReadReg(old(cpu.regs), RegField(instruction, 19));
      var value := old(cpu.Load32(base, false));
      cpu.regs == EmptyLoaded(old(cpu.regs), instruction, value) && cpu.accesses == old(cpu.accesses) + [Load(4, base, value)]
  {
    var rb := RegField(instruction, 19);
    var base := cpu.GetRegister(rb);
    var value := cpu.Read32(base, false);
    cpu.SetRegister(15, value);
    cpu.pipelineFull := false;
    cpu.SetRegister(rb, Moved(base, 16, BitSet(instruction, 23)));
  }

  /** STM with an empty list: r15 + 4 is stored at the base, and the base moved by 0x40. */
  method EmptyListStore(cpu: Arm7Tdmi, instruction: U32)
    requires cpu.Valid() && !Thumb(cpu.regs) && RegField(instruction, 19) != 15
    modifies cpu`regs, cpu`cycles, cpu`exitCode, cpu`accesses, cpu.mem.Repr
    ensures cpu.Valid() && cpu.exitCode == old(cpu.exitCode)
    ensures var base := ReadReg(old(cpu.regs), RegField(instruction, 19));
      cpu.regs == EmptyStored(old(cpu.regs), instruction)
      && cpu.accesses == old(cpu.accesses) + [Store(4, base, BlockWord(old(cpu.regs), 15))]
    ensures var base := ReadReg(old(cpu.regs), RegField(instruction, 19));
      WordInRam(Store(4, base, BlockWord(old(cpu.regs), 15))) ==>
        cpu.mem.memory[..] == Bus.PutWord(old(cpu.mem.memory[..]), WordCell(base), ToWord(BlockWord(old(cpu.regs), 15)))
        && cpu.cycles == old(cpu.cycles)
  {
    var rb := RegField(instruction, 19);
    var base := cpu.GetRegister(rb);
    var pc := cpu.GetRegister(15);
    assert Wrap(pc as int + 4) == BlockWord(cpu.regs, 15);
    StoreWord(cpu, base, Wrap(pc as int + 4));
    cpu.SetRegister(rb, Moved(base, 16, BitSet(instruction, 23)));
  }

  /**
   * LDM with a non-empty list: the loads of LoadRegisters and one tick for
   * the whole transfer; values are the words read, in step order.
   */
  method LoadBlock(cpu: Arm7Tdmi, instruction: U32, list: seq<U32>, rbInList: bool) returns (values: seq<U32>)
    requires cpu.Valid() && !Thumb(cpu.regs) && RegField(instruction, 19) != 15
    requires list == RegisterList(instruction) && rbInList == (RegField(instruction, 19) in list)
    modifies cpu`regs, cpu`pipelineFull, cpu`cycles, cpu`exitCode, cpu`accesses, cpu`lastReadBios
    ensures cpu.Valid() && cpu.exitCode == old(cpu.exitCode) && |values| == |list|
    ensures var base := ReadReg(old(cpu.regs), RegField(instruction, 19));
      cpu.accesses == old(cpu.accesses) + BlockLoads(|list|, base, BitSet(instruction, 23), BitSet(instruction, 24), values)
    ensures cpu.regs == BlockLoaded(old(cpu.regs), instruction, values)
    ensures cpu.pipelineFull == (old(cpu.pipelineFull) && !BitSet(instruction, 15))
    ensures var c := BlockCycles(instruction); cpu.cycles == Wrap(old(cpu.cycles) + Cost(cpu, c.0, c.1, c.2))
  {
    values := LoadRegisters(cpu, instruction, list, rbInList);
    PcListed(instruction);
    ghost var r1, a1, p1 := cpu.regs, cpu.accesses, cpu.pipelineFull;
    assert r1 == BlockLoaded(old(cpu.regs), instruction, values) && p1 == (old(cpu.pipelineFull) && !BitSet(instruction, 15));
    assert a1 == old(cpu.accesses) + BlockLoads(|list|, ReadReg(old(cpu.regs), RegField(instruction, 19)), BitSet(instruction, 23), BitSet(instruction, 24), values);
    TickBlock(cpu, instruction);
    assert cpu.regs == r1 && cpu.accesses == a1 && cpu.pipelineFull == p1;
  }

  /** The one tick of a non-empty LDM or STM, of BlockCycles. */
  method TickBlock(cpu: Arm7Tdmi, instruction: U32)
    modifies cpu`cycles
    ensures var c := BlockCycles(instruction); cpu.cycles == Wrap(old(cpu.cycles) + Cost(cpu, c.0, c.1, c.2))
  {
    var c := BlockCycles(instruction);
    cpu.Tick(c.0, c.1, c.2);
  }

  /** The register work of a non-empty LDM: LoadMultiple in the USR bank with bit 22, write-back unless Rb was loaded, the mode restored. */
  method LoadRegisters(cpu: Arm7Tdmi, instruction: U32, list: seq<U32>, rbInList: bool) returns (values: seq<U32>)
    requires cpu.Valid() && !Thumb(cpu.regs) && RegField(instruction, 19) != 15
    requires list == RegisterList(instruction) && rbInList == (RegField(instruction, 19) in list)
    modifies cpu`regs, cpu`pipelineFull, cpu`exitCode, cpu`accesses, cpu`lastReadBios
    ensures cpu.Valid() && cpu.exitCode == old(cpu.exitCode) && |values| == |list|
    ensures var base := ReadReg(old(cpu.regs), RegField(instruction, 19));
      cpu.accesses == old(cpu.accesses) + BlockLoads(|list|, base, BitSet(instruction, 23), BitSet(instruction, 24), values)
    ensures cpu.regs == BlockLoaded(old(cpu.regs), instruction, values)
    ensures cpu.pipelineFull == (old(cpu.pipelineFull) && 15 !in list)
  {
    var base := cpu.GetRegister(RegField(instruction, 19));
    var mode := EnterBank(cpu, instruction);
    values := LoadBanked(cpu, instruction, list, rbInList, base, mode, old(cpu.regs));
  }

  /** The loads of a non-empty LDM in the bank it transfers, and the write-back and mode restore after them. */
  method LoadBanked(cpu: Arm7Tdmi, instruction: U32, list: seq<U32>, rbInList: bool, base: U32, mode: Mode, ghost r: Registers)
    returns (values: seq<U32>)
    requires cpu.Valid() && !Thumb(cpu.regs) && Sane(r) && RegField(instruction, 19) != 15 && mode == CurrentMode(r)
    requires list == RegisterList(instruction) && rbInList == (RegField(instruction, 19) in list)
    requires base == ReadReg(r, RegField(instruction, 19)) && cpu.regs == TransferBank(r, instruction)
    modifies cpu`regs, cpu`pipelineFull, cpu`exitCode, cpu`accesses, cpu`lastReadBios
    ensures cpu.Valid() && cpu.exitCode == old(cpu.exitCode) && |values| == |list|
    ensures cpu.accesses == old(cpu.accesses) + BlockLoads(|list|, base, BitSet(instruction, 23), BitSet(instruction, 24), values)
    ensures cpu.regs == BlockLoaded(r, instruction, values)
    ensures cpu.pipelineFull == (old(cpu.pipelineFull) && 15 !in list)
  {
    var b;
    values, b := LoadMultiple(cpu, list, base, BitSet(instruction, 23), BitSet(instruction, 24));
    LeaveBank(cpu, instruction, BitSet(instruction, 21) && !rbInList, b, mode, r);
  }

  /** The start of a non-empty LDM or STM: the mode to restore, and a switch to USR with bit 22. */
  method EnterBank(cpu: Arm7Tdmi, instruction: U32) returns (mode: Mode)
    requires cpu.Valid() && !Thumb(cpu.regs)
    modifies cpu`regs
    ensures cpu.Valid() && !Thumb(cpu.regs) && mode == CurrentMode(old(cpu.regs))
    ensures cpu.regs == TransferBank(old(cpu.regs), instruction)
  {
    mode := CurrentMode(cpu.regs);
    if BitSet(instruction, 22) {
      cpu.SetMode(USR);
    }
  }

  /** The end of a non-empty LDM or STM: write-back of the final base b when writeBack holds, then the mode restored with bit 22. */
  method LeaveBank(cpu: Arm7Tdmi, instruction: U32, writeBack: bool, b: U32, mode: Mode, ghost r: Registers)
    requires cpu.Valid() && Sane(r) && RegField(instruction, 19) != 15 && mode == CurrentMode(r)
    requires b == Moved(ReadReg(r, RegField(instruction, 19)), |RegisterList(instruction)|, BitSet(instruction, 23))
    modifies cpu`regs, cpu`exitCode
    ensures cpu.Valid() && cpu.exitCode == old(cpu.exitCode)
    ensures cpu.regs == BlockFinished(r, old(cpu.regs), instruction, writeBack)
  {
    if writeBack {
      cpu.SetRegister(RegField(instruction, 19), b);
    }
    if BitSet(instruction, 22) {
      cpu.SetMode(mode);
    }
  }

  /** The words an LDM's log suffix carried are the words it loaded. */
  lemma LoggedLoads(before: seq<Access>, after: seq<Access>, n: nat, base: U32, up: bool, pre: bool, values: seq<U32>)
    requires |values| <= n && after == before + BlockLoads(n, base, up, pre, values)
    ensures |before| <= |after| && LoggedWords(after[|before|..]) == values
  {
    assert after[|before|..] == BlockLoads(n, base, up, pre, values);
    LoggedBlockLoads(n, base, up, pre, values);
  }

  /**
   * STM with a non-empty list: the stores of StoreMultiple (from the USR bank
   * with bit 22), the base written back, the mode restored, and one tick.
   */
  method StoreBlock(cpu: Arm7Tdmi, instruction: U32, list: seq<U32>)
    requires cpu.Valid() && !Thumb(cpu.regs) && RegField(instruction, 19) != 15 && list == RegisterList(instruction)
    modifies cpu`regs, cpu`cycles, cpu`exitCode, cpu`accesses, cpu.mem.Repr
    ensures cpu.Valid() && cpu.exitCode == old(cpu.exitCode)
    ensures var base := ReadReg(old(cpu.regs), RegField(instruction, 19));
      cpu.accesses == old(cpu.accesses)
        + BlockStores(TransferBank(old(cpu.regs), instruction), list, base, BitSet(instruction, 23), BitSet(instruction, 24), |list|)
    ensures cpu.regs == BlockStored(old(cpu.regs), instruction)
    ensures var stores, c := StmStores(old(cpu.regs), instruction), BlockCycles(instruction);
      WordsInRam(stores) ==>
        cpu.mem.memory[..] == ApplyStores(old(cpu.mem.memory[..]), stores) && cpu.cycles == Wrap(old(cpu.cycles) + Cost(cpu, c.0, c.1, c.2))
  {
    StoreRegisters(cpu, instruction, list);
    TickBlock(cpu, instruction);
  }

  /** The word stores of a non-empty STM, in the order it makes them. */
  function StmStores(r: Registers, instruction: U32): (log: seq<Access>)
    requires Sane(r)
    ensures |log| == |RegisterList(instruction)|
  {
    var list := RegisterList(instruction);
    BlockStores(TransferBank(r, instruction), list, ReadReg(r, RegField(instruction, 19)), BitSet(instruction, 23), BitSet(instruction, 24), |list|)
  }

  /** The register work of a non-empty STM: StoreMultiple from the USR bank with bit 22, write-back, the mode restored. */
  method StoreRegisters(cpu: Arm7Tdmi, instruction: U32, list: seq<U32>)
    requires cpu.Valid() && !Thumb(cpu.regs) && RegField(instruction, 19) != 15 && list == RegisterList(instruction)
    modifies cpu`regs, cpu`cycles, cpu`exitCode, cpu`accesses, cpu.mem.Repr
    ensures cpu.Valid() && cpu.exitCode == old(cpu.exitCode)
    ensures var base := ReadReg(old(cpu.regs), RegField(instruction, 19));
      cpu.accesses == old(cpu.accesses)
        + BlockStores(TransferBank(old(cpu.regs), instruction), list, base, BitSet(instruction, 23), BitSet(instruction, 24), |list|)
    ensures cpu.regs == BlockStored(old(cpu.regs), instruction)
    ensures var stores := StmStores(old(cpu.regs), instruction);
      WordsInRam(stores) ==> cpu.mem.memory[..] == ApplyStores(old(cpu.mem.memory[..]), stores) && cpu.cycles == old(cpu.cycles)
  {
    ghost var r0, m0, c0 := cpu.regs, cpu.mem.memory[..], cpu.cycles;
    var rb := RegField(instruction, 19);
    var base := cpu.GetRegister(rb);
    var mode := EnterBank(cpu, instruction);
    var b := StoreMultiple(cpu, list, base, BitSet(instruction, 23), BitSet(instruction, 24));
    ghost var m1, c1 := cpu.mem.memory[..], cpu.cycles;
    LeaveBank(cpu, instruction, BitSet(instruction, 21), b, mode, r0);
    assert cpu.mem.memory[..] == m1 && cpu.cycles == c1;
  }
}
