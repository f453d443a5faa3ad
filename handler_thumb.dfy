/**
 * Execution of THUMB instructions (src/HandlerThumb.cpp). As for the ARM
 * handlers, each handler is a method on the processor object; what it
 * leaves in the register file is a function of the register file before it
 * (and, for loads, of the words it reads), and the lemmas say what those
 * functions mean. Where the source clears or sets low bits with a mask
 * (`&= ~1`, `&= ~3`, `&= ~2`, `|= 1`), the model writes the same operation
 * as arithmetic on the low bits.
 */
module HandlerThumb {
  import opened Bits
  import opened Cpu
  import HandlerArm
  import Bus

  /** A register r0-r7 named by bits lo + 2 .. lo of an instruction. */
  function LowReg(instruction: U16, lo: nat): (reg: U32)
    requires lo <= 13
    ensures reg < 8
  {
    Field(instruction, lo + 2, lo)
  }

  /** x with bit 0 cleared (`x & ~1`). */
  function ClearBit0(x: U32): (y: U32)
    ensures y % 2 == 0 && x - 1 <= y <= x
  {
    x - x % 2
  }

  /** x with bit 1 cleared (`x & ~2`). */
  function ClearBit1(x: U32): (y: U32)
    ensures y % 2 == x % 2 && (y / 2) % 2 == 0 && x - 2 <= y <= x
  {
    x - (x / 2 % 2) * 2
  }

  /** x with bits 1-0 cleared (`x & ~3`). */
  function ClearBits10(x: U32): (y: U32)
    ensures y % 4 == 0 && x - 3 <= y <= x
  {
    x - x % 4
  }

  /** x with bit 0 set (`x | 1`). */
  function SetBit0(x: U32): (y: U32)
    ensures y % 2 == 1 && x <= y <= x + 1
  {
    x - x % 2 + 1
  }

  /** The register file with the T bit clear: SetState(ARM). */
  function ArmState(r: Registers): (r': Registers)
    requires Sane(r)
    ensures Sane(r') && !Thumb(r') && r'.bank == r.bank && r'.spsr == r.spsr && CurrentMode(r') == CurrentMode(r)
  {
    r.(cpsr := r.cpsr.(t := 0))
  }

  // ---------------------------------------------------------------------
  // Move shifted register
  // ---------------------------------------------------------------------

  /** Rs shifted by the 5-bit immediate, shift type in bits 12-11; LSR #0, ASR #0 and ROR #0 mean LSR #32, ASR #32 and RRX. */
  function ImmediateShift(r: Registers, instruction: U16): (s: Shifted)
    requires Sane(r)
    ensures IsBit(s.carry)
  {
    var typ := Field(instruction, 12, 11);
    var amount := HandlerArm.ImmediateAmount(Field(instruction, 10, 6), typ);
    ShiftCarryIsBit(amount, ReadReg(r, LowReg(instruction, 3)), typ, r.cpsr.c);
    Shift(amount, ReadReg(r, LowReg(instruction, 3)), typ, r.cpsr.c)
  }

  /** The register file after MoveShiftedRegister: Rd takes the shifted value; N and Z follow it, C is the carry-out. */
  function ShiftMoved(r: Registers, instruction: U16): (r': Registers)
    requires Sane(r)
    ensures Sane(r') && CurrentMode(r') == CurrentMode(r) && Thumb(r') == Thumb(r) && r'.spsr == r.spsr
  {
    var s := ImmediateShift(r, instruction);
    var r1 := Put(r, LowReg(instruction, 0), s.value);
    r1.(cpsr := FlagsLogical(r1.cpsr, s.value, s.carry))
  }

  /** MoveShiftedRegister (LSL, LSR, ASR Rd, Rs, #offset5): 1S. */
  method MoveShiftedRegister(cpu: Arm7Tdmi, instruction: U16)
    requires cpu.Valid()
    modifies cpu`regs, cpu`cycles, cpu`exitCode
    ensures cpu.Valid() && cpu.regs == ShiftMoved(old(cpu.regs), instruction) && cpu.exitCode == old(cpu.exitCode)
    ensures cpu.cycles == Wrap(old(cpu.cycles) + HandlerArm.Cost(cpu, 0, 1, 0))
  {
    ShiftRegisters(cpu, instruction);
    cpu.Tick(0, 1, 0);
  }

  /** MoveShiftedRegister's shift, write of Rd and flags. */
  method ShiftRegisters(cpu: Arm7Tdmi, instruction: U16)
    requires Sane(cpu.regs)
    modifies cpu`regs, cpu`exitCode
    ensures Sane(cpu.regs) && cpu.regs == ShiftMoved(old(cpu.regs), instruction) && cpu.exitCode == old(cpu.exitCode)
  {
    var typ := Field(instruction, 12, 11);
    var amount := HandlerArm.ImmediateAmount(Field(instruction, 10, 6), typ);
    var op1 := cpu.GetRegister(LowReg(instruction, 3));
    ShiftCarryIsBit(amount, op1, typ, cpu.regs.cpsr.c);
    var carry;
    carry, op1 := cpu.BarrelShift(amount, op1, typ);
    cpu.SetRegister(LowReg(instruction, 0), op1);
    cpu.UpdateFlagsLogical(op1, carry);
  }

  /**
   * LSL #k multiplies Rs by 2^k modulo 2^32, LSR #k (k > 0) divides it by
   * 2^k and LSR #0 gives 0; N and Z describe Rd, V is kept, and no register
   * but Rd changes.
   */
  lemma ShiftMovedMeaning(r: Registers, instruction: U16)
    requires Sane(r)
    ensures var r', rd := ShiftMoved(r, instruction), LowReg(instruction, 0);
      var v, k := ReadReg(r, LowReg(instruction, 3)), Field(instruction, 10, 6);
      && (Field(instruction, 12, 11) == 0 ==> ReadReg(r', rd) == Wrap(v * Pow2(k)))
      && (Field(instruction, 12, 11) == 1 ==> ReadReg(r', rd) == if k == 0 then 0 else v / Pow2(k))
      && (r'.cpsr.z == 1 <==> ReadReg(r', rd) == 0) && (r'.cpsr.n == 1 <==> Msb(ReadReg(r', rd))) && r'.cpsr.v == r.cpsr.v
      && (forall j: U32 :: j < 16 && j != rd ==> ReadReg(r', j) == ReadReg(r, j))
  {
    var rd, v, k := LowReg(instruction, 0), ReadReg(r, LowReg(instruction, 3)), Field(instruction, 10, 6);
    var typ := Field(instruction, 12, 11);
    var s := ImmediateShift(r, instruction);
    var r1 := Put(r, rd, s.value);
    if typ == 0 && k > 0 {
      LslMeaning(k, v, r.cpsr.c);
    } else if typ == 1 {
      if k == 0 {
        LsrMeaning(32, v, r.cpsr.c);
        assert Pow2(32) == 0x1_0000_0000;
      } else {
        LsrMeaning(k, v, r.cpsr.c);
      }
    }
    forall j: U32 | j < 16 && j != rd
      ensures ReadReg(ShiftMoved(r, instruction), j) == ReadReg(r, j)
    {
      PutOther(r, rd, s.value, j);
    }
  }

  // ---------------------------------------------------------------------
  // Add / subtract
  // ---------------------------------------------------------------------

  /** The second operand of AddSubtract: the 3-bit immediate with bit 10 set, otherwise Rn. */
  function AddSubOperand(r: Registers, instruction: U16): U32
    requires Sane(r)
  {
    if HandlerArm.BitSet(instruction, 10) then Field(instruction, 8, 6) else ReadReg(r, LowReg(instruction, 6))
  }

  /** The value AddSubtract leaves in Rd: Rs + op2 with bit 9 clear, Rs - op2 with it set, modulo 2^32. */
  function AddSubValue(r: Registers, instruction: U16): U32
    requires Sane(r)
  {
    var op1, op2 := ReadReg(r, LowReg(instruction, 3)), AddSubOperand(r, instruction);
    if !HandlerArm.BitSet(instruction, 9) then Wrap(op1 as int + op2) else Wrap(op1 as int - op2)
  }

  /** The flags of AddSubtract's addition or subtraction. */
  function AddSubFlags(r: Registers, instruction: U16): (q: Psr)
    requires Sane(r)
    ensures Fit(q) && SameControl(q, r.cpsr)
  {
    var op1, op2 := ReadReg(r, LowReg(instruction, 3)), AddSubOperand(r, instruction);
    if !HandlerArm.BitSet(instruction, 9) then FlagsAddition(r.cpsr, op1, op2, AddSubValue(r, instruction))
    else FlagsSubtraction(r.cpsr, op1, op2, AddSubValue(r, instruction))
  }

  /** The register file after AddSubtract: the flags first, then Rd takes the result. */
  function AddSubtracted(r: Registers, instruction: U16): (r': Registers)
    requires Sane(r)
    ensures Sane(r') && CurrentMode(r') == CurrentMode(r) && Thumb(r') == Thumb(r) && r'.spsr == r.spsr
  {
    Put(r.(cpsr := AddSubFlags(r, instruction)), LowReg(instruction, 0), AddSubValue(r, instruction))
  }

  /** AddSubtract (ADD, SUB Rd, Rs, Rn or #offset3): 1S. */
  method AddSubtract(cpu: Arm7Tdmi, instruction: U16)
    requires cpu.Valid()
    modifies cpu`regs, cpu`cycles, cpu`exitCode
    ensures cpu.Valid() && cpu.regs == AddSubtracted(old(cpu.regs), instruction) && cpu.exitCode == old(cpu.exitCode)
    ensures cpu.cycles == Wrap(old(cpu.cycles) + HandlerArm.Cost(cpu, 0, 1, 0))
  {
    AddSubRegisters(cpu, instruction);
    cpu.Tick(0, 1, 0);
  }

  /** AddSubtract's operands, flags and write of Rd. */
  method AddSubRegisters(cpu: Arm7Tdmi, instruction: U16)
    requires Sane(cpu.regs)
    modifies cpu`regs, cpu`exitCode
    ensures Sane(cpu.regs) && cpu.regs == AddSubtracted(old(cpu.regs), instruction) && cpu.exitCode == old(cpu.exitCode)
  {
    var result := AddSubCompute(cpu, instruction);
    cpu.SetRegister(LowReg(instruction, 0), result);
  }

  /** AddSubtract's operand fetch, the addition or subtraction, and its flags. */
  method AddSubCompute(cpu: Arm7Tdmi, instruction: U16) returns (result: U32)
    requires Sane(cpu.regs)
    modifies cpu`regs
    ensures Sane(cpu.regs) && cpu.regs == old(cpu.regs).(cpsr := AddSubFlags(old(cpu.regs), instruction))
    ensures result == AddSubValue(old(cpu.regs), instruction)
  {
    var op1 := cpu.GetRegister(LowReg(instruction, 3));
    var op2;
    if HandlerArm.BitSet(instruction, 10) {
      op2 := Field(instruction, 8, 6);
    } else {
      op2 := cpu.GetRegister(LowReg(instruction, 6));
    }
    if !HandlerArm.BitSet(instruction, 9) {
      result := Wrap(op1 as int + op2);
      cpu.UpdateFlagsAddition(op1, op2, result);
    } else {
      result := Wrap(op1 as int - op2);
      cpu.UpdateFlagsSubtraction(op1, op2, result);
    }
  }

  /**
   * Rd holds Rs + op2 or Rs - op2 modulo 2^32; C is the carry out of the
   * sum, or set exactly when Rs >= op2 for the difference; V is the signed
   * overflow; no other register changes.
   */
  lemma AddSubtractMeaning(r: Registers, instruction: U16)
    requires Sane(r)
    ensures var r', rd := AddSubtracted(r, instruction), LowReg(instruction, 0);
      var op1, op2 := ReadReg(r, LowReg(instruction, 3)), AddSubOperand(r, instruction);
      && (!HandlerArm.BitSet(instruction, 9) ==>
            ReadReg(r', rd) == Wrap(op1 + op2) && (r'.cpsr.c == 1 <==> op1 + op2 >= 0x1_0000_0000)
            && (r'.cpsr.v == 1 <==> !FitsSigned(SInt(op1) + SInt(op2))))
      && (HandlerArm.BitSet(instruction, 9) ==>
            ReadReg(r', rd) == Wrap(op1 - op2) && (r'.cpsr.c == 1 <==> op1 >= op2)
            && (r'.cpsr.v == 1 <==> !FitsSigned(SInt(op1) - SInt(op2))))
      && (forall j: U32 :: j < 16 && j != rd ==> ReadReg(r', j) == ReadReg(r, j))
  {
    var rd := LowReg(instruction, 0);
    var op1, op2 := ReadReg(r, LowReg(instruction, 3)), AddSubOperand(r, instruction);
    AdditionFlagsMeaning(r.cpsr, op1, op2);
    SubtractionFlagsMeaning(r.cpsr, op1, op2);
    var value := AddSubValue(r, instruction);
    var r1 := r.(cpsr := AddSubFlags(r, instruction));
    forall j: U32 | j < 16 && j != rd
      ensures ReadReg(Put(r1, rd, value), j) == ReadReg(r, j)
    {
      PutOther(r1, rd, value, j);
    }
  }

  // ---------------------------------------------------------------------
  // Move / compare / add / subtract immediate
  // ---------------------------------------------------------------------

  /**
   * The register file after MoveImmediate, opcode in bits 12-11: MOV puts the
   * 8-bit immediate in Rd (C kept), CMP sets the flags of Rd - imm alone,
   * ADD and SUB put Rd +/- imm in Rd with their flags.
   */
  function ImmediateMoved(r: Registers, instruction: U16): (r': Registers)
    requires Sane(r)
    ensures Sane(r') && CurrentMode(r') == CurrentMode(r) && Thumb(r') == Thumb(r) && r'.spsr == r.spsr
  {
    var rd, imm := LowReg(instruction, 8), Field(instruction, 7, 0);
    var operand := ReadReg(r, rd);
    var opcode := Field(instruction, 12, 11);
    if opcode == 0 then
      var r1 := Put(r, rd, imm);
      r1.(cpsr := FlagsLogical(r1.cpsr, imm, r.cpsr.c))
    else if opcode == 1 then
      r.(cpsr := FlagsSubtraction(r.cpsr, operand, imm, Wrap(operand - imm)))
    else if opcode == 2 then
      var r1 := Put(r, rd, Wrap(operand + imm));
      r1.(cpsr := FlagsAddition(r1.cpsr, operand, imm, Wrap(operand + imm)))
    else
      var r1 := Put(r, rd, Wrap(operand - imm));
      r1.(cpsr := FlagsSubtraction(r1.cpsr, operand, imm, Wrap(operand - imm)))
  }

  /** MoveImmediate (MOV, CMP, ADD, SUB Rd, #offset8): 1S. */
  method MoveImmediate(cpu: Arm7Tdmi, instruction: U16)
    requires cpu.Valid()
    modifies cpu`regs, cpu`cycles, cpu`exitCode
    ensures cpu.Valid() && cpu.regs == ImmediateMoved(old(cpu.regs), instruction) && cpu.exitCode == old(cpu.exitCode)
    ensures cpu.cycles == Wrap(old(cpu.cycles) + HandlerArm.Cost(cpu, 0, 1, 0))
  {
    MoveImmediateRegisters(cpu, instruction);
    cpu.Tick(0, 1, 0);
  }

  /** MoveImmediate's switch on the opcode. */
  method MoveImmediateRegisters(cpu: Arm7Tdmi, instruction: U16)
    requires Sane(cpu.regs)
    modifies cpu`regs, cpu`exitCode
    ensures Sane(cpu.regs) && cpu.regs == ImmediateMoved(old(cpu.regs), instruction) && cpu.exitCode == old(cpu.exitCode)
  {
    var offset8, rd, opcode := Field(instruction, 7, 0), LowReg(instruction, 8), Field(instruction, 12, 11);
    var carry := cpu.regs.cpsr.c;
    var operand := cpu.GetRegister(rd);
    if opcode == 0 {
      cpu.SetRegister(rd, offset8);
      cpu.UpdateFlagsLogical(offset8, carry);
    } else if opcode == 1 {
      cpu.UpdateFlagsSubtraction(operand, offset8, Wrap(operand as int - offset8));
    } else if opcode == 2 {
      cpu.SetRegister(rd, Wrap(operand as int + offset8));
      cpu.UpdateFlagsAddition(operand, offset8, Wrap(operand as int + offset8));
    } else {
      cpu.SetRegister(rd, Wrap(operand as int - offset8));
      cpu.UpdateFlagsSubtraction(operand, offset8, Wrap(operand as int - offset8));
    }
  }

  /**
   * CMP Rd, #imm writes no register, and its flags order Rd against the
   * immediate (EQ, CS, HI, GE, LT as for any compare); MOV Rd, #imm leaves
   * the immediate in Rd with N clear and Z set exactly for 0.
   */
  lemma MoveImmediateMeaning(r: Registers, instruction: U16)
    requires Sane(r)
    ensures var r', rd, imm := ImmediateMoved(r, instruction), LowReg(instruction, 8), Field(instruction, 7, 0);
      && (Field(instruction, 12, 11) == 1 ==>
            r'.bank == r.bank && CurrentMode(r') == CurrentMode(r)
            && (ConditionMet(r'.cpsr, 0) <==> ReadReg(r, rd) == imm)
            && (ConditionMet(r'.cpsr, 2) <==> ReadReg(r, rd) >= imm)
            && (ConditionMet(r'.cpsr, 8) <==> ReadReg(r, rd) > imm))
      && (Field(instruction, 12, 11) == 0 ==>
            ReadReg(r', rd) == imm && r'.cpsr.n == 0 && (r'.cpsr.z == 1 <==> imm == 0) && r'.cpsr.c == r.cpsr.c)
  {
    ConditionAfterCompare(r.cpsr, ReadReg(r, LowReg(instruction, 8)), Field(instruction, 7, 0));
  }

  // ---------------------------------------------------------------------
  // ALU operations
  // ---------------------------------------------------------------------

  /** The operations of bits 9-6, in the order of the THUMB instruction set. */
  datatype AluOp = AND | EOR | LSL | LSR | ASR | ADC | SBC | ROR | TST | NEG | CMP | CMN | ORR | MUL | BIC | MVN

  function AluOpOf(k: int): AluOp
    requires 0 <= k < 16
  {
    [AND, EOR, LSL, LSR, ASR, ADC, SBC, ROR, TST, NEG, CMP, CMN, ORR, MUL, BIC, MVN][k]
  }

  /** The four shifts by register, which take one internal cycle more. */
  predicate IsShift(op: AluOp) { op == LSL || op == LSR || op == ASR || op == ROR }

  /** BarrelShift's opcode for a shift: LSL 0, LSR 1, ASR 2, ROR 3. */
  function ShiftType(op: AluOp): int
    requires IsShift(op)
  {
    if op == LSL then 0 else if op == LSR then 1 else if op == ASR then 2 else 3
  }

  /** TST, CMP and CMN only set the flags. */
  predicate WritesRd(op: AluOp) { !(op == TST || op == CMP || op == CMN) }

  /** Rd shifted by the low byte of Rs; a zero amount keeps Rd and the C flag. */
  function RegisterShift(op1: U32, op2: U32, typ: int, c: int): (s: Shifted)
    requires IsBit(c)
    ensures IsBit(s.carry)
  {
    ShiftCarryIsBit(op1 % 0x100, op2, typ, c);
    Shift(op1 % 0x100, op2, typ, c)
  }

  /** The value of each operation on op1 = Rs and op2 = Rd, with the carry a shift produces (the C flag c otherwise). */
  function AluOutcome(op: AluOp, op1: U32, op2: U32, c: int): (s: Shifted)
    requires IsBit(c)
    ensures IsBit(s.carry)
  {
    match op
    case AND => Shifted(And(op1, op2), c)
    case EOR => Shifted(Xor(op1, op2), c)
    case LSL => RegisterShift(op1, op2, 0, c)
    case LSR => RegisterShift(op1, op2, 1, c)
    case ASR => RegisterShift(op1, op2, 2, c)
    case ADC => Shifted(Wrap(op1 + op2 + c), c)
    case SBC => Shifted(Wrap(op2 - op1 - (1 - c)), c)
    case ROR => RegisterShift(op1, op2, 3, c)
    case TST => Shifted(And(op1, op2), c)
    case NEG => Shifted(Wrap(-(op1 as int)), c)
    case CMP => Shifted(Wrap(op2 - op1), c)
    case CMN => Shifted(Wrap(op2 + op1), c)
    case ORR => Shifted(Or(op2, op1), c)
    case MUL => Shifted(Wrap(op2 * op1), c)
    case BIC => Shifted(And(op2, Not(op1)), c)
    case MVN => Shifted(Not(op1), c)
  }

  /** NEG's flags as the source computes them: those of Rd - Rs (op2 - op1), although NEG computes 0 - Rs. */
  function NegFlagsAsWritten(p: Psr, op1: U32, op2: U32, result: U32): (q: Psr)
    requires Fit(p)
    ensures Fit(q) && SameControl(q, p)
  {
    FlagsSubtraction(p, op2, op1, result)
  }

  /** NEG's flags as those of the subtraction it performs, 0 - Rs: C set only without a borrow (Rs = 0), V only for Rs = 0x80000000. */
  function NegFlags(p: Psr, op1: U32, result: U32): (q: Psr)
    requires Fit(p)
    ensures Fit(q) && SameControl(q, p)
    ensures result == Wrap(-(op1 as int)) ==>
      (q.c == 1 <==> op1 == 0) && (q.v == 1 <==> op1 == 0x8000_0000) && (q.z == 1 <==> op1 == 0) && (q.n == 1 <==> SInt(result) < 0)
  {
    SubtractionFlagsMeaning(p, 0, op1);
    FlagsSubtraction(p, 0, op1, result)
  }

  /**
   * NEG Rd, Rs with Rs = 2 and Rd = 0xFFFFFFFF: 0 - 2 borrows, yet the
   * flags as written, computed from Rd - Rs, set C.
   */
  lemma NegFlagsDiscrepancy(p: Psr)
    requires Fit(p)
    ensures NegFlagsAsWritten(p, 2, 0xFFFF_FFFF, 0xFFFF_FFFE).c == 1 && NegFlags(p, 2, 0xFFFF_FFFE).c == 0
  {
  }

  /**
   * The flags of each operation: ADC, CMN and MUL those of the addition of
   * Rs and Rd, SBC and CMP those of Rd - Rs, NEG those of 0 - Rs, and the
   * logical operations and shifts N and Z of the result with the carry.
   */
  function AluThumbFlags(op: AluOp, p: Psr, op1: U32, op2: U32, s: Shifted): (q: Psr)
    requires Fit(p) && IsBit(s.carry)
    ensures Fit(q) && SameControl(q, p)
  {
    match op
    case ADC => FlagsAddition(p, op1, op2, s.value)
    case CMN => FlagsAddition(p, op1, op2, s.value)
    case MUL => FlagsAddition(p, op1, op2, s.value)
    case SBC => FlagsSubtraction(p, op2, op1, s.value)
    case CMP => FlagsSubtraction(p, op2, op1, s.value)
    case NEG => NegFlags(p, op1, s.value)
    case _ => FlagsLogical(p, s.value, s.carry)
  }

  /** The register file after AluThumb: Rd takes the result unless the operation only compares, then the flags. */
  function AluApplied(r: Registers, instruction: U16): (r': Registers)
    requires Sane(r)
    ensures Sane(r') && CurrentMode(r') == CurrentMode(r) && Thumb(r') == Thumb(r) && r'.spsr == r.spsr
  {
    var op := AluOpOf(Field(instruction, 9, 6));
    var op1, op2 := ReadReg(r, LowReg(instruction, 3)), ReadReg(r, LowReg(instruction, 0));
    var s := AluOutcome(op, op1, op2, r.cpsr.c);
    var r1 := if WritesRd(op) then Put(r, LowReg(instruction, 0), s.value) else r;
    r1.(cpsr := AluThumbFlags(op, r1.cpsr, op1, op2, s))
  }

  /** AluThumb: 1S, and 1I more for a shift. */
  method AluThumb(cpu: Arm7Tdmi, instruction: U16)
    requires cpu.Valid()
    modifies cpu`regs, cpu`cycles, cpu`exitCode
    ensures cpu.Valid() && cpu.regs == AluApplied(old(cpu.regs), instruction) && cpu.exitCode == old(cpu.exitCode)
    ensures cpu.cycles == Wrap(old(cpu.cycles) + HandlerArm.Cost(cpu, 0, 1, Bit(IsShift(AluOpOf(Field(instruction, 9, 6))))))
  {
    AluRegisters(cpu, instruction);
    cpu.Tick(0, 1, if IsShift(AluOpOf(Field(instruction, 9, 6))) then 1 else 0);
  }

  /** AluThumb's operand fetch, operation, write of Rd and flags. */
  method AluRegisters(cpu: Arm7Tdmi, instruction: U16)
    requires Sane(cpu.regs)
    modifies cpu`regs, cpu`exitCode
    ensures Sane(cpu.regs) && cpu.regs == AluApplied(old(cpu.regs), instruction) && cpu.exitCode == old(cpu.exitCode)
  {
    var op := AluOpOf(Field(instruction, 9, 6));
    var op1 := cpu.GetRegister(LowReg(instruction, 3));
    var op2 := cpu.GetRegister(LowReg(instruction, 0));
    var carry, result := AluOperation(cpu, op, op1, op2);
    if WritesRd(op) {
      cpu.SetRegister(LowReg(instruction, 0), result);
    }
    UpdateAluThumbFlags(cpu, op, op1, op2, Shifted(result, carry));
  }

  /** The switch's computation of each operation's value (and the shifter's carry). */
  method AluOperation(cpu: Arm7Tdmi, op: AluOp, op1: U32, op2: U32) returns (carry: int, result: U32)
    requires Sane(cpu.regs)
    ensures Shifted(result, carry) == AluOutcome(op, op1, op2, cpu.regs.cpsr.c)
  {
    carry := cpu.regs.cpsr.c;
    match op
    case AND => result := And(op1, op2);
    case EOR => result := Xor(op1, op2);
    case LSL => carry, result := cpu.BarrelShift(op1 % 0x100, op2, 0);
    case LSR => carry, result := cpu.BarrelShift(op1 % 0x100, op2, 1);
    case ASR => carry, result := cpu.BarrelShift(op1 % 0x100, op2, 2);
    case ADC => result := Wrap(op1 + op2 + carry);
    case SBC => result := Wrap(op2 - op1 - (1 - carry));
    case ROR => carry, result := cpu.BarrelShift(op1 % 0x100, op2, 3);
    case TST => result := And(op1, op2);
    case NEG => result := Wrap(-(op1 as int));
    case CMP => result := Wrap(op2 - op1);
    case CMN => result := Wrap(op2 + op1);
    case ORR => result := Or(op2, op1);
    case MUL => result := Wrap(op2 * op1);
    case BIC => result := And(op2, Not(op1));
    case MVN => result := Not(op1);
  }

  /** The switch's flag updates. */
  method UpdateAluThumbFlags(cpu: Arm7Tdmi, op: AluOp, op1: U32, op2: U32, s: Shifted)
    requires Sane(cpu.regs) && IsBit(s.carry)
    modifies cpu`regs
    ensures Sane(cpu.regs) && cpu.regs == old(cpu.regs).(cpsr := AluThumbFlags(op, old(cpu.regs).cpsr, op1, op2, s))
  {
    match op
    case ADC => cpu.UpdateFlagsAddition(op1, op2, s.value);
    case CMN => cpu.UpdateFlagsAddition(op1, op2, s.value);
    case MUL => cpu.UpdateFlagsAddition(op1, op2, s.value);
    case SBC => cpu.UpdateFlagsSubtraction(op2, op1, s.value);
    case CMP => cpu.UpdateFlagsSubtraction(op2, op1, s.value);
    case NEG => cpu.UpdateFlagsSubtraction(0, op1, s.value);
    case _ => cpu.UpdateFlagsLogical(s.value, s.carry);
  }

  /** TST, CMP and CMN write no register; CMP's flags order Rd against Rs. */
  lemma AluComparisonsMeaning(r: Registers, instruction: U16)
    requires Sane(r) && !WritesRd(AluOpOf(Field(instruction, 9, 6)))
    ensures AluApplied(r, instruction).bank == r.bank
    ensures var q, a, b := AluApplied(r, instruction).cpsr, ReadReg(r, LowReg(instruction, 0)), ReadReg(r, LowReg(instruction, 3));
      AluOpOf(Field(instruction, 9, 6)) == CMP ==>
        && (ConditionMet(q, 0) <==> a == b) && (ConditionMet(q, 2) <==> a >= b)
        && (ConditionMet(q, 10) <==> SInt(a) >= SInt(b)) && (ConditionMet(q, 12) <==> SInt(a) > SInt(b))
  {
    ConditionAfterCompare(r.cpsr, ReadReg(r, LowReg(instruction, 0)), ReadReg(r, LowReg(instruction, 3)));
  }

  /**
   * NEG Rd, Rs leaves -Rs modulo 2^32 in Rd; C is set only for Rs = 0 (no
   * borrow) and V only for Rs = 0x80000000, whatever Rd held.
   */
  lemma NegMeaning(r: Registers, instruction: U16)
    requires Sane(r) && AluOpOf(Field(instruction, 9, 6)) == NEG
    ensures var r', rs := AluApplied(r, instruction), ReadReg(r, LowReg(instruction, 3));
      && ReadReg(r', LowReg(instruction, 0)) == Wrap(-(rs as int))
      && (r'.cpsr.c == 1 <==> rs == 0) && (r'.cpsr.v == 1 <==> rs == 0x8000_0000)
  {
  }

  /**
   * LSL Rd, Rs by 1 .. 32 (the low byte of Rs) multiplies Rd by 2^k modulo
   * 2^32; a zero amount leaves Rd and C as they were; above 32 gives 0.
   */
  lemma ShiftByRegisterMeaning(r: Registers, instruction: U16)
    requires Sane(r) && AluOpOf(Field(instruction, 9, 6)) == LSL
    ensures var r', rd := AluApplied(r, instruction), LowReg(instruction, 0);
      var k, v := ReadReg(r, LowReg(instruction, 3)) % 0x100, ReadReg(r, rd);
      && (1 <= k <= 32 ==> ReadReg(r', rd) == Wrap(v * Pow2(k)))
      && (k == 0 ==> ReadReg(r', rd) == v && r'.cpsr.c == r.cpsr.c)
      && (k > 32 ==> ReadReg(r', rd) == 0 && r'.cpsr.c == 0)
  {
    var k, v := ReadReg(r, LowReg(instruction, 3)) % 0x100, ReadReg(r, LowReg(instruction, 0));
    if 1 <= k <= 32 {
      LslMeaning(k, v, r.cpsr.c);
    }
  }

  // ---------------------------------------------------------------------
  // Hi register operations and branch exchange
  // ---------------------------------------------------------------------

  /** Rs with H2 (bit 6) as its fourth bit. */
  function HiRs(instruction: U16): (reg: U32)
    ensures reg < 16
  {
    LowReg(instruction, 3) + 8 * Field(instruction, 6, 6)
  }

  /** Rd with H1 (bit 7) as its fourth bit. */
  function HiRd(instruction: U16): (reg: U32)
    ensures reg < 16
  {
    LowReg(instruction, 0) + 8 * Field(instruction, 7, 7)
  }

  /** ADD, CMP and MOV with H1 = H2 = 0, and BX with H1 = 1, are undefined: the handler returns before anything changes. */
  predicate HiUndefined(instruction: U16)
  {
    if Field(instruction, 9, 8) == 3 then HandlerArm.BitSet(instruction, 7)
    else !HandlerArm.BitSet(instruction, 7) && !HandlerArm.BitSet(instruction, 6)
  }

  /** A defined BX, or an ADD or MOV into r15, writes pc and flushes the pipeline. */
  predicate HiWritesPc(instruction: U16)
  {
    var op := Field(instruction, 9, 8);
    !HiUndefined(instruction) && (op == 3 || (op != 1 && HiRd(instruction) == 15))
  }

  /** BX's target: bits 1-0 cleared for ARM code (bit 0 clear), bit 0 cleared for THUMB code. */
  function BxTarget(op1: U32): U32
  {
    if op1 % 2 == 0 then ClearBits10(op1) else ClearBit0(op1)
  }

  /**
   * The register file after HiRegisterOps, op1 = Rs and op2 = Rd: ADD puts
   * op1 + op2 in Rd and MOV op1, with bit 0 of op1 cleared when Rd is r15,
   * neither touching the flags; CMP sets the flags of Rd - Rs alone; BX puts
   * its target in pc, in ARM state when bit 0 of Rs is clear.
   */
  function HiApplied(r: Registers, instruction: U16): (r': Registers)
    requires Sane(r)
    ensures Sane(r') && CurrentMode(r') == CurrentMode(r) && r'.spsr == r.spsr
  {
    var op, rd := Field(instruction, 9, 8), HiRd(instruction);
    var op1, op2 := ReadReg(r, HiRs(instruction)), ReadReg(r, rd);
    var source := if rd == 15 then ClearBit0(op1) else op1;
    if HiUndefined(instruction) then r
    else if op == 0 then Put(r, rd, Wrap(source as int + op2))
    else if op == 1 then r.(cpsr := FlagsSubtraction(r.cpsr, op2, op1, Wrap(op2 as int - op1)))
    else if op == 2 then Put(r, rd, source)
    else Put(if op1 % 2 == 0 then ArmState(r) else r, 15, BxTarget(op1))
  }

  /** HiRegisterOps (ADD, CMP, MOV Rd, Rs with a high register; BX Rs): 1S, or 2S + 1N and a pipeline flush when pc is written. */
  method HiRegisterOps(cpu: Arm7Tdmi, instruction: U16)
    requires cpu.Valid()
    modifies cpu`regs, cpu`pipelineFull, cpu`cycles, cpu`exitCode
    ensures cpu.Valid() && cpu.regs == HiApplied(old(cpu.regs), instruction) && cpu.exitCode == old(cpu.exitCode)
    ensures HiUndefined(instruction) ==>
      cpu.regs == old(cpu.regs) && cpu.pipelineFull == old(cpu.pipelineFull) && cpu.cycles == old(cpu.cycles)
    ensures !HiUndefined(instruction) ==>
      var writesPc := HiWritesPc(instruction);
      && cpu.pipelineFull == (old(cpu.pipelineFull) && !writesPc)
      && cpu.cycles == Wrap(old(cpu.cycles) + if writesPc then HandlerArm.Cost(cpu, 1, 2, 0) else HandlerArm.Cost(cpu, 0, 1, 0))
  {
    HiRegisters(cpu, instruction);
    if !HiUndefined(instruction) {
      RefillOrStep(cpu, HiWritesPc(instruction));
    }
  }

  /** The pipeline flush and the cycles after an instruction that may write pc: a write costs a refill (2S + 1N), otherwise 1S. */
  method RefillOrStep(cpu: Arm7Tdmi, writesPc: bool)
    modifies cpu`pipelineFull, cpu`cycles
    ensures cpu.pipelineFull == (old(cpu.pipelineFull) && !writesPc)
    ensures cpu.cycles == Wrap(old(cpu.cycles) + if writesPc then HandlerArm.Cost(cpu, 1, 2, 0) else HandlerArm.Cost(cpu, 0, 1, 0))
  {
    if writesPc {
      cpu.pipelineFull := false;
      cpu.Tick(1, 2, 0);
    } else {
      cpu.Tick(0, 1, 0);
    }
  }

  /** HiRegisterOps' switch on the opcode; an undefined instruction changes nothing. */
  method HiRegisters(cpu: Arm7Tdmi, instruction: U16)
    requires Sane(cpu.regs)
    modifies cpu`regs, cpu`exitCode
    ensures Sane(cpu.regs) && cpu.regs == HiApplied(old(cpu.regs), instruction) && cpu.exitCode == old(cpu.exitCode)
  {
    if HiUndefined(instruction) {
      return;
    }
    var rd, op := HiRd(instruction), Field(instruction, 9, 8);
    var op1 := cpu.GetRegister(HiRs(instruction));
    var op2 := cpu.GetRegister(rd);
    if op == 0 || op == 2 {
      if rd == 15 {
        op1 := ClearBit0(op1);
      }
      cpu.SetRegister(rd, if op == 0 then Wrap(op1 as int + op2) else op1);
    } else if op == 1 {
      cpu.UpdateFlagsSubtraction(op2, op1, Wrap(op2 as int - op1));
    } else if op1 % 2 == 0 {
      BxToArm(cpu, op1);
    } else {
      cpu.SetRegister(15, ClearBit0(op1));
    }
  }

  /** BX to ARM code: pc takes the target aligned to a word, then ARM state, then pc once more. */
  method BxToArm(cpu: Arm7Tdmi, op1: U32)
    requires Sane(cpu.regs) && op1 % 2 == 0
    modifies cpu`regs, cpu`exitCode
    ensures Sane(cpu.regs) && cpu.regs == Put(ArmState(old(cpu.regs)), 15, BxTarget(op1)) && cpu.exitCode == old(cpu.exitCode)
  {
    var target := ClearBits10(op1);
    cpu.SetRegister(15, target);
    cpu.SetState(false);
    cpu.SetRegister(15, target);
  }

  /**
   * BX Rs: with bit 0 of Rs clear, ARM state and pc = Rs with bits 1-0
   * cleared, a word address; with bit 0 set, THUMB state kept and pc = Rs - 1.
   * r0-r14, the mode and the flags stay as they were.
   */
  lemma BxMeaning(r: Registers, instruction: U16)
    requires Sane(r) && Field(instruction, 9, 8) == 3 && !HandlerArm.BitSet(instruction, 7)
    ensures var r', target := HiApplied(r, instruction), ReadReg(r, HiRs(instruction));
      && (target % 2 == 0 ==> !Thumb(r') && ReadReg(r', 15) == target - target % 4 && ReadReg(r', 15) % 4 == 0)
      && (target % 2 == 1 ==> Thumb(r') == Thumb(r) && ReadReg(r', 15) == target - 1)
      && CurrentMode(r') == CurrentMode(r) && (forall g :: GetFlag(r'.cpsr, g) == GetFlag(r.cpsr, g))
      && (forall k: U32 :: k < 15 ==> ReadReg(r', k) == ReadReg(r, k))
  {
    var target := ReadReg(r, HiRs(instruction));
    var r0 := if target % 2 == 0 then ArmState(r) else r;
    forall k: U32 | k < 15
      ensures ReadReg(Put(r0, 15, BxTarget(target)), k) == ReadReg(r, k)
    {
      PutOther(r0, 15, BxTarget(target), k);
    }
  }

  /**
   * ADD and MOV with a high register leave the flags alone and change only
   * Rd: ADD to Rd + Rs, MOV to Rs (bit 0 cleared for pc). CMP changes no
   * register, and its flags order Rd against Rs.
   */
  lemma HiArithmeticMeaning(r: Registers, instruction: U16)
    requires Sane(r) && !HiUndefined(instruction) && Field(instruction, 9, 8) != 3
    ensures var r', rd, op := HiApplied(r, instruction), HiRd(instruction), Field(instruction, 9, 8);
      var rs, a := ReadReg(r, HiRs(instruction)), ReadReg(r, rd);
      && (op != 1 ==> r'.cpsr == r.cpsr && forall k: U32 :: k < 16 && k != rd ==> ReadReg(r', k) == ReadReg(r, k))
      && (op == 0 && rd != 15 ==> ReadReg(r', rd) == Wrap(a + rs))
      && (op == 2 ==> ReadReg(r', rd) == if rd == 15 then rs - rs % 2 else rs)
      && (op == 1 ==> r'.bank == r.bank && (ConditionMet(r'.cpsr, 0) <==> a == rs) && (ConditionMet(r'.cpsr, 2) <==> a >= rs)
                      && (ConditionMet(r'.cpsr, 10) <==> SInt(a) >= SInt(rs)))
  {
    var rd, op := HiRd(instruction), Field(instruction, 9, 8);
    var rs, a := ReadReg(r, HiRs(instruction)), ReadReg(r, rd);
    if op == 1 {
      ConditionAfterCompare(r.cpsr, a, rs);
    } else {
      var v := HiApplied(r, instruction);
      var value := ReadReg(v, rd);
      assert v == Put(r, rd, value);
      forall k: U32 | k < 16 && k != rd
        ensures ReadReg(v, k) == ReadReg(r, k)
      {
        PutOther(r, rd, value, k);
      }
    }
  }

  // ---------------------------------------------------------------------
  // Single loads and stores
  // ---------------------------------------------------------------------

  /** The loads of the THUMB load and store formats. */
  datatype LoadKind = LDRB | LDSB | LDRH | LDSH | LDR

  /** One transfer: a load of a kind, or a store of a width in bytes. */
  datatype Transfer = LoadOf(kind: LoadKind) | StoreOf(width: nat)

  predicate IsWidth(width: nat) { width == 1 || width == 2 || width == 4 }

  /** The bytes a load of the kind reads. */
  function LoadWidth(kind: LoadKind): (width: nat)
    ensures IsWidth(width)
  {
    match kind
    case LDRB => 1
    case LDSB => 1
    case LDRH => 2
    case LDSH => 2
    case LDR => 4
  }

  /** What the read returns: Read8 for bytes, Read16 (signed for LDSH), Read32 with LDR's rotation of a misaligned word. */
  function LoadRead(cpu: Arm7Tdmi, kind: LoadKind, address: U32): (value: U32)
    requires cpu.Valid()
    reads cpu`regs, cpu`lastReadBios, cpu.mem, cpu.mem.stat, cpu.mem.timer, cpu.mem.timer.channel, cpu.mem.backup
    reads cpu.mem.irq, cpu.mem.memory, cpu.mem.cartRom, cpu.mem.backup.cartRam
    ensures LoadWidth(kind) == 1 ==> value < 0x100
  {
    match kind
    case LDRB => cpu.Load8(address)
    case LDSB => cpu.Load8(address)
    case LDRH => cpu.Load16(address, false)
    case LDSH => cpu.Load16(address, true)
    case LDR => cpu.Load32(address, true)
  }

  /** The value the register takes: LDSB extends the sign of its byte; the other reads are taken as they are. */
  function LoadedValue(kind: LoadKind, read: U32): (value: U32)
    requires LoadWidth(kind) == 1 ==> read < 0x100
    ensures kind == LDSB ==> SInt(value) == if read >= 0x80 then read - 0x100 else read
    ensures kind != LDSB ==> value == read
  {
    if kind == LDSB then HandlerArm.ExtendByte(read) else read
  }

  /** Where the read stops the emulator (exit code 0): a THUMB-state read of an unused address that the read does not answer itself. */
  predicate Stops(r: Registers, kind: LoadKind, address: U32)
    requires Sane(r)
  {
    Thumb(r) && Unused(address)
    && match kind
       case LDRH => !WriteOnly16(address) && !(address <= Bus.BiosEnd && ReadReg(r, 15) > Bus.BiosEnd)
       case LDSH => !WriteOnly16(address) && !(address <= Bus.BiosEnd && ReadReg(r, 15) > Bus.BiosEnd)
       case LDR => address > Bus.BiosEnd
       case _ => true
  }

  /** The value a store of the width writes: the low byte, the low halfword, or the word. */
  function Truncated(width: nat, value: U32): U32
  {
    if width == 1 then value % 0x100 else if width == 2 then value % 0x1_0000 else value
  }

  /** The cell a store writes first: the address with its top four bits dropped, aligned down for a halfword or a word. */
  function StoreCell(width: nat, address: U32): U32
    requires IsWidth(width)
  {
    Mirror(if width == 1 then address else AlignDown(address, width))
  }

  /** Memory after a store of the width at a in plain RAM: one byte, two bytes low first, or a word. */
  function StoredCells(m: seq<Byte>, width: nat, a: int, value: U32): (m': seq<Byte>)
    requires IsWidth(width) && 0 <= a && a + width <= |m|
    ensures |m'| == |m|
  {
    if width == 1 then m[a := (value % 0x100) as Byte]
    else if width == 2 then m[a := Lo8((value % 0x1_0000) as Half)][a + 1 := Hi8((value % 0x1_0000) as Half)]
    else Bus.PutWord(m, a, ToWord(value))
  }

  /** A store in plain RAM changes only the cells from a to a + width - 1. */
  lemma StoredCellsElsewhere(m: seq<Byte>, width: nat, a: int, value: U32, b: int)
    requires IsWidth(width) && 0 <= a && a + width <= |m| && 0 <= b < |m| && !(a <= b < a + width)
    ensures StoredCells(m, width, a, value)[b] == m[b]
  {
  }

  /** The stored cells read back as the stored value cut to the width: a byte, a halfword low byte first, or a word. */
  lemma StoredCellsReadBack(m: seq<Byte>, width: nat, a: int, value: U32)
    requires IsWidth(width) && 0 <= a && a + width <= |m|
    ensures width == 1 ==> StoredCells(m, width, a, value)[a] as int == value % 0x100
    ensures width == 2 ==> Pack16(StoredCells(m, width, a, value)[a + 1], StoredCells(m, width, a, value)[a]) == (value % 0x1_0000) as Half
    ensures width == 4 ==> OfWord(Bus.GetWord(StoredCells(m, width, a, value), a)) == value
  {
    if width == 1 {
      ByteRoundTrip(value % 0x100);
    } else if width == 2 {
      HalfReadBack(m, a, value);
    } else {
      Bus.GetPutWord(m, a, a, ToWord(value));
      WordRoundTrip(value);
    }
  }

  /** The two bytes of a stored halfword pack back into it. */
  lemma HalfReadBack(m: seq<Byte>, a: int, value: U32)
    requires 0 <= a && a + 2 <= |m|
    ensures Pack16(StoredCells(m, 2, a, value)[a + 1], StoredCells(m, 2, a, value)[a]) == (value % 0x1_0000) as Half
  {
    var h := (value % 0x1_0000) as Half;
    Pack16RoundTrip(h, 0, 0);
    assert StoredCells(m, 2, a, value)[a + 1] == Hi8(h) && StoredCells(m, 2, a, value)[a] == Lo8(h);
  }

  /**
   * What one transfer leaves behind. A load: Rd holds the value read (sign
   * extended for LDSB), one load is logged, a THUMB read of an unused address
   * stops the emulator, a BIOS word read is remembered, memory is untouched,
   * and 1S + 1N + 1I are ticked. A store: Rd cut to the width is written and
   * logged, plain RAM holds it, no register changes, and 2N are ticked after
   * the video memory penalty.
   */
  twostate predicate Transferred(cpu: Arm7Tdmi, t: Transfer, address: U32, rd: U32)
    requires old(cpu.Valid()) && cpu.Valid() && cpu.mem.memory.Length == Bus.MemSize
    requires t.StoreOf? ==> IsWidth(t.width)
    reads cpu, cpu.mem, cpu.mem.stat, cpu.mem.timer, cpu.mem.timer.channel, cpu.mem.backup, cpu.mem.memory
  {
    match t
    case LoadOf(kind) =>
      var read := old(LoadRead(cpu, kind, address));
      && cpu.regs == Put(old(cpu.regs), rd, LoadedValue(kind, read))
      && cpu.accesses == old(cpu.accesses) + [Load(LoadWidth(kind), address, read)]
      && cpu.exitCode == (if Stops(old(cpu.regs), kind, address) then Some(0) else old(cpu.exitCode))
      && cpu.lastReadBios == (if kind == LDR && address <= Bus.BiosEnd then read else old(cpu.lastReadBios))
      && cpu.mem.memory[..] == old(cpu.mem.memory[..])
      && cpu.cycles == Wrap(old(cpu.cycles) + HandlerArm.Cost(cpu, 1, 1, 1))
    case StoreOf(width) =>
      var a, value := StoreCell(width, address), Truncated(width, ReadReg(old(cpu.regs), rd));
      && cpu.regs == old(cpu.regs) && cpu.exitCode == old(cpu.exitCode) && cpu.lastReadBios == old(cpu.lastReadBios)
      && cpu.accesses == old(cpu.accesses) + [Store(width, address, value)]
      && (Bus.PlainRam(a, width) ==> cpu.mem.memory[..] == StoredCells(old(cpu.mem.memory[..]), width, a, value))
      && cpu.cycles == Wrap(old(cpu.cycles) + old(cpu.VideoPenalty(a)) + HandlerArm.Cost(cpu, 2, 0, 0))
  }

  /** A transfer between Rd and address, with its cycles. */
  method Move(cpu: Arm7Tdmi, t: Transfer, address: U32, rd: U32)
    requires cpu.Valid() && rd < 8 && (t.StoreOf? ==> IsWidth(t.width))
    modifies cpu`regs, cpu`cycles, cpu`exitCode, cpu`accesses, cpu`lastReadBios, cpu.mem.Repr
    ensures cpu.Valid() && Transferred(cpu, t, address, rd)
  {
    match t
    case LoadOf(kind) =>
      LoadTicked(cpu, kind, address, rd);
    case StoreOf(width) =>
      StoreTicked(cpu, width, address, rd);
  }

  /** A load into Rd: 1S + 1N + 1I. */
  method LoadTicked(cpu: Arm7Tdmi, kind: LoadKind, address: U32, rd: U32)
    requires cpu.Valid() && rd < 8
    modifies cpu`regs, cpu`cycles, cpu`exitCode, cpu`accesses, cpu`lastReadBios
    ensures cpu.Valid() && Transferred(cpu, LoadOf(kind), address, rd)
  {
    ThumbLoad(cpu, kind, address, rd);
    cpu.Tick(1, 1, 1);
  }

  /** A store of Rd: 2N. */
  method StoreTicked(cpu: Arm7Tdmi, width: nat, address: U32, rd: U32)
    requires cpu.Valid() && rd < 8 && IsWidth(width)
    modifies cpu`cycles, cpu`accesses, cpu.mem.Repr
    ensures cpu.Valid() && Transferred(cpu, StoreOf(width), address, rd)
  {
    ghost var penalty := cpu.VideoPenalty(StoreCell(width, address));
    var value := cpu.GetRegister(rd);
    ThumbStore(cpu, width, address, value);
    HandlerArm.TickAfter(cpu, 2, 0, 0, old(cpu.cycles) + penalty);
  }

  /** The read of the kind, and its write to Rd. */
  method ThumbLoad(cpu: Arm7Tdmi, kind: LoadKind, address: U32, rd: U32)
    requires cpu.Valid() && rd < 8
    modifies cpu`regs, cpu`exitCode, cpu`accesses, cpu`lastReadBios
    ensures cpu.Valid()
    ensures var read := old(LoadRead(cpu, kind, address));
      && cpu.regs == Put(old(cpu.regs), rd, LoadedValue(kind, read))
      && cpu.accesses == old(cpu.accesses) + [Load(LoadWidth(kind), address, read)]
      && cpu.exitCode == (if Stops(old(cpu.regs), kind, address) then Some(0) else old(cpu.exitCode))
      && cpu.lastReadBios == (if kind == LDR && address <= Bus.BiosEnd then read else old(cpu.lastReadBios))
  {
    var read, value := ReadKind(cpu, kind, address);
    cpu.SetRegister(rd, value);
  }

  /** The read of the kind and the value it gives the register. */
  method ReadKind(cpu: Arm7Tdmi, kind: LoadKind, address: U32) returns (read: U32, value: U32)
    requires cpu.Valid()
    modifies cpu`exitCode, cpu`accesses, cpu`lastReadBios
    ensures cpu.Valid() && read == old(LoadRead(cpu, kind, address)) && (LoadWidth(kind) == 1 ==> read < 0x100)
    ensures value == LoadedValue(kind, read)
    ensures cpu.accesses == old(cpu.accesses) + [Load(LoadWidth(kind), address, read)]
    ensures cpu.exitCode == (if Stops(old(cpu.regs), kind, address) then Some(0) else old(cpu.exitCode))
    ensures cpu.lastReadBios == (if kind == LDR && address <= Bus.BiosEnd then read else old(cpu.lastReadBios))
  {
    match kind
    case LDRB =>
      read := cpu.Read8(address);
      value := read;
    case LDSB =>
      read := cpu.Read8(address);
      value := HandlerArm.ExtendByte(read);
    case LDRH =>
      read := cpu.Read16(address, false);
      value := read;
    case LDSH =>
      read := cpu.Read16(address, true);
      value := read;
    case LDR =>
      read := cpu.Read32(address, true);
      value := read;
  }

  /** The write of the width: Write8 of the low byte, Write16 of the low halfword, or Write32. */
  method ThumbStore(cpu: Arm7Tdmi, width: nat, address: U32, value: U32)
    requires cpu.Valid() && IsWidth(width)
    modifies cpu`cycles, cpu`accesses, cpu.mem.Repr
    ensures cpu.Valid() && cpu.accesses == old(cpu.accesses) + [Store(width, address, Truncated(width, value))]
    ensures var a := StoreCell(width, address);
      && cpu.cycles == Wrap(old(cpu.cycles) + old(cpu.VideoPenalty(a)))
      && (Bus.PlainRam(a, width) ==> cpu.mem.memory[..] == StoredCells(old(cpu.mem.memory[..]), width, a, Truncated(width, value)))
  {
    if width == 1 {
      cpu.Write8(address, value % 0x100);
    } else if width == 2 {
      cpu.Write16(address, value % 0x1_0000);
    } else {
      cpu.Write32(address, value);
    }
  }

  /** PC-relative load: pc with bit 1 cleared, plus the 8-bit word offset. */
  function PcRelAddress(r: Registers, instruction: U16): U32
    requires Sane(r)
  {
    Wrap(ClearBit1(ReadReg(r, 15)) as int + 4 * Field(instruction, 7, 0))
  }

  /** PcRelLoad (LDR Rd, [PC, #imm]): 1S + 1N + 1I. */
  method PcRelLoad(cpu: Arm7Tdmi, instruction: U16)
    requires cpu.Valid()
    modifies cpu`regs, cpu`cycles, cpu`exitCode, cpu`accesses, cpu`lastReadBios
    ensures cpu.Valid() && Transferred(cpu, LoadOf(LDR), old(PcRelAddress(cpu.regs, instruction)), LowReg(instruction, 8))
  {
    LoadTicked(cpu, LDR, PcRelAddress(cpu.regs, instruction), LowReg(instruction, 8));
  }

  /** With pc at a halfword, the PC-relative address is pc rounded down to a word plus the offset: a word address. */
  lemma PcRelAligned(r: Registers, instruction: U16)
    requires Sane(r) && ReadReg(r, 15) % 2 == 0
    ensures var pc := ReadReg(r, 15);
      PcRelAddress(r, instruction) == Wrap(pc - pc % 4 + 4 * Field(instruction, 7, 0)) && PcRelAddress(r, instruction) % 4 == 0
  {
    var pc, k := ReadReg(r, 15), Field(instruction, 7, 0);
    EvenRoundsDown(pc);
    assert ClearBit1(pc) as int == pc - pc % 4;
    var y := pc - pc % 4 + 4 * k;
    assert PcRelAddress(r, instruction) == Wrap(y);
    WordMultiple(pc, k);
    WrapAligned(y, 4);
  }

  /** A word address plus a whole number of words is a word address. */
  lemma WordMultiple(pc: int, k: int)
    ensures (pc - pc % 4 + 4 * k) % 4 == 0
  {
    assert pc - pc % 4 + 4 * k == 4 * (pc / 4 + k);
  }

  /** Wrapping modulo 2^32 keeps the remainder modulo 2 and modulo 4. */
  lemma WrapAligned(x: int, k: int)
    requires k == 2 || k == 4
    ensures Wrap(x) % k == x % k
  {
    var q := x / 0x1_0000_0000;
    assert x == Wrap(x) + (q * (0x1_0000_0000 / k)) * k;
    ModAddMultiple(Wrap(x), q * (0x1_0000_0000 / k), k);
  }

  /** LoadStoreRegOffset: bit 11 loads, bit 10 makes it a byte. */
  function RegOffsetTransfer(instruction: U16): Transfer
  {
    var byte := HandlerArm.BitSet(instruction, 10);
    if HandlerArm.BitSet(instruction, 11) then LoadOf(if byte then LDRB else LDR) else StoreOf(if byte then 1 else 4)
  }

  /** The address of both register-offset formats: Rb + Ro. */
  function RegOffsetAddress(r: Registers, instruction: U16): U32
    requires Sane(r)
  {
    Wrap(ReadReg(r, LowReg(instruction, 3)) as int + ReadReg(r, LowReg(instruction, 6)))
  }

  /** LoadStoreRegOffset (LDR, LDRB, STR, STRB Rd, [Rb, Ro]). */
  method LoadStoreRegOffset(cpu: Arm7Tdmi, instruction: U16)
    requires cpu.Valid()
    modifies cpu`regs, cpu`cycles, cpu`exitCode, cpu`accesses, cpu`lastReadBios, cpu.mem.Repr
    ensures cpu.Valid() && Transferred(cpu, RegOffsetTransfer(instruction), old(RegOffsetAddress(cpu.regs, instruction)), LowReg(instruction, 0))
  {
    var address := RegOffsetAddress(cpu.regs, instruction);
    Move(cpu, RegOffsetTransfer(instruction), address, LowReg(instruction, 0));
  }

  /** LoadStoreSignedHalfword, H = bit 11 and S = bit 10: STRH, LDRH, LDSB, LDSH. */
  function SignedHalfwordTransfer(instruction: U16): Transfer
  {
    var h, sign := HandlerArm.BitSet(instruction, 11), HandlerArm.BitSet(instruction, 10);
    if !sign && !h then StoreOf(2) else LoadOf(if !sign then LDRH else if !h then LDSB else LDSH)
  }

  /** LoadStoreSignedHalfword (STRH, LDRH, LDSB, LDSH Rd, [Rb, Ro]). */
  method LoadStoreSignedHalfword(cpu: Arm7Tdmi, instruction: U16)
    requires cpu.Valid()
    modifies cpu`regs, cpu`cycles, cpu`exitCode, cpu`accesses, cpu`lastReadBios, cpu.mem.Repr
    ensures cpu.Valid() && Transferred(cpu, SignedHalfwordTransfer(instruction), old(RegOffsetAddress(cpu.regs, instruction)), LowReg(instruction, 0))
  {
    var address := RegOffsetAddress(cpu.regs, instruction);
    Move(cpu, SignedHalfwordTransfer(instruction), address, LowReg(instruction, 0));
  }

  /** LoadStoreImmediate: bit 12 makes it a byte, bit 11 loads. */
  function ImmediateTransfer(instruction: U16): Transfer
  {
    var byte := HandlerArm.BitSet(instruction, 12);
    if HandlerArm.BitSet(instruction, 11) then LoadOf(if byte then LDRB else LDR) else StoreOf(if byte then 1 else 4)
  }

  /** Rb plus the 5-bit offset, counted in words unless the transfer is a byte. */
  function ImmediateAddress(r: Registers, instruction: U16): U32
    requires Sane(r)
  {
    var offset5 := Field(instruction, 10, 6);
    Wrap(ReadReg(r, LowReg(instruction, 3)) as int + if HandlerArm.BitSet(instruction, 12) then offset5 else 4 * offset5)
  }

  /** LoadStoreImmediate (LDR, LDRB, STR, STRB Rd, [Rb, #imm]). */
  method LoadStoreImmediate(cpu: Arm7Tdmi, instruction: U16)
    requires cpu.Valid()
    modifies cpu`regs, cpu`cycles, cpu`exitCode, cpu`accesses, cpu`lastReadBios, cpu.mem.Repr
    ensures cpu.Valid() && Transferred(cpu, ImmediateTransfer(instruction), old(ImmediateAddress(cpu.regs, instruction)), LowReg(instruction, 0))
  {
    var address := ImmediateAddress(cpu.regs, instruction);
    Move(cpu, ImmediateTransfer(instruction), address, LowReg(instruction, 0));
  }

  /** Rb plus the 5-bit offset counted in halfwords. */
  function HalfwordAddress(r: Registers, instruction: U16): U32
    requires Sane(r)
  {
    Wrap(ReadReg(r, LowReg(instruction, 3)) as int + 2 * Field(instruction, 10, 6))
  }

  /** LoadStoreHalfword (LDRH, STRH Rd, [Rb, #imm]): bit 11 loads. */
  method LoadStoreHalfword(cpu: Arm7Tdmi, instruction: U16)
    requires cpu.Valid()
    modifies cpu`regs, cpu`cycles, cpu`exitCode, cpu`accesses, cpu`lastReadBios, cpu.mem.Repr
    ensures var t := if HandlerArm.BitSet(instruction, 11) then LoadOf(LDRH) else StoreOf(2);
      cpu.Valid() && Transferred(cpu, t, old(HalfwordAddress(cpu.regs, instruction)), LowReg(instruction, 0))
  {
    var address := HalfwordAddress(cpu.regs, instruction);
    Move(cpu, if HandlerArm.BitSet(instruction, 11) then LoadOf(LDRH) else StoreOf(2), address, LowReg(instruction, 0));
  }

  /**
   * With an aligned base, the immediate formats stay aligned: a word
   * transfer's address is a word address, a halfword transfer's a halfword
   * address.
   */
  lemma ImmediateAddressesAligned(r: Registers, instruction: U16)
    requires Sane(r)
    ensures var rb := ReadReg(r, LowReg(instruction, 3));
      && (rb % 4 == 0 && !HandlerArm.BitSet(instruction, 12) ==> ImmediateAddress(r, instruction) % 4 == 0)
      && (rb % 2 == 0 ==> HalfwordAddress(r, instruction) % 2 == 0)
  {
    var rb, offset5 := ReadReg(r, LowReg(instruction, 3)), Field(instruction, 10, 6);
    WrapAligned(rb + offset5 * 4, 4);
    ModAddMultiple(rb, offset5, 4);
    WrapAligned(rb + offset5 * 2, 2);
    ModAddMultiple(rb, offset5, 2);
  }

  /** sp plus the 8-bit offset counted in words. */
  function SpRelAddress(r: Registers, instruction: U16): U32
    requires Sane(r)
  {
    Wrap(ReadReg(r, 13) as int + 4 * Field(instruction, 7, 0))
  }

  /** SpRelLoadStore (LDR, STR Rd, [SP, #imm]): bit 11 loads. */
  method SpRelLoadStore(cpu: Arm7Tdmi, instruction: U16)
    requires cpu.Valid()
    modifies cpu`regs, cpu`cycles, cpu`exitCode, cpu`accesses, cpu`lastReadBios, cpu.mem.Repr
    ensures var t := if HandlerArm.BitSet(instruction, 11) then LoadOf(LDR) else StoreOf(4);
      cpu.Valid() && Transferred(cpu, t, old(SpRelAddress(cpu.regs, instruction)), LowReg(instruction, 8))
  {
    var address := SpRelAddress(cpu.regs, instruction);
    Move(cpu, if HandlerArm.BitSet(instruction, 11) then LoadOf(LDR) else StoreOf(4), address, LowReg(instruction, 8));
  }

  // ---------------------------------------------------------------------
  // Load address and stack pointer offset
  // ---------------------------------------------------------------------

  /** The register file after LoadAddress: Rd takes sp (bit 11) or pc with bit 1 cleared, plus the word offset. */
  function AddressLoaded(r: Registers, instruction: U16): (r': Registers)
    requires Sane(r)
    ensures Sane(r') && r'.cpsr == r.cpsr && r'.spsr == r.spsr
  {
    var base := if HandlerArm.BitSet(instruction, 11) then ReadReg(r, 13) else ClearBit1(ReadReg(r, 15));
    Put(r, LowReg(instruction, 8), Wrap(base as int + 4 * Field(instruction, 7, 0)))
  }

  /** LoadAddress (ADD Rd, PC or SP, #imm): 1S. */
  method LoadAddress(cpu: Arm7Tdmi, instruction: U16)
    requires cpu.Valid()
    modifies cpu`regs, cpu`cycles, cpu`exitCode
    ensures cpu.Valid() && cpu.regs == AddressLoaded(old(cpu.regs), instruction) && cpu.exitCode == old(cpu.exitCode)
    ensures cpu.cycles == Wrap(old(cpu.cycles) + HandlerArm.Cost(cpu, 0, 1, 0))
  {
    LoadAddressRegisters(cpu, instruction);
    cpu.Tick(0, 1, 0);
  }

  /** The register write of LoadAddress. */
  method LoadAddressRegisters(cpu: Arm7Tdmi, instruction: U16)
    requires Sane(cpu.regs)
    modifies cpu`regs, cpu`exitCode
    ensures Sane(cpu.regs) && cpu.regs == AddressLoaded(old(cpu.regs), instruction) && cpu.exitCode == old(cpu.exitCode)
  {
    var base;
    if HandlerArm.BitSet(instruction, 11) {
      base := cpu.GetRegister(13);
    } else {
      base := ClearBit1(cpu.GetRegister(15));
    }
    cpu.SetRegister(LowReg(instruction, 8), Wrap(base as int + 4 * Field(instruction, 7, 0)));
  }

  /**
   * ADD Rd, PC, #imm computes the address LDR Rd, [PC, #imm] reads, and
   * ADD Rd, SP, #imm the address LDR Rd, [SP, #imm] reads; the flags and
   * every register but Rd stay as they were.
   */
  lemma LoadAddressMeaning(r: Registers, instruction: U16)
    requires Sane(r)
    ensures var r', rd := AddressLoaded(r, instruction), LowReg(instruction, 8);
      && ReadReg(r', rd) == (if HandlerArm.BitSet(instruction, 11) then SpRelAddress(r, instruction) else PcRelAddress(r, instruction))
      && r'.cpsr == r.cpsr && forall k: U32 :: k < 16 && k != rd ==> ReadReg(r', k) == ReadReg(r, k)
  {
    var rd := LowReg(instruction, 8);
    var base := if HandlerArm.BitSet(instruction, 11) then ReadReg(r, 13) else ClearBit1(ReadReg(r, 15));
    var value := Wrap(base as int + 4 * Field(instruction, 7, 0));
    forall k: U32 | k < 16 && k != rd
      ensures ReadReg(Put(r, rd, value), k) == ReadReg(r, k)
    {
      PutOther(r, rd, value, k);
    }
  }

  /** sp moved by the 7-bit word offset: up with bit 7 clear, down with it set. */
  function SpAdjusted(r: Registers, instruction: U16): (r': Registers)
    requires Sane(r)
    ensures Sane(r') && r'.cpsr == r.cpsr && r'.spsr == r.spsr
  {
    var offset, sp := 4 * Field(instruction, 6, 0), ReadReg(r, 13);
    Put(r, 13, if HandlerArm.BitSet(instruction, 7) then Wrap(sp as int - offset) else Wrap(sp as int + offset))
  }

  /** AddOffsetToSp (ADD SP, #+/-imm): 1S. */
  method AddOffsetToSp(cpu: Arm7Tdmi, instruction: U16)
    requires cpu.Valid()
    modifies cpu`regs, cpu`cycles, cpu`exitCode
    ensures cpu.Valid() && cpu.regs == SpAdjusted(old(cpu.regs), instruction) && cpu.exitCode == old(cpu.exitCode)
    ensures cpu.cycles == Wrap(old(cpu.cycles) + HandlerArm.Cost(cpu, 0, 1, 0))
  {
    AdjustSp(cpu, instruction);
    cpu.Tick(0, 1, 0);
  }

  /** The register write of AddOffsetToSp. */
  method AdjustSp(cpu: Arm7Tdmi, instruction: U16)
    requires Sane(cpu.regs)
    modifies cpu`regs, cpu`exitCode
    ensures Sane(cpu.regs) && cpu.regs == SpAdjusted(old(cpu.regs), instruction) && cpu.exitCode == old(cpu.exitCode)
  {
    var offset := 4 * Field(instruction, 6, 0);
    var base := cpu.GetRegister(13);
    if !HandlerArm.BitSet(instruction, 7) {
      base := Wrap(base as int + offset);
    } else {
      base := Wrap(base as int - offset);
    }
    cpu.SetRegister(13, base);
  }

  /**
   * ADD SP, #imm followed by ADD SP, #-imm (or the other way round) gives sp
   * back, and neither touches another register of the mode or the flags.
   */
  lemma SpAdjustRoundTrip(r: Registers, first: U16, second: U16)
    requires Sane(r) && Field(first, 6, 0) == Field(second, 6, 0)
    requires HandlerArm.BitSet(first, 7) != HandlerArm.BitSet(second, 7)
    ensures var r' := SpAdjusted(SpAdjusted(r, first), second);
      && ReadReg(r', 13) == ReadReg(r, 13) && r'.cpsr == r.cpsr
      && forall k: U32 :: k < 16 && k != 13 ==> ReadReg(r', k) == ReadReg(r, k)
  {
    var r1 := SpAdjusted(r, first);
    var offset, sp := 4 * Field(first, 6, 0), ReadReg(r, 13);
    WrapShift(sp + offset, -offset);
    WrapShift(sp - offset, offset);
    forall k: U32 | k < 16 && k != 13
      ensures ReadReg(SpAdjusted(r1, second), k) == ReadReg(r, k)
    {
      PutOther(r, 13, ReadReg(r1, 13), k);
      PutOther(r1, 13, ReadReg(SpAdjusted(r1, second), 13), k);
    }
  }

  // ---------------------------------------------------------------------
  // Push, pop and multiple load/store
  // ---------------------------------------------------------------------

  /** The registers r0-r7 whose bits are set among bits 7-0, in ascending order. */
  function LowList(instruction: U16): (rs: seq<U32>)
    ensures |rs| <= 8 && forall j :: 0 <= j < |rs| ==> rs[j] < 8
  {
    HandlerArm.ListedBelow(instruction, 8)
  }

  /** The first loop of PushPop and MultipleLoadStore: the set bits among bits 7-0, in ascending order. */
  method CollectLow(instruction: U16) returns (setRegisters: seq<U32>)
    ensures setRegisters == LowList(instruction)
  {
    setRegisters := [];
    var i := 0;
    while i < 8
      invariant 0 <= i <= 8 && setRegisters == HandlerArm.ListedBelow(instruction, i)
    {
      if Field(instruction, i, i) == 1 {
        setRegisters := setRegisters + [i];
      }
      i := i + 1;
    }
  }

  /** Word stores of the registers of regs, in order, to consecutive words from base up. */
  function AscendingStores(r: Registers, regs: seq<U32>, base: U32): (log: seq<Access>)
    requires Sane(r) && forall j :: 0 <= j < |regs| ==> regs[j] < 16
    ensures |log| == |regs|
  {
    seq(|regs|, j requires 0 <= j < |regs| => Store(4, Wrap(base as int + 4 * j), ReadReg(r, regs[j])))
  }

  /** Word loads that returned the words of values, in order, from consecutive words from base up. */
  function AscendingLoads(base: U32, values: seq<U32>): (log: seq<Access>)
    ensures |log| == |values|
  {
    seq(|values|, j requires 0 <= j < |values| => Load(4, Wrap(base as int + 4 * j), values[j]))
  }

  /** One more store appends its access. */
  lemma AscendingStoresStep(r: Registers, regs: seq<U32>, reg: U32, base: U32)
    requires Sane(r) && reg < 16 && forall j :: 0 <= j < |regs| ==> regs[j] < 16
    ensures AscendingStores(r, regs + [reg], base) == AscendingStores(r, regs, base) + [Store(4, Wrap(base as int + 4 * |regs|), ReadReg(r, reg))]
  {
    var extended := regs + [reg];
    assert forall j :: 0 <= j < |regs| ==> extended[j] == regs[j];
  }

  /** One more load appends its access. */
  lemma AscendingLoadsStep(base: U32, values: seq<U32>, value: U32)
    ensures AscendingLoads(base, values + [value]) == AscendingLoads(base, values) + [Load(4, Wrap(base as int + 4 * |values|), value)]
  {
    var extended := values + [value];
    assert forall j :: 0 <= j < |values| ==> extended[j] == values[j];
  }

  /** The log of ascending loads gives back the words loaded. */
  lemma LoggedAscendingLoads(base: U32, values: seq<U32>)
    ensures HandlerArm.LoggedWords(AscendingLoads(base, values)) == values
  {
  }

  /** An STMIA of the shared block loop (ascending, post-indexed) stores the registers in order from base up. */
  lemma {:induction false} AscendingBlockStores(r: Registers, list: seq<U32>, base: U32, t: nat)
    requires Sane(r) && t <= |list| && forall j :: 0 <= j < |list| ==> list[j] < 15
    ensures HandlerArm.BlockStores(r, list, base, true, false, t) == AscendingStores(r, list[..t], base)
    decreases t
  {
    if t > 0 {
      AscendingBlockStores(r, list, base, t - 1);
      assert list[..t] == list[..t - 1] + [list[t - 1]];
      AscendingStoresStep(r, list[..t - 1], list[t - 1], base);
    }
  }

  /** Two register files that agree on the registers stored give the same stores. */
  lemma AscendingStoresAgree(r: Registers, r': Registers, regs: seq<U32>, base: U32)
    requires Sane(r) && Sane(r') && forall j :: 0 <= j < |regs| ==> regs[j] < 16 && ReadReg(r', regs[j]) == ReadReg(r, regs[j])
    ensures AscendingStores(r', regs, base) == AscendingStores(r, regs, base)
  {
  }

  /**
   * Words stored by an ascending block store, loaded back by an ascending
   * block load from the same base into the same distinct registers, give
   * each register the value it had when it was stored, whatever happened to
   * the register file in between.
   */
  lemma AscendingReadBack(r: Registers, r': Registers, list: seq<U32>, base: U32)
    requires Sane(r) && Sane(r') && forall j :: 0 <= j < |list| ==> list[j] < 16
    requires forall i, j :: 0 <= i < j < |list| ==> list[i] < list[j]
    ensures var words := HandlerArm.LoggedWords(AscendingStores(r, list, base));
      && (forall j :: 0 <= j < |list| ==> AscendingLoads(base, words)[j].address == AscendingStores(r, list, base)[j].address)
      && forall k :: k in list ==> ReadReg(HandlerArm.LoadedBlock(r', list, true, words), k) == ReadReg(r, k)
  {
    var words := HandlerArm.LoggedWords(AscendingStores(r, list, base));
    HandlerArm.LoadedBlockMeaning(r', list, true, words);
    forall k | k in list
      ensures ReadReg(HandlerArm.LoadedBlock(r', list, true, words), k) == ReadReg(r, k)
    {
      var t :| 0 <= t < |list| && list[t] == k;
      assert HandlerArm.Visit(|list|, t, true) == t;
    }
  }

  /** Whether one of the first t words from base up lies in unused memory, where a THUMB-state Read32 stops the emulator. */
  predicate UnusedSlot(base: U32, t: nat)
  {
    var a := Wrap(base as int + 4 * (t - 1));
    t > 0 && (UnusedSlot(base, t - 1) || (a > Bus.BiosEnd && Unused(a)))
  }

  /** The load loop of POP and LDMIA: Read32 of consecutive words from base up into the listed registers, in order. */
  method LoadAscending(cpu: Arm7Tdmi, list: seq<U32>, base: U32) returns (values: seq<U32>, b: U32)
    requires cpu.Valid() && forall j :: 0 <= j < |list| ==> list[j] < 8
    modifies cpu`regs, cpu`exitCode, cpu`accesses, cpu`lastReadBios
    ensures cpu.Valid() && |values| == |list| && b == HandlerArm.Moved(base, |list|, true)
    ensures cpu.accesses == old(cpu.accesses) + AscendingLoads(base, values)
    ensures cpu.regs == HandlerArm.LoadedBlock(old(cpu.regs), list, true, values)
    ensures cpu.exitCode == if Thumb(old(cpu.regs)) && UnusedSlot(base, |list|) then Some(0) else old(cpu.exitCode)
  {
    values, b := [], base;
    while |values| < |list|
      invariant |values| <= |list| && cpu.Valid() && b == HandlerArm.Moved(base, |values|, true)
      invariant cpu.accesses == old(cpu.accesses) + AscendingLoads(base, values)
      invariant cpu.regs == HandlerArm.LoadedBlock(old(cpu.regs), list, true, values)
      invariant cpu.exitCode == if Thumb(old(cpu.regs)) && UnusedSlot(base, |values|) then Some(0) else old(cpu.exitCode)
    {
      var value := LoadAscendingStep(cpu, list, base, values, b, old(cpu.regs), old(cpu.accesses), old(cpu.exitCode));
      WrapShift(base as int + 4 * |values|, 4);
      values, b := values + [value], Wrap(b as int + 4);
    }
  }

  /** One step of the load loop: Read32 at b into the next listed register. */
  method LoadAscendingStep(cpu: Arm7Tdmi, list: seq<U32>, base: U32, values: seq<U32>, b: U32,
                           ghost r: Registers, ghost log: seq<Access>, ghost e: Option<int>) returns (value: U32)
    requires cpu.Valid() && Sane(r) && |values| < |list| && forall j :: 0 <= j < |list| ==> list[j] < 8
    requires b == HandlerArm.Moved(base, |values|, true)
    requires cpu.regs == HandlerArm.LoadedBlock(r, list, true, values) && cpu.accesses == log + AscendingLoads(base, values)
    requires cpu.exitCode == if Thumb(r) && UnusedSlot(base, |values|) then Some(0) else e
    modifies cpu`regs, cpu`exitCode, cpu`accesses, cpu`lastReadBios
    ensures cpu.Valid()
    ensures cpu.regs == HandlerArm.LoadedBlock(r, list, true, values + [value])
    ensures cpu.accesses == log + AscendingLoads(base, values + [value])
    ensures cpu.exitCode == if Thumb(r) && UnusedSlot(base, |values| + 1) then Some(0) else e
  {
    value := cpu.Read32(b, false);
    cpu.SetRegister(list[|values|], value);
    HandlerArm.LoadedBlockStep(r, list, true, values, value);
    AscendingLoadsStep(base, values, value);
  }

  /** The registers a PUSH stores or a POP loads: list, then lr or pc when extra is set. */
  function Stacked(list: seq<U32>, extra: bool, top: U32): (rs: seq<U32>)
  {
    list + if extra then [top] else []
  }

  /** PUSH's list: the low registers of bits 7-0, then lr when R (bit 8) is set. */
  function PushList(instruction: U16): (rs: seq<U32>)
    ensures |rs| <= 9 && forall j :: 0 <= j < |rs| ==> rs[j] < 15
  {
    Stacked(LowList(instruction), HandlerArm.BitSet(instruction, 8), 14)
  }

  /** The register file after PUSH: sp lowered by a word per register pushed. */
  function Pushed(r: Registers, instruction: U16): (r': Registers)
    requires Sane(r)
    ensures Sane(r')
  {
    Put(r, 13, HandlerArm.Moved(ReadReg(r, 13), |PushList(instruction)|, false))
  }

  /**
   * The register file after a POP of list, and of pc when pc is set, given
   * the words read: the listed registers take the first words in order, pc
   * the last word with bit 0 cleared, and sp rises past them all.
   */
  function PoppedList(r: Registers, list: seq<U32>, pc: bool, values: seq<U32>): (r': Registers)
    requires Sane(r) && |values| == |list| + Bit(pc) && forall j :: 0 <= j < |list| ==> list[j] < 16
    ensures Sane(r')
  {
    var loaded := HandlerArm.LoadedBlock(r, list, true, values[..|list|]);
    var withPc := if pc then Put(loaded, 15, ClearBit0(values[|list|])) else loaded;
    Put(withPc, 13, HandlerArm.Moved(ReadReg(r, 13), |values|, true))
  }

  /** The register file after POP: PoppedList with the low registers of bits 7-0 and pc when R (bit 8) is set. */
  function Popped(r: Registers, instruction: U16, values: seq<U32>): (r': Registers)
    requires Sane(r) && |values| == |PushList(instruction)|
    ensures Sane(r')
  {
    PoppedList(r, LowList(instruction), HandlerArm.BitSet(instruction, 8), values)
  }

  /**
   * PushPop (PUSH, POP {Rlist} with R adding lr or pc). PUSH lowers sp first,
   * then stores the list and lr upwards from the new sp; POP loads upwards
   * from sp, pc last (bit 0 cleared, pipeline flushed), then raises sp.
   * POP ticks nS + 1N + 1I, one more S and N for pc.
   */
  method PushPop(cpu: Arm7Tdmi, instruction: U16)
    requires cpu.Valid()
    modifies cpu`regs, cpu`pipelineFull, cpu`cycles, cpu`exitCode, cpu`accesses, cpu`lastReadBios, cpu.mem.Repr
    ensures cpu.Valid()
    ensures !HandlerArm.BitSet(instruction, 11) ==>
      && cpu.regs == Pushed(old(cpu.regs), instruction)
      && cpu.accesses == old(cpu.accesses) + AscendingStores(old(cpu.regs), PushList(instruction), ReadReg(cpu.regs, 13))
      && cpu.pipelineFull == old(cpu.pipelineFull) && cpu.exitCode == old(cpu.exitCode)
    ensures var stores := AscendingStores(old(cpu.regs), PushList(instruction), ReadReg(cpu.regs, 13));
      !HandlerArm.BitSet(instruction, 11) && WordsInRam(stores) ==>
        cpu.mem.memory[..] == ApplyStores(old(cpu.mem.memory[..]), stores)
        && cpu.cycles == Wrap(old(cpu.cycles) + HandlerArm.Cost(cpu, 2, |PushList(instruction)|, 0))
    ensures HandlerArm.BitSet(instruction, 11) ==>
      var sp, pc := ReadReg(old(cpu.regs), 13), HandlerArm.BitSet(instruction, 8);
      && |old(cpu.accesses)| <= |cpu.accesses|
      && var values := HandlerArm.LoggedWords(cpu.accesses[|old(cpu.accesses)|..]);
      && |values| == |PushList(instruction)|
      && cpu.accesses == old(cpu.accesses) + AscendingLoads(sp, values)
      && cpu.regs == Popped(old(cpu.regs), instruction, values)
      && cpu.pipelineFull == (old(cpu.pipelineFull) && !pc)
      && cpu.exitCode == (if Thumb(old(cpu.regs)) && UnusedSlot(sp, |values|) then Some(0) else old(cpu.exitCode))
      && cpu.cycles == Wrap(old(cpu.cycles) + HandlerArm.Cost(cpu, 1 + Bit(pc), |values|, 1))
  {
    if !HandlerArm.BitSet(instruction, 11) {
      PushOf(cpu, instruction);
    } else {
      PopOf(cpu, instruction);
    }
  }

  /** PUSH, stated on the instruction. */
  method PushOf(cpu: Arm7Tdmi, instruction: U16)
    requires cpu.Valid()
    modifies cpu`regs, cpu`cycles, cpu`exitCode, cpu`accesses, cpu.mem.Repr
    ensures cpu.Valid() && cpu.exitCode == old(cpu.exitCode)
    ensures cpu.regs == Pushed(old(cpu.regs), instruction)
    ensures cpu.accesses == old(cpu.accesses) + AscendingStores(old(cpu.regs), PushList(instruction), ReadReg(cpu.regs, 13))
    ensures var stores := AscendingStores(old(cpu.regs), PushList(instruction), ReadReg(cpu.regs, 13));
      WordsInRam(stores) ==>
        cpu.mem.memory[..] == ApplyStores(old(cpu.mem.memory[..]), stores)
        && cpu.cycles == Wrap(old(cpu.cycles) + HandlerArm.Cost(cpu, 2, |PushList(instruction)|, 0))
  {
    var list := CollectLow(instruction);
    Push(cpu, list, HandlerArm.BitSet(instruction, 8));
  }

  /** POP, stated on the instruction. */
  method PopOf(cpu: Arm7Tdmi, instruction: U16)
    requires cpu.Valid()
    modifies cpu`regs, cpu`pipelineFull, cpu`cycles, cpu`exitCode, cpu`accesses, cpu`lastReadBios
    ensures cpu.Valid()
    ensures var sp, pc := ReadReg(old(cpu.regs), 13), HandlerArm.BitSet(instruction, 8);
      && |old(cpu.accesses)| <= |cpu.accesses|
      && var values := HandlerArm.LoggedWords(cpu.accesses[|old(cpu.accesses)|..]);
      && |values| == |PushList(instruction)|
      && cpu.accesses == old(cpu.accesses) + AscendingLoads(sp, values)
      && cpu.regs == Popped(old(cpu.regs), instruction, values)
      && cpu.pipelineFull == (old(cpu.pipelineFull) && !pc)
      && cpu.exitCode == (if Thumb(old(cpu.regs)) && UnusedSlot(sp, |values|) then Some(0) else old(cpu.exitCode))
      && cpu.cycles == Wrap(old(cpu.cycles) + HandlerArm.Cost(cpu, 1 + Bit(pc), |values|, 1))
  {
    var list := CollectLow(instruction);
    ghost var r, log := cpu.regs, cpu.accesses;
    PopLogged(cpu, list, HandlerArm.BitSet(instruction, 8));
    ghost var values := HandlerArm.LoggedWords(cpu.accesses[|log|..]);
    assert |PushList(instruction)| == |list| + Bit(HandlerArm.BitSet(instruction, 8));
    assert Popped(r, instruction, values) == PoppedList(r, list, HandlerArm.BitSet(instruction, 8), values);
  }

  /** POP, stated through the words it logged. */
  method PopLogged(cpu: Arm7Tdmi, list: seq<U32>, pc: bool)
    requires cpu.Valid() && |list| <= 8 && forall j :: 0 <= j < |list| ==> list[j] < 8
    modifies cpu`regs, cpu`pipelineFull, cpu`cycles, cpu`exitCode, cpu`accesses, cpu`lastReadBios
    ensures cpu.Valid()
    ensures var sp := ReadReg(old(cpu.regs), 13);
      && |old(cpu.accesses)| <= |cpu.accesses|
      && var values := HandlerArm.LoggedWords(cpu.accesses[|old(cpu.accesses)|..]);
      && |values| == |list| + Bit(pc)
      && cpu.accesses == old(cpu.accesses) + AscendingLoads(sp, values)
      && cpu.regs == PoppedList(old(cpu.regs), list, pc, values)
      && cpu.pipelineFull == (old(cpu.pipelineFull) && !pc)
      && cpu.exitCode == (if Thumb(old(cpu.regs)) && UnusedSlot(sp, |values|) then Some(0) else old(cpu.exitCode))
      && cpu.cycles == Wrap(old(cpu.cycles) + HandlerArm.Cost(cpu, 1 + Bit(pc), |values|, 1))
  {
    ghost var log := cpu.accesses;
    var values := Pop(cpu, list, pc);
    assert cpu.accesses[|log|..] == AscendingLoads(ReadReg(old(cpu.regs), 13), values);
    LoggedAscendingLoads(ReadReg(old(cpu.regs), 13), values);
  }

  /** PUSH: sp first, then the stores; nS + 2N (one S per word stored, with lr counted), plus the video penalties of the stores. */
  method Push(cpu: Arm7Tdmi, list: seq<U32>, lr: bool)
    requires cpu.Valid() && |list| <= 8 && forall j :: 0 <= j < |list| ==> list[j] < 8
    modifies cpu`regs, cpu`cycles, cpu`exitCode, cpu`accesses, cpu.mem.Repr
    ensures cpu.Valid() && cpu.exitCode == old(cpu.exitCode)
    ensures cpu.regs == Put(old(cpu.regs), 13, HandlerArm.Moved(ReadReg(old(cpu.regs), 13), |Stacked(list, lr, 14)|, false))
    ensures cpu.accesses == old(cpu.accesses) + AscendingStores(old(cpu.regs), Stacked(list, lr, 14), ReadReg(cpu.regs, 13))
    ensures var stores := AscendingStores(old(cpu.regs), Stacked(list, lr, 14), ReadReg(cpu.regs, 13));
      WordsInRam(stores) ==>
        cpu.mem.memory[..] == ApplyStores(old(cpu.mem.memory[..]), stores)
        && cpu.cycles == Wrap(old(cpu.cycles) + HandlerArm.Cost(cpu, 2, |list| + Bit(lr), 0))
  {
    ghost var r0 := cpu.regs;
    assert |Stacked(list, lr, 14)| == |list| + Bit(lr);
    var base := LowerSp(cpu, |list|, lr);
    PushStores(cpu, list, lr, base, r0);
  }

  /** PUSH after sp is lowered: the stores from the new sp up, then the tick. */
  method PushStores(cpu: Arm7Tdmi, list: seq<U32>, lr: bool, base: U32, ghost r: Registers)
    requires cpu.Valid() && Sane(r) && |list| <= 8 && forall j :: 0 <= j < |list| ==> list[j] < 8
    requires cpu.regs == Put(r, 13, base)
    modifies cpu`cycles, cpu`accesses, cpu.mem.Repr
    ensures cpu.Valid() && cpu.accesses == old(cpu.accesses) + AscendingStores(r, Stacked(list, lr, 14), base)
    ensures var stores := AscendingStores(r, Stacked(list, lr, 14), base);
      WordsInRam(stores) ==>
        cpu.mem.memory[..] == ApplyStores(old(cpu.mem.memory[..]), stores)
        && cpu.cycles == Wrap(old(cpu.cycles) + HandlerArm.Cost(cpu, 2, |list| + Bit(lr), 0))
  {
    StoreAscending(cpu, list, lr, base, r);
    ghost var m1 := cpu.mem.memory[..];
    cpu.Tick(2, |list| + Bit(lr), 0);
    assert cpu.mem.memory[..] == m1;
  }

  /** PUSH's first step: sp lowered by 4n, and by 4 more for lr. */
  method LowerSp(cpu: Arm7Tdmi, n: nat, lr: bool) returns (base: U32)
    requires Sane(cpu.regs)
    modifies cpu`regs, cpu`exitCode
    ensures Sane(cpu.regs) && cpu.regs == Put(old(cpu.regs), 13, HandlerArm.Moved(ReadReg(old(cpu.regs), 13), n + Bit(lr), false))
    ensures cpu.exitCode == old(cpu.exitCode) && base == ReadReg(cpu.regs, 13)
  {
    var sp := cpu.GetRegister(13);
    base := Wrap(sp as int - 4 * n);
    if lr {
      WrapShift(sp as int - 4 * n, -4);
      base := Wrap(base as int - 4);
    }
    cpu.SetRegister(13, base);
  }

  /** PUSH's stores: the listed registers upwards from base through the shared block loop, then lr. */
  method StoreAscending(cpu: Arm7Tdmi, list: seq<U32>, lr: bool, base: U32, ghost r: Registers)
    requires cpu.Valid() && Sane(r) && forall j :: 0 <= j < |list| ==> list[j] < 8
    requires cpu.regs == Put(r, 13, base)
    modifies cpu`cycles, cpu`accesses, cpu.mem.Repr
    ensures cpu.Valid() && cpu.accesses == old(cpu.accesses) + AscendingStores(r, Stacked(list, lr, 14), base)
    ensures var stores := AscendingStores(r, Stacked(list, lr, 14), base);
      WordsInRam(stores) ==> cpu.mem.memory[..] == ApplyStores(old(cpu.mem.memory[..]), stores) && cpu.cycles == old(cpu.cycles)
  {
    ghost var m0 := cpu.mem.memory[..];
    var b := StoreLow(cpu, list, base, r);
    if lr {
      PutOther(r, 13, base, 14);
      StoreLr(cpu, list, base, b, r, m0);
      AscendingStoresStep(r, list, 14, base);
      assert Stacked(list, lr, 14) == list + [14];
    } else {
      assert Stacked(list, lr, 14) == list;
    }
  }

  /** PUSH's stores of the listed low registers, which the lowered sp leaves as they were in r. */
  method StoreLow(cpu: Arm7Tdmi, list: seq<U32>, base: U32, ghost r: Registers) returns (b: U32)
    requires cpu.Valid() && Sane(r) && forall j :: 0 <= j < |list| ==> list[j] < 8
    requires cpu.regs == Put(r, 13, base)
    modifies cpu`cycles, cpu`accesses, cpu.mem.Repr
    ensures cpu.Valid() && cpu.regs == old(cpu.regs) && b == Wrap(base as int + 4 * |list|)
    ensures cpu.accesses == old(cpu.accesses) + AscendingStores(r, list, base)
    ensures var stores := AscendingStores(r, list, base);
      WordsInRam(stores) ==> cpu.mem.memory[..] == ApplyStores(old(cpu.mem.memory[..]), stores) && cpu.cycles == old(cpu.cycles)
  {
    b := HandlerArm.StoreMultiple(cpu, list, base, true, false);
    AscendingBlockStores(cpu.regs, list, base, |list|);
    assert list[..|list|] == list;
    forall j | 0 <= j < |list|
      ensures ReadReg(cpu.regs, list[j]) == ReadReg(r, list[j])
    {
      PutOther(r, 13, base, list[j]);
    }
    AscendingStoresAgree(r, cpu.regs, list, base);
  }

  /** PUSH's store of lr, one word above the listed registers. */
  method StoreLr(cpu: Arm7Tdmi, list: seq<U32>, base: U32, b: U32, ghost r: Registers, ghost m0: seq<Byte>)
    requires cpu.Valid() && Sane(r) && forall j :: 0 <= j < |list| ==> list[j] < 8
    requires ReadReg(cpu.regs, 14) == ReadReg(r, 14) && b == Wrap(base as int + 4 * |list|)
    requires |m0| == Bus.MemSize
    requires var stores := AscendingStores(r, list, base);
      WordsInRam(stores) ==> cpu.mem.memory[..] == ApplyStores(m0, stores)
    modifies cpu`cycles, cpu`accesses, cpu.mem.Repr
    ensures cpu.Valid() && cpu.accesses == old(cpu.accesses) + [Store(4, b, ReadReg(r, 14))]
    ensures var stores := AscendingStores(r, list + [14], base);
      WordsInRam(stores) ==>
        WordsInRam(AscendingStores(r, list, base)) && cpu.mem.memory[..] == ApplyStores(m0, stores) && cpu.cycles == old(cpu.cycles)
  {
    var lr := cpu.GetRegister(14);
    HandlerArm.StoreWord(cpu, b, lr);
    AscendingStoresStep(r, list, 14, base);
    var stores := AscendingStores(r, list, base);
    if WordsInRam(stores + [Store(4, b, lr)]) {
      ApplyStoresAppend(m0, stores, Store(4, b, lr));
    }
  }

  /** POP: the loads, pc last, then sp, and nS + 1N + 1I with one more S and N for pc; returns the words read. */
  method Pop(cpu: Arm7Tdmi, list: seq<U32>, pc: bool) returns (values: seq<U32>)
    requires cpu.Valid() && |list| <= 8 && forall j :: 0 <= j < |list| ==> list[j] < 8
    modifies cpu`regs, cpu`pipelineFull, cpu`cycles, cpu`exitCode, cpu`accesses, cpu`lastReadBios
    ensures var sp := ReadReg(old(cpu.regs), 13);
      && cpu.Valid() && |values| == |list| + Bit(pc)
      && cpu.accesses == old(cpu.accesses) + AscendingLoads(sp, values)
      && cpu.regs == PoppedList(old(cpu.regs), list, pc, values)
      && cpu.pipelineFull == (old(cpu.pipelineFull) && !pc)
      && cpu.exitCode == (if Thumb(old(cpu.regs)) && UnusedSlot(sp, |values|) then Some(0) else old(cpu.exitCode))
      && cpu.cycles == Wrap(old(cpu.cycles) + HandlerArm.Cost(cpu, 1 + Bit(pc), |values|, 1))
  {
    values := PopLoads(cpu, list, pc);
    cpu.Tick(1 + Bit(pc), |list| + Bit(pc), 1);
  }

  /** POP's loads and register writes. */
  method PopLoads(cpu: Arm7Tdmi, list: seq<U32>, pc: bool) returns (values: seq<U32>)
    requires cpu.Valid() && forall j :: 0 <= j < |list| ==> list[j] < 8
    modifies cpu`regs, cpu`pipelineFull, cpu`exitCode, cpu`accesses, cpu`lastReadBios
    ensures var sp := ReadReg(old(cpu.regs), 13);
      && cpu.Valid() && |values| == |list| + Bit(pc)
      && cpu.accesses == old(cpu.accesses) + AscendingLoads(sp, values)
      && cpu.regs == PoppedList(old(cpu.regs), list, pc, values)
      && cpu.pipelineFull == (old(cpu.pipelineFull) && !pc)
      && cpu.exitCode == (if Thumb(old(cpu.regs)) && UnusedSlot(sp, |values|) then Some(0) else old(cpu.exitCode))
  {
    if pc {
      values := PopWithPc(cpu, list);
    } else {
      values := PopWithoutPc(cpu, list);
    }
  }

  /** POP with R clear: the loads, then sp. */
  method PopWithoutPc(cpu: Arm7Tdmi, list: seq<U32>) returns (values: seq<U32>)
    requires cpu.Valid() && forall j :: 0 <= j < |list| ==> list[j] < 8
    modifies cpu`regs, cpu`exitCode, cpu`accesses, cpu`lastReadBios
    ensures var sp := ReadReg(old(cpu.regs), 13);
      && cpu.Valid() && |values| == |list|
      && cpu.accesses == old(cpu.accesses) + AscendingLoads(sp, values)
      && cpu.regs == PoppedList(old(cpu.regs), list, false, values)
      && cpu.exitCode == (if Thumb(old(cpu.regs)) && UnusedSlot(sp, |values|) then Some(0) else old(cpu.exitCode))
  {
    var sp := cpu.GetRegister(13);
    var b;
    values, b := LoadAscending(cpu, list, sp);
    PoppedWithoutPc(old(cpu.regs), list, values);
    cpu.SetRegister(13, b);
  }

  /** POP with R set: the loads, pc, then sp. */
  method PopWithPc(cpu: Arm7Tdmi, list: seq<U32>) returns (values: seq<U32>)
    requires cpu.Valid() && forall j :: 0 <= j < |list| ==> list[j] < 8
    modifies cpu`regs, cpu`pipelineFull, cpu`exitCode, cpu`accesses, cpu`lastReadBios
    ensures var sp := ReadReg(old(cpu.regs), 13);
      && cpu.Valid() && |values| == |list| + 1
      && cpu.accesses == old(cpu.accesses) + AscendingLoads(sp, values)
      && cpu.regs == PoppedList(old(cpu.regs), list, true, values)
      && !cpu.pipelineFull
      && cpu.exitCode == (if Thumb(old(cpu.regs)) && UnusedSlot(sp, |values|) then Some(0) else old(cpu.exitCode))
  {
    var sp := cpu.GetRegister(13);
    var b;
    values, b := LoadWithPc(cpu, list, sp);
    PoppedWithPc(old(cpu.regs), list, values[..|list|], values[|list|]);
    assert values == values[..|list|] + [values[|list|]];
    cpu.SetRegister(13, b);
  }

  /** POP's loads with R set: the list, then pc from the word above it. */
  method LoadWithPc(cpu: Arm7Tdmi, list: seq<U32>, sp: U32) returns (values: seq<U32>, b: U32)
    requires cpu.Valid() && forall j :: 0 <= j < |list| ==> list[j] < 8
    modifies cpu`regs, cpu`pipelineFull, cpu`exitCode, cpu`accesses, cpu`lastReadBios
    ensures cpu.Valid() && |values| == |list| + 1 && b == HandlerArm.Moved(sp, |list| + 1, true)
    ensures cpu.accesses == old(cpu.accesses) + AscendingLoads(sp, values)
    ensures cpu.regs == Put(HandlerArm.LoadedBlock(old(cpu.regs), list, true, values[..|list|]), 15, ClearBit0(values[|list|]))
    ensures !cpu.pipelineFull
    ensures cpu.exitCode == (if Thumb(old(cpu.regs)) && UnusedSlot(sp, |values|) then Some(0) else old(cpu.exitCode))
  {
    var loaded;
    loaded, b := LoadAscending(cpu, list, sp);
    var value := PopPc(cpu, b);
    AscendingLoadsStep(sp, loaded, value);
    WrapShift(sp as int + 4 * |list|, 4);
    values, b := loaded + [value], Wrap(b as int + 4);
    assert values[..|list|] == loaded;
  }

  /** PoppedList with pc: the loaded registers, then pc, then sp. */
  lemma PoppedWithPc(r: Registers, list: seq<U32>, values: seq<U32>, value: U32)
    requires Sane(r) && |values| == |list| && forall j :: 0 <= j < |list| ==> list[j] < 16
    ensures PoppedList(r, list, true, values + [value])
      == Put(Put(HandlerArm.LoadedBlock(r, list, true, values), 15, ClearBit0(value)), 13, HandlerArm.Moved(ReadReg(r, 13), |list| + 1, true))
  {
    assert (values + [value])[..|list|] == values;
  }

  /** PoppedList without pc: the loaded registers, then sp. */
  lemma PoppedWithoutPc(r: Registers, list: seq<U32>, values: seq<U32>)
    requires Sane(r) && |values| == |list| && forall j :: 0 <= j < |list| ==> list[j] < 16
    ensures PoppedList(r, list, false, values) == Put(HandlerArm.LoadedBlock(r, list, true, values), 13, HandlerArm.Moved(ReadReg(r, 13), |list|, true))
  {
    assert values[..|list|] == values;
  }

  /** POP's last load: pc takes the word at b with bit 0 cleared, and the pipeline is flushed. */
  method PopPc(cpu: Arm7Tdmi, b: U32) returns (value: U32)
    requires cpu.Valid()
    modifies cpu`regs, cpu`pipelineFull, cpu`exitCode, cpu`accesses, cpu`lastReadBios
    ensures cpu.Valid() && cpu.regs == Put(old(cpu.regs), 15, ClearBit0(value)) && !cpu.pipelineFull
    ensures cpu.accesses == old(cpu.accesses) + [Load(4, b, value)]
    ensures cpu.exitCode == if b > Bus.BiosEnd && Unused(b) && Thumb(old(cpu.regs)) then Some(0) else old(cpu.exitCode)
  {
    value := cpu.Read32(b, false);
    cpu.SetRegister(15, ClearBit0(value));
    cpu.pipelineFull := false;
  }

  /**
   * A POP of the list and R bit of a PUSH, with sp where the PUSH left it,
   * reads the words the PUSH wrote from the addresses it wrote them to: the
   * listed registers get their values back, pc (with R) the pushed lr with
   * bit 0 cleared, and sp returns to its value before the PUSH.
   */
  lemma PushPopThumbRoundTrip(r: Registers, push: U16, r': Registers, pop: U16)
    requires Sane(r) && Sane(r') && ReadReg(r', 13) == ReadReg(Pushed(r, push), 13)
    requires LowList(push) == LowList(pop) && HandlerArm.BitSet(push, 8) == HandlerArm.BitSet(pop, 8)
    ensures var sp := ReadReg(r', 13);
      var words := HandlerArm.LoggedWords(AscendingStores(r, PushList(push), sp));
      var r'' := Popped(r', pop, words);
      && (forall j :: 0 <= j < |words| ==> AscendingLoads(sp, words)[j].address == AscendingStores(r, PushList(push), sp)[j].address)
      && ReadReg(r'', 13) == ReadReg(r, 13)
      && (forall k :: k in LowList(pop) ==> ReadReg(r'', k) == ReadReg(r, k))
      && (HandlerArm.BitSet(pop, 8) ==> ReadReg(r'', 15) == ClearBit0(ReadReg(r, 14)))
  {
    var sp, list, pc := ReadReg(r', 13), LowList(pop), HandlerArm.BitSet(pop, 8);
    var words := HandlerArm.LoggedWords(AscendingStores(r, PushList(push), sp));
    assert PushList(push) == Stacked(list, pc, 14);
    assert Popped(r', pop, words) == PoppedList(r', list, pc, words);
    HandlerArm.PushPopRoundTrip(ReadReg(r, 13), |PushList(push)|);
    HandlerArm.ListedBelowAscending(pop, 8);
    PopReadsBack(r, r', list, pc, sp);
    LoadsFollowStores(r, PushList(push), sp);
  }

  /** Loading the words an ascending store wrote, from the same base, visits the same addresses. */
  lemma LoadsFollowStores(r: Registers, regs: seq<U32>, base: U32)
    requires Sane(r) && forall j :: 0 <= j < |regs| ==> regs[j] < 16
    ensures var stores := AscendingStores(r, regs, base);
      var loads := AscendingLoads(base, HandlerArm.LoggedWords(stores));
      |loads| == |stores| && forall j :: 0 <= j < |loads| ==> loads[j].address == stores[j].address
  {
  }

  /**
   * The register half of the round trip, for any ascending list of low
   * registers: popping the words stored from sp restores the listed
   * registers, puts the stored lr (bit 0 cleared) in pc and raises sp.
   */
  lemma PopReadsBack(r: Registers, r': Registers, list: seq<U32>, pc: bool, sp: U32)
    requires Sane(r) && Sane(r') && |list| <= 8 && forall j :: 0 <= j < |list| ==> list[j] < 8
    requires forall j, k :: 0 <= j < k < |list| ==> list[j] < list[k]
    ensures var words := HandlerArm.LoggedWords(AscendingStores(r, Stacked(list, pc, 14), sp));
      var r'' := PoppedList(r', list, pc, words);
      && ReadReg(r'', 13) == HandlerArm.Moved(ReadReg(r', 13), |words|, true)
      && (forall k :: k in list ==> ReadReg(r'', k) == ReadReg(r, k))
      && (pc ==> ReadReg(r'', 15) == ClearBit0(ReadReg(r, 14)))
  {
    var words := HandlerArm.LoggedWords(AscendingStores(r, Stacked(list, pc, 14), sp));
    assert words[..|list|] == HandlerArm.LoggedWords(AscendingStores(r, list, sp));
    AscendingReadBack(r, r', list, sp);
    var loaded := HandlerArm.LoadedBlock(r', list, true, words[..|list|]);
    var withPc := if pc then Put(loaded, 15, ClearBit0(words[|list|])) else loaded;
    var top := HandlerArm.Moved(ReadReg(r', 13), |words|, true);
    forall k | k in list
      ensures ReadReg(PoppedList(r', list, pc, words), k) == ReadReg(r, k)
    {
      PutOther(withPc, 13, top, k);
      if pc {
        PutOther(loaded, 15, ClearBit0(words[|list|]), k);
      }
    }
    if pc {
      PutOther(withPc, 13, top, 15);
    }
  }

  /** The address Rb holds after LDMIA or STMIA: base + 4n, or base + 0x40 for an empty list. */
  function BlockEnd(base: U32, n: nat): (b: U32)
    ensures n > 0 ==> b == HandlerArm.Moved(base, n, true)
    ensures b == Wrap(base + 4 * (if n == 0 then 0x10 else n))
  {
    if n == 0 then Wrap(base as int + 0x40) else HandlerArm.Moved(base, n, true)
  }

  /** The number of words LDMIA reads: one per listed register, or pc alone for an empty list. */
  function LdmiaCount(instruction: U16): (n: nat)
    ensures 1 <= n <= 8
  {
    if LowList(instruction) == [] then 1 else |LowList(instruction)|
  }

  /**
   * The register file after LDMIA Rb!, {Rlist} given the words read: the
   * listed registers take them in order (an empty list loads pc, bit 0 kept),
   * and Rb is written back last, so a listed Rb ends up holding the new base.
   */
  function Ldmia(r: Registers, instruction: U16, values: seq<U32>): (r': Registers)
    requires Sane(r) && |values| == LdmiaCount(instruction)
    ensures Sane(r')
  {
    LoadedBlockOf(r, LowList(instruction), LowReg(instruction, 8), values)
  }

  /** Ldmia for a list of low registers and a base register Rb. */
  function LoadedBlockOf(r: Registers, list: seq<U32>, rb: U32, values: seq<U32>): (r': Registers)
    requires Sane(r) && rb < 8 && forall j :: 0 <= j < |list| ==> list[j] < 16
    requires |values| == if list == [] then 1 else |list|
    ensures Sane(r')
  {
    var loaded := if list == [] then Put(r, 15, values[0]) else HandlerArm.LoadedBlock(r, list, true, values);
    Put(loaded, rb, BlockEnd(ReadReg(r, rb), |list|))
  }

  /** The register file after STMIA Rb!, {Rlist}: only Rb changes. */
  function Stmia(r: Registers, instruction: U16): (r': Registers)
    requires Sane(r)
    ensures Sane(r')
  {
    var rb := LowReg(instruction, 8);
    Put(r, rb, BlockEnd(ReadReg(r, rb), |LowList(instruction)|))
  }

  /**
   * The stores of STMIA: the listed registers as they were before the
   * instruction, in order from the base up; an empty list stores r15 + 4.
   */
  function StmiaStores(r: Registers, instruction: U16): (log: seq<Access>)
    requires Sane(r)
    ensures |log| == LdmiaCount(instruction)
  {
    StoredBlock(r, LowList(instruction), ReadReg(r, LowReg(instruction, 8)))
  }

  /** The stores of STMIA for a list of low registers and a base. */
  function StoredBlock(r: Registers, list: seq<U32>, base: U32): (log: seq<Access>)
    requires Sane(r) && forall j :: 0 <= j < |list| ==> list[j] < 16
    ensures |log| == if list == [] then 1 else |list|
  {
    if list == [] then [Store(4, base, Wrap(ReadReg(r, 15) as int + 4))] else AscendingStores(r, list, base)
  }

  /**
   * MultipleLoadStore (LDMIA, STMIA Rb!, {Rlist}). LDMIA reads words from Rb
   * up into the listed registers (pc alone for an empty list, which flushes
   * the pipeline) and ticks nS + 1N + 1I; STMIA stores the listed registers
   * (r15 + 4 for an empty list). Both write Rb back last; an empty list
   * neither ticks nor moves Rb by less than 0x40.
   */
  method MultipleLoadStore(cpu: Arm7Tdmi, instruction: U16)
    requires cpu.Valid()
    modifies cpu`regs, cpu`pipelineFull, cpu`cycles, cpu`exitCode, cpu`accesses, cpu`lastReadBios, cpu.mem.Repr
    ensures cpu.Valid()
    ensures !HandlerArm.BitSet(instruction, 11) ==>
      && cpu.regs == Stmia(old(cpu.regs), instruction)
      && cpu.accesses == old(cpu.accesses) + StmiaStores(old(cpu.regs), instruction)
      && cpu.pipelineFull == old(cpu.pipelineFull) && cpu.exitCode == old(cpu.exitCode)
    ensures var stores, list := StmiaStores(old(cpu.regs), instruction), LowList(instruction);
      !HandlerArm.BitSet(instruction, 11) && WordsInRam(stores) ==>
        && cpu.mem.memory[..] == ApplyStores(old(cpu.mem.memory[..]), stores)
        && cpu.cycles == if list == [] then old(cpu.cycles) else Wrap(old(cpu.cycles) + HandlerArm.Cost(cpu, 2, |list|, 0))
    ensures HandlerArm.BitSet(instruction, 11) ==>
      var base, empty := ReadReg(old(cpu.regs), LowReg(instruction, 8)), LowList(instruction) == [];
      && |old(cpu.accesses)| <= |cpu.accesses|
      && var values := HandlerArm.LoggedWords(cpu.accesses[|old(cpu.accesses)|..]);
      && |values| == LdmiaCount(instruction)
      && cpu.accesses == old(cpu.accesses) + AscendingLoads(base, values)
      && cpu.regs == Ldmia(old(cpu.regs), instruction, values)
      && cpu.pipelineFull == (old(cpu.pipelineFull) && !empty)
      && cpu.exitCode == (if Thumb(old(cpu.regs)) && UnusedSlot(base, |values|) then Some(0) else old(cpu.exitCode))
      && cpu.cycles == if empty then old(cpu.cycles) else Wrap(old(cpu.cycles) + HandlerArm.Cost(cpu, 1, |values|, 1))
  {
    if HandlerArm.BitSet(instruction, 11) {
      LdmiaOf(cpu, instruction);
    } else {
      StmiaOf(cpu, instruction);
    }
  }

  /** LDMIA, stated on the instruction. */
  method LdmiaOf(cpu: Arm7Tdmi, instruction: U16)
    requires cpu.Valid()
    modifies cpu`regs, cpu`pipelineFull, cpu`cycles, cpu`exitCode, cpu`accesses, cpu`lastReadBios
    ensures cpu.Valid()
    ensures var base, empty := ReadReg(old(cpu.regs), LowReg(instruction, 8)), LowList(instruction) == [];
      && |old(cpu.accesses)| <= |cpu.accesses|
      && var values := HandlerArm.LoggedWords(cpu.accesses[|old(cpu.accesses)|..]);
      && |values| == LdmiaCount(instruction)
      && cpu.accesses == old(cpu.accesses) + AscendingLoads(base, values)
      && cpu.regs == Ldmia(old(cpu.regs), instruction, values)
      && cpu.pipelineFull == (old(cpu.pipelineFull) && !empty)
      && cpu.exitCode == (if Thumb(old(cpu.regs)) && UnusedSlot(base, |values|) then Some(0) else old(cpu.exitCode))
      && cpu.cycles == if empty then old(cpu.cycles) else Wrap(old(cpu.cycles) + HandlerArm.Cost(cpu, 1, |values|, 1))
  {
    var rb := LowReg(instruction, 8);
    var base := cpu.GetRegister(rb);
    var list := CollectLow(instruction);
    ghost var log := cpu.accesses;
    var values := LoadBlock(cpu, list, rb, base);
    assert cpu.accesses[|log|..] == AscendingLoads(base, values);
    LoggedAscendingLoads(base, values);
  }

  /** LDMIA's loads and write-back, for any list of low registers; returns the words read. */
  method LoadBlock(cpu: Arm7Tdmi, list: seq<U32>, rb: U32, base: U32) returns (values: seq<U32>)
    requires cpu.Valid() && rb < 8 && ReadReg(cpu.regs, rb) == base
    requires |list| <= 8 && forall j :: 0 <= j < |list| ==> list[j] < 8
    modifies cpu`regs, cpu`pipelineFull, cpu`cycles, cpu`exitCode, cpu`accesses, cpu`lastReadBios
    ensures cpu.Valid() && |values| == if list == [] then 1 else |list|
    ensures cpu.accesses == old(cpu.accesses) + AscendingLoads(base, values)
    ensures cpu.regs == LoadedBlockOf(old(cpu.regs), list, rb, values)
    ensures cpu.pipelineFull == (old(cpu.pipelineFull) && list != [])
    ensures cpu.exitCode == if Thumb(old(cpu.regs)) && UnusedSlot(base, |values|) then Some(0) else old(cpu.exitCode)
    ensures cpu.cycles == if list == [] then old(cpu.cycles) else Wrap(old(cpu.cycles) + HandlerArm.Cost(cpu, 1, |values|, 1))
  {
    if list == [] {
      values := LoadPcOnly(cpu, rb, base);
    } else {
      values := LoadListed(cpu, list, rb, base);
    }
  }

  /** LDMIA with an empty list: Read32 at Rb into pc, a pipeline flush, then Rb + 0x40; no cycles. */
  method LoadPcOnly(cpu: Arm7Tdmi, rb: U32, base: U32) returns (values: seq<U32>)
    requires cpu.Valid() && rb < 8 && ReadReg(cpu.regs, rb) == base
    modifies cpu`regs, cpu`pipelineFull, cpu`exitCode, cpu`accesses, cpu`lastReadBios
    ensures cpu.Valid() && |values| == 1 && !cpu.pipelineFull
    ensures cpu.accesses == old(cpu.accesses) + AscendingLoads(base, values)
    ensures cpu.regs == Put(Put(old(cpu.regs), 15, values[0]), rb, BlockEnd(base, 0))
    ensures cpu.exitCode == if Thumb(old(cpu.regs)) && UnusedSlot(base, 1) then Some(0) else old(cpu.exitCode)
  {
    var value := LoadPc(cpu, base);
    cpu.SetRegister(rb, Wrap(base as int + 0x40));
    values := [value];
    FirstSlot(base, value);
  }

  /** Read32 at base into pc, bit 0 kept, and a pipeline flush. */
  method LoadPc(cpu: Arm7Tdmi, base: U32) returns (value: U32)
    requires cpu.Valid()
    modifies cpu`regs, cpu`pipelineFull, cpu`exitCode, cpu`accesses, cpu`lastReadBios
    ensures cpu.Valid() && !cpu.pipelineFull && cpu.regs == Put(old(cpu.regs), 15, value)
    ensures cpu.accesses == old(cpu.accesses) + [Load(4, base, value)]
    ensures cpu.exitCode == if Thumb(old(cpu.regs)) && base > Bus.BiosEnd && Unused(base) then Some(0) else old(cpu.exitCode)
  {
    value := cpu.Read32(base, false);
    cpu.SetRegister(15, value);
    cpu.pipelineFull := false;
  }

  /** A one-word load from base logs base itself, and stops the emulator exactly when base is unused. */
  lemma FirstSlot(base: U32, value: U32)
    ensures AscendingLoads(base, [value]) == [Load(4, base, value)]
    ensures UnusedSlot(base, 1) == (base > Bus.BiosEnd && Unused(base))
  {
    AscendingLoadsStep(base, [], value);
  }

  /** LDMIA with a non-empty list: the load loop, Rb written back after it, then nS + 1N + 1I. */
  method LoadListed(cpu: Arm7Tdmi, list: seq<U32>, rb: U32, base: U32) returns (values: seq<U32>)
    requires cpu.Valid() && rb < 8 && ReadReg(cpu.regs, rb) == base
    requires 0 < |list| <= 8 && forall j :: 0 <= j < |list| ==> list[j] < 8
    modifies cpu`regs, cpu`cycles, cpu`exitCode, cpu`accesses, cpu`lastReadBios
    ensures cpu.Valid() && |values| == |list|
    ensures cpu.accesses == old(cpu.accesses) + AscendingLoads(base, values)
    ensures cpu.regs == Put(HandlerArm.LoadedBlock(old(cpu.regs), list, true, values), rb, BlockEnd(base, |list|))
    ensures cpu.exitCode == if Thumb(old(cpu.regs)) && UnusedSlot(base, |values|) then Some(0) else old(cpu.exitCode)
    ensures cpu.cycles == Wrap(old(cpu.cycles) + HandlerArm.Cost(cpu, 1, |values|, 1))
  {
    var b;
    values, b := LoadAscending(cpu, list, base);
    cpu.SetRegister(rb, b);
    cpu.Tick(1, |list|, 1);
  }

  /** STMIA, stated on the instruction. */
  method StmiaOf(cpu: Arm7Tdmi, instruction: U16)
    requires cpu.Valid()
    modifies cpu`regs, cpu`cycles, cpu`exitCode, cpu`accesses, cpu.mem.Repr
    ensures cpu.Valid() && cpu.exitCode == old(cpu.exitCode)
    ensures cpu.regs == Stmia(old(cpu.regs), instruction)
    ensures cpu.accesses == old(cpu.accesses) + StmiaStores(old(cpu.regs), instruction)
    ensures var stores, list := StmiaStores(old(cpu.regs), instruction), LowList(instruction);
      WordsInRam(stores) ==>
        && cpu.mem.memory[..] == ApplyStores(old(cpu.mem.memory[..]), stores)
        && cpu.cycles == if list == [] then old(cpu.cycles) else Wrap(old(cpu.cycles) + HandlerArm.Cost(cpu, 2, |list|, 0))
  {
    var rb := LowReg(instruction, 8);
    var base := cpu.GetRegister(rb);
    var list := CollectLow(instruction);
    StoreBlock(cpu, list, rb, base);
  }

  /** STMIA's stores and write-back, for any list of low registers. */
  method StoreBlock(cpu: Arm7Tdmi, list: seq<U32>, rb: U32, base: U32)
    requires cpu.Valid() && rb < 8 && ReadReg(cpu.regs, rb) == base
    requires |list| <= 8 && forall j :: 0 <= j < |list| ==> list[j] < 8
    modifies cpu`regs, cpu`cycles, cpu`exitCode, cpu`accesses, cpu.mem.Repr
    ensures cpu.Valid() && cpu.exitCode == old(cpu.exitCode)
    ensures cpu.regs == Put(old(cpu.regs), rb, BlockEnd(base, |list|))
    ensures cpu.accesses == old(cpu.accesses) + StoredBlock(old(cpu.regs), list, base)
    ensures var stores := StoredBlock(old(cpu.regs), list, base);
      WordsInRam(stores) ==>
        && cpu.mem.memory[..] == ApplyStores(old(cpu.mem.memory[..]), stores)
        && cpu.cycles == if list == [] then old(cpu.cycles) else Wrap(old(cpu.cycles) + HandlerArm.Cost(cpu, 2, |list|, 0))
  {
    if list == [] {
      ghost var m0 := cpu.mem.memory[..];
      StorePcOnly(cpu, rb, base);
      ghost var s := Store(4, base, Wrap(ReadReg(old(cpu.regs), 15) as int + 4));
      if WordInRam(s) {
        ApplyStoresSingle(m0, s);
      }
    } else {
      StoreListed(cpu, list, rb, base);
    }
  }

  /** STMIA with an empty list: r15 + 4 stored at Rb, then Rb + 0x40; no tick. */
  method StorePcOnly(cpu: Arm7Tdmi, rb: U32, base: U32)
    requires cpu.Valid() && rb < 8 && ReadReg(cpu.regs, rb) == base
    modifies cpu`regs, cpu`cycles, cpu`exitCode, cpu`accesses, cpu.mem.Repr
    ensures cpu.Valid() && cpu.exitCode == old(cpu.exitCode)
    ensures cpu.regs == Put(old(cpu.regs), rb, BlockEnd(base, 0))
    ensures cpu.accesses == old(cpu.accesses) + [Store(4, base, Wrap(ReadReg(old(cpu.regs), 15) as int + 4))]
    ensures var s := Store(4, base, Wrap(ReadReg(old(cpu.regs), 15) as int + 4));
      WordInRam(s) ==> cpu.mem.memory[..] == Bus.PutWord(old(cpu.mem.memory[..]), WordCell(base), ToWord(s.value)) && cpu.cycles == old(cpu.cycles)
  {
    var pc := cpu.GetRegister(15);
    HandlerArm.StoreWord(cpu, base, Wrap(pc as int + 4));
    cpu.SetRegister(rb, Wrap(base as int + 0x40));
  }

  /** STMIA with a non-empty list: the store loop, Rb written back after it, then nS + 2N, one S per word stored. */
  method StoreListed(cpu: Arm7Tdmi, list: seq<U32>, rb: U32, base: U32)
    requires cpu.Valid() && rb < 8 && ReadReg(cpu.regs, rb) == base
    requires 0 < |list| <= 8 && forall j :: 0 <= j < |list| ==> list[j] < 8
    modifies cpu`regs, cpu`cycles, cpu`exitCode, cpu`accesses, cpu.mem.Repr
    ensures cpu.Valid() && cpu.exitCode == old(cpu.exitCode)
    ensures cpu.regs == Put(old(cpu.regs), rb, BlockEnd(base, |list|))
    ensures cpu.accesses == old(cpu.accesses) + AscendingStores(old(cpu.regs), list, base)
    ensures var stores := AscendingStores(old(cpu.regs), list, base);
      WordsInRam(stores) ==>
        cpu.mem.memory[..] == ApplyStores(old(cpu.mem.memory[..]), stores) && cpu.cycles == Wrap(old(cpu.cycles) + HandlerArm.Cost(cpu, 2, |list|, 0))
  {
    var b := HandlerArm.StoreMultiple(cpu, list, base, true, false);
    AscendingBlockStores(cpu.regs, list, base, |list|);
    assert list[..|list|] == list;
    ghost var m1, c1 := cpu.mem.memory[..], cpu.cycles;
    cpu.SetRegister(rb, b);
    cpu.Tick(2, |list|, 0);
    assert cpu.mem.memory[..] == m1;
  }

  /**
   * LDMIA after STMIA with the same Rb and list, Rb unchanged in between,
   * reads the stored words from the addresses they were stored to: every
   * listed register other than Rb gets its value back, a listed Rb holds the
   * written-back base, and an empty list puts the stored r15 + 4 in pc.
   */
  lemma StmiaLdmiaRoundTrip(r: Registers, store: U16, r': Registers, load: U16)
    requires Sane(r) && Sane(r') && LowList(store) == LowList(load)
    requires LowReg(store, 8) == LowReg(load, 8) && ReadReg(r', LowReg(load, 8)) == ReadReg(r, LowReg(store, 8))
    ensures var stores := StmiaStores(r, store);
      var words := HandlerArm.LoggedWords(stores);
      var r'', rb := Ldmia(r', load, words), LowReg(load, 8);
      && (forall j :: 0 <= j < |words| ==> AscendingLoads(ReadReg(r', rb), words)[j].address == stores[j].address)
      && ReadReg(r'', rb) == ReadReg(Stmia(r, store), rb)
      && (forall k :: k in LowList(load) && k != rb ==> ReadReg(r'', k) == ReadReg(r, k))
      && (LowList(load) == [] ==> ReadReg(r'', 15) == Wrap(ReadReg(r, 15) as int + 4))
  {
    if LowList(load) == [] {
      StmiaLdmiaEmpty(r, store, r', load);
    } else {
      StmiaLdmiaListed(r, store, r', load);
    }
  }

  /** StmiaLdmiaRoundTrip for an empty list: pc alone goes out and comes back. */
  lemma StmiaLdmiaEmpty(r: Registers, store: U16, r': Registers, load: U16)
    requires Sane(r) && Sane(r') && LowList(store) == LowList(load)
    requires LowReg(store, 8) == LowReg(load, 8) && ReadReg(r', LowReg(load, 8)) == ReadReg(r, LowReg(store, 8))
    requires LowList(load) == []
    ensures var stores := StmiaStores(r, store);
      var words := HandlerArm.LoggedWords(stores);
      var r'', rb := Ldmia(r', load, words), LowReg(load, 8);
      && (forall j :: 0 <= j < |words| ==> AscendingLoads(ReadReg(r', rb), words)[j].address == stores[j].address)
      && ReadReg(r'', rb) == ReadReg(Stmia(r, store), rb)
      && ReadReg(r'', 15) == Wrap(ReadReg(r, 15) as int + 4)
  {
    var rb, base := LowReg(load, 8), ReadReg(r, LowReg(store, 8));
    var words := HandlerArm.LoggedWords(StmiaStores(r, store));
    var top := BlockEnd(base, 0);
    PutOther(r', 15, words[0], rb);
    PutOther(Put(r', 15, words[0]), rb, top, 15);
  }

  /** StmiaLdmiaRoundTrip for a non-empty list. */
  lemma StmiaLdmiaListed(r: Registers, store: U16, r': Registers, load: U16)
    requires Sane(r) && Sane(r') && LowList(store) == LowList(load)
    requires LowReg(store, 8) == LowReg(load, 8) && ReadReg(r', LowReg(load, 8)) == ReadReg(r, LowReg(store, 8))
    requires LowList(load) != []
    ensures var stores := StmiaStores(r, store);
      var words := HandlerArm.LoggedWords(stores);
      var r'', rb := Ldmia(r', load, words), LowReg(load, 8);
      && (forall j :: 0 <= j < |words| ==> AscendingLoads(ReadReg(r', rb), words)[j].address == stores[j].address)
      && ReadReg(r'', rb) == ReadReg(Stmia(r, store), rb)
      && (forall k :: k in LowList(load) && k != rb ==> ReadReg(r'', k) == ReadReg(r, k))
  {
    var list, rb, base := LowList(load), LowReg(load, 8), ReadReg(r, LowReg(store, 8));
    var words := HandlerArm.LoggedWords(StmiaStores(r, store));
    var top := BlockEnd(base, |list|);
    HandlerArm.ListedBelowAscending(load, 8);
    AscendingReadBack(r, r', list, base);
    var loaded := HandlerArm.LoadedBlock(r', list, true, words);
    forall k | k in list && k != rb
      ensures ReadReg(Ldmia(r', load, words), k) == ReadReg(r, k)
    {
      PutOther(loaded, rb, top, k);
    }
  }

  // ---------------------------------------------------------------------
  // Branches
  // ---------------------------------------------------------------------

  /** An 8-bit field read as a two's complement number. */
  function Signed8(x: int): (v: int)
    requires 0 <= x < 0x100
    ensures -0x80 <= v < 0x80 && (v - x) % 0x100 == 0
  {
    if x >= 0x80 then x - 0x100 else x
  }

  /** An 11-bit field read as a two's complement number. */
  function Signed11(x: int): (v: int)
    requires 0 <= x < 0x800
    ensures -0x400 <= v < 0x400 && (v - x) % 0x800 == 0
  {
    if x >= 0x400 then x - 0x800 else x
  }

  /**
   * ConditionalBranch's target as written: the offset is doubled in 16 bits,
   * and when bit 8 of the doubled offset is set, its two's complement is
   * taken in 8 bits (`u8 twos_comp = ~soffset8; twos_comp += 1`) and
   * subtracted from pc.
   */
  function CondTargetAsWritten(pc: U32, soffset8: int): U32
    requires 0 <= soffset8 < 0x100
  {
    var shifted := 2 * soffset8;
    if shifted / 0x100 != 0 then
      var twos := (0xFF - shifted % 0x100 + 1) % 0x100;
      Wrap(pc as int - twos)
    else Wrap(pc as int + shifted)
  }

  /**
   * ConditionalBranch's target with the two's complement taken in the 9 bits
   * the doubled offset occupies: pc plus the sign-extended offset times two.
   */
  function CondTarget(pc: U32, soffset8: int): (target: U32)
    requires 0 <= soffset8 < 0x100
    ensures target == Wrap(pc + 2 * Signed8(soffset8))
    ensures target % 2 == pc % 2
  {
    var shifted := 2 * soffset8;
    var target := if shifted / 0x100 != 0 then Wrap(pc as int - (0x200 - shifted)) else Wrap(pc as int + shifted);
    WrapAligned(pc + 2 * Signed8(soffset8), 2);
    ModAddMultiple(pc, Signed8(soffset8), 2);
    target
  }

  /**
   * The 8-bit two's complement loses the offset 0x80 (-256 bytes): its doubled
   * value 0x100 has a zero low byte, so the branch goes to pc itself. Every
   * other offset reaches the target the encoding means.
   */
  lemma CondTargetDiscrepancy(pc: U32, soffset8: int)
    requires 0 <= soffset8 < 0x100
    ensures soffset8 != 0x80 ==> CondTargetAsWritten(pc, soffset8) == CondTarget(pc, soffset8)
    ensures CondTargetAsWritten(pc, 0x80) == pc && CondTarget(pc, 0x80) == Wrap(pc as int - 0x100)
  {
    var shifted := 2 * soffset8;
    if soffset8 < 0x80 {
      assert shifted / 0x100 == 0;
    } else if soffset8 > 0x80 {
      assert shifted / 0x100 == 1 && shifted % 0x100 == shifted - 0x100;
      assert (0xFF - shifted % 0x100 + 1) % 0x100 == 0x200 - shifted;
    }
    assert (0xFF - 0x100 % 0x100 + 1) % 0x100 == 0;
  }

  /** The register file after ConditionalBranch: pc takes the target when the condition of bits 11-8 holds. */
  function CondBranched(r: Registers, instruction: U16): (r': Registers)
    requires Sane(r)
    ensures Sane(r')
  {
    if ConditionMet(r.cpsr, Field(instruction, 11, 8)) then Put(r, 15, CondTarget(ReadReg(r, 15), Field(instruction, 7, 0))) else r
  }

  /** ConditionalBranch (B<cond> label): 1S when the condition fails; otherwise 2S + 1N and a pipeline flush. */
  method ConditionalBranch(cpu: Arm7Tdmi, instruction: U16)
    requires cpu.Valid()
    modifies cpu`regs, cpu`pipelineFull, cpu`cycles, cpu`exitCode
    ensures cpu.Valid() && cpu.regs == CondBranched(old(cpu.regs), instruction) && cpu.exitCode == old(cpu.exitCode)
    ensures var taken := ConditionMet(old(cpu.regs).cpsr, Field(instruction, 11, 8));
      && cpu.pipelineFull == (old(cpu.pipelineFull) && !taken)
      && cpu.cycles == Wrap(old(cpu.cycles) + if taken then HandlerArm.Cost(cpu, 1, 2, 0) else HandlerArm.Cost(cpu, 0, 1, 0))
  {
    var taken := ConditionMet(cpu.regs.cpsr, Field(instruction, 11, 8));
    BranchRegisters(cpu, taken, CondTarget(cpu.GetRegister(15), Field(instruction, 7, 0)));
    RefillOrStep(cpu, taken);
  }

  /** pc takes target when taken; nothing changes otherwise. */
  method BranchRegisters(cpu: Arm7Tdmi, taken: bool, target: U32)
    requires Sane(cpu.regs)
    modifies cpu`regs, cpu`exitCode
    ensures Sane(cpu.regs) && cpu.regs == (if taken then Put(old(cpu.regs), 15, target) else old(cpu.regs))
    ensures cpu.exitCode == old(cpu.exitCode)
  {
    if taken {
      cpu.SetRegister(15, target);
    }
  }

  /**
   * A conditional branch whose condition fails leaves every register as it
   * was; one whose condition holds moves pc by twice the sign-extended
   * offset, -256 .. +254 bytes, and keeps the flags and r0-r14.
   */
  lemma CondBranchMeaning(r: Registers, instruction: U16)
    requires Sane(r)
    ensures var r', pc := CondBranched(r, instruction), ReadReg(r, 15);
      && (!ConditionMet(r.cpsr, Field(instruction, 11, 8)) ==> r' == r)
      && (ConditionMet(r.cpsr, Field(instruction, 11, 8)) ==> ReadReg(r', 15) == Wrap(pc + 2 * Signed8(Field(instruction, 7, 0))))
      && r'.cpsr == r.cpsr && forall k: U32 :: k < 15 ==> ReadReg(r', k) == ReadReg(r, k)
  {
    var target := CondTarget(ReadReg(r, 15), Field(instruction, 7, 0));
    forall k: U32 | k < 15
      ensures ReadReg(CondBranched(r, instruction), k) == ReadReg(r, k)
    {
      PutOther(r, 15, target, k);
    }
  }

  /**
   * UnconditionalBranch's target as written: the offset is doubled, and when
   * bit 11 of the doubled offset is set, its two's complement is taken in
   * the low 11 bits of a halfword and subtracted from pc.
   */
  function UncondTarget(pc: U32, offset11: int): (target: U32)
    requires 0 <= offset11 < 0x800
    ensures target == Wrap(pc + 2 * Signed11(offset11))
  {
    var shifted := 2 * offset11;
    if shifted / 0x800 != 0 then
      var twos := (0xFFFF - shifted) % 0x800 + 1;
      Wrap(pc as int - twos)
    else Wrap(pc as int + shifted)
  }

  /** UnconditionalBranch (B label): pc takes the target; 2S + 1N and a pipeline flush. */
  method UnconditionalBranch(cpu: Arm7Tdmi, instruction: U16)
    requires cpu.Valid()
    modifies cpu`regs, cpu`pipelineFull, cpu`cycles, cpu`exitCode
    ensures cpu.Valid() && cpu.regs == Put(old(cpu.regs), 15, UncondTarget(ReadReg(old(cpu.regs), 15), Field(instruction, 10, 0)))
    ensures cpu.exitCode == old(cpu.exitCode) && !cpu.pipelineFull
    ensures cpu.cycles == Wrap(old(cpu.cycles) + HandlerArm.Cost(cpu, 1, 2, 0))
  {
    BranchRegisters(cpu, true, UncondTarget(cpu.GetRegister(15), Field(instruction, 10, 0)));
    cpu.pipelineFull := false;
    cpu.Tick(1, 2, 0);
  }

  /**
   * LongBranchLink's first half as written: the offset shifted up by 12, and
   * when bit 22 of that is set, its two's complement in 22 bits subtracted
   * from pc.
   */
  function LongBranchHigh(pc: U32, offset: int): (lr: U32)
    requires 0 <= offset < 0x800
    ensures lr == Wrap(pc + 0x1000 * Signed11(offset))
  {
    var shifted := offset * 0x1000;
    if shifted / 0x40_0000 != 0 then
      var twos := (0xFFFF_FFFF - shifted) % 0x40_0000 + 1;
      Wrap(pc as int - twos)
    else Wrap(pc as int + shifted)
  }

  /**
   * The register file after LongBranchLink: with H (bit 11) clear, lr takes
   * pc plus the high part of the offset; with H set, pc takes lr plus the low
   * part doubled and lr the address of the next instruction with bit 0 set.
   */
  function LongBranched(r: Registers, instruction: U16): (r': Registers)
    requires Sane(r)
    ensures Sane(r') && r'.cpsr == r.cpsr
  {
    var offset, pc, lr := Field(instruction, 10, 0), ReadReg(r, 15), ReadReg(r, 14);
    if HandlerArm.BitSet(instruction, 11) then Put(Put(r, 15, Wrap(lr + 2 * offset)), 14, SetBit0(Wrap(pc as int - 2)))
    else Put(r, 14, LongBranchHigh(pc, offset))
  }

  /** LongBranchLink (BL label, two halves): the second half branches, flushes the pipeline and ticks 3S + 1N; the first ticks nothing. */
  method LongBranchLink(cpu: Arm7Tdmi, instruction: U16)
    requires cpu.Valid()
    modifies cpu`regs, cpu`pipelineFull, cpu`cycles, cpu`exitCode
    ensures cpu.Valid() && cpu.regs == LongBranched(old(cpu.regs), instruction) && cpu.exitCode == old(cpu.exitCode)
    ensures HandlerArm.BitSet(instruction, 11) ==> !cpu.pipelineFull && cpu.cycles == Wrap(old(cpu.cycles) + HandlerArm.Cost(cpu, 1, 3, 0))
    ensures !HandlerArm.BitSet(instruction, 11) ==> cpu.pipelineFull == old(cpu.pipelineFull) && cpu.cycles == old(cpu.cycles)
  {
    LongBranchRegisters(cpu, instruction);
    if HandlerArm.BitSet(instruction, 11) {
      cpu.pipelineFull := false;
      cpu.Tick(1, 3, 0);
    }
  }

  /** The register writes of LongBranchLink. */
  method LongBranchRegisters(cpu: Arm7Tdmi, instruction: U16)
    requires Sane(cpu.regs)
    modifies cpu`regs, cpu`exitCode
    ensures Sane(cpu.regs) && cpu.regs == LongBranched(old(cpu.regs), instruction) && cpu.exitCode == old(cpu.exitCode)
  {
    var offset := Field(instruction, 10, 0);
    if HandlerArm.BitSet(instruction, 11) {
      var base := Wrap(cpu.GetRegister(14) as int + 2 * offset);
      var next := SetBit0(Wrap(cpu.GetRegister(15) as int - 2));
      cpu.SetRegister(15, base);
      cpu.SetRegister(14, next);
    } else {
      cpu.SetRegister(14, LongBranchHigh(cpu.GetRegister(15), offset));
    }
  }

  /**
   * The two halves of BL together: whatever the fetch does to pc between
   * them, the second half lands on the first half's pc plus the 22-bit
   * offset (high half sign-extended) doubled, with lr the address after the
   * second half and bit 0 set for the return to THUMB code.
   */
  lemma LongBranchPair(r: Registers, first: U16, second: U16, next: U32)
    requires Sane(r) && !HandlerArm.BitSet(first, 11) && HandlerArm.BitSet(second, 11)
    ensures var r1 := LongBranched(r, first);
      var r2 := LongBranched(Put(r1, 15, next), second);
      && ReadReg(r2, 15) == Wrap(ReadReg(r, 15) + 0x1000 * Signed11(Field(first, 10, 0)) + 2 * Field(second, 10, 0))
      && ReadReg(r2, 14) == SetBit0(Wrap(next as int - 2)) && ReadReg(r2, 14) % 2 == 1
      && r2.cpsr == r.cpsr
  {
    var r1 := LongBranched(r, first);
    var hi := LongBranchHigh(ReadReg(r, 15), Field(first, 10, 0));
    PutOther(r1, 15, next, 14);
    WrapShift(ReadReg(r, 15) + 0x1000 * Signed11(Field(first, 10, 0)), 2 * Field(second, 10, 0));
    var r2 := Put(Put(r1, 15, next), 15, Wrap(hi + 2 * Field(second, 10, 0)));
    PutOther(r2, 14, SetBit0(Wrap(next as int - 2)), 15);
  }

  // ---------------------------------------------------------------------
  // Software interrupt
  // ---------------------------------------------------------------------

  /** The register file after SoftwareInterruptThumb: SVC entry with lr = pc - 2, ARM state, pc at the SWI vector. */
  function ThumbSwiEntered(r: Registers): (r': Registers)
    requires Sane(r)
    ensures Sane(r')
  {
    Put(ArmState(HandlerArm.SupervisorEntry(r, Wrap(ReadReg(r, 15) as int - 2))), 15, 0x08)
  }

  /** SoftwareInterruptThumb (SWI): the BIOS handles the call from the vector at 0x08; 2S + 1N and a pipeline flush. */
  method SoftwareInterruptThumb(cpu: Arm7Tdmi, instruction: U16)
    requires cpu.Valid()
    modifies cpu`regs, cpu`pipelineFull, cpu`cycles, cpu`exitCode
    ensures cpu.Valid() && cpu.regs == ThumbSwiEntered(old(cpu.regs)) && cpu.exitCode == old(cpu.exitCode)
    ensures !cpu.pipelineFull && cpu.cycles == Wrap(old(cpu.cycles) + HandlerArm.Cost(cpu, 1, 2, 0))
  {
    ThumbSwiRegisters(cpu);
    cpu.pipelineFull := false;
    cpu.Tick(1, 2, 0);
  }

  /** The register writes of SoftwareInterruptThumb. */
  method ThumbSwiRegisters(cpu: Arm7Tdmi)
    requires Sane(cpu.regs)
    modifies cpu`regs, cpu`exitCode
    ensures Sane(cpu.regs) && cpu.regs == ThumbSwiEntered(old(cpu.regs)) && cpu.exitCode == old(cpu.exitCode)
  {
    HandlerArm.EnterSupervisor(cpu, Wrap(cpu.GetRegister(15) as int - 2));
    cpu.SetState(false);
    cpu.SetRegister(15, 0x08);
  }

  /**
   * THUMB SWI in full: SVC mode with IRQs disabled and ARM state, r14_svc the
   * address of the instruction after the SWI, SPSR_svc the old CPSR (THUMB
   * bit included, so the BIOS returns to THUMB code), pc the vector 0x08; the
   * flags and r0-r7 are untouched.
   */
  lemma ThumbSwiMeaning(r: Registers)
    requires Sane(r)
    ensures var r' := ThumbSwiEntered(r);
      && CurrentMode(r') == SVC && r'.cpsr.i == 1 && !Thumb(r') && ReadReg(r', 15) == 8
      && ReadReg(r', 14) == Wrap(ReadReg(r, 15) as int - 2) && ReadReg(r', SpsrReg) == Raw(r.cpsr)
      && (forall g :: GetFlag(r'.cpsr, g) == GetFlag(r.cpsr, g))
      && (forall k: U32 :: k < 8 ==> ReadReg(r', k) == ReadReg(r, k))
  {
    var r1 := HandlerArm.SupervisorEntry(r, Wrap(ReadReg(r, 15) as int - 2));
    var r2 := ArmState(r1);
    PutOther(r2, 15, 8, 14);
    forall k: U32 | k < 8
      ensures ReadReg(Put(r2, 15, 8), k) == ReadReg(r, k)
    {
      PutOther(r2, 15, 8, k);
    }
  }
}