/**
 * The instruction set of the main CPU as the dispatch table of
 * `excecute_instruction_` (src/cpu.rs) sees it: one constructor per handler
 * family, carrying the arguments the table passes (ALU operation,
 * addressing mode, register, branch condition), and `Decode`, the 256-entry
 * table from opcode to handler call.
 */
module CpuInstr {
  import opened Wrappers
  import opened CpuTypes
  import opened CpuAlu
  import opened CpuCore

  /** The operand of `alu`, `bit`, `cmp_xy` and the loads: the byte(s) after the opcode, or memory at an effective address. */
  datatype Operand = Imm | Mem(mode: MemMode)

  /** The registers that the loads and the increments name. */
  datatype Register = A | X | Y

  /** The index register `cmp_xy` compares (the source's `Register::X` and `Register::Y`). */
  datatype IndexRegister = IndexX | IndexY

  /** What `sta`, `stx`, `sty` and `stz` store. */
  datatype StoreSource = StoreA | StoreX | StoreY | StoreZero

  /** The register each push handler (`pha` ... `phd`) pushes. */
  datatype PushSource = PushA | PushX | PushY | PushP | PushDB | PushPB | PushD

  /** The register each pull handler (`pla` ... `plp`) loads. */
  datatype PullTarget = PullA | PullX | PullY | PullD | PullDB | PullP

  /** The register transfers `tay` ... `tcs`. */
  datatype TransferOp = Tay | Tax | Tsx | Tya | Txa | Txs | Txy | Tyx | Tdc | Tcd | Tsc | Tcs

  /** The single-flag instructions `clc` ... `sed`. */
  datatype FlagOp = Clc | Cli | Cld | Clv | Sec | Sei | Sed

  /** One constructor per handler family of the dispatch table. */
  datatype Instr =
    | Break                                   // brk
    | Coprocessor                             // cop
    | Alu(op: AluType, src: Operand)          // alu
    | CmpIndex(index: IndexRegister, src: Operand) // cmp_xy
    | BitTest(src: Operand)                   // bit
    | Tsb(mode: MemMode)                      // tsb
    | Trb(mode: MemMode)                      // trb
    | ShiftA(shift: ShiftOp)                  // asl_a, lsr_a, rol_a, ror_a
    | ShiftMem(shift: ShiftOp, mode: MemMode) // asl/lsr/rol/ror_with_addressing
    | IncMem(mode: MemMode)                   // inc
    | DecMem(mode: MemMode)                   // dec
    | IncReg(reg: Register)                   // ina, inx, iny
    | DecReg(reg: Register)                   // dea, dex, dey
    | Transfer(t: TransferOp)                 // tay ... tcs
    | Load(reg: Register, src: Operand)       // lda, ldx, ldy and their _imm forms
    | Store(stored: StoreSource, mode: MemMode) // sta, stx, sty, stz
    | Push(pushed: PushSource)                // pha ... phd
    | Pei | Pea | Per
    | Pull(pulled: PullTarget)                // pla ... plp
    | BranchAlways                            // jmp_disp_8 (BRA)
    | BranchLong                              // jmp_disp_16 (BRL)
    | Jmp                                     // jmp_abs
    | Jml                                     // jmp_abs_long
    | JmpIndirect                             // jmp_nnnn
    | JmpIndexedIndirect                      // jmp_nnnn_x
    | JmlIndirect                             // jmp_far
    | Jsr                                     // jsr_abs
    | Jsl                                     // jsl_far
    | JsrIndexedIndirect                      // jsr_aix
    | Rti | Rtl | Rts
    | Branch(cond: BranchType)                // cond_branch
    | Flag(f: FlagOp)                         // clc ... sed
    | ResetFlags                              // rep
    | SetFlags                                // sep
    | ExchangeCE                              // xce
    | Stop                                    // stp
    | ExchangeBA                              // xba
    | WaitForInterrupt                        // wai
    | Reserved                                // wdm
    | Nop                                     // nop
    | MovePrevious                            // mvp
    | MoveNext                                // mvn

  /**
   * The opcode of each handler that takes no argument from the table and
   * sits in exactly one of its entries; `None` for the other handlers.
   */
  function SoleOpcode(i: Instr): Option<u8>
  {
    match i
    case Break => Some(0x00)
    case Coprocessor => Some(0x02)
    case Jsr => Some(0x20)
    case Jsl => Some(0x22)
    case Rti => Some(0x40)
    case Reserved => Some(0x42)
    case MovePrevious => Some(0x44)
    case Jmp => Some(0x4C)
    case MoveNext => Some(0x54)
    case Jml => Some(0x5C)
    case Rts => Some(0x60)
    case Per => Some(0x62)
    case Rtl => Some(0x6B)
    case JmpIndirect => Some(0x6C)
    case JmpIndexedIndirect => Some(0x7C)
    case BranchAlways => Some(0x80)
    case BranchLong => Some(0x82)
    case ResetFlags => Some(0xC2)
    case WaitForInterrupt => Some(0xCB)
    case Pei => Some(0xD4)
    case Stop => Some(0xDB)
    case JmlIndirect => Some(0xDC)
    case SetFlags => Some(0xE2)
    case Nop => Some(0xEA)
    case ExchangeBA => Some(0xEB)
    case Pea => Some(0xF4)
    case ExchangeCE => Some(0xFB)
    case JsrIndexedIndirect => Some(0xFC)
    case _ => None
  }

  /** The opcode table of `excecute_instruction_`, by high nibble (row) and low nibble (column); the last case of each is 0xF. */
  function Decode(opcode: u8): Instr
  {
    match opcode / 0x10
    case 0x0 => (match opcode % 0x10
      case 0x0 => Break
      case 0x1 => Alu(Or, Mem(DirectIndexedIndirect))
      case 0x2 => Coprocessor
      case 0x3 => Alu(Or, Mem(StackRelative))
      case 0x4 => Tsb(Direct)
      case 0x5 => Alu(Or, Mem(Direct))
      case 0x6 => ShiftMem(Asl, Direct)
      case 0x7 => Alu(Or, Mem(DirectIndirectLong))
      case 0x8 => Push(PushP)
      case 0x9 => Alu(Or, Imm)
      case 0xA => ShiftA(Asl)
      case 0xB => Push(PushD)
      case 0xC => Tsb(Absolute)
      case 0xD => Alu(Or, Mem(Absolute))
      case 0xE => ShiftMem(Asl, Absolute)
      case _ => Alu(Or, Mem(AbsoluteLong))
      )
    case 0x1 => (match opcode % 0x10
      case 0x0 => Branch(Bpl)
      case 0x1 => Alu(Or, Mem(DirectIndirectIndexedY))
      case 0x2 => Alu(Or, Mem(DirectIndirect))
      case 0x3 => Alu(Or, Mem(StackRelativeIndirectIndexed))
      case 0x4 => Trb(Direct)
      case 0x5 => Alu(Or, Mem(DirectX))
      case 0x6 => ShiftMem(Asl, DirectX)
      case 0x7 => Alu(Or, Mem(DirectIndirectIndexedLongY))
      case 0x8 => Flag(Clc)
      case 0x9 => Alu(Or, Mem(AbsoluteY))
      case 0xA => IncReg(A)
      case 0xB => Transfer(Tcs)
      case 0xC => Trb(Absolute)
      case 0xD => Alu(Or, Mem(AbsoluteX))
      case 0xE => ShiftMem(Asl, AbsoluteX)
      case _ => Alu(Or, Mem(AbsoluteLongX))
      )
    case 0x2 => (match opcode % 0x10
      case 0x0 => Jsr
      case 0x1 => Alu(And, Mem(DirectIndexedIndirect))
      case 0x2 => Jsl
      case 0x3 => Alu(And, Mem(StackRelative))
      case 0x4 => BitTest(Mem(Direct))
      case 0x5 => Alu(And, Mem(Direct))
      case 0x6 => ShiftMem(Rol, Direct)
      case 0x7 => Alu(And, Mem(DirectIndirectLong))
      case 0x8 => Pull(PullP)
      case 0x9 => Alu(And, Imm)
      case 0xA => ShiftA(Rol)
      case 0xB => Pull(PullD)
      case 0xC => BitTest(Mem(Absolute))
      case 0xD => Alu(And, Mem(Absolute))
      case 0xE => ShiftMem(Rol, Absolute)
      case _ => Alu(And, Mem(AbsoluteLong))
      )
    case 0x3 => (match opcode % 0x10
      case 0x0 => Branch(Bmi)
      case 0x1 => Alu(And, Mem(DirectIndirectIndexedY))
      case 0x2 => Alu(And, Mem(DirectIndirect))
      case 0x3 => Alu(And, Mem(StackRelativeIndirectIndexed))
      case 0x4 => BitTest(Mem(DirectX))
      case 0x5 => Alu(And, Mem(DirectX))
      case 0x6 => ShiftMem(Rol, DirectX)
      case 0x7 => Alu(And, Mem(DirectIndirectIndexedLongY))
      case 0x8 => Flag(Sec)
      case 0x9 => Alu(And, Mem(AbsoluteY))
      case 0xA => DecReg(A)
      case 0xB => Transfer(Tsc)
      case 0xC => BitTest(Mem(AbsoluteX))
      case 0xD => Alu(And, Mem(AbsoluteX))
      case 0xE => ShiftMem(Rol, AbsoluteX)
      case _ => Alu(And, Mem(AbsoluteLongX))
      )
    case 0x4 => (match opcode % 0x10
      case 0x0 => Rti
      case 0x1 => Alu(Xor, Mem(DirectIndexedIndirect))
      case 0x2 => Reserved
      case 0x3 => Alu(Xor, Mem(StackRelative))
      case 0x4 => MovePrevious
      case 0x5 => Alu(Xor, Mem(Direct))
      case 0x6 => ShiftMem(Lsr, Direct)
      case 0x7 => Alu(Xor, Mem(DirectIndirectLong))
      case 0x8 => Push(PushA)
      case 0x9 => Alu(Xor, Imm)
      case 0xA => ShiftA(Lsr)
      case 0xB => Push(PushPB)
      case 0xC => Jmp
      case 0xD => Alu(Xor, Mem(Absolute))
      case 0xE => ShiftMem(Lsr, Absolute)
      case _ => Alu(Xor, Mem(AbsoluteLong))
      )
    case 0x5 => (match opcode % 0x10
      case 0x0 => Branch(Bvc)
      case 0x1 => Alu(Xor, Mem(DirectIndirectIndexedY))
      case 0x2 => Alu(Xor, Mem(DirectIndirect))
      case 0x3 => Alu(Xor, Mem(StackRelativeIndirectIndexed))
      case 0x4 => MoveNext
      case 0x5 => Alu(Xor, Mem(DirectX))
      case 0x6 => ShiftMem(Lsr, DirectX)
      case 0x7 => Alu(Xor, Mem(DirectIndirectIndexedLongY))
      case 0x8 => Flag(Cli)
      case 0x9 => Alu(Xor, Mem(AbsoluteY))
      case 0xA => Push(PushY)
      case 0xB => Transfer(Tcd)
      case 0xC => Jml
      case 0xD => Alu(Xor, Mem(AbsoluteX))
      case 0xE => ShiftMem(Lsr, AbsoluteX)
      case _ => Alu(Xor, Mem(AbsoluteLongX))
      )
    case 0x6 => (match opcode % 0x10
      case 0x0 => Rts
      case 0x1 => Alu(Add, Mem(DirectIndexedIndirect))
      case 0x2 => Per
      case 0x3 => Alu(Add, Mem(StackRelative))
      case 0x4 => Store(StoreZero, Direct)
      case 0x5 => Alu(Add, Mem(Direct))
      case 0x6 => ShiftMem(Ror, Direct)
      case 0x7 => Alu(Add, Mem(DirectIndirectLong))
      case 0x8 => Pull(PullA)
      case 0x9 => Alu(Add, Imm)
      case 0xA => ShiftA(Ror)
      case 0xB => Rtl
      case 0xC => JmpIndirect
      case 0xD => Alu(Add, Mem(Absolute))
      case 0xE => ShiftMem(Ror, Absolute)
      case _ => Alu(Add, Mem(AbsoluteLong))
      )
    case 0x7 => (match opcode % 0x10
      case 0x0 => Branch(Bvs)
      case 0x1 => Alu(Add, Mem(DirectIndirectIndexedY))
      case 0x2 => Alu(Add, Mem(DirectIndirect))
      case 0x3 => Alu(Add, Mem(StackRelativeIndirectIndexed))
      case 0x4 => Store(StoreZero, DirectX)
      case 0x5 => Alu(Add, Mem(DirectX))
      case 0x6 => ShiftMem(Ror, DirectX)
      case 0x7 => Alu(Add, Mem(DirectIndirectIndexedLongY))
      case 0x8 => Flag(Sei)
      case 0x9 => Alu(Add, Mem(AbsoluteY))
      case 0xA => Pull(PullY)
      case 0xB => Transfer(Tdc)
      case 0xC => JmpIndexedIndirect
      case 0xD => Alu(Add, Mem(AbsoluteX))
      case 0xE => ShiftMem(Ror, AbsoluteX)
      case _ => Alu(Add, Mem(AbsoluteLongX))
      )
    case 0x8 => (match opcode % 0x10
      case 0x0 => BranchAlways
      case 0x1 => Store(StoreA, DirectIndexedIndirect)
      case 0x2 => BranchLong
      case 0x3 => Store(StoreA, StackRelative)
      case 0x4 => Store(StoreY, Direct)
      case 0x5 => Store(StoreA, Direct)
      case 0x6 => Store(StoreX, Direct)
      case 0x7 => Store(StoreA, DirectIndirectLong)
      case 0x8 => DecReg(Y)
      case 0x9 => BitTest(Imm)
      case 0xA => Transfer(Txa)
      case 0xB => Push(PushDB)
      case 0xC => Store(StoreY, Absolute)
      case 0xD => Store(StoreA, Absolute)
      case 0xE => Store(StoreX, Absolute)
      case _ => Store(StoreA, AbsoluteLong)
      )
    case 0x9 => (match opcode % 0x10
      case 0x0 => Branch(Bcc)
      case 0x1 => Store(StoreA, DirectIndirectIndexedY)
      case 0x2 => Store(StoreA, DirectIndirect)
      case 0x3 => Store(StoreA, StackRelativeIndirectIndexed)
      case 0x4 => Store(StoreY, DirectX)
      case 0x5 => Store(StoreA, DirectX)
      case 0x6 => Store(StoreX, DirectY)
      case 0x7 => Store(StoreA, DirectIndirectIndexedLongY)
      case 0x8 => Transfer(Tya)
      case 0x9 => Store(StoreA, AbsoluteY)
      case 0xA => Transfer(Txs)
      case 0xB => Transfer(Txy)
      case 0xC => Store(StoreZero, Absolute)
      case 0xD => Store(StoreA, AbsoluteX)
      case 0xE => Store(StoreZero, AbsoluteX)
      case _ => Store(StoreA, AbsoluteLongX)
      )
    case 0xA => (match opcode % 0x10
      case 0x0 => Load(Y, Imm)
      case 0x1 => Load(A, Mem(DirectIndexedIndirect))
      case 0x2 => Load(X, Imm)
      case 0x3 => Load(A, Mem(StackRelative))
      case 0x4 => Load(Y, Mem(Direct))
      case 0x5 => Load(A, Mem(Direct))
      case 0x6 => Load(X, Mem(Direct))
      case 0x7 => Load(A, Mem(DirectIndirectLong))
      case 0x8 => Transfer(Tay)
      case 0x9 => Load(A, Imm)
      case 0xA => Transfer(Tax)
      case 0xB => Pull(PullDB)
      case 0xC => Load(Y, Mem(Absolute))
      case 0xD => Load(A, Mem(Absolute))
      case 0xE => Load(X, Mem(Absolute))
      case _ => Load(A, Mem(AbsoluteLong))
      )
    case 0xB => (match opcode % 0x10
      case 0x0 => Branch(Bcs)
      case 0x1 => Load(A, Mem(DirectIndirectIndexedY))
      case 0x2 => Load(A, Mem(DirectIndirect))
      case 0x3 => Load(A, Mem(StackRelativeIndirectIndexed))
      case 0x4 => Load(Y, Mem(DirectX))
      case 0x5 => Load(A, Mem(DirectX))
      case 0x6 => Load(X, Mem(DirectY))
      case 0x7 => Load(A, Mem(DirectIndirectIndexedLongY))
      case 0x8 => Flag(Clv)
      case 0x9 => Load(A, Mem(AbsoluteY))
      case 0xA => Transfer(Tsx)
      case 0xB => Transfer(Tyx)
      case 0xC => Load(Y, Mem(AbsoluteX))
      case 0xD => Load(A, Mem(AbsoluteX))
      case 0xE => Load(X, Mem(AbsoluteY))
      case _ => Load(A, Mem(AbsoluteLongX))
      )
    case 0xC => (match opcode % 0x10
      case 0x0 => CmpIndex(IndexY, Imm)
      case 0x1 => Alu(Cmp, Mem(DirectIndexedIndirect))
      case 0x2 => ResetFlags
      case 0x3 => Alu(Cmp, Mem(StackRelative))
      case 0x4 => CmpIndex(IndexY, Mem(Direct))
      case 0x5 => Alu(Cmp, Mem(Direct))
      case 0x6 => DecMem(Direct)
      case 0x7 => Alu(Cmp, Mem(DirectIndirectLong))
      case 0x8 => IncReg(Y)
      case 0x9 => Alu(Cmp, Imm)
      case 0xA => DecReg(X)
      case 0xB => WaitForInterrupt
      case 0xC => CmpIndex(IndexY, Mem(Absolute))
      case 0xD => Alu(Cmp, Mem(Absolute))
      case 0xE => DecMem(Absolute)
      case _ => Alu(Cmp, Mem(AbsoluteLong))
      )
    case 0xD => (match opcode % 0x10
      case 0x0 => Branch(Bne)
      case 0x1 => Alu(Cmp, Mem(DirectIndirectIndexedY))
      case 0x2 => Alu(Cmp, Mem(DirectIndirect))
      case 0x3 => Alu(Cmp, Mem(StackRelativeIndirectIndexed))
      case 0x4 => Pei
      case 0x5 => Alu(Cmp, Mem(DirectX))
      case 0x6 => DecMem(DirectX)
      case 0x7 => Alu(Cmp, Mem(DirectIndirectIndexedLongY))
      case 0x8 => Flag(Cld)
      case 0x9 => Alu(Cmp, Mem(AbsoluteY))
      case 0xA => Push(PushX)
      case 0xB => Stop
      case 0xC => JmlIndirect
      case 0xD => Alu(Cmp, Mem(AbsoluteX))
      case 0xE => DecMem(AbsoluteX)
      case _ => Alu(Cmp, Mem(AbsoluteLongX))
      )
    case 0xE => (match opcode % 0x10
      case 0x0 => CmpIndex(IndexX, Imm)
      case 0x1 => Alu(Sub, Mem(DirectIndexedIndirect))
      case 0x2 => SetFlags
      case 0x3 => Alu(Sub, Mem(StackRelative))
      case 0x4 => CmpIndex(IndexX, Mem(Direct))
      case 0x5 => Alu(Sub, Mem(Direct))
      case 0x6 => IncMem(Direct)
      case 0x7 => Alu(Sub, Mem(DirectIndirectLong))
      case 0x8 => IncReg(X)
      case 0x9 => Alu(Sub, Imm)
      case 0xA => Nop
      case 0xB => ExchangeBA
      case 0xC => CmpIndex(IndexX, Mem(Absolute))
      case 0xD => Alu(Sub, Mem(Absolute))
      case 0xE => IncMem(Absolute)
      case _ => Alu(Sub, Mem(AbsoluteLong))
      )
    case _ => (match opcode % 0x10
      case 0x0 => Branch(Beq)
      case 0x1 => Alu(Sub, Mem(DirectIndirectIndexedY))
      case 0x2 => Alu(Sub, Mem(DirectIndirect))
      case 0x3 => Alu(Sub, Mem(StackRelativeIndirectIndexed))
      case 0x4 => Pea
      case 0x5 => Alu(Sub, Mem(DirectX))
      case 0x6 => IncMem(DirectX)
      case 0x7 => Alu(Sub, Mem(DirectIndirectIndexedLongY))
      case 0x8 => Flag(Sed)
      case 0x9 => Alu(Sub, Mem(AbsoluteY))
      case 0xA => Pull(PullX)
      case 0xB => ExchangeCE
      case 0xC => JsrIndexedIndirect
      case 0xD => Alu(Sub, Mem(AbsoluteX))
      case 0xE => IncMem(AbsoluteX)
      case _ => Alu(Sub, Mem(AbsoluteLongX))
      )
  }

  /** The flag that bits 6-7 of a conditional-branch opcode select: N, V, C, Z. */
  function BranchFlag(p: Status, sel: nat): bool
  {
    if sel == 0 then p.n else if sel == 1 then p.v else if sel == 2 then p.c else p.z
  }

  /** Each of those handlers is what its opcode decodes to, so with `Decode`'s contract it sits at that opcode and nowhere else. */
  lemma SoleOpcodeDecodes(i: Instr)
    ensures SoleOpcode(i).Some? ==> Decode(SoleOpcode(i).value) == i
  {
  }

  /** No other opcode decodes to one of those handlers: the table holds each of them once. */
  lemma DecodeSoleOpcode(op: u8)
    ensures SoleOpcode(Decode(op)).Some? ==> SoleOpcode(Decode(op)).value == op
  {
    var q := op / 0x40;
    if q == 0 {
      SoleOpcodeInRows(op, 0x0);
    } else if q == 1 {
      SoleOpcodeInRows(op, 0x4);
    } else if q == 2 {
      SoleOpcodeInRows(op, 0x8);
    } else {
      SoleOpcodeInRows(op, 0xC);
    }
  }

  /** `DecodeSoleOpcode` for the four rows from `row`. */
  lemma SoleOpcodeInRows(op: u8, row: nat)
    requires row <= op / 0x10 < row + 4
    ensures SoleOpcode(Decode(op)).Some? ==> SoleOpcode(Decode(op)).value == op
  {
  }

  /**
   * The eight opcodes x0 with an odd high nibble are the conditional
   * branches; bits 6-7 pick the flag and the branch is taken when the flag
   * equals bit 5.
   */
  lemma DecodeBranches(op: u8, p: Status)
    requires op % 0x20 == 0x10
    ensures Decode(op).Branch?
    ensures CheckBranchCondition(Decode(op).cond, p) <==> BranchFlag(p, op / 0x40) == (op / 0x20 % 2 == 1)
  {
    var k := op / 0x20;
    assert op == 0x20 * k + 0x10 && k < 8;
    if k == 0 { assert op == 0x10; }
    else if k == 1 { assert op == 0x30; }
    else if k == 2 { assert op == 0x50; }
    else if k == 3 { assert op == 0x70; }
    else if k == 4 { assert op == 0x90; }
    else if k == 5 { assert op == 0xB0; }
    else if k == 6 { assert op == 0xD0; }
    else { assert op == 0xF0; }
  }

  /** The odd opcodes outside column B: the accumulator group, whose operation is in bits 5-7 and operand in bits 0-4. */
  predicate InAccumulatorGroup(op: u8) { op % 2 == 1 && op % 0x10 != 0xB }

  /** The operand that bits 0-4 select in the accumulator group. */
  function GroupOperand(op: u8): Operand
  {
    match op % 0x20
    case 0x01 => Mem(DirectIndexedIndirect)
    case 0x03 => Mem(StackRelative)
    case 0x05 => Mem(Direct)
    case 0x07 => Mem(DirectIndirectLong)
    case 0x09 => Imm
    case 0x0D => Mem(Absolute)
    case 0x0F => Mem(AbsoluteLong)
    case 0x11 => Mem(DirectIndirectIndexedY)
    case 0x13 => Mem(StackRelativeIndirectIndexed)
    case 0x15 => Mem(DirectX)
    case 0x17 => Mem(DirectIndirectIndexedLongY)
    case 0x19 => Mem(AbsoluteY)
    case 0x1D => Mem(AbsoluteX)
    case _ => Mem(AbsoluteLongX)
  }

  /** The operation that bits 5-7 select in the accumulator group, rows 4 (store) and 5 (load) aside. */
  function GroupAlu(row: nat): AluType
  {
    match row
    case 0 => Or
    case 1 => And
    case 2 => Xor
    case 3 => Add
    case 6 => Cmp
    case _ => Sub
  }

  /**
   * The accumulator group of the table is regular: every ALU operation,
   * LDA and STA come with the same fourteen operands, except that the
   * immediate STA slot (0x89) holds BIT immediate.
   */
  lemma DecodeAccumulatorGroup(op: u8)
    requires InAccumulatorGroup(op)
    ensures op / 0x20 !in {4, 5} ==> Decode(op) == Alu(GroupAlu(op / 0x20), GroupOperand(op))
    ensures op / 0x20 == 5 ==> Decode(op) == Load(A, GroupOperand(op))
    ensures op / 0x20 == 4 && op != 0x89 ==> Decode(op) == Store(StoreA, GroupOperand(op).mode)
    ensures op == 0x89 ==> Decode(op) == BitTest(Imm)
  {
    var hi := op / 0x10;
    assert hi < 16;
    if hi == 0 {
      assert op / 0x20 == 0;
    } else if hi == 1 {
      assert op / 0x20 == 0;
    } else if hi == 2 {
      assert op / 0x20 == 1;
    } else if hi == 3 {
      assert op / 0x20 == 1;
    } else if hi == 4 {
      assert op / 0x20 == 2;
    } else if hi == 5 {
      assert op / 0x20 == 2;
    } else if hi == 6 {
      assert op / 0x20 == 3;
    } else if hi == 7 {
      assert op / 0x20 == 3;
    } else if hi == 8 {
      assert op / 0x20 == 4;
    } else if hi == 9 {
      assert op / 0x20 == 4;
    } else if hi == 10 {
      assert op / 0x20 == 5;
    } else if hi == 11 {
      assert op / 0x20 == 5;
    } else if hi == 12 {
      assert op / 0x20 == 6;
    } else if hi == 13 {
      assert op / 0x20 == 6;
    } else if hi == 14 {
      assert op / 0x20 == 7;
    } else if hi == 15 {
      assert op / 0x20 == 7;
    }
  }
}
