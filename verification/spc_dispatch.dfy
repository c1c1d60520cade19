/**
 * The per-instruction step of the audio CPU (src/spc.rs, `execute_instruction`):
 * fetch the opcode, look it up in the 256-entry table and run the handler.
 */
module SpcDispatch {
  import opened Wrappers
  import opened Arith
  import opened SpcTypes
  import opened SpcAlu
  import opened SpcMemory
  import opened SpcSemantics

  /** A bit number, as `set_n_bit`, `clr_n_bit` and `bb_sc` take it. */
  type BitIndex = b: nat | b < 8

  /** The argument of `tcall_n`. */
  type TcallIndex = n: nat | n < 16

  /** An addressing mode `get_warp_address` implements. */
  type AddrMode = m: SpcMode | HasAddress(m) witness Immediate

  /** The handler an opcode selects, with the arguments the table passes to it. */
  datatype SpcInstr =
    | Nop | Sleep | Stop | Brk
    | Tcall(n: TcallIndex)
    | Bit1(bit: BitIndex, setting: bool)
    | BranchOnBit(bit: BitIndex, isSet: bool)
    | Arith(op: AluType, mode: SpcMode)
    | CarryOp(cop: CarryBitOp) | Not1 | Mov1ToMem
    | ShiftMem(k: Shift, at: AddrMode) | ShiftA(k: Shift)
    | PushReg(s: StackReg) | PullReg(s: StackReg)
    | TestSet(setting: bool)
    | Branch(cond: SpcBranch) | Cbne(at: AddrMode) | DbnzDp | DbnzY
    | IncDecWord(inc: bool) | IncDecReg(reg: Reg, inc: bool) | IncDecMem(at: AddrMode, inc: bool)
    | CmpReg(reg: Reg, at: AddrMode)
    | JmpXAbs | JmpAbs | Call | Pcall | Ret | Reti
    | Flags(f: FlagOp)
    | Cmpw | Addw | Subw | MovwYaDp | MovwDpYa
    | Move(t: Transfer)
    | Load(reg: Reg, at: AddrMode) | Store(reg: Reg, at: AddrMode)
    | MovDpImm | MovDpDp
    | DivYa | MulYa | XcnA | DaaA | DasA

  /** `sleep` and `stop` panic. */
  predicate Halts(i: SpcInstr) { i.Sleep? || i.Stop? }

  /** Row 0x0_ of the table. */
  function Row0(lo: nat): SpcInstr
    requires lo < 0x10
  {
    match lo
    case 0 => Nop
    case 1 => Tcall(0)
    case 2 => Bit1(0, true)
    case 3 => BranchOnBit(0, true)
    case 4 => Arith(AluOr, DirectPage)
    case 5 => Arith(AluOr, Absolute)
    case 6 => Arith(AluOr, IndirectX)
    case 7 => Arith(AluOr, XIndexedIndirect)
    case 8 => Arith(AluOr, Immediate)
    case 9 => Arith(AluOr, DirectPageToDirectPage)
    case 10 => CarryOp(Or1)
    case 11 => ShiftMem(Asl, DirectPage)
    case 12 => ShiftMem(Asl, Absolute)
    case 13 => PushReg(StackPsw)
    case 14 => TestSet(true)
    case _ => Brk
  }

  /** Row 0x1_ of the table. */
  function Row1(lo: nat): SpcInstr
    requires lo < 0x10
  {
    match lo
    case 0 => Branch(Bpl)
    case 1 => Tcall(1)
    case 2 => Bit1(0, false)
    case 3 => BranchOnBit(0, false)
    case 4 => Arith(AluOr, XIndexedDirectPage)
    case 5 => Arith(AluOr, XIndexedAbsolute)
    case 6 => Arith(AluOr, YIndexedAbsolute)
    case 7 => Arith(AluOr, IndirectYIndexedIndirect)
    case 8 => Arith(AluOr, ImmediateDataToDirectPage)
    case 9 => Arith(AluOr, IndirectPageToIndirectPage)
    case 10 => IncDecWord(false)
    case 11 => ShiftMem(Asl, XIndexedDirectPage)
    case 12 => ShiftA(Asl)
    case 13 => IncDecReg(RegX, false)
    case 14 => CmpReg(RegX, Absolute)
    case _ => JmpXAbs
  }

  /** Row 0x2_ of the table. */
  function Row2(lo: nat): SpcInstr
    requires lo < 0x10
  {
    match lo
    case 0 => Flags(ClrP)
    case 1 => Tcall(2)
    case 2 => Bit1(1, true)
    case 3 => BranchOnBit(1, true)
    case 4 => Arith(AluAnd, DirectPage)
    case 5 => Arith(AluAnd, Absolute)
    case 6 => Arith(AluAnd, IndirectX)
    case 7 => Arith(AluAnd, XIndexedIndirect)
    case 8 => Arith(AluAnd, Immediate)
    case 9 => Arith(AluAnd, DirectPageToDirectPage)
    case 10 => CarryOp(OrNot1)
    case 11 => ShiftMem(Rol, DirectPage)
    case 12 => ShiftMem(Rol, Absolute)
    case 13 => PushReg(StackA)
    case 14 => Cbne(DirectPage)
    case _ => Branch(Bra)
  }

  /** Row 0x3_ of the table. */
  function Row3(lo: nat): SpcInstr
    requires lo < 0x10
  {
    match lo
    case 0 => Branch(Bmi)
    case 1 => Tcall(3)
    case 2 => Bit1(1, false)
    case 3 => BranchOnBit(1, false)
    case 4 => Arith(AluAnd, XIndexedDirectPage)
    case 5 => Arith(AluAnd, XIndexedAbsolute)
    case 6 => Arith(AluAnd, YIndexedAbsolute)
    case 7 => Arith(AluAnd, IndirectYIndexedIndirect)
    case 8 => Arith(AluAnd, ImmediateDataToDirectPage)
    case 9 => Arith(AluAnd, IndirectPageToIndirectPage)
    case 10 => IncDecWord(true)
    case 11 => ShiftMem(Rol, XIndexedDirectPage)
    case 12 => ShiftA(Rol)
    case 13 => IncDecReg(RegX, true)
    case 14 => CmpReg(RegX, DirectPage)
    case _ => Call
  }

  /** Row 0x4_ of the table. */
  function Row4(lo: nat): SpcInstr
    requires lo < 0x10
  {
    match lo
    case 0 => Flags(SetP)
    case 1 => Tcall(4)
    case 2 => Bit1(2, true)
    case 3 => BranchOnBit(2, true)
    case 4 => Arith(AluEor, DirectPage)
    case 5 => Arith(AluEor, Absolute)
    case 6 => Arith(AluEor, IndirectX)
    case 7 => Arith(AluEor, XIndexedIndirect)
    case 8 => Arith(AluEor, Immediate)
    case 9 => Arith(AluEor, DirectPageToDirectPage)
    case 10 => CarryOp(And1)
    case 11 => ShiftMem(Lsr, DirectPage)
    case 12 => ShiftMem(Lsr, Absolute)
    case 13 => PushReg(StackX)
    case 14 => TestSet(false)
    case _ => Pcall
  }

  /** Row 0x5_ of the table. */
  function Row5(lo: nat): SpcInstr
    requires lo < 0x10
  {
    match lo
    case 0 => Branch(Bvc)
    case 1 => Tcall(5)
    case 2 => Bit1(2, false)
    case 3 => BranchOnBit(2, false)
    case 4 => Arith(AluEor, XIndexedDirectPage)
    case 5 => Arith(AluEor, XIndexedAbsolute)
    case 6 => Arith(AluEor, YIndexedAbsolute)
    case 7 => Arith(AluEor, IndirectYIndexedIndirect)
    case 8 => Arith(AluEor, ImmediateDataToDirectPage)
    case 9 => Arith(AluEor, IndirectPageToIndirectPage)
    case 10 => Cmpw
    case 11 => ShiftMem(Lsr, XIndexedDirectPage)
    case 12 => ShiftA(Lsr)
    case 13 => Move(Tax)
    case 14 => CmpReg(RegY, Absolute)
    case _ => JmpAbs
  }

  /** Row 0x6_ of the table. */
  function Row6(lo: nat): SpcInstr
    requires lo < 0x10
  {
    match lo
    case 0 => Flags(ClrC)
    case 1 => Tcall(6)
    case 2 => Bit1(3, true)
    case 3 => BranchOnBit(3, true)
    case 4 => Arith(AluCmp, DirectPage)
    case 5 => Arith(AluCmp, Absolute)
    case 6 => Arith(AluCmp, IndirectX)
    case 7 => Arith(AluCmp, XIndexedIndirect)
    case 8 => Arith(AluCmp, Immediate)
    case 9 => Arith(AluCmp, DirectPageToDirectPage)
    case 10 => CarryOp(AndNot1)
    case 11 => ShiftMem(Ror, DirectPage)
    case 12 => ShiftMem(Ror, Absolute)
    case 13 => PushReg(StackY)
    case 14 => DbnzDp
    case _ => Ret
  }

  /** Row 0x7_ of the table. */
  function Row7(lo: nat): SpcInstr
    requires lo < 0x10
  {
    match lo
    case 0 => Branch(Bvs)
    case 1 => Tcall(7)
    case 2 => Bit1(3, false)
    case 3 => BranchOnBit(3, false)
    case 4 => Arith(AluCmp, XIndexedDirectPage)
    case 5 => Arith(AluCmp, XIndexedAbsolute)
    case 6 => Arith(AluCmp, YIndexedAbsolute)
    case 7 => Arith(AluCmp, IndirectYIndexedIndirect)
    case 8 => Arith(AluCmp, ImmediateDataToDirectPage)
    case 9 => Arith(AluCmp, IndirectPageToIndirectPage)
    case 10 => Addw
    case 11 => ShiftMem(Ror, XIndexedDirectPage)
    case 12 => ShiftA(Ror)
    case 13 => Move(Txa)
    case 14 => CmpReg(RegY, DirectPage)
    case _ => Reti
  }

  /** Row 0x8_ of the table. */
  function Row8(lo: nat): SpcInstr
    requires lo < 0x10
  {
    match lo
    case 0 => Flags(SetC)
    case 1 => Tcall(8)
    case 2 => Bit1(4, true)
    case 3 => BranchOnBit(4, true)
    case 4 => Arith(AluAdc, DirectPage)
    case 5 => Arith(AluAdc, Absolute)
    case 6 => Arith(AluAdc, IndirectX)
    case 7 => Arith(AluAdc, XIndexedIndirect)
    case 8 => Arith(AluAdc, Immediate)
    case 9 => Arith(AluAdc, DirectPageToDirectPage)
    case 10 => CarryOp(Eor1)
    case 11 => IncDecMem(DirectPage, false)
    case 12 => IncDecMem(Absolute, false)
    case 13 => Load(RegY, Immediate)
    case 14 => PullReg(StackPsw)
    case _ => MovDpImm
  }

  /** Row 0x9_ of the table. */
  function Row9(lo: nat): SpcInstr
    requires lo < 0x10
  {
    match lo
    case 0 => Branch(Bcc)
    case 1 => Tcall(9)
    case 2 => Bit1(4, false)
    case 3 => BranchOnBit(4, false)
    case 4 => Arith(AluAdc, XIndexedDirectPage)
    case 5 => Arith(AluAdc, XIndexedAbsolute)
    case 6 => Arith(AluAdc, YIndexedAbsolute)
    case 7 => Arith(AluAdc, IndirectYIndexedIndirect)
    case 8 => Arith(AluAdc, ImmediateDataToDirectPage)
    case 9 => Arith(AluAdc, IndirectPageToIndirectPage)
    case 10 => Subw
    case 11 => IncDecMem(XIndexedDirectPage, false)
    case 12 => IncDecReg(RegA, false)
    case 13 => Move(Tsx)
    case 14 => DivYa
    case _ => XcnA
  }

  /** Row 0xA_ of the table. */
  function RowA(lo: nat): SpcInstr
    requires lo < 0x10
  {
    match lo
    case 0 => Flags(Ei)
    case 1 => Tcall(10)
    case 2 => Bit1(5, true)
    case 3 => BranchOnBit(5, true)
    case 4 => Arith(AluSbc, DirectPage)
    case 5 => Arith(AluSbc, Absolute)
    case 6 => Arith(AluSbc, IndirectX)
    case 7 => Arith(AluSbc, XIndexedIndirect)
    case 8 => Arith(AluSbc, Immediate)
    case 9 => Arith(AluSbc, DirectPageToDirectPage)
    case 10 => CarryOp(Mov1ToC)
    case 11 => IncDecMem(DirectPage, true)
    case 12 => IncDecMem(Absolute, true)
    case 13 => CmpReg(RegY, Immediate)
    case 14 => PullReg(StackA)
    case _ => Store(RegA, IndirectAutoIncrement)
  }

  /** Row 0xB_ of the table. */
  function RowB(lo: nat): SpcInstr
    requires lo < 0x10
  {
    match lo
    case 0 => Branch(Bcs)
    case 1 => Tcall(11)
    case 2 => Bit1(5, false)
    case 3 => BranchOnBit(5, false)
    case 4 => Arith(AluSbc, XIndexedDirectPage)
    case 5 => Arith(AluSbc, XIndexedAbsolute)
    case 6 => Arith(AluSbc, YIndexedAbsolute)
    case 7 => Arith(AluSbc, IndirectYIndexedIndirect)
    case 8 => Arith(AluSbc, ImmediateDataToDirectPage)
    case 9 => Arith(AluSbc, IndirectPageToIndirectPage)
    case 10 => MovwYaDp
    case 11 => IncDecMem(XIndexedDirectPage, true)
    case 12 => IncDecReg(RegA, true)
    case 13 => Move(Txs)
    case 14 => DasA
    case _ => Load(RegA, IndirectAutoIncrement)
  }

  /** Row 0xC_ of the table. */
  function RowC(lo: nat): SpcInstr
    requires lo < 0x10
  {
    match lo
    case 0 => Flags(Di)
    case 1 => Tcall(12)
    case 2 => Bit1(6, true)
    case 3 => BranchOnBit(6, true)
    case 4 => Store(RegA, DirectPage)
    case 5 => Store(RegA, Absolute)
    case 6 => Store(RegA, IndirectX)
    case 7 => Store(RegA, XIndexedIndirect)
    case 8 => CmpReg(RegX, Immediate)
    case 9 => Store(RegX, Absolute)
    case 10 => Mov1ToMem
    case 11 => Store(RegY, DirectPage)
    case 12 => Store(RegY, Absolute)
    case 13 => Load(RegX, Immediate)
    case 14 => PullReg(StackX)
    case _ => MulYa
  }

  /** Row 0xD_ of the table. */
  function RowD(lo: nat): SpcInstr
    requires lo < 0x10
  {
    match lo
    case 0 => Branch(Bne)
    case 1 => Tcall(13)
    case 2 => Bit1(6, false)
    case 3 => BranchOnBit(6, false)
    case 4 => Store(RegA, XIndexedDirectPage)
    case 5 => Store(RegA, XIndexedAbsolute)
    case 6 => Store(RegA, YIndexedAbsolute)
    case 7 => Store(RegA, IndirectYIndexedIndirect)
    case 8 => Store(RegX, DirectPage)
    case 9 => Store(RegX, YIndexedDirectPage)
    case 10 => MovwDpYa
    case 11 => Store(RegY, XIndexedDirectPage)
    case 12 => IncDecReg(RegY, false)
    case 13 => Move(Tya)
    case 14 => Cbne(XIndexedDirectPage)
    case _ => DaaA
  }

  /** Row 0xE_ of the table. */
  function RowE(lo: nat): SpcInstr
    requires lo < 0x10
  {
    match lo
    case 0 => Flags(ClrHv)
    case 1 => Tcall(14)
    case 2 => Bit1(7, true)
    case 3 => BranchOnBit(7, true)
    case 4 => Load(RegA, DirectPage)
    case 5 => Load(RegA, Absolute)
    case 6 => Load(RegA, IndirectX)
    case 7 => Load(RegA, XIndexedIndirect)
    case 8 => Load(RegA, Immediate)
    case 9 => Load(RegX, Absolute)
    case 10 => Not1
    case 11 => Load(RegY, DirectPage)
    case 12 => Load(RegY, Absolute)
    case 13 => Flags(NotC)
    case 14 => PullReg(StackY)
    case _ => Sleep
  }

  /** Row 0xF_ of the table. */
  function RowF(lo: nat): SpcInstr
    requires lo < 0x10
  {
    match lo
    case 0 => Branch(Beq)
    case 1 => Tcall(15)
    case 2 => Bit1(7, false)
    case 3 => BranchOnBit(7, false)
    case 4 => Load(RegA, XIndexedDirectPage)
    case 5 => Load(RegA, XIndexedAbsolute)
    case 6 => Load(RegA, YIndexedAbsolute)
    case 7 => Load(RegA, IndirectYIndexedIndirect)
    case 8 => Load(RegX, DirectPage)
    case 9 => Load(RegX, YIndexedDirectPage)
    case 10 => MovDpDp
    case 11 => Load(RegY, XIndexedDirectPage)
    case 12 => IncDecReg(RegY, true)
    case 13 => Move(Tay)
    case 14 => DbnzY
    case _ => Stop
  }

  /** The opcode table of `execute_instruction`, row by row on the high nibble. */
  function DecodeOpcode(op: u8): (i: SpcInstr)
    ensures i.Nop? <==> op == 0x00
    ensures i.Brk? <==> op == 0x0F
    ensures i.Sleep? <==> op == 0xEF
    ensures i.Stop? <==> op == 0xFF
  {
    var lo := op % 0x10;
    match op / 0x10
    case 0 => Row0(lo)
    case 1 => Row1(lo)
    case 2 => Row2(lo)
    case 3 => Row3(lo)
    case 4 => Row4(lo)
    case 5 => Row5(lo)
    case 6 => Row6(lo)
    case 7 => Row7(lo)
    case 8 => Row8(lo)
    case 9 => Row9(lo)
    case 10 => RowA(lo)
    case 11 => RowB(lo)
    case 12 => RowC(lo)
    case 13 => RowD(lo)
    case 14 => RowE(lo)
    case _ => RowF(lo)
  }

  /**
   * The handler run on a machine whose PC has already moved past the opcode.
   * `None` is a panic: a read of a write-only I/O register, an addressing mode
   * the source leaves unimplemented, or `sleep` and `stop`, which panic after
   * their wait state.
   */
  function ExecuteSem(m: Machine, i: SpcInstr): (r: Option<Machine>)
    requires MachineOk(m)
    ensures Halts(i) ==> r.None?
    ensures RegisterGroup(i) ==> (r.None? <==> Halts(i))
  {
    if BitOrAluGroup(i) then BitOrAluSem(m, i)
    else if ControlGroup(i) then ControlSem(m, i)
    else if MoveGroup(i) then MoveSem(m, i)
    else RegisterSem(m, i)
  }

  /** The handlers in four families: single bits and the ALU; control flow; loads, stores and words; registers only. */
  predicate BitOrAluGroup(i: SpcInstr)
  {
    i.Bit1? || i.BranchOnBit? || i.Arith? || i.CarryOp? || i.Not1? || i.Mov1ToMem? || i.ShiftMem? || i.TestSet?
  }

  predicate ControlGroup(i: SpcInstr)
  {
    i.Brk? || i.Tcall? || i.Branch? || i.Cbne? || i.DbnzDp? || i.DbnzY? || i.JmpXAbs? || i.JmpAbs? || i.Call? || i.Pcall?
  }

  predicate MoveGroup(i: SpcInstr)
  {
    i.IncDecWord? || i.IncDecMem? || i.CmpReg? || i.Cmpw? || i.Addw? || i.Subw? || i.MovwYaDp? || i.MovwDpYa? ||
    i.Load? || i.Store? || i.MovDpImm? || i.MovDpDp?
  }

  predicate RegisterGroup(i: SpcInstr)
  {
    !BitOrAluGroup(i) && !ControlGroup(i) && !MoveGroup(i)
  }

  function BitOrAluSem(m: Machine, i: SpcInstr): Option<Machine>
    requires MachineOk(m) && BitOrAluGroup(i)
  {
    match i
    case Bit1(bit, setting) => SetClrBitSem(m, bit, setting)
    case BranchOnBit(bit, isSet) => BranchBitSem(m, bit, isSet)
    case Arith(op, mode) => AluSem(m, op, mode)
    case CarryOp(cop) => CarryBitSem(m, cop)
    case Not1 => Not1Sem(m)
    case Mov1ToMem => Mov1ToMemSem(m)
    case ShiftMem(k, at) => ShiftMemSem(m, k, at)
    case TestSet(setting) => TestSetSem(m, setting)
  }

  function ControlSem(m: Machine, i: SpcInstr): Option<Machine>
    requires MachineOk(m) && ControlGroup(i)
  {
    match i
    case Brk => BrkSem(m)
    case Tcall(n) => TcallSem(m, n)
    case Branch(cond) => BranchSem(m, cond)
    case Cbne(at) => CbneSem(m, at)
    case DbnzDp => DbnzDpSem(m)
    case DbnzY => DbnzYSem(m)
    case JmpXAbs => JmpXAbsSem(m)
    case JmpAbs => JmpAbsSem(m)
    case Call => CallSem(m)
    case Pcall => PcallSem(m)
  }

  function MoveSem(m: Machine, i: SpcInstr): Option<Machine>
    requires MachineOk(m) && MoveGroup(i)
  {
    match i
    case IncDecWord(inc) => IncDecWordSem(m, inc)
    case IncDecMem(at, inc) => IncDecMemSem(m, at, inc)
    case CmpReg(reg, at) => CmpRegSem(m, reg, at)
    case Cmpw => CmpwSem(m)
    case Addw => AddwSem(m)
    case Subw => SubwSem(m)
    case MovwYaDp => MovwYaDpSem(m)
    case MovwDpYa => MovwDpYaSem(m)
    case Load(reg, at) => LoadSem(m, reg, at)
    case Store(reg, at) => StoreSem(m, reg, at)
    case MovDpImm => MovDpImmSem(m)
    case MovDpDp => MovDpDpSem(m)
  }

  /** The handlers that cannot panic, except `sleep` and `stop`, which always do. */
  function RegisterSem(m: Machine, i: SpcInstr): Option<Machine>
    requires MachineOk(m) && RegisterGroup(i)
  {
    match i
    case Nop => Some(NopSem(m))
    case Sleep => None
    case Stop => None
    case ShiftA(k) => Some(ShiftASem(m, k))
    case PushReg(s) => Some(PushSem(m, s))
    case PullReg(s) => Some(PullSem(m, s))
    case IncDecReg(reg, inc) => Some(IncDecRegSem(m, reg, inc))
    case Ret => Some(RetSem(m))
    case Reti => Some(RetiSem(m))
    case Flags(f) => Some(FlagSem(m, f))
    case Move(t) => Some(TransferSem(m, t))
    case DivYa => Some(DivSem(m))
    case MulYa => Some(MulSem(m))
    case XcnA => Some(XcnSem(m))
    case DaaA => Some(DaaSem(m))
    case DasA => Some(DasSem(m))
  }

  /** `execute_instruction`: fetch the opcode at PC, then run the handler the table selects. */
  function StepSem(m: Machine): (r: Option<Machine>)
    requires MachineOk(m)
    ensures Fetch8(m).None? ==> r.None?
    ensures r.Some? ==> !Halts(DecodeOpcode(Fetch8(m).value.v))
  {
    var f :- Fetch8(m);
    ExecuteSem(f.m, DecodeOpcode(f.v))
  }

  /** Exactly two opcodes halt the CPU: 0xEF `sleep` and 0xFF `stop`. */
  lemma DecodeHalts(op: u8)
    ensures Halts(DecodeOpcode(op)) <==> op == 0xEF || op == 0xFF
  {
  }

  /** Each jump handler without operands in the table has exactly one opcode. */
  lemma DecodeJumps(op: u8)
    ensures DecodeOpcode(op).JmpXAbs? <==> op == 0x1F
    ensures DecodeOpcode(op).JmpAbs? <==> op == 0x5F
  {
  }

  /** So does each call and return. */
  lemma DecodeCalls(op: u8)
    ensures DecodeOpcode(op).Call? <==> op == 0x3F
    ensures DecodeOpcode(op).Pcall? <==> op == 0x4F
    ensures DecodeOpcode(op).Ret? <==> op == 0x6F
    ensures DecodeOpcode(op).Reti? <==> op == 0x7F
  {
  }

  /** So do DIV and MUL on the YA pair. */
  lemma DecodeYaOps(op: u8)
    ensures DecodeOpcode(op).DivYa? <==> op == 0x9E
    ensures DecodeOpcode(op).MulYa? <==> op == 0xCF
  {
  }

  /** So do XCN and the decimal adjustments of the accumulator. */
  lemma DecodeAccumulatorOps(op: u8)
    ensures DecodeOpcode(op).XcnA? <==> op == 0x9F
    ensures DecodeOpcode(op).DasA? <==> op == 0xBE
    ensures DecodeOpcode(op).DaaA? <==> op == 0xDF
  {
  }

  /** Column 1 of the table: `tcall n` sits in row n. */
  lemma TcallColumn(op: u8)
    requires op % 0x10 == 1
    ensures DecodeOpcode(op) == Tcall(op / 0x10)
  {
  }

  /** Column 2: `set1` of bit `row / 2` in the even rows, `clr1` in the odd rows. */
  lemma Bit1Column(op: u8)
    requires op % 0x10 == 2
    ensures DecodeOpcode(op) == Bit1(op / 0x20, (op / 0x10) % 2 == 0)
  {
  }

  /** Column 3: `bbs` of bit `row / 2` in the even rows, `bbc` in the odd rows. */
  lemma BranchOnBitColumn(op: u8)
    requires op % 0x10 == 3
    ensures DecodeOpcode(op) == BranchOnBit(op / 0x20, (op / 0x10) % 2 == 0)
  {
  }

  /** The operations of the ALU block, two rows each. */
  const AluRows: seq<AluType> := [AluOr, AluAnd, AluEor, AluCmp, AluAdc, AluSbc]

  /** The addressing modes of columns 4-9 in the even and in the odd rows of the ALU block. */
  const EvenRowModes: seq<SpcMode> :=
    [DirectPage, Absolute, IndirectX, XIndexedIndirect, Immediate, DirectPageToDirectPage]
  const OddRowModes: seq<SpcMode> :=
    [XIndexedDirectPage, XIndexedAbsolute, YIndexedAbsolute, IndirectYIndexedIndirect,
     ImmediateDataToDirectPage, IndirectPageToIndirectPage]

  /**
   * Columns 4-9 of rows 0x0_-0xB_ are `alu`: the operation changes every two
   * rows, and the column and the row's parity pick the addressing mode.
   */
  lemma AluBlock(op: u8)
    requires op < 0xC0 && 4 <= op % 0x10 <= 9
    ensures DecodeOpcode(op) ==
              Arith(AluRows[op / 0x20], (if (op / 0x10) % 2 == 0 then EvenRowModes else OddRowModes)[op % 0x10 - 4])
  {
    if (op / 0x10) % 2 == 0 {
      AluEvenRows(op);
    } else {
      AluOddRows(op);
    }
  }

  lemma AluEvenRows(op: u8)
    requires op < 0xC0 && 4 <= op % 0x10 <= 9 && (op / 0x10) % 2 == 0
    ensures DecodeOpcode(op) == Arith(AluRows[op / 0x20], EvenRowModes[op % 0x10 - 4])
  {
    var row, col := op / 0x10, op % 0x10;
    DivMod(op, 0x20, row / 2, 0x10 * (row % 2) + col);
    if row == 0 {
      assert DecodeOpcode(op) == Row0(col);
    } else if row == 2 {
      assert DecodeOpcode(op) == Row2(col);
    } else if row == 4 {
      assert DecodeOpcode(op) == Row4(col);
    } else if row == 6 {
      assert DecodeOpcode(op) == Row6(col);
    } else if row == 8 {
      assert DecodeOpcode(op) == Row8(col);
    } else {
      assert DecodeOpcode(op) == RowA(col);
    }
  }


  lemma AluOddRows(op: u8)
    requires op < 0xC0 && 4 <= op % 0x10 <= 9 && (op / 0x10) % 2 == 1
    ensures DecodeOpcode(op) == Arith(AluRows[op / 0x20], OddRowModes[op % 0x10 - 4])
  {
    var row, col := op / 0x10, op % 0x10;
    DivMod(op, 0x20, row / 2, 0x10 * (row % 2) + col);
    if row == 1 {
      assert DecodeOpcode(op) == Row1(col);
    } else if row == 3 {
      assert DecodeOpcode(op) == Row3(col);
    } else if row == 5 {
      assert DecodeOpcode(op) == Row5(col);
    } else if row == 7 {
      assert DecodeOpcode(op) == Row7(col);
    } else if row == 9 {
      assert DecodeOpcode(op) == Row9(col);
    } else {
      assert DecodeOpcode(op) == RowB(col);
    }
  }


  /** Fetching 0xEF (`sleep`) or 0xFF (`stop`) ends the step in a panic. */
  lemma SleepAndStopPanic(m: Machine)
    requires MachineOk(m) && Fetch8(m).Some?
    requires Fetch8(m).value.v == 0xEF || Fetch8(m).value.v == 0xFF
    ensures StepSem(m).None?
  {
    DecodeHalts(Fetch8(m).value.v);
  }
}
