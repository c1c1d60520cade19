/**
 * What each audio-CPU instruction handler of src/spc.rs does, as a function
 * from the machine before the handler to the machine after it. The handler
 * runs after the opcode fetch, so PC points at the first operand byte.
 *
 * A handler that reads memory returns `None` when one of its reads panics
 * (a write-only I/O register); the handlers that cannot fail return the
 * machine directly.
 */
module SpcSemantics {
  import opened Wrappers
  import opened Arith
  import opened Bits
  import CpuTypes
  import CpuAlu
  import opened SpcTypes
  import opened SpcAlu
  import opened SpcIo
  import opened SpcMemory

  // ---------------------------------------------------------------- helpers

  function WaitRam(m: Machine): Machine { Wait(m, m.io.waitRam) }
  function WaitIo(m: Machine): Machine { Wait(m, m.io.waitIo) }

  /** The registers `inc_reg`, `dec_reg` and the loads and stores name. */
  datatype Reg = RegA | RegX | RegY

  function GetReg(r: SpcRegs, reg: Reg): u8
  {
    match reg
    case RegA => r.a
    case RegX => r.x
    case RegY => r.y
  }

  function SetReg(r: SpcRegs, reg: Reg, v: u8): SpcRegs
  {
    match reg
    case RegA => r.(a := v)
    case RegX => r.(x := v)
    case RegY => r.(y := v)
  }

  // ---------------------------------------------------------------- addressing

  /** `AddressingMode`. */
  datatype SpcMode =
    | Immediate | DirectPage | XIndexedDirectPage | YIndexedDirectPage
    | IndirectX | IndirectY | IndirectAutoIncrement
    | DirectPageToDirectPage | IndirectPageToIndirectPage | ImmediateDataToDirectPage
    | Absolute | XIndexedAbsolute | YIndexedAbsolute | XIndexedIndirect | IndirectYIndexedIndirect

  /** The modes `get_warp_address` implements; the three two-operand modes are `todo!` there. */
  predicate HasAddress(mode: SpcMode)
  {
    !(mode.DirectPageToDirectPage? || mode.IndirectPageToIndirectPage? || mode.ImmediateDataToDirectPage?)
  }

  /** `(psw.p() as u16) << 8 | low`: page 0 or page 1, as P selects. */
  function DpAddr(p: Psw, low: u8): u16 { (if p.p then 0x100 else 0) + low }

  /** The modes whose address comes from PC, X or Y without an operand fetch. */
  predicate RegisterMode(mode: SpcMode) { mode in {Immediate, IndirectX, IndirectY, IndirectAutoIncrement} }

  /** The direct-page modes with a one-byte operand. */
  predicate DirectPageMode(mode: SpcMode) { mode in {DirectPage, XIndexedDirectPage, YIndexedDirectPage} }

  /** The absolute modes with a two-byte operand. */
  predicate AbsoluteMode(mode: SpcMode) { mode in {Absolute, XIndexedAbsolute, YIndexedAbsolute} }

  /** `get_warp_address` for the modes without an operand fetch; these cannot fail. */
  function RegisterAddress(m: Machine, mode: SpcMode): (r: Got<WrapAddr>)
    requires MachineOk(m) && RegisterMode(mode)
    ensures MachineOk(r.m) && r.m.ram == m.ram && r.m.io == m.io
    ensures r.m.regs == m.regs.(pc := r.m.regs.pc, x := r.m.regs.x)
  {
    var r := m.regs;
    match mode
    case Immediate => Got(WrapAddr(r.pc, Wrap8bit), m.(regs := r.(pc := PcPlus(r.pc, 1))))
    case IndirectX => Got(WrapAddr(DpAddr(r.psw, r.x), Wrap8bit), WaitRam(m))
    case IndirectY => Got(WrapAddr(DpAddr(r.psw, r.y), Wrap8bit), WaitIo(m))
    case IndirectAutoIncrement =>
      Got(WrapAddr(DpAddr(r.psw, r.x), Wrap8bit), WaitRam(m).(regs := r.(x := (r.x + 1) % 0x100)))
  }

  /** `get_warp_address` for the direct-page modes: the operand byte, indexed by X (with the I/O wait state) or Y. */
  function DirectPageAddress(m: Machine, mode: SpcMode): (r: Option<Got<WrapAddr>>)
    requires MachineOk(m) && DirectPageMode(mode)
    ensures r.Some? ==> MachineOk(r.value.m) && r.value.m.ram == m.ram
    ensures r.Some? ==> r.value.m.regs == m.regs.(pc := r.value.m.regs.pc)
  {
    var r := m.regs;
    var g :- Fetch8(m);
    match mode
    case DirectPage => Some(Got(WrapAddr(DpAddr(r.psw, g.v), Wrap8bit), g.m))
    case XIndexedDirectPage => Some(Got(WrapAddr(DpAddr(r.psw, (g.v + r.x) % 0x100), Wrap8bit), WaitIo(g.m)))
    case YIndexedDirectPage => Some(Got(WrapAddr(DpAddr(r.psw, (g.v + r.y) % 0x100), Wrap8bit), g.m))
  }

  /** `get_warp_address` for the absolute modes: the operand word, indexed by X or Y with the I/O wait state. */
  function AbsoluteAddress(m: Machine, mode: SpcMode): (r: Option<Got<WrapAddr>>)
    requires MachineOk(m) && AbsoluteMode(mode)
    ensures r.Some? ==> MachineOk(r.value.m) && r.value.m.ram == m.ram
    ensures r.Some? ==> r.value.m.regs == m.regs.(pc := r.value.m.regs.pc)
  {
    var r := m.regs;
    var g :- Fetch16(m);
    match mode
    case Absolute => Some(Got(WrapAddr(g.v, NoWrap), g.m))
    case XIndexedAbsolute => Some(Got(WrapAddr((g.v + r.x) % 0x1_0000, NoWrap), WaitIo(g.m)))
    case YIndexedAbsolute => Some(Got(WrapAddr((g.v + r.y) % 0x1_0000, NoWrap), WaitIo(g.m)))
  }

  /** `get_warp_address` for `[dp+X]`: the pointer at the X-indexed direct-page address, then the I/O wait state. */
  function IndexedPointerAddress(m: Machine): (r: Option<Got<WrapAddr>>)
    requires MachineOk(m)
    ensures r.Some? ==> MachineOk(r.value.m) && r.value.m.ram == m.ram
    ensures r.Some? ==> r.value.m.regs == m.regs.(pc := r.value.m.regs.pc)
  {
    var g :- Fetch8(m);
    var p :- Read16(g.m, WrapAddr(DpAddr(m.regs.psw, (g.v + m.regs.x) % 0x100), NoWrap));
    Some(Got(WrapAddr(p.v, NoWrap), WaitIo(p.m)))
  }

  /** `get_warp_address` for `[dp]+Y`: the I/O wait state, then the pointer at the direct-page address, indexed by Y. */
  function PointerIndexedAddress(m: Machine): (r: Option<Got<WrapAddr>>)
    requires MachineOk(m)
    ensures r.Some? ==> MachineOk(r.value.m) && r.value.m.ram == m.ram
    ensures r.Some? ==> r.value.m.regs == m.regs.(pc := r.value.m.regs.pc)
  {
    var g :- Fetch8(m);
    var p :- Read16(WaitIo(g.m), WrapAddr(DpAddr(m.regs.psw, g.v), NoWrap));
    Some(Got(WrapAddr((p.v + m.regs.y) % 0x1_0000, NoWrap), p.m))
  }

  /** `get_warp_address`. */
  function Address(m: Machine, mode: SpcMode): (r: Option<Got<WrapAddr>>)
    requires MachineOk(m) && HasAddress(mode)
    ensures r.Some? ==> MachineOk(r.value.m) && r.value.m.ram == m.ram
    ensures r.Some? ==> r.value.m.regs == m.regs.(pc := r.value.m.regs.pc, x := r.value.m.regs.x)
  {
    if RegisterMode(mode) then Some(RegisterAddress(m, mode))
    else if DirectPageMode(mode) then DirectPageAddress(m, mode)
    else if AbsoluteMode(mode) then AbsoluteAddress(m, mode)
    else if mode == XIndexedIndirect then IndexedPointerAddress(m)
    else PointerIndexedAddress(m)
  }

  /** How many operand bytes a mode takes from the instruction stream. */
  function OperandBytes(mode: SpcMode): nat
  {
    match mode
    case IndirectX | IndirectY | IndirectAutoIncrement => 0
    case Absolute | XIndexedAbsolute | YIndexedAbsolute => 2
    case _ => 1
  }

  /**
   * Addressing consumes exactly the mode's operand bytes and changes no
   * register but PC (and X for the auto-increment mode); every direct-page
   * mode but the two indirect-pointer ones lands in the page P selects, with
   * 8-bit wrapping, and the absolute modes never wrap within a page.
   */
  lemma AddressSpec(m: Machine, mode: SpcMode)
    requires MachineOk(m) && HasAddress(mode) && Address(m, mode).Some?
    ensures Address(m, mode).value.m.regs.pc == PcPlus(m.regs.pc, OperandBytes(mode))
    ensures Address(m, mode).value.m.regs ==
              m.regs.(pc := PcPlus(m.regs.pc, OperandBytes(mode)),
                      x := if mode.IndirectAutoIncrement? then (m.regs.x + 1) % 0x100 else m.regs.x)
    ensures mode in {DirectPage, XIndexedDirectPage, YIndexedDirectPage, IndirectX, IndirectY, IndirectAutoIncrement} ==>
              CpuTypes.Hi(Address(m, mode).value.v.addr) == (if m.regs.psw.p then 1 else 0) &&
              Address(m, mode).value.v.mode == Wrap8bit
    ensures mode in {Absolute, XIndexedAbsolute, YIndexedAbsolute, XIndexedIndirect, IndirectYIndexedIndirect} ==>
              Address(m, mode).value.v.mode == NoWrap
  {
  }

  /** A byte operand: the address it was read from, and the byte. */
  datatype Operand = Operand(at: WrapAddr, byte: u8)

  /** `get_warp_address` followed by `read_8` at that address, as most handlers begin. */
  function ReadOperand(m: Machine, mode: SpcMode): (r: Option<Got<Operand>>)
    requires MachineOk(m) && HasAddress(mode)
    ensures r.Some? ==> MachineOk(r.value.m) && r.value.m.ram == m.ram
    ensures r.Some? ==> r.value.m.regs == m.regs.(pc := r.value.m.regs.pc, x := r.value.m.regs.x)
  {
    var ad :- Address(m, mode);
    var g :- Read8(ad.m, ad.v);
    Some(Got(Operand(ad.v, g.v), g.m))
  }

  // ---------------------------------------------------------------- loads, stores, transfers

  /** `lda`, `ldx`, `ldy`: load, set N and Z; `lda` alone adds the I/O wait state afterwards. */
  function LoadSem(m: Machine, reg: Reg, mode: SpcMode): Option<Machine>
    requires MachineOk(m) && HasAddress(mode)
  {
    var g :- ReadOperand(m, mode);
    Some(LoadResult(g, reg))
  }

  function LoadResult(g: Got<Operand>, reg: Reg): Machine
  {
    var v := g.v.byte;
    var m1 := g.m.(regs := SetReg(g.m.regs, reg, v).(psw := SetNZ(g.m.regs.psw, v)));
    if reg == RegA then WaitIo(m1) else m1
  }

  /** `sta`, `stx`, `sty`: the I/O wait state, then the address, then the write of the register. */
  function StoreSem(m: Machine, reg: Reg, mode: SpcMode): Option<Machine>
    requires MachineOk(m) && HasAddress(mode)
  {
    var ad :- Address(WaitIo(m), mode);
    Some(Write8(ad.m, ad.v, GetReg(ad.m.regs, reg)))
  }

  /** The register transfers. */
  datatype Transfer = Txa | Tya | Tax | Tay | Tsx | Txs

  /** `txa`, `tya`, `tax`, `tay`, `tsx` (N and Z from the value moved) and `txs` (no flag). */
  function TransferSem(m: Machine, t: Transfer): Machine
  {
    var r := m.regs;
    var r1 := match t
      case Txa => r.(a := r.x, psw := SetNZ(r.psw, r.x))
      case Tya => r.(a := r.y, psw := SetNZ(r.psw, r.y))
      case Tax => r.(x := r.a, psw := SetNZ(r.psw, r.a))
      case Tay => r.(y := r.a, psw := SetNZ(r.psw, r.a))
      case Tsx => r.(x := r.sp, psw := SetNZ(r.psw, r.sp))
      case Txs => r.(sp := r.x);
    WaitRam(m).(regs := r1)
  }

  /** The registers `pha`, `phx`, `phy`, `php` push and `pla`, `plx`, `ply`, `plp` pull. */
  datatype StackReg = StackA | StackX | StackY | StackPsw

  function StackValue(r: SpcRegs, s: StackReg): u8
  {
    match s
    case StackA => r.a
    case StackX => r.x
    case StackY => r.y
    case StackPsw => PswByte(r.psw)
  }

  function SetStackReg(r: SpcRegs, s: StackReg, v: u8): SpcRegs
  {
    match s
    case StackA => r.(a := v)
    case StackX => r.(x := v)
    case StackY => r.(y := v)
    case StackPsw => r.(psw := PswOfByte(v))
  }

  /** `pha`, `phx`, `phy`, `php`: both wait states, then `push_8`. */
  function PushSem(m: Machine, s: StackReg): (r: Machine)
    requires MachineOk(m)
    ensures MachineOk(r)
  {
    var m1 := WaitIo(WaitRam(m));
    Push8(m1, StackValue(m1.regs, s))
  }

  /** `pla`, `plx`, `ply`, `plp`: both wait states, then `pop_8` into the register; no flag changes except through `plp`. */
  function PullSem(m: Machine, s: StackReg): (r: Machine)
    requires MachineOk(m)
    ensures MachineOk(r)
  {
    var g := Pop8(WaitIo(WaitRam(m)));
    g.m.(regs := SetStackReg(g.m.regs, s, g.v))
  }

  /**
   * A pull undoes the push of the same register: every register comes back
   * (SP included) while RAM takes writes.
   */
  lemma PushThenPull(m: Machine, s: StackReg)
    requires MachineOk(m) && m.io.ramWriteEnabled
    ensures PullSem(PushSem(m, s), s).regs == m.regs
  {
    var m1 := WaitIo(WaitRam(m));
    PushThenPop8(m1, StackValue(m1.regs, s));
    PswByteRoundTrip(m.regs.psw);
  }

  // ---------------------------------------------------------------- arithmetic on A

  /** `daa`: adjust, N and Z, then both wait states. */
  function DaaSem(m: Machine): Machine
  {
    var o := Daa(m.regs.a, m.regs.psw);
    WaitIo(WaitRam(m.(regs := m.regs.(a := o.r, psw := o.psw))))
  }

  /** `das`: adjust, N and Z, then both wait states. */
  function DasSem(m: Machine): Machine
  {
    var o := Das(m.regs.a, m.regs.psw);
    WaitIo(WaitRam(m.(regs := m.regs.(a := o.r, psw := o.psw))))
  }

  /** `div`: the RAM wait state and ten I/O wait states, then YA / X. */
  function DivSem(m: Machine): Machine
  {
    var m1 := Wait(WaitRam(m), 10 * m.io.waitIo);
    m1.(regs := Div(m1.regs))
  }

  /** `mul`: the RAM wait state and seven I/O wait states, then YA = A * Y. */
  function MulSem(m: Machine): Machine
  {
    var m1 := Wait(WaitRam(m), 7 * m.io.waitIo);
    m1.(regs := Mul(m1.regs))
  }

  /** `xcn`: the RAM wait state and three I/O wait states, then the nibble swap with N and Z. */
  function XcnSem(m: Machine): Machine
  {
    var m1 := Wait(WaitRam(m), 3 * m.io.waitIo);
    var v := Xcn(m1.regs.a);
    m1.(regs := m1.regs.(a := v, psw := SetNZ(m1.regs.psw, v)))
  }

  // ---------------------------------------------------------------- the ALU

  /** The result of an ALU operation on two memory operands: flags, and the write back except for CMP. */
  function AluToMemory(m: Machine, op: AluType, dest: WrapAddr, x: u8, y: u8): (r: Machine)
    requires MachineOk(m)
    ensures MachineOk(r) && r.regs.a == m.regs.a
    ensures op == AluCmp ==> r.ram == m.ram
  {
    var o := AluOp(op, x, y, m.regs.psw);
    var m1 := m.(regs := m.regs.(psw := o.psw));
    if op == AluCmp then m1 else Write8(m1, dest, o.r)
  }

  /**
   * The two-operand modes: where the second operand comes from, and where
   * the first operand (also the destination) is.
   */
  function OperandModes(mode: SpcMode): (r: (SpcMode, SpcMode))
    requires !HasAddress(mode)
    ensures HasAddress(r.0) && HasAddress(r.1)
  {
    match mode
    case DirectPageToDirectPage => (DirectPage, DirectPage)
    case ImmediateDataToDirectPage => (Immediate, DirectPage)
    case IndirectPageToIndirectPage => (IndirectY, IndirectX)
  }

  /** The memory-to-memory ALU: the second operand, then the first, then flags and the write back. */
  function AluMemory(m: Machine, op: AluType, src: SpcMode, dst: SpcMode): (r: Option<Machine>)
    requires MachineOk(m) && HasAddress(src) && HasAddress(dst)
    ensures r.Some? ==> r.value.regs.a == m.regs.a
    ensures r.Some? && op == AluCmp ==> r.value.ram == m.ram
  {
    var o2 :- ReadOperand(m, src);
    AluInto(o2.m, op, dst, o2.v.byte)
  }

  /** The second half of the memory-to-memory ALU: the first operand, combined with `y`. */
  function AluInto(m: Machine, op: AluType, dst: SpcMode, y: u8): (r: Option<Machine>)
    requires MachineOk(m) && HasAddress(dst)
    ensures r.Some? ==> r.value.regs.a == m.regs.a
    ensures r.Some? && op == AluCmp ==> r.value.ram == m.ram
  {
    var o1 :- ReadOperand(m, dst);
    Some(AluToMemory(o1.m, op, o1.v.at, o1.v.byte, y))
  }

  /** `alu`: the nine single-operand modes combine A with memory; the three two-operand modes combine memory with memory. */
  function AluSem(m: Machine, op: AluType, mode: SpcMode): Option<Machine>
    requires MachineOk(m)
  {
    if !HasAddress(mode) then
      var modes := OperandModes(mode);
      AluMemory(m, op, modes.0, modes.1)
    else if mode in {YIndexedDirectPage, IndirectY, IndirectAutoIncrement} then None
    else AluAccumulator(m, op, mode)
  }

  /** The single-operand ALU: A combined with the operand, A written back except for CMP. */
  function AluAccumulator(m: Machine, op: AluType, mode: SpcMode): Option<Machine>
    requires MachineOk(m) && HasAddress(mode)
  {
    var g :- ReadOperand(m, mode);
    Some(AluOnA(g.m, op, g.v.byte))
  }

  /** A combined with an operand byte; CMP sets the flags and keeps A. */
  function AluOnA(m: Machine, op: AluType, b: u8): Machine
  {
    var o := AluOp(op, m.regs.a, b, m.regs.psw);
    m.(regs := m.regs.(a := if op == AluCmp then m.regs.a else o.r, psw := o.psw))
  }

  /**
   * In the single-operand modes the ALU combines A with memory and writes no
   * memory; CMP leaves A as it was too. The three modes the source leaves
   * unreachable yield nothing.
   */
  lemma AluOneOperand(m: Machine, op: AluType, mode: SpcMode)
    requires MachineOk(m) && HasAddress(mode) && AluSem(m, op, mode).Some?
    ensures AluSem(m, op, mode).value.ram == m.ram
    ensures op == AluCmp ==> AluSem(m, op, mode).value.regs.a == m.regs.a
    ensures !(mode in {YIndexedDirectPage, IndirectY, IndirectAutoIncrement})
  {
  }

  /**
   * In the two-operand modes the ALU combines two memory bytes, never
   * changes A, and under CMP writes nothing back.
   */
  lemma AluTwoOperands(m: Machine, op: AluType, mode: SpcMode)
    requires MachineOk(m) && !HasAddress(mode) && AluSem(m, op, mode).Some?
    ensures AluSem(m, op, mode).value.regs.a == m.regs.a
    ensures op == AluCmp ==> AluSem(m, op, mode).value.ram == m.ram
  {
  }

  /** `cmp_x`, `cmp_y`: CMP of X or Y with the operand. */
  function CmpRegSem(m: Machine, reg: Reg, mode: SpcMode): Option<Machine>
    requires MachineOk(m) && HasAddress(mode)
  {
    var g :- ReadOperand(m, mode);
    Some(g.m.(regs := g.m.regs.(psw := AluOp(AluCmp, GetReg(g.m.regs, reg), g.v.byte, g.m.regs.psw).psw)))
  }

  // ---------------------------------------------------------------- moves between memory cells

  /** `mov_dp_dp`: source address and byte, then destination address and the write. */
  function MovDpDpSem(m: Machine): Option<Machine>
    requires MachineOk(m)
  {
    var g :- ReadOperand(m, DirectPage);
    var dst :- Address(g.m, DirectPage);
    Some(Write8(dst.m, dst.v, g.v.byte))
  }

  /** `mov_dp_imm`: the immediate byte, the destination, the RAM wait state, the write. */
  function MovDpImmSem(m: Machine): Option<Machine>
    requires MachineOk(m)
  {
    var f :- Fetch8(m);
    var dst :- Address(f.m, DirectPage);
    Some(Write8(WaitRam(dst.m), dst.v, f.v))
  }

  // ---------------------------------------------------------------- shifts, increments

  /** The four shifts and rotates. */
  datatype Shift = Asl | Rol | Lsr | Ror

  /**
   * One shift or rotate of a byte with carry in `c`: the result, and the bit
   * shifted out as the new carry. `<<` drops bit 7, `>>` drops bit 0, and
   * the rotates bring the old carry in at the other end.
   */
  function ShiftOp(k: Shift, v: u8, c: bool): SpcOut
  {
    match k
    case Asl => SpcOut(v * 2 % 0x100, DefaultPsw.(c := v >= 0x80))
    case Rol => SpcOut(v * 2 % 0x100 + CpuAlu.Carry(c), DefaultPsw.(c := v >= 0x80))
    case Lsr => SpcOut(v / 2, DefaultPsw.(c := v % 2 == 1))
    case Ror => SpcOut(v / 2 + 0x80 * CpuAlu.Carry(c), DefaultPsw.(c := v % 2 == 1))
  }

  /** The flags after a shift: C from the bit shifted out, N and Z from the result. */
  function ShiftFlags(k: Shift, v: u8, p: Psw): Psw
  {
    var o := ShiftOp(k, v, p.c);
    SetNZ(p.(c := o.psw.c), o.r)
  }

  /** ROL then ROR through the carry gives the byte and the carry back. */
  lemma RolThenRor(v: u8, c: bool)
    ensures var o := ShiftOp(Rol, v, c); ShiftOp(Ror, o.r, o.psw.c) == SpcOut(v, DefaultPsw.(c := c))
  {
    var lo := v % 0x80;
    DivMod(v * 2, 0x100, v / 0x80, 2 * lo);
    DivMod(2 * lo + CpuAlu.Carry(c), 2, lo, CpuAlu.Carry(c));
  }

  /** ROR then ROL through the carry gives the byte and the carry back. */
  lemma RorThenRol(v: u8, c: bool)
    ensures var o := ShiftOp(Ror, v, c); ShiftOp(Rol, o.r, o.psw.c) == SpcOut(v, DefaultPsw.(c := c))
  {
    var q := v / 2;
    DivMod((q + 0x80 * CpuAlu.Carry(c)) * 2, 0x100, CpuAlu.Carry(c), 2 * q);
  }

  /** ASL and LSR are ROL and ROR with a clear carry in. */
  lemma ShiftsAreRotates(v: u8, c: bool)
    ensures ShiftOp(Asl, v, c) == ShiftOp(Rol, v, false) && ShiftOp(Lsr, v, c) == ShiftOp(Ror, v, false)
  {
  }

  /** `asl_a` (RAM wait state first), `rol_a`, `ror_a` (I/O wait state) and `lsr_a` (no wait state). */
  function ShiftASem(m: Machine, k: Shift): Machine
  {
    var a := m.regs.a;
    var m1 := match k
      case Asl => WaitRam(m)
      case Lsr => m
      case Rol | Ror => WaitIo(m);
    m1.(regs := m1.regs.(a := ShiftOp(k, a, m.regs.psw.c).r, psw := ShiftFlags(k, a, m.regs.psw)))
  }

  /** `asl_with_addressing` and the other three: read, shift, write back, flags. */
  function ShiftMemSem(m: Machine, k: Shift, mode: SpcMode): Option<Machine>
    requires MachineOk(m) && HasAddress(mode)
  {
    var g :- ReadOperand(m, mode);
    var m1 := Write8(g.m, g.v.at, ShiftOp(k, g.v.byte, g.m.regs.psw.c).r);
    Some(m1.(regs := m1.regs.(psw := ShiftFlags(k, g.v.byte, g.m.regs.psw))))
  }

  /** `wrapping_add(1)` or `wrapping_sub(1)` on a byte. */
  function Step8(v: u8, inc: bool): u8 { if inc then (v + 1) % 0x100 else (v - 1) % 0x100 }

  /** `inc_reg` (RAM wait state) and `dec_reg` (I/O wait state), with N and Z. */
  function IncDecRegSem(m: Machine, reg: Reg, inc: bool): Machine
  {
    var v := Step8(GetReg(m.regs, reg), inc);
    var m1 := if inc then WaitRam(m) else WaitIo(m);
    m1.(regs := SetReg(m1.regs, reg, v).(psw := SetNZ(m1.regs.psw, v)))
  }

  /** `inc_with_addressing`, `dec_with_addressing`: read, step, N and Z, write back. */
  function IncDecMemSem(m: Machine, mode: SpcMode, inc: bool): Option<Machine>
    requires MachineOk(m) && HasAddress(mode)
  {
    var g :- ReadOperand(m, mode);
    var v := Step8(g.v.byte, inc);
    Some(Write8(g.m.(regs := g.m.regs.(psw := SetNZ(g.m.regs.psw, v))), g.v.at, v))
  }

  /** Increment and decrement undo each other on a byte. */
  lemma Step8Inverse(v: u8)
    ensures Step8(Step8(v, true), false) == v && Step8(Step8(v, false), true) == v
  {
  }

  // ---------------------------------------------------------------- 16-bit operations on YA

  /** `movw_ya_dp`: address, the I/O wait state, the word into YA with N and Z from bit 15 and zero. */
  function MovwYaDpSem(m: Machine): Option<Machine>
    requires MachineOk(m)
  {
    var ad :- Address(m, DirectPage);
    var g :- Read16(WaitIo(ad.m), ad.v);
    Some(g.m.(regs := SetYa(g.m.regs, g.v).(psw := SetNZ16(g.m.regs.psw, g.v))))
  }

  /** `movw_dp_ya`: address, the I/O wait state, YA written low byte first. */
  function MovwDpYaSem(m: Machine): Option<Machine>
    requires MachineOk(m)
  {
    var ad :- Address(m, DirectPage);
    Some(Write16(WaitIo(ad.m), ad.v, GetYa(ad.m.regs)))
  }

  /** Bit 15 of a 16-bit value. */
  predicate Bit15(x: int) { x % 0x1_0000 >= 0x8000 }

  /**
   * `addw`'s result and flags: the `u32` sum, C from `v > 0xFFFF`, V from
   * bit 15 of the operands and the sum, H from the carry out of bit 11;
   * N and Z from the truncated sum.
   */
  function AddwOp(ya: u16, w: u16, p: Psw): (u16, Psw)
  {
    var v := ya + w;
    var r := v % 0x1_0000;
    (r, SetNZ16(p.(c := v > 0xFFFF), r).(v := Bit15(ya) == Bit15(w) && Bit15(v) != Bit15(ya),
                                          h := ya % 0x1000 + w % 0x1000 > 0xFFF))
  }

  /**
   * `subw`'s result and flags: the `u32` wrapping difference, C from
   * `!(v > 0xFFFF)`, V from bit 15, H from `!` the borrow out of bit 11.
   */
  function SubwOp(ya: u16, w: u16, p: Psw): (u16, Psw)
  {
    var v := (ya - w) % 0x1_0000_0000;
    var r := v % 0x1_0000;
    var h := (ya % 0x1000 - w % 0x1000) % 0x1_0000_0000 > 0xFFF;
    (r, SetNZ16(p.(c := !(v > 0xFFFF)), r).(v := Bit15(ya) != Bit15(w) && Bit15(v) != Bit15(ya),
                                             h := !h))
  }

  /** A difference of two words wrapped to 32 bits exceeds 0xFFFF exactly when it is negative, and keeps its low 16 bits. */
  lemma WrappedWordDifference(d: int)
    requires -0x1_0000 <= d <= 0xFFFF
    ensures d % 0x1_0000_0000 > 0xFFFF <==> d < 0
    ensures d % 0x1_0000_0000 % 0x1_0000 == d % 0x1_0000
  {
    if d >= 0 {
      DivMod(d, 0x1_0000_0000, 0, d);
    } else {
      DivMod(d, 0x1_0000_0000, -1, d + 0x1_0000_0000);
      DivMod(d + 0x1_0000_0000, 0x1_0000, 0xFFFF, d + 0x1_0000);
      DivMod(d, 0x1_0000, -1, d + 0x1_0000);
    }
  }

  /**
   * ADDW adds exactly: C and the result make up the sum, and H is the carry
   * out of the low twelve bits.
   */
  lemma AddwSpec(ya: u16, w: u16, p: Psw)
    ensures CpuAlu.Carry(AddwOp(ya, w, p).1.c) * 0x1_0000 + AddwOp(ya, w, p).0 == ya + w
    ensures AddwOp(ya, w, p).1.h <==> ya % 0x1000 + w % 0x1000 >= 0x1000
  {
    var v := ya + w;
    if v > 0xFFFF {
      DivMod(v, 0x1_0000, 1, v - 0x1_0000);
    } else {
      DivMod(v, 0x1_0000, 0, v);
    }
  }

  /**
   * SUBW subtracts exactly: C is set when there is no borrow, the result is
   * the difference modulo 2^16, and H is set when the low twelve bits do not
   * borrow.
   */
  lemma SubwSpec(ya: u16, w: u16, p: Psw)
    ensures SubwOp(ya, w, p).1.c <==> ya >= w
    ensures SubwOp(ya, w, p).0 == (ya - w) % 0x1_0000
    ensures SubwOp(ya, w, p).1.h <==> ya % 0x1000 >= w % 0x1000
  {
    WrappedWordDifference(ya - w);
    WrappedWordDifference(ya % 0x1000 - w % 0x1000);
  }

  /** `addw`: address, the word, the I/O wait state, YA + word. */
  function AddwSem(m: Machine): Option<Machine>
    requires MachineOk(m)
  {
    var ad :- Address(m, DirectPage);
    var g :- Read16(ad.m, ad.v);
    var m1 := WaitIo(g.m);
    var o := AddwOp(GetYa(m1.regs), g.v, m1.regs.psw);
    Some(m1.(regs := SetYa(m1.regs, o.0).(psw := o.1)))
  }

  /** `subw`: address, the word, the I/O wait state, YA - word. */
  function SubwSem(m: Machine): Option<Machine>
    requires MachineOk(m)
  {
    var ad :- Address(m, DirectPage);
    var g :- Read16(ad.m, ad.v);
    var m1 := WaitIo(g.m);
    var o := SubwOp(GetYa(m1.regs), g.v, m1.regs.psw);
    Some(m1.(regs := SetYa(m1.regs, o.0).(psw := o.1)))
  }

  /** `cmpw`: C set when YA >= the word, N and Z from the difference; YA unchanged. */
  function CmpwSem(m: Machine): Option<Machine>
    requires MachineOk(m)
  {
    var ad :- Address(m, DirectPage);
    var g :- Read16(ad.m, ad.v);
    var ya := GetYa(g.m.regs);
    Some(g.m.(regs := g.m.regs.(psw := SetNZ16(g.m.regs.psw.(c := ya >= g.v), (ya - g.v) % 0x1_0000))))
  }

  /** `wrapping_add(1)` or `wrapping_sub(1)` on a word. */
  function Step16(v: u16, inc: bool): u16 { if inc then (v + 1) % 0x1_0000 else (v - 1) % 0x1_0000 }

  /**
   * `incw`, `decw`: read the low byte and write it stepped, then read the
   * high byte and write the high byte of the stepped word, with N and Z from
   * the word.
   */
  function IncDecWordSem(m: Machine, inc: bool): Option<Machine>
    requires MachineOk(m)
  {
    var lo :- ReadOperand(m, DirectPage);
    var m1 := Write8(lo.m, lo.v.at, Step8(lo.v.byte, inc));
    var hiAddr := Offset(lo.v.at, 1);
    var hi :- Read8(m1, hiAddr);
    var v := Step16(CpuTypes.Word(lo.v.byte, hi.v), inc);
    Some(Write8(hi.m.(regs := hi.m.regs.(psw := SetNZ16(hi.m.regs.psw, v))), hiAddr, CpuTypes.Hi(v)))
  }

  /** The low byte `incw` and `decw` write first is the low byte of the stepped word. */
  lemma StepLowByte(lo: u8, hi: u8, inc: bool)
    ensures CpuTypes.Lo(Step16(CpuTypes.Word(lo, hi), inc)) == Step8(lo, inc)
  {
    var l := if inc then lo + 1 else lo - 1;
    var c := if l < 0 then -1 else if l >= 0x100 then 1 else 0;
    var t := hi * 0x100 + l;
    var q := if t < 0 then -1 else if t >= 0x1_0000 then 1 else 0;
    DivMod(t, 0x1_0000, q, t - q * 0x1_0000);
    var s := Step16(CpuTypes.Word(lo, hi), inc);
    assert s == t - q * 0x1_0000;
    var k := hi - 0x100 * q + c;
    DivMod(s, 0x100, k, l - c * 0x100);
    DivMod(l, 0x100, c, l - c * 0x100);
  }

  // ---------------------------------------------------------------- single bits

  /** `set_n_bit` (with an I/O wait state) and `clr_n_bit`: read, set or clear one bit, write back. */
  function SetClrBitSem(m: Machine, bit: nat, setting: bool): Option<Machine>
    requires MachineOk(m) && bit < 8
  {
    var ad :- Address(m, DirectPage);
    var m1 := if setting then WaitIo(ad.m) else ad.m;
    var g :- Read8(m1, ad.v);
    Some(Write8(g.m, ad.v, if setting then SetBit(g.v, bit) else ClearBit(g.v, bit)))
  }

  /** The `aaa.b` operand: a 13-bit address without wrapping and a bit number. */
  function MemBit(g: Got<u16>): WrapAddr { WrapAddr(MemBitAddress(g.v), NoWrap) }

  /** `not1`: flip one bit of memory. */
  function Not1Sem(m: Machine): Option<Machine>
    requires MachineOk(m)
  {
    var f :- Fetch16(m);
    MemBitSplit(f.v);
    var g :- Read8(f.m, MemBit(f));
    Some(Write8(g.m, MemBit(f), FlipBit(g.v, MemBitNumber(f.v))))
  }

  /** `mov1_aaa_b_c`: store C into one bit of memory, after an I/O wait state. */
  function Mov1ToMemSem(m: Machine): Option<Machine>
    requires MachineOk(m)
  {
    var f :- Fetch16(m);
    MemBitSplit(f.v);
    var g :- Read8(f.m, MemBit(f));
    Some(Write8(WaitIo(g.m), MemBit(f), StoreBit(g.v, MemBitNumber(f.v), g.m.regs.psw.c)))
  }

  /**
   * `mov1_c_aaa_b`, `or1`, `or_not1`, `and1`, `and_not1`, `eor1`: combine C
   * with one bit of memory. `or1` and `eor1` add the I/O wait state after the
   * read, `or_not1` before it.
   */
  function CarryBitSem(m: Machine, op: CarryBitOp): Option<Machine>
    requires MachineOk(m)
  {
    var f :- Fetch16(m);
    MemBitSplit(f.v);
    CarryBitFrom(f.m, op, f.v)
  }

  /** The carry-bit instructions once the `aaa.b` operand is fetched: the read with its wait states. */
  function CarryBitFrom(m: Machine, op: CarryBitOp, baaa: u16): Option<Machine>
    requires MachineOk(m)
  {
    MemBitSplit(baaa);
    var m1 := if op == OrNot1 then WaitIo(m) else m;
    var g :- Read8(m1, WrapAddr(MemBitAddress(baaa), NoWrap));
    Some(CarryBitResult(g, op, MemBitNumber(baaa)))
  }

  /** The end of the carry-bit instructions: the I/O wait state of `or1` and `eor1`, then C from the bit read. */
  function CarryBitResult(g: Got<u8>, op: CarryBitOp, bit: nat): Machine
    requires bit < 8
  {
    var m2 := if op == Or1 || op == Eor1 then WaitIo(g.m) else g.m;
    m2.(regs := m2.regs.(psw := m2.regs.psw.(c := CarryBit(op, m2.regs.psw.c, g.v, bit))))
  }

  /** The flag instructions. */
  datatype FlagOp = ClrC | SetC | NotC | ClrHv | ClrP | SetP | Ei | Di

  /** `clr_c`, `set_c`, `notc`, `clr_hv`, `clrp`, `setp`, `ei`, `di`, each with its wait states. */
  function FlagSem(m: Machine, f: FlagOp): Machine
  {
    var p := m.regs.psw;
    var q := match f
      case ClrC => p.(c := false)
      case SetC => p.(c := true)
      case NotC => p.(c := !p.c)
      case ClrHv => p.(h := false, v := false)
      case ClrP => p.(p := false)
      case SetP => p.(p := true)
      case Ei => p.(i := true)
      case Di => p.(i := false);
    var m1 := match f
      case ClrHv => WaitIo(m)
      case ClrC | ClrP | SetP => WaitRam(m)
      case _ => WaitIo(WaitRam(m));
    m1.(regs := m1.regs.(psw := q))
  }

  /** `tset`, `tclr`: test A against the operand and set or clear A's bits in it; `tclr` adds the RAM wait state. */
  function TestSetSem(m: Machine, setting: bool): Option<Machine>
    requires MachineOk(m)
  {
    var g :- ReadOperand(m, Absolute);
    var m1 := if setting then g.m else WaitRam(g.m);
    var o := TestAndSet(m1.regs.a, g.v.byte, m1.regs.psw, setting);
    Some(Write8(m1.(regs := m1.regs.(psw := o.psw)), g.v.at, o.r))
  }

  // ---------------------------------------------------------------- branches, jumps, calls

  /** The end of every relative branch: when taken, the wait states and `pc.wrapping_add(offset as i8 as u16)`. */
  function Jump(m: Machine, taken: bool, wait: nat, offset: u8): Machine
  {
    if taken then Wait(m, wait).(regs := m.regs.(pc := Relative(m.regs.pc, offset))) else m
  }

  /** `br`: the offset, then, when the condition holds, two I/O wait states and the jump. */
  function BranchSem(m: Machine, cond: SpcBranch): Option<Machine>
    requires MachineOk(m)
  {
    var f :- Fetch8(m);
    Some(Jump(f.m, CheckSpcBranch(cond, f.m.regs.psw), 2 * f.m.io.waitIo, f.v))
  }

  /** What `bb_sc` reads before it decides: the direct-page byte, the offset, and the machine after both. */
  function BitBranchOperands(m: Machine): (r: Option<(u8, u8, Machine)>)
    requires MachineOk(m)
    ensures r.Some? ==> MachineOk(r.value.2) && r.value.2.ram == m.ram
  {
    var g :- ReadOperand(m, DirectPage);
    var f :- Fetch8(WaitIo(g.m));
    Some((g.v.byte, f.v, f.m))
  }

  /** `bb_sc`: branch when bit `bit` of the direct-page byte is `is_set`, with two RAM wait states. */
  function BranchBitSem(m: Machine, bit: nat, isSet: bool): Option<Machine>
    requires MachineOk(m) && bit < 8
  {
    var o :- BitBranchOperands(m);
    Some(Jump(o.2, (CpuAlu.And8(o.0, BitMask(bit)) != 0) == isSet, 2 * o.2.io.waitRam, o.1))
  }

  /**
   * BBS and BBC test bit `bit` of the byte: BBS jumps exactly when it is set
   * and BBC exactly when it is clear, so of the two exactly one jumps.
   */
  lemma BranchBitTestsBit(m: Machine, bit: nat, isSet: bool)
    requires MachineOk(m) && bit < 8 && BitBranchOperands(m).Some?
    ensures var o := BitBranchOperands(m).value;
      BranchBitSem(m, bit, isSet) == Some(Jump(o.2, BitAt(o.0, bit) == isSet, 2 * o.2.io.waitRam, o.1))
  {
    CarryBitReadsBit(BitBranchOperands(m).value.0, bit);
  }

  /** `cbne`: address, the I/O wait state, the byte, the offset; branch when A differs, with the RAM wait state. */
  function CbneSem(m: Machine, mode: SpcMode): Option<Machine>
    requires MachineOk(m) && HasAddress(mode)
  {
    var ad :- Address(m, mode);
    var g :- Read8(WaitIo(ad.m), ad.v);
    var f :- Fetch8(g.m);
    Some(Jump(f.m, f.m.regs.a != g.v, f.m.io.waitRam, f.v))
  }

  /** `dbnz_y`: both wait states, Y - 1, the offset; branch while Y is not zero. */
  function DbnzYSem(m: Machine): Option<Machine>
    requires MachineOk(m)
  {
    var m1 := WaitIo(WaitRam(m));
    var f :- Fetch8(m1.(regs := m1.regs.(y := Step8(m1.regs.y, false))));
    Some(Jump(f.m, f.m.regs.y != 0, 2 * f.m.io.waitIo, f.v))
  }

  /**
   * DBNZ Y counts down: Y drops by one modulo 256 and the branch is taken
   * unless Y was 1, so starting from Y = n the loop body runs n times (256
   * times from 0); no flag changes.
   */
  lemma DbnzYCounts(m: Machine)
    requires MachineOk(m) && DbnzYSem(m).Some?
    ensures DbnzYSem(m).value.regs.y == (m.regs.y + 0xFF) % 0x100
    ensures DbnzYSem(m).value.regs.psw == m.regs.psw
    ensures m.regs.y == 1 ==> DbnzYSem(m).value.regs.pc == PcPlus(m.regs.pc, 1)
  {
    var y: int := m.regs.y;
    if y == 0 {
      DivMod(y - 1, 0x100, -1, 0xFF);
      DivMod(y + 0xFF, 0x100, 0, 0xFF);
    } else {
      DivMod(y - 1, 0x100, 0, y - 1);
      DivMod(y + 0xFF, 0x100, 1, y - 1);
    }
    var m1 := WaitIo(WaitRam(m));
    var f := Fetch8(m1.(regs := m1.regs.(y := Step8(y, false)))).value;
    assert f.m.regs.y == Step8(y, false);
  }

  /** `dbnz_dp`: the direct-page byte minus one is written back, then the offset; branch while it is not zero. */
  function DbnzDpSem(m: Machine): Option<Machine>
    requires MachineOk(m)
  {
    var g :- ReadOperand(m, DirectPage);
    var v := Step8(g.v.byte, false);
    var f :- Fetch8(Write8(g.m, g.v.at, v));
    Some(Jump(f.m, v != 0, 2 * f.m.io.waitIo, f.v))
  }

  /** `jmp_abs`. */
  function JmpAbsSem(m: Machine): Option<Machine>
    requires MachineOk(m)
  {
    var f :- Fetch16(m);
    Some(f.m.(regs := f.m.regs.(pc := f.v)))
  }

  /** `jmp_x_abs`: the destination is the word at the X-indexed absolute address. */
  function JmpXAbsSem(m: Machine): Option<Machine>
    requires MachineOk(m)
  {
    var ad :- Address(m, XIndexedAbsolute);
    var g :- Read16(ad.m, ad.v);
    Some(g.m.(regs := g.m.regs.(pc := g.v)))
  }

  /** `call`: the destination, three I/O wait states, push the return address, jump. */
  function CallSem(m: Machine): Option<Machine>
    requires MachineOk(m)
  {
    var f :- Fetch16(m);
    var m1 := Wait(f.m, 3 * f.m.io.waitIo);
    var m2 := Push16(m1, m1.regs.pc);
    Some(m2.(regs := m2.regs.(pc := f.v)))
  }

  /** The vector `tcall n` jumps through: `0xFFDE - 2n`. */
  function TcallVector(n: nat): u16
    requires n < 16
  {
    0xFFDE - 2 * n
  }

  /** `tcall_n`: three RAM wait states, push the return address, jump through the vector. */
  function TcallSem(m: Machine, n: nat): Option<Machine>
    requires MachineOk(m) && n < 16
  {
    var m1 := Wait(m, 3 * m.io.waitRam);
    var m2 := Push16(m1, m1.regs.pc);
    var g :- Read16(m2, WrapAddr(TcallVector(n), NoWrap));
    Some(g.m.(regs := g.m.regs.(pc := g.v)))
  }

  /** `pcall`: the page offset, two I/O wait states, push the return address, jump into page 0xFF. */
  function PcallSem(m: Machine): Option<Machine>
    requires MachineOk(m)
  {
    var f :- Fetch8(m);
    var m1 := Wait(f.m, 2 * f.m.io.waitIo);
    var m2 := Push16(m1, m1.regs.pc);
    Some(m2.(regs := m2.regs.(pc := 0xFF00 + f.v)))
  }

  /** `ret`: both wait states, pop PC. */
  function RetSem(m: Machine): (r: Machine)
    requires MachineOk(m)
    ensures MachineOk(r)
  {
    var g := Pop16(WaitIo(WaitRam(m)));
    g.m.(regs := g.m.regs.(pc := g.v))
  }

  /** `reti`: both wait states, pop PSW, pop PC. */
  function RetiSem(m: Machine): (r: Machine)
    requires MachineOk(m)
    ensures MachineOk(r)
  {
    var p := Pop8(WaitIo(WaitRam(m)));
    var m1 := p.m.(regs := p.m.regs.(psw := PswOfByte(p.v)));
    var g := Pop16(m1);
    g.m.(regs := g.m.regs.(pc := g.v))
  }

  /** `brk`: push PC and PSW, clear I, set B, two I/O wait states, jump through 0xFFDE. */
  function BrkSem(m: Machine): Option<Machine>
    requires MachineOk(m)
  {
    var m1 := Push8(Push16(m, m.regs.pc), PswByte(m.regs.psw));
    var m2 := m1.(regs := m1.regs.(psw := m1.regs.psw.(i := false, b := true)));
    var m3 := Wait(m2, 2 * m2.io.waitIo);
    var g :- Read16(m3, WrapAddr(0xFFDE, NoWrap));
    Some(g.m.(regs := g.m.regs.(pc := g.v)))
  }

  /** `nop`: the RAM wait state. */
  function NopSem(m: Machine): Machine { WaitRam(m) }

  // ---------------------------------------------------------------- calls and returns pair up

  /**
   * RET after a push of `ret` (with RAM taking writes): whatever happened to
   * PC, the counter and the I/O registers in between, RET jumps to `ret` and
   * SP is back where it was before the push.
   */
  lemma ReturnAfterPush(m1: Machine, ret: u16, m3: Machine)
    requires MachineOk(m1) && MachineOk(m3) && m1.io.ramWriteEnabled
    requires m3.ram == Push16(m1, ret).ram && m3.regs.sp == Push16(m1, ret).regs.sp
    ensures RetSem(m3).regs == m3.regs.(sp := m1.regs.sp, pc := ret)
  {
    Push16Writes(m1, ret);
    Pop16Below(WaitIo(WaitRam(m3)), m1.regs.sp, ret);
  }

  /** CALL then RET: execution resumes after CALL's two operand bytes, with every register as before CALL. */
  lemma CallThenRet(m: Machine)
    requires MachineOk(m) && m.io.ramWriteEnabled && CallSem(m).Some?
    ensures RetSem(CallSem(m).value).regs == m.regs.(pc := PcPlus(m.regs.pc, 2))
  {
    var f := Fetch16(m).value;
    var m1 := Wait(f.m, 3 * f.m.io.waitIo);
    ReturnAfterPush(m1, m1.regs.pc, CallSem(m).value);
  }

  /** PCALL then RET: the same, after PCALL's one operand byte. */
  lemma PcallThenRet(m: Machine)
    requires MachineOk(m) && m.io.ramWriteEnabled && PcallSem(m).Some?
    ensures RetSem(PcallSem(m).value).regs == m.regs.(pc := PcPlus(m.regs.pc, 1))
  {
    var f := Fetch8(m).value;
    var m1 := Wait(f.m, 2 * f.m.io.waitIo);
    ReturnAfterPush(m1, m1.regs.pc, PcallSem(m).value);
  }

  /** TCALL then RET: TCALL has no operand, so execution resumes right after it. */
  lemma TcallThenRet(m: Machine, n: nat)
    requires MachineOk(m) && m.io.ramWriteEnabled && n < 16
    ensures TcallSem(m, n).Some?
    ensures RetSem(TcallSem(m, n).value).regs == m.regs
  {
    var m1 := Wait(m, 3 * m.io.waitRam);
    var m2 := Push16(m1, m1.regs.pc);
    var v := WrapAddr(TcallVector(n), NoWrap);
    MemoryMap(m2, v);
    MemoryMap(Read8(m2, v).value.m, Offset(v, 1));
    ReturnAfterPush(m1, m1.regs.pc, TcallSem(m, n).value);
  }

  /**
   * The TCALL vectors lie in 0xFFC0..0xFFDF: TCALL 15 reads the first word
   * of the boot ROM window, TCALL 0 the word at 0xFFDE, so while the boot
   * ROM is mapped every TCALL jumps through a ROM word.
   */
  lemma TcallVectorInRom(n: nat)
    requires n < 16
    ensures 0xFFC0 <= TcallVector(n) && TcallVector(n) + 1 <= 0xFFDF
    ensures TcallVector(n) % 2 == 0
  {
  }

  /** While the boot ROM is mapped, TCALL n jumps to the ROM word at its vector. */
  lemma TcallThroughRom(m: Machine, n: nat)
    requires MachineOk(m) && n < 16 && m.io.romReadEnabled
    ensures TcallSem(m, n).Some?
    ensures var k := TcallVector(n) - 0xFFC0;
      TcallSem(m, n).value.regs.pc == CpuTypes.Word(BootRom[k], BootRom[k + 1])
  {
    var m1 := Wait(m, 3 * m.io.waitRam);
    Read16Rom(Push16(m1, m1.regs.pc), TcallVector(n));
  }

  /** What BRK leaves on the stack: PC's two bytes, then PSW, with SP three slots down. */
  lemma BrkStack(m: Machine)
    requires MachineOk(m) && BrkSem(m).Some?
    ensures BrkSem(m).value.ram == Push8(Push16(m, m.regs.pc), PswByte(m.regs.psw)).ram
    ensures BrkSem(m).value.regs.sp == (m.regs.sp - 3) % 0x100
  {
    StackArith(m.regs.sp);
    var m1 := Push8(Push16(m, m.regs.pc), PswByte(m.regs.psw));
    var m2 := m1.(regs := m1.regs.(psw := m1.regs.psw.(i := false, b := true)));
    var m3 := Wait(m2, 2 * m2.io.waitIo);
    var g := Read16(m3, WrapAddr(0xFFDE, NoWrap)).value;
    assert BrkSem(m).value == g.m.(regs := g.m.regs.(pc := g.v));
  }

  /**
   * RETI after a push of `ret` and of `psw`: RETI restores both, and SP is
   * back where it was before the pushes.
   */
  lemma ReturnFromInterrupt(m1: Machine, ret: u16, psw: Psw, m3: Machine)
    requires MachineOk(m1) && MachineOk(m3) && m1.io.ramWriteEnabled
    requires m3.ram == Push8(Push16(m1, ret), PswByte(psw)).ram && m3.regs.sp == (m1.regs.sp - 3) % 0x100
    ensures RetiSem(m3).regs == m3.regs.(sp := m1.regs.sp, pc := ret, psw := psw)
  {
    var sp := m1.regs.sp;
    var m2 := Push16(m1, ret);
    Push16Writes(m1, ret);
    PushWritesPageOne(m2, PswByte(psw));
    StackArith(sp);
    var m4 := WaitIo(WaitRam(m3));
    Pop8Reads(m4);
    PswByteRoundTrip(psw);
    var p := Pop8(m4);
    Pop16Below(p.m.(regs := p.m.regs.(psw := PswOfByte(p.v))), sp, ret);
  }

  /**
   * BRK then RETI: PSW comes back as it was before BRK (I and B included),
   * PC resumes right after BRK, and SP is restored.
   */
  lemma BrkThenReti(m: Machine)
    requires MachineOk(m) && m.io.ramWriteEnabled && BrkSem(m).Some?
    ensures RetiSem(BrkSem(m).value).regs == m.regs
  {
    BrkStack(m);
    ReturnFromInterrupt(m, m.regs.pc, m.regs.psw, BrkSem(m).value);
  }
}
