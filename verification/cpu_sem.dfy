/**
 * What one call of `excecute_instruction_` (src/cpu.rs) does, as a function
 * of the registers, the memory and the interrupt lines: the new registers,
 * the new memory and the master cycles spent. Each handler family of the
 * dispatch table has its own function here; the `Cpu` class (module
 * MainCpu) performs the same steps one field at a time and is proved to
 * agree with these functions.
 *
 * Every function takes the registers as they are after the opcode fetch, so
 * PC points at the first operand byte.
 */
module CpuSemantics {
  import opened Wrappers
  import opened Arith
  import opened CpuTypes
  import opened CpuAlu
  import opened CpuContext
  import opened CpuCore
  import opened CpuInstr

  /** The registers, the memory and the master cycles an instruction leaves behind. */
  datatype Outcome = Outcome(r: Regs, mem: seq<u8>, cycles: nat)

  /** PC moved past n operand bytes, wrapping within the bank as `fetch_8` does. */
  function Advance(r: Regs, n: nat): Regs
  {
    r.(pc := (r.pc + n) % 0x1_0000)
  }

  /** Moving PC past n bytes and then past k more is moving it past n + k; the k-th operand byte after the move is the (n + k)-th before it. */
  lemma AdvanceAdds(r: Regs, mem: seq<u8>, n: nat, k: nat)
    requires IsMemory(mem) && n + k < 0x1_0000
    ensures Advance(Advance(r, n), k) == Advance(r, n + k)
    ensures OpByte(Advance(r, n), mem, k) == OpByte(r, mem, n + k)
  {
    var m := (r.pc + n) % 0x1_0000;
    if r.pc + n < 0x1_0000 {
      DivMod(r.pc + n, 0x1_0000, 0, r.pc + n);
    } else {
      DivMod(r.pc + n, 0x1_0000, 1, r.pc + n - 0x1_0000);
    }
    if r.pc + n + k < 0x1_0000 {
      DivMod(r.pc + n + k, 0x1_0000, 0, r.pc + n + k);
      DivMod(m + k, 0x1_0000, 0, m + k);
    } else if m + k < 0x1_0000 {
      DivMod(r.pc + n + k, 0x1_0000, 1, r.pc + n + k - 0x1_0000);
      DivMod(m + k, 0x1_0000, 0, m + k);
    } else {
      DivMod(r.pc + n + k, 0x1_0000, 1, r.pc + n + k - 0x1_0000);
      DivMod(m + k, 0x1_0000, 1, m + k - 0x1_0000);
    }
  }

  /** `u8::from(p)` as a memory byte. */
  function StatusByte(p: Status): u8
  {
    StatusToByte(p) as int
  }

  /** `Status::from(byte)` for a memory byte. */
  function StatusOfByte(b: u8): Status
  {
    StatusFromByte(b as bv8)
  }

  /** A status register pushed by PHP or an exception comes back unchanged from PLP or RTI. */
  lemma StatusByteRoundTrip(p: Status)
    ensures StatusOfByte(StatusByte(p)) == p
  {
    StatusRoundTrip(0, p);
  }

  // ---------------------------------------------------------------- operands

  /** An operand value, the operand bytes consumed and the extra cycles spent finding it. */
  datatype Fetched = Fetched(value: u16, len: nat, cycles: nat)

  /** The operand of `alu`, `bit`, `cmp_xy` and the loads: immediate bytes, or 8 or 16 bits at the effective address. */
  function ReadOperand(r: Regs, mem: seq<u8>, src: Operand, wide: bool): (f: Fetched)
    requires IsMemory(mem)
    ensures !wide ==> f.value < 0x100
  {
    match src
    case Imm =>
      if wide then Fetched(OpWord(r, mem), 2, 0) else Fetched(OpByte(r, mem, 0), 1, 0)
    case Mem(mode) =>
      var ea := EffectiveAddress(r, mem, mode);
      Fetched(if wide then Mem16(mem, ea.w) else Mem8(mem, ea.w), ea.len, ea.cycles)
  }

  /** `set_nz` on a byte or a word. */
  function SetNZ(p: Status, v: u16, wide: bool): Status
    requires wide || v < 0x100
  {
    if wide then SetNZ16(p, v) else SetNZ8(p, v)
  }

  // ---------------------------------------------------------------- ALU instructions

  /** `alu`: the accumulator against the operand, at the accumulator's width. */
  function AluSem(r: Regs, mem: seq<u8>, op: AluType, src: Operand): Outcome
    requires IsMemory(mem)
  {
    var f := ReadOperand(r, mem, src, !IsA8(r));
    var o := if IsA8(r) then AluA8(op, r.a, f.value, r.p) else AluA16(op, r.a, f.value, r.p);
    Outcome(Advance(r, f.len).(a := o.a, p := o.p), mem, f.cycles)
  }

  /** `cmp_xy`: compare X or Y with the operand, at the index registers' width. */
  function CmpIndexSem(r: Regs, mem: seq<u8>, index: IndexRegister, src: Operand): Outcome
    requires IsMemory(mem)
  {
    var v := if index == IndexX then r.x else r.y;
    var f := ReadOperand(r, mem, src, !IsXY8(r));
    var q := if IsXY8(r) then AluA8(Cmp, v, f.value, r.p).p else AluA16(Cmp, v, f.value, r.p).p;
    Outcome(Advance(r, f.len).(p := q), mem, f.cycles)
  }

  /** `bit`: Z from A AND operand; N and V from the operand's top bits unless it is immediate. */
  function BitSem(r: Regs, mem: seq<u8>, src: Operand): Outcome
    requires IsMemory(mem)
  {
    var f := ReadOperand(r, mem, src, !IsA8(r));
    var q := if IsA8(r) then Bit8(Lo(r.a), f.value, src == Imm, r.p) else Bit16(r.a, f.value, src == Imm, r.p);
    Outcome(Advance(r, f.len).(p := q), mem, f.cycles)
  }

  /** The read-modify-write handlers: `tsb`, `trb`, the shifts with an address, `inc` and `dec`. */
  datatype Modify = ModTsb | ModTrb | ModShift(shift: ShiftOp) | ModInc | ModDec

  function Modify8(kind: Modify, a: u8, data: u8, p: Status): Out8
  {
    match kind
    case ModTsb => Tsb8(a, data, p)
    case ModTrb => Trb8(a, data, p)
    case ModShift(op) => Shift8(op, data, p)
    case ModInc => Out8(Inc8(data), SetNZ8(p, Inc8(data)))
    case ModDec => Out8(Dec8(data), SetNZ8(p, Dec8(data)))
  }

  function Modify16(kind: Modify, a: u16, data: u16, p: Status): Out16
  {
    match kind
    case ModTsb => Tsb16(a, data, p)
    case ModTrb => Trb16(a, data, p)
    case ModShift(op) => Shift16(op, data, p)
    case ModInc => Out16(Inc16(data), SetNZ16(p, Inc16(data)))
    case ModDec => Out16(Dec16(data), SetNZ16(p, Dec16(data)))
  }

  /** The internal cycle each read-modify-write handler spends besides the address. */
  function ModifyCycles(kind: Modify): nat
  {
    if kind == ModTsb || kind == ModTrb then 0 else CpuCycle
  }

  /** Read the operand at the effective address, compute, and write the result back at the memory width. */
  function ModifySem(r: Regs, mem: seq<u8>, mode: MemMode, kind: Modify): (o: Outcome)
    requires IsMemory(mem)
    ensures IsMemory(o.mem)
  {
    var ea := EffectiveAddress(r, mem, mode);
    var r1 := Advance(r, ea.len);
    if IsA8(r) then
      var out := Modify8(kind, Lo(r.a), Mem8(mem, ea.w), r.p);
      Outcome(r1.(p := out.p), mem[ea.w.addr := out.r], ea.cycles + ModifyCycles(kind))
    else
      var out := Modify16(kind, r.a, Mem16(mem, ea.w), r.p);
      Outcome(r1.(p := out.p), Store16(mem, ea.w, out.r), ea.cycles + ModifyCycles(kind))
  }

  /** `asl_a`, `lsr_a`, `rol_a`, `ror_a`: an 8-bit shift keeps the high byte of A. */
  function ShiftASem(r: Regs, op: ShiftOp): Regs
  {
    if IsA8(r) then
      var o := Shift8(op, Lo(r.a), r.p);
      r.(a := SetLow(r.a, o.r), p := o.p)
    else
      var o := Shift16(op, r.a, r.p);
      r.(a := o.r, p := o.p)
  }

  // ---------------------------------------------------------------- registers

  /** Whether a register is 8 bits wide in the current mode: A follows M, X and Y follow X. */
  predicate Narrow(r: Regs, reg: Register)
  {
    if reg == A then IsA8(r) else IsXY8(r)
  }

  function Get(r: Regs, reg: Register): u16
  {
    match reg
    case A => r.a
    case X => r.x
    case Y => r.y
  }

  /**
   * Load a register with v at its width: an 8-bit A keeps its high byte, an
   * 8-bit X or Y is zero-extended (`data as u16`); N and Z follow v.
   */
  function Put(r: Regs, reg: Register, v: u16): Regs
    requires !Narrow(r, reg) || v < 0x100
  {
    var narrow := Narrow(r, reg);
    var p := SetNZ(r.p, v, !narrow);
    match reg
    case A => r.(a := if narrow then SetLow(r.a, v) else v, p := p)
    case X => r.(x := v, p := p)
    case Y => r.(y := v, p := p)
  }

  /** `ina`/`inx`/`iny` and `dea`/`dex`/`dey`: wrap at the register's width. */
  function StepRegister(r: Regs, reg: Register, up: bool): Regs
  {
    var v := Get(r, reg);
    if Narrow(r, reg) then Put(r, reg, if up then Inc8(Lo(v)) else Dec8(Lo(v)))
    else Put(r, reg, if up then Inc16(v) else Dec16(v))
  }

  /** `lda`, `ldx`, `ldy` and their immediate forms. */
  function LoadSem(r: Regs, mem: seq<u8>, reg: Register, src: Operand): Outcome
    requires IsMemory(mem)
  {
    var f := ReadOperand(r, mem, src, !Narrow(r, reg));
    Outcome(Put(Advance(r, f.len), reg, f.value), mem, f.cycles)
  }

  /** `sta`, `stx`, `sty`, `stz`: A and zero are stored at the memory width, X and Y at the index width. */
  function StoreSem(r: Regs, mem: seq<u8>, stored: StoreSource, mode: MemMode): (o: Outcome)
    requires IsMemory(mem)
    ensures IsMemory(o.mem)
  {
    var ea := EffectiveAddress(r, mem, mode);
    var narrow := if stored == StoreX || stored == StoreY then IsXY8(r) else IsA8(r);
    var v := match stored
      case StoreA => r.a
      case StoreX => r.x
      case StoreY => r.y
      case StoreZero => 0;
    var m := if narrow then mem[ea.w.addr := Lo(v)] else Store16(mem, ea.w, v);
    Outcome(Advance(r, ea.len), m, ea.cycles)
  }

  /** The register transfers. */
  function TransferSem(r: Regs, t: TransferOp): Regs
  {
    match t
    case Tay => Put(r, Y, if IsXY8(r) then Lo(r.a) else r.a)
    case Tax => Put(r, X, if IsXY8(r) then Lo(r.a) else r.a)
    case Tsx => Put(r, X, if IsXY8(r) then Lo(r.s) else r.s)
    case Tya => Put(r, A, if IsA8(r) then Lo(r.y) else r.y)
    case Txa => Put(r, A, if IsA8(r) then Lo(r.x) else r.x)
    case Txs => r.(s := if r.e then SetLow(r.s, Lo(r.x)) else r.x)
    case Txy => Put(r, Y, if IsXY8(r) then Lo(r.x) else r.x)
    case Tyx => Put(r, X, if IsXY8(r) then Lo(r.y) else r.y)
    case Tdc => r.(a := r.d, p := SetNZ16(r.p, r.d))
    case Tcd => r.(d := r.a, p := SetNZ16(r.p, r.a))
    case Tsc => r.(a := r.s, p := SetNZ16(r.p, r.s))
    case Tcs => r.(s := if r.e then SetLow(r.s, Lo(r.a)) else r.a)
  }

  // ---------------------------------------------------------------- stack instructions

  /** The registers' stack. */
  function StackOf(r: Regs, mem: seq<u8>): Stack { Stack(mem, r.s) }

  /** The byte `pop_8` returns and the registers with S moved up. */
  function Popped8(r: Regs, mem: seq<u8>): u8
    requires IsMemory(mem)
  {
    Pull8(mem, r.s, r.e)
  }

  function AfterPop8(r: Regs): Regs { r.(s := PopS(r.s, r.e)) }

  function Popped16(r: Regs, mem: seq<u8>): u16
    requires IsMemory(mem)
  {
    Pull16(mem, r.s, r.e)
  }

  function AfterPop16(r: Regs): Regs { AfterPop8(AfterPop8(r)) }

  /** `pha` ... `phd`: one internal cycle, then the register at its width. */
  function PushSem(r: Regs, mem: seq<u8>, pushed: PushSource): (o: Outcome)
    requires IsMemory(mem)
    ensures IsMemory(o.mem)
  {
    var st := StackOf(r, mem);
    var st' := match pushed
      case PushA => if IsA8(r) then Push8(st, r.e, Lo(r.a)) else Push16(st, r.e, r.a)
      case PushX => if IsXY8(r) then Push8(st, r.e, Lo(r.x)) else Push16(st, r.e, r.x)
      case PushY => if IsXY8(r) then Push8(st, r.e, Lo(r.y)) else Push16(st, r.e, r.y)
      case PushP => Push8(st, r.e, StatusByte(r.p))
      case PushDB => Push8(st, r.e, r.db)
      case PushPB => Push8(st, r.e, r.pb)
      case PushD => Push16(st, r.e, r.d);
    Outcome(r.(s := st'.s), st'.mem, CpuCycle)
  }

  /** `pla` ... `plp`: two internal cycles; PLD and PLB set N and Z, PLP loads P whole. */
  function PullSem(r: Regs, mem: seq<u8>, pulled: PullTarget): Regs
    requires IsMemory(mem)
  {
    match pulled
    case PullA => if IsA8(r) then Put(AfterPop8(r), A, Popped8(r, mem)) else Put(AfterPop16(r), A, Popped16(r, mem))
    case PullX => if IsXY8(r) then Put(AfterPop8(r), X, Popped8(r, mem)) else Put(AfterPop16(r), X, Popped16(r, mem))
    case PullY => if IsXY8(r) then Put(AfterPop8(r), Y, Popped8(r, mem)) else Put(AfterPop16(r), Y, Popped16(r, mem))
    case PullD => AfterPop16(r).(d := Popped16(r, mem), p := SetNZ16(r.p, Popped16(r, mem)))
    case PullDB => AfterPop8(r).(db := Popped8(r, mem), p := SetNZ8(r.p, Popped8(r, mem)))
    case PullP => AfterPop8(r).(p := StatusOfByte(Popped8(r, mem)))
  }

  /** Push a word and set S: the common tail of `pei`, `pea`, `per`, `jsr_abs` and `jsr_aix`. */
  function PushWord(r: Regs, mem: seq<u8>, data: u16): (o: Outcome)
    requires IsMemory(mem)
    ensures IsMemory(o.mem)
  {
    var st := Push16(StackOf(r, mem), r.e, data);
    Outcome(r.(s := st.s), st.mem, 0)
  }

  /** `pei`: push the word at the direct-page operand. */
  function PeiSem(r: Regs, mem: seq<u8>): (o: Outcome)
    requires IsMemory(mem)
    ensures IsMemory(o.mem)
  {
    var ea := EffectiveAddress(r, mem, Direct);
    PushWord(Advance(r, ea.len), mem, Mem16(mem, ea.w)).(cycles := ea.cycles)
  }

  /** `pea`: push the operand word. */
  function PeaSem(r: Regs, mem: seq<u8>): (o: Outcome)
    requires IsMemory(mem)
    ensures IsMemory(o.mem)
  {
    PushWord(Advance(r, 2), mem, OpWord(r, mem))
  }

  /** `per`: push the operand word added to the address of the next instruction, wrapping within the bank. */
  function PerSem(r: Regs, mem: seq<u8>): (o: Outcome)
    requires IsMemory(mem)
    ensures IsMemory(o.mem)
  {
    var r1 := Advance(r, 2);
    PushWord(r1, mem, (r1.pc + OpWord(r, mem)) % 0x1_0000).(cycles := CpuCycle)
  }

  // ---------------------------------------------------------------- exceptions

  /**
   * `exeption`: leave WAI, in emulation mode put the B flag (P bit 4) for BRK
   * and COP, push PB in native mode only, then PC and P, set I, clear PB and
   * load PC from the vector, read after the pushes.
   */
  function ExceptionEntry(r: Regs, mem: seq<u8>, ex: Exception): (o: Outcome)
    requires IsMemory(mem)
    ensures IsMemory(o.mem)
    ensures o.r == r.(halt := false, p := o.r.p, s := o.r.s, pb := 0, pc := o.r.pc) && o.cycles == 0
    ensures o.r.p == r.p.(i := true, x := o.r.p.x) && (!r.e ==> o.r.p.x == r.p.x)
    ensures o.r.pc == Mem16(o.mem, WarpAddress(InterruptVector(ex, r.e), NoWarp))
  {
    var p1 := if r.e then r.p.(x := ex == Brk || ex == Cop) else r.p;
    var st0 := StackOf(r, mem);
    var st1 := if r.e then st0 else Push8(st0, r.e, r.pb);
    var st2 := Push16(st1, r.e, r.pc);
    var st3 := Push8(st2, r.e, StatusByte(p1));
    var pc := Mem16(st3.mem, WarpAddress(InterruptVector(ex, r.e), NoWarp));
    Outcome(r.(halt := false, p := p1.(i := true), s := st3.s, pb := 0, pc := pc), st3.mem, 0)
  }

  /** `brk` and `cop`: skip the signature byte; in emulation mode DB is cleared; then the exception. */
  function SoftwareInterrupt(r: Regs, mem: seq<u8>, ex: Exception): (o: Outcome)
    requires IsMemory(mem)
    ensures IsMemory(o.mem)
  {
    var r1 := Advance(r, 1);
    ExceptionEntry(if r.e then r1.(db := 0) else r1, mem, ex)
  }

  // ---------------------------------------------------------------- jumps and branches

  /** `jmp_disp_8`: one cycle, plus one in emulation mode when the page changes. */
  function BranchAlwaysSem(r: Regs, mem: seq<u8>): Outcome
    requires IsMemory(mem)
  {
    var disp := OpByte(r, mem, 0);
    var r1 := Advance(r, 1);
    var penalty := if r.e && Lo(r1.pc) + disp >= 0x100 then CpuCycle else 0;
    Outcome(r1.(pc := BranchTarget(r1.pc, disp)), mem, CpuCycle + penalty)
  }

  /** `cond_branch`: if the condition holds, one cycle, plus one in emulation mode when the page changes. */
  function BranchSem(r: Regs, mem: seq<u8>, cond: BranchType): Outcome
    requires IsMemory(mem)
  {
    var disp := OpByte(r, mem, 0);
    var r1 := Advance(r, 1);
    if CheckBranchCondition(cond, r.p) then
      var target := BranchTarget(r1.pc, disp);
      Outcome(r1.(pc := target), mem, CpuCycle + (if r.e && Hi(r1.pc) != Hi(target) then CpuCycle else 0))
    else
      Outcome(r1, mem, 0)
  }

  /** `jmp_disp_16`: the 16-bit displacement is added to the address of the next instruction. */
  function BranchLongSem(r: Regs, mem: seq<u8>): Outcome
    requires IsMemory(mem)
  {
    var r1 := Advance(r, 2);
    Outcome(r1.(pc := (r1.pc + OpWord(r, mem)) % 0x1_0000), mem, CpuCycle)
  }

  /** `jmp_abs`: jump within the program bank. */
  function JmpSem(r: Regs, mem: seq<u8>): Outcome
    requires IsMemory(mem)
  {
    Outcome(r.(pc := OpWord(r, mem)), mem, 0)
  }

  /** `jmp_abs_long`: the 24-bit operand gives the bank and PC. */
  function JmlSem(r: Regs, mem: seq<u8>): Outcome
    requires IsMemory(mem)
  {
    var target := OpLong(r, mem);
    Outcome(r.(pc := target % 0x1_0000, pb := target / 0x1_0000), mem, 0)
  }

  /** `jmp_nnnn`: PC from the word at the operand in bank 0. */
  function JmpIndirectSem(r: Regs, mem: seq<u8>): Outcome
    requires IsMemory(mem)
  {
    Outcome(r.(pc := Mem16(mem, WarpAddress(OpWord(r, mem), Warp16bit))), mem, 0)
  }

  /** `jmp_nnnn_x`: PC from the word at the operand plus X in the program bank. */
  function JmpIndexedIndirectSem(r: Regs, mem: seq<u8>): Outcome
    requires IsMemory(mem)
  {
    var pointer := Offset(WarpAddress(Long(r.pb, OpWord(r, mem)), Warp16bit), r.x);
    Outcome(r.(pc := Mem16(mem, pointer)), mem, CpuCycle)
  }

  /** `jmp_far`: bank and PC from the 24-bit value at the operand in bank 0. */
  function JmlIndirectSem(r: Regs, mem: seq<u8>): Outcome
    requires IsMemory(mem)
  {
    var target := Mem24(mem, WarpAddress(OpWord(r, mem), Warp16bit));
    Outcome(r.(pc := target % 0x1_0000, pb := target / 0x1_0000), mem, 0)
  }

  /** `jsr_abs`: push the address of the last operand byte, then jump within the bank. */
  function JsrSem(r: Regs, mem: seq<u8>): (o: Outcome)
    requires IsMemory(mem)
    ensures IsMemory(o.mem)
  {
    var target := OpWord(r, mem);
    var r1 := Advance(r, 2);
    var o := PushWord(r1, mem, Dec16(r1.pc));
    Outcome(o.r.(pc := target), o.mem, CpuCycle)
  }

  /** `jsl_far`: push PB, then the address of the last operand byte; jump to the 24-bit operand. */
  function JslSem(r: Regs, mem: seq<u8>): (o: Outcome)
    requires IsMemory(mem)
    ensures IsMemory(o.mem)
  {
    var target := OpWord(r, mem);
    var bank := OpByte(r, mem, 2);
    var r1 := Advance(r, 3);
    var st := Push8(StackOf(r1, mem), r.e, r.pb);
    var o := PushWord(r1.(s := st.s), st.mem, Dec16(r1.pc));
    Outcome(o.r.(pc := target, pb := bank), o.mem, CpuCycle)
  }

  /** `jsr_aix`: the target is read through the (absolute + X) pointer in the program bank. */
  function JsrIndexedIndirectSem(r: Regs, mem: seq<u8>): (o: Outcome)
    requires IsMemory(mem)
    ensures IsMemory(o.mem)
  {
    var ea := EffectiveAddress(r, mem, AbsoluteIndexedIndirect);
    var target := Mem16(mem, ea.w);
    var r1 := Advance(r, ea.len);
    var o := PushWord(r1, mem, Dec16(r1.pc));
    Outcome(o.r.(pc := target), o.mem, ea.cycles + CpuCycle)
  }

  /** `rti`: pull P, then PC, then (native mode only) PB. */
  function RtiSem(r: Regs, mem: seq<u8>): Outcome
    requires IsMemory(mem)
  {
    var p := StatusOfByte(Popped8(r, mem));
    var r1 := AfterPop8(r);
    var pc := Popped16(r1, mem);
    var r2 := AfterPop16(r1);
    if r.e then Outcome(r2.(p := p, pc := pc), mem, CpuCycle)
    else Outcome(AfterPop8(r2).(p := p, pc := pc, pb := Popped8(r2, mem)), mem, 2 * CpuCycle)
  }

  /** `rtl`: pull PC (then add one) and PB. */
  function RtlSem(r: Regs, mem: seq<u8>): Regs
    requires IsMemory(mem)
  {
    var r1 := AfterPop16(r);
    AfterPop8(r1).(pc := Inc16(Popped16(r, mem)), pb := Popped8(r1, mem))
  }

  /** `rts`: pull PC and add one. */
  function RtsSem(r: Regs, mem: seq<u8>): Regs
    requires IsMemory(mem)
  {
    AfterPop16(r).(pc := Inc16(Popped16(r, mem)))
  }

  // ---------------------------------------------------------------- block move

  /**
   * `mvp` (`up` false) and `mvn` (`up` true): copy one byte from bank `src`
   * at X to bank `dst` at Y, step X and Y at their width, decrement A, and
   * go back to the opcode unless A wrapped to 0xFFFF. DB becomes `dst`.
   */
  function MoveSem(r: Regs, mem: seq<u8>, up: bool): (o: Outcome)
    requires IsMemory(mem)
    ensures IsMemory(o.mem)
  {
    var dst := OpByte(r, mem, 0);
    var src := OpByte(r, mem, 1);
    var r1 := Advance(r, 2);
    var data := mem[Long(src, r.x)];
    var m := mem[Long(dst, r.y) := data];
    var a := Dec16(r.a);
    var pc := if a != 0xFFFF then (r1.pc - 3) % 0x1_0000 else r1.pc;
    Outcome(r1.(db := dst, x := MoveIndex(r, r.x, up), y := MoveIndex(r, r.y, up), a := a, pc := pc), m, 2 * CpuCycle)
  }

  /** An index register stepped by a block move: up (`mvn`) or down (`mvp`), at the index width. */
  function MoveIndex(r: Regs, v: u16, up: bool): u16
  {
    if IsXY8(r) then (if up then Inc8(Lo(v)) else Dec8(Lo(v)))
    else (if up then Inc16(v) else Dec16(v))
  }

  // ---------------------------------------------------------------- flags

  /** `clc` ... `sed`. */
  function FlagSem(p: Status, f: FlagOp): Status
  {
    match f
    case Clc => p.(c := false)
    case Cli => p.(i := false)
    case Cld => p.(d := false)
    case Clv => p.(v := false)
    case Sec => p.(c := true)
    case Sei => p.(i := true)
    case Sed => p.(d := true)
  }

  /** `rep` (`setting` false) and `sep` (`setting` true): clear or set the status bits given by the operand byte. */
  function StatusBitsSem(r: Regs, mem: seq<u8>, setting: bool): Outcome
    requires IsMemory(mem)
  {
    var mask := OpByte(r, mem, 0) as bv8;
    Outcome(Advance(r, 1).(p := if setting then Sep(r.p, mask) else Rep(r.p, mask)), mem, CpuCycle)
  }

  /** `xba`: swap the bytes of A; N and Z follow the new low byte, the old high byte. */
  function XbaSem(r: Regs): Regs
  {
    r.(a := Word(Hi(r.a), Lo(r.a)), p := SetNZ8(r.p, Hi(r.a)))
  }

  // ---------------------------------------------------------------- dispatch

  /** The four families the opcode table is split into, so that each is executed by a dispatch of its own. */
  datatype InstrGroup = Arithmetic | MemoryModify | DataTransfer | ControlFlow | Miscellaneous

  function GroupOf(instr: Instr): InstrGroup
  {
    match instr
    case Break | Coprocessor | Alu(_, _) | CmpIndex(_, _) | BitTest(_) | ShiftA(_) | IncReg(_) | DecReg(_) => Arithmetic
    case Tsb(_) | Trb(_) | ShiftMem(_, _) | IncMem(_) | DecMem(_) => MemoryModify
    case Transfer(_) | Load(_, _) | Store(_, _) | Push(_) | Pei | Pea | Per | Pull(_) => DataTransfer
    case BranchAlways | BranchLong | Jmp | Jml | JmpIndirect | JmpIndexedIndirect | JmlIndirect | Jsr | Jsl | JsrIndexedIndirect | Rti | Rtl | Rts | Branch(_) => ControlFlow
    case _ => Miscellaneous
  }

  /** The effect of the ALU, accumulator-shift and register-step instructions. */
  function ExecuteArithmetic(r: Regs, mem: seq<u8>, instr: Instr): (o: Outcome)
    requires IsMemory(mem) && GroupOf(instr) == Arithmetic
    ensures IsMemory(o.mem)
    ensures o.r.e == r.e
  {
    match instr
    case Break => SoftwareInterrupt(r, mem, Brk)
    case Coprocessor => SoftwareInterrupt(r, mem, Cop)
    case Alu(op, src) => AluSem(r, mem, op, src)
    case CmpIndex(index, src) => CmpIndexSem(r, mem, index, src)
    case BitTest(src) => BitSem(r, mem, src)
    case ShiftA(op) => Outcome(ShiftASem(r, op), mem, CpuCycle)
    case IncReg(reg) => Outcome(StepRegister(r, reg, true), mem, CpuCycle)
    case DecReg(reg) => Outcome(StepRegister(r, reg, false), mem, CpuCycle)
    case _ => assert false; Outcome(r, mem, CpuCycle)
  }

  /** The effect of the read-modify-write instructions on memory operands. */
  function ExecuteModify(r: Regs, mem: seq<u8>, instr: Instr): (o: Outcome)
    requires IsMemory(mem) && GroupOf(instr) == MemoryModify
    ensures IsMemory(o.mem)
    ensures o.r.e == r.e
  {
    match instr
    case Tsb(mode) => ModifySem(r, mem, mode, ModTsb)
    case Trb(mode) => ModifySem(r, mem, mode, ModTrb)
    case ShiftMem(op, mode) => ModifySem(r, mem, mode, ModShift(op))
    case IncMem(mode) => ModifySem(r, mem, mode, ModInc)
    case DecMem(mode) => ModifySem(r, mem, mode, ModDec)
    case _ => assert false; Outcome(r, mem, CpuCycle)
  }

  /** The effect of loads, stores, transfers and the stack instructions. */
  function ExecuteTransfer(r: Regs, mem: seq<u8>, instr: Instr): (o: Outcome)
    requires IsMemory(mem) && GroupOf(instr) == DataTransfer
    ensures IsMemory(o.mem)
    ensures o.r.e == r.e
  {
    match instr
    case Transfer(t) => Outcome(TransferSem(r, t), mem, CpuCycle)
    case Load(reg, src) => LoadSem(r, mem, reg, src)
    case Store(stored, mode) => StoreSem(r, mem, stored, mode)
    case Push(pushed) => PushSem(r, mem, pushed)
    case Pei => PeiSem(r, mem)
    case Pea => PeaSem(r, mem)
    case Per => PerSem(r, mem)
    case Pull(pulled) => Outcome(PullSem(r, mem, pulled), mem, 2 * CpuCycle)
    case _ => assert false; Outcome(r, mem, CpuCycle)
  }

  /** The effect of jumps, branches, calls and returns. */
  function ExecuteControl(r: Regs, mem: seq<u8>, instr: Instr): (o: Outcome)
    requires IsMemory(mem) && GroupOf(instr) == ControlFlow
    ensures IsMemory(o.mem)
    ensures o.r.e == r.e
  {
    match instr
    case BranchAlways => BranchAlwaysSem(r, mem)
    case BranchLong => BranchLongSem(r, mem)
    case Jmp => JmpSem(r, mem)
    case Jml => JmlSem(r, mem)
    case JmpIndirect => JmpIndirectSem(r, mem)
    case JmpIndexedIndirect => JmpIndexedIndirectSem(r, mem)
    case JmlIndirect => JmlIndirectSem(r, mem)
    case Jsr => JsrSem(r, mem)
    case Jsl => JslSem(r, mem)
    case JsrIndexedIndirect => JsrIndexedIndirectSem(r, mem)
    case Rti => RtiSem(r, mem)
    case Rtl => Outcome(RtlSem(r, mem), mem, 2 * CpuCycle)
    case Rts => Outcome(RtsSem(r, mem), mem, 3 * CpuCycle)
    case Branch(cond) => BranchSem(r, mem, cond)
    case _ => assert false; Outcome(r, mem, CpuCycle)
  }

  /** The effect of the status-flag, mode and block-move instructions. */
  function ExecuteMisc(r: Regs, mem: seq<u8>, instr: Instr): (o: Outcome)
    requires IsMemory(mem) && GroupOf(instr) == Miscellaneous
    ensures IsMemory(o.mem)
    ensures instr != ExchangeCE ==> o.r.e == r.e
  {
    match instr
    case Flag(f) => Outcome(r.(p := FlagSem(r.p, f)), mem, CpuCycle)
    case ResetFlags => StatusBitsSem(r, mem, false)
    case SetFlags => StatusBitsSem(r, mem, true)
    case ExchangeCE => Outcome(Xce(r), mem, CpuCycle)
    case Stop => Outcome(r.(stop := true), mem, CpuCycle)
    case ExchangeBA => Outcome(XbaSem(r), mem, CpuCycle)
    case WaitForInterrupt => Outcome(r.(halt := true), mem, 2 * CpuCycle)
    case Reserved => Outcome(Advance(r, 1), mem, 0)
    case Nop => Outcome(r, mem, CpuCycle)
    case MovePrevious => MoveSem(r, mem, false)
    case MoveNext => MoveSem(r, mem, true)
    case _ => assert false; Outcome(r, mem, CpuCycle)
  }

  /** The effect of one instruction, its operand bytes following the opcode at PB:PC. */
  function Execute(r: Regs, mem: seq<u8>, instr: Instr): (o: Outcome)
    requires IsMemory(mem)
    ensures IsMemory(o.mem)
    ensures instr != ExchangeCE ==> o.r.e == r.e
  {
    match GroupOf(instr)
    case Arithmetic => ExecuteArithmetic(r, mem, instr)
    case MemoryModify => ExecuteModify(r, mem, instr)
    case DataTransfer => ExecuteTransfer(r, mem, instr)
    case ControlFlow => ExecuteControl(r, mem, instr)
    case Miscellaneous => ExecuteMisc(r, mem, instr)
  }

  /**
   * `excecute_instruction_`: nothing when the clock has moved past `prev_counter`;
   * otherwise an NMI, else an unmasked IRQ (each after a dummy read and one
   * cycle), else one idle cycle while halted with no IRQ, else fetch and
   * execute an opcode (a pending IRQ ends WAI even when masked).
   */
  function Step(r: Regs, mem: seq<u8>, prevCounter: nat, now: nat, nmi: bool, irq: bool): (o: Outcome)
    requires IsMemory(mem)
    ensures IsMemory(o.mem)
    ensures prevCounter < now ==> o == Outcome(r, mem, 0)
    ensures prevCounter >= now && (nmi || (irq && !r.p.i)) ==> o.r.p.i && o.r.pb == 0 && !o.r.halt && o.cycles == CpuCycle
    ensures prevCounter >= now && !nmi && !irq && r.halt ==> o == Outcome(r, mem, CpuCycle)
  {
    match Arbitrate(prevCounter, now, nmi, irq, r.p.i, r.halt)
    case Behind => Outcome(r, mem, 0)
    case TakeNmi => ExceptionEntry(r, mem, Nmi).(cycles := CpuCycle)
    case TakeIrq => ExceptionEntry(r, mem, Irq).(cycles := CpuCycle)
    case Waiting => Outcome(r, mem, CpuCycle)
    case RunOpcode =>
      var r1 := r.(halt := false);
      Execute(Advance(r1, 1), mem, Decode(OpByte(r1, mem, 0)))
  }
}
