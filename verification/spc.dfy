/**
 * The audio CPU itself (src/spc.rs, `Spc`): the registers and the cycle
 * counter are fields that every handler updates in place, and RAM is the
 * DSP's array, reached through the I/O registers. Every method is proved
 * against the function of `SpcMemory`, `SpcSemantics` or `SpcDispatch` that
 * describes it on values: `State()` after the call is that function applied
 * to `State()` before it.
 *
 * Where the source panics, a method returns `ok == false` and promises
 * nothing about the state, as the function returns `None`.
 */
module AudioCpu {
  import opened Wrappers
  import opened CpuTypes
  import opened SpcTypes
  import opened SpcAlu
  import opened SpcIo
  import opened SpcMemory
  import opened SpcSemantics
  import opened SpcDispatch

  /** A method that reads returned what the function says, and left the state it says. */
  predicate Returned<T(==)>(spec: Option<Got<T>>, ok: bool, v: T, m: Machine)
  {
    (ok <==> spec.Some?) && (ok ==> spec.value == Got(v, m))
  }

  /** A method that only changes state left the state the function says, or panicked where it does. */
  predicate Done(spec: Option<Machine>, ok: bool, m: Machine)
  {
    (ok <==> spec.Some?) && (ok ==> spec.value == m)
  }

  class Spc {
    var regs: SpcRegs
    var counter: nat
    const io: IoRegisters

    /** Everything a handler may change: the CPU, the I/O registers, the DSP and its RAM. */
    ghost function Repr(): (r: set<object>)
      ensures this in r && io in r && io.dsp in r && io.dsp.noise in r
    {
      {this, io, io.cpuIn, io.cpuOut, io.externalPorts, io.timers, io.dsp, io.dsp.ram, io.dsp.voices, io.dsp.noise}
    }

    ghost predicate Valid()
      reads io, io.dsp, io.dsp.noise
    {
      io.Valid()
    }

    /** The machine the value-level model works on. */
    ghost function State(): (m: Machine)
      requires Valid()
      reads this, io, io.cpuIn, io.cpuOut, io.externalPorts, io.timers, io.dsp, io.dsp.ram, io.dsp.voices, io.dsp.noise
      ensures MachineOk(m)
    {
      Machine(regs, counter, io.dsp.ram[..], io.State())
    }

    /** `Spc::default()`: the registers at reset, RAM cleared, the counter at zero. */
    constructor ()
      ensures Valid() && fresh(Repr())
      ensures State().regs == SpcTypes.DefaultRegs() && State().counter == 0
      ensures forall i :: 0 <= i < 0x1_0000 ==> State().ram[i] == 0
    {
      regs := SpcTypes.DefaultRegs();
      counter := 0;
      io := new IoRegisters();
    }

    // ------------------------------------------------------------ memory

    /** `read_8`. */
    method Read8(w: WrapAddr) returns (v: u8, ok: bool)
      requires Valid()
      modifies this, io.timers
      ensures Valid() && Returned(SpcMemory.Read8(old(State()), w), ok, v, State())
    {
      var addr := w.addr;
      if addr < 0xF0 || 0x100 <= addr < 0xFFC0 {
        counter := counter + io.waitRam;
        v, ok := io.dsp.ram[addr], true;
      } else if addr < 0x100 {
        counter := counter + io.waitIo;
        var r := io.Read(addr - 0xF0);
        ok := r.Some?;
        v := if ok then r.value else 0;
      } else if io.romReadEnabled {
        counter := counter + io.waitIo;
        v, ok := BootRom[addr - 0xFFC0], true;
      } else {
        counter := counter + io.waitRam;
        v, ok := io.dsp.ram[addr], true;
      }
    }

    /** `write_8`: RAM first while writes are enabled, then the I/O register at 0xF0-0xFF. */
    method Write8(w: WrapAddr, data: u8)
      requires Valid()
      modifies Repr()
      ensures Valid() && State() == SpcMemory.Write8(old(State()), w, data)
    {
      var addr := w.addr;
      if io.ramWriteEnabled {
        io.dsp.ram[addr] := data;
      }
      if addr / 0x10 == 0xF {
        var _ := io.Write(addr % 0x10, data);
        counter := counter + io.waitIo;
      } else {
        counter := counter + io.waitRam;
      }
    }

    /** `read_16`. */
    method Read16(w: WrapAddr) returns (v: u16, ok: bool)
      requires Valid()
      modifies this, io.timers
      ensures Valid() && Returned(SpcMemory.Read16(old(State()), w), ok, v, State())
    {
      var lo, hi;
      lo, ok := Read8(w);
      if !ok {
        return 0, false;
      }
      hi, ok := Read8(SpcTypes.Offset(w, 1));
      v := if ok then Word(lo, hi) else 0;
    }

    /** `write_16`. */
    method Write16(w: WrapAddr, data: u16)
      requires Valid()
      modifies Repr()
      ensures Valid() && State() == SpcMemory.Write16(old(State()), w, data)
    {
      Write8(w, Lo(data));
      Write8(SpcTypes.Offset(w, 1), Hi(data));
    }

    /** `fetch_8`. */
    method Fetch8() returns (v: u8, ok: bool)
      requires Valid()
      modifies this, io.timers
      ensures Valid() && Returned(SpcMemory.Fetch8(old(State())), ok, v, State())
    {
      v, ok := Read8(WrapAddr(regs.pc, NoWrap));
      regs := regs.(pc := PcPlus(regs.pc, 1));
    }

    /** `fetch_16`. */
    method Fetch16() returns (v: u16, ok: bool)
      requires Valid()
      modifies this, io.timers
      ensures Valid() && Returned(SpcMemory.Fetch16(old(State())), ok, v, State())
    {
      var lo, hi;
      lo, ok := Fetch8();
      if !ok {
        return 0, false;
      }
      hi, ok := Fetch8();
      v := if ok then Word(lo, hi) else 0;
    }

    /** `push_8`. */
    method Push8(data: u8)
      requires Valid()
      modifies Repr()
      ensures Valid() && State() == SpcMemory.Push8(old(State()), data)
    {
      Write8(StackSlot(regs.sp), data);
      regs := regs.(sp := (regs.sp - 1) % 0x100);
    }

    /** `push_16`: the high byte first. */
    method Push16(data: u16)
      requires Valid()
      modifies Repr()
      ensures Valid() && State() == SpcMemory.Push16(old(State()), data)
    {
      Push8(Hi(data));
      Push8(Lo(data));
    }

    /** `pop_8`: the stack is in RAM, so a pop never panics. */
    method Pop8() returns (v: u8)
      requires Valid()
      modifies this, io.timers
      ensures Valid() && Got(v, State()) == SpcMemory.Pop8(old(State()))
    {
      regs := regs.(sp := (regs.sp + 1) % 0x100);
      var ok;
      v, ok := Read8(StackSlot(regs.sp));
    }

    /** `pop_16`: the low byte first. */
    method Pop16() returns (v: u16)
      requires Valid()
      modifies this, io.timers
      ensures Valid() && Got(v, State()) == SpcMemory.Pop16(old(State()))
    {
      var lo := Pop8();
      var hi := Pop8();
      v := Word(lo, hi);
    }
  
    // ------------------------------------------------------------ addressing

    /** `get_warp_address`, for the twelve modes it implements. */
    method GetAddress(mode: SpcMode) returns (w: WrapAddr, ok: bool)
      requires Valid() && HasAddress(mode)
      modifies this, io.timers
      ensures Valid() && Returned(Address(old(State()), mode), ok, w, State())
    {
      if RegisterMode(mode) {
        w := AddressFromRegisters(mode);
        ok := true;
      } else if DirectPageMode(mode) {
        w, ok := AddressFromDirectPage(mode);
      } else if AbsoluteMode(mode) {
        w, ok := AddressFromAbsolute(mode);
      } else if mode == XIndexedIndirect {
        w, ok := AddressFromIndexedPointer();
      } else {
        w, ok := AddressFromPointerIndexed();
      }
    }

    /** The modes whose address comes from PC, X or Y without an operand fetch. */
    method AddressFromRegisters(mode: SpcMode) returns (w: WrapAddr)
      requires Valid() && RegisterMode(mode)
      modifies this
      ensures Valid() && Got(w, State()) == RegisterAddress(old(State()), mode)
    {
      if mode == Immediate {
        w := WrapAddr(regs.pc, Wrap8bit);
        regs := regs.(pc := PcPlus(regs.pc, 1));
      } else if mode == IndirectX {
        w := WrapAddr(DpAddr(regs.psw, regs.x), Wrap8bit);
        counter := counter + io.waitRam;
      } else if mode == IndirectY {
        w := WrapAddr(DpAddr(regs.psw, regs.y), Wrap8bit);
        counter := counter + io.waitIo;
      } else {
        w := WrapAddr(DpAddr(regs.psw, regs.x), Wrap8bit);
        counter := counter + io.waitRam;
        regs := regs.(x := (regs.x + 1) % 0x100);
      }
    }

    /** The direct-page modes with a one-byte operand, plain or indexed. */
    method AddressFromDirectPage(mode: SpcMode) returns (w: WrapAddr, ok: bool)
      requires Valid() && DirectPageMode(mode)
      modifies this, io.timers
      ensures Valid() && Returned(DirectPageAddress(old(State()), mode), ok, w, State())
    {
      var v;
      v, ok := Fetch8();
      if mode == DirectPage {
        w := WrapAddr(DpAddr(regs.psw, v), Wrap8bit);
      } else if mode == XIndexedDirectPage {
        w := WrapAddr(DpAddr(regs.psw, (v + regs.x) % 0x100), Wrap8bit);
        counter := counter + io.waitIo;
      } else {
        w := WrapAddr(DpAddr(regs.psw, (v + regs.y) % 0x100), Wrap8bit);
      }
    }

    /** The absolute modes with a two-byte operand, plain or indexed. */
    method AddressFromAbsolute(mode: SpcMode) returns (w: WrapAddr, ok: bool)
      requires Valid() && AbsoluteMode(mode)
      modifies this, io.timers
      ensures Valid() && Returned(AbsoluteAddress(old(State()), mode), ok, w, State())
    {
      var p;
      p, ok := Fetch16();
      if !ok {
        return WrapAddr(0, NoWrap), false;
      }
      ghost var m1 := State();
      if mode == Absolute {
        w := WrapAddr(p, NoWrap);
      } else {
        w := WrapAddr((p + if mode == XIndexedAbsolute then regs.x else regs.y) % 0x1_0000, NoWrap);
        counter := counter + io.waitIo;
        assert State() == WaitIo(m1);
      }
    }

    /** `[dp+X]`: the pointer at the X-indexed direct-page address, then the I/O wait state. */
    method AddressFromIndexedPointer() returns (w: WrapAddr, ok: bool)
      requires Valid()
      modifies this, io.timers
      ensures Valid() && Returned(IndexedPointerAddress(old(State())), ok, w, State())
    {
      var v, p;
      v, ok := Fetch8();
      if !ok {
        return WrapAddr(0, NoWrap), false;
      }
      p, ok := Read16(WrapAddr(DpAddr(regs.psw, (v + regs.x) % 0x100), NoWrap));
      if !ok {
        return WrapAddr(0, NoWrap), false;
      }
      w := WrapAddr(p, NoWrap);
      ghost var m2 := State();
      counter := counter + io.waitIo;
      assert State() == WaitIo(m2);
    }

    /** `[dp]+Y`: the I/O wait state, then the pointer at the direct-page address, indexed by Y. */
    method AddressFromPointerIndexed() returns (w: WrapAddr, ok: bool)
      requires Valid()
      modifies this, io.timers
      ensures Valid() && Returned(PointerIndexedAddress(old(State())), ok, w, State())
    {
      var v, p;
      v, ok := Fetch8();
      if !ok {
        return WrapAddr(0, NoWrap), false;
      }
      ghost var m1 := State();
      counter := counter + io.waitIo;
      assert State() == WaitIo(m1);
      p, ok := Read16(WrapAddr(DpAddr(regs.psw, v), NoWrap));
      w := WrapAddr((p + regs.y) % 0x1_0000, NoWrap);
    }

    // ------------------------------------------------------------ loads, stores, transfers

    /** `get_warp_address` then `read_8` at the address. */
    method ReadOperand(mode: SpcMode) returns (o: Operand, ok: bool)
      requires Valid() && HasAddress(mode)
      modifies this, io.timers
      ensures Valid() && Returned(SpcSemantics.ReadOperand(old(State()), mode), ok, o, State())
    {
      var w, v;
      w, ok := GetAddress(mode);
      if !ok {
        return Operand(w, 0), false;
      }
      v, ok := Read8(w);
      o := Operand(w, v);
    }

    /** `lda`, `ldx`, `ldy`. */
    method LoadRegister(reg: Reg, mode: SpcMode) returns (ok: bool)
      requires Valid() && HasAddress(mode)
      modifies this, io.timers
      ensures Valid() && Done(LoadSem(old(State()), reg, mode), ok, State())
    {
      ghost var m0 := State();
      var o;
      o, ok := ReadOperand(mode);
      if !ok {
        return;
      }
      ghost var m1 := State();
      assert LoadSem(m0, reg, mode) == Some(LoadResult(Got(o, m1), reg));
      regs := SetReg(regs, reg, o.byte).(psw := SetNZ(regs.psw, o.byte));
      if reg == RegA {
        counter := counter + io.waitIo;
      }
      assert State() == LoadResult(Got(o, m1), reg);
    }

    /** `sta`, `stx`, `sty`. */
    method StoreRegister(reg: Reg, mode: SpcMode) returns (ok: bool)
      requires Valid() && HasAddress(mode)
      modifies Repr()
      ensures Valid() && Done(StoreSem(old(State()), reg, mode), ok, State())
    {
      ghost var m0 := State();
      counter := counter + io.waitIo;
      assert State() == WaitIo(m0);
      var w;
      w, ok := GetAddress(mode);
      if !ok {
        return;
      }
      Write8(w, GetReg(regs, reg));
    }

    /** `txa`, `tya`, `tax`, `tay`, `tsx`, `txs`. */
    method TransferRegister(t: Transfer)
      requires Valid()
      modifies this
      ensures Valid() && State() == TransferSem(old(State()), t)
    {
      counter := counter + io.waitRam;
      match t
      case Txa => regs := regs.(a := regs.x, psw := SetNZ(regs.psw, regs.x));
      case Tya => regs := regs.(a := regs.y, psw := SetNZ(regs.psw, regs.y));
      case Tax => regs := regs.(x := regs.a, psw := SetNZ(regs.psw, regs.a));
      case Tay => regs := regs.(y := regs.a, psw := SetNZ(regs.psw, regs.a));
      case Tsx => regs := regs.(x := regs.sp, psw := SetNZ(regs.psw, regs.sp));
      case Txs => regs := regs.(sp := regs.x);
    }

    /** `pha`, `phx`, `phy`, `php`. */
    method PushRegister(sr: StackReg)
      requires Valid()
      modifies Repr()
      ensures Valid() && State() == PushSem(old(State()), sr)
    {
      counter := counter + io.waitRam;
      counter := counter + io.waitIo;
      Push8(StackValue(regs, sr));
    }

    /** `pla`, `plx`, `ply`, `plp`. */
    method PullRegister(sr: StackReg)
      requires Valid()
      modifies this, io.timers
      ensures Valid() && State() == PullSem(old(State()), sr)
    {
      counter := counter + io.waitRam;
      counter := counter + io.waitIo;
      var v := Pop8();
      regs := SetStackReg(regs, sr, v);
    }

    // ------------------------------------------------------------ arithmetic on A

    /** `daa`. */
    method DecimalAdjustAdd()
      requires Valid()
      modifies this
      ensures Valid() && State() == DaaSem(old(State()))
    {
      var o := Daa(regs.a, regs.psw);
      regs := regs.(a := o.r, psw := o.psw);
      counter := counter + io.waitRam;
      counter := counter + io.waitIo;
    }

    /** `das`. */
    method DecimalAdjustSubtract()
      requires Valid()
      modifies this
      ensures Valid() && State() == DasSem(old(State()))
    {
      var o := Das(regs.a, regs.psw);
      regs := regs.(a := o.r, psw := o.psw);
      counter := counter + io.waitRam;
      counter := counter + io.waitIo;
    }

    /** `div`. */
    method Divide()
      requires Valid()
      modifies this
      ensures Valid() && State() == DivSem(old(State()))
    {
      counter := counter + io.waitRam;
      counter := counter + io.waitIo * 10;
      regs := Div(regs);
    }

    /** `mul`. */
    method Multiply()
      requires Valid()
      modifies this
      ensures Valid() && State() == MulSem(old(State()))
    {
      counter := counter + io.waitRam;
      counter := counter + io.waitIo * 7;
      regs := Mul(regs);
    }

    /** `xcn`. */
    method ExchangeNibbles()
      requires Valid()
      modifies this
      ensures Valid() && State() == XcnSem(old(State()))
    {
      counter := counter + io.waitRam;
      counter := counter + io.waitIo * 3;
      var v := Xcn(regs.a);
      regs := regs.(a := v, psw := SetNZ(regs.psw, v));
    }

    // ------------------------------------------------------------ shifts, increments, flags

    /** `asl_a`, `rol_a`, `lsr_a`, `ror_a`. */
    method ShiftAccumulator(k: Shift)
      requires Valid()
      modifies this
      ensures Valid() && State() == ShiftASem(old(State()), k)
    {
      var a := regs.a;
      var o := ShiftOp(k, a, regs.psw.c);
      if k == Asl {
        counter := counter + io.waitRam;
      } else if k != Lsr {
        counter := counter + io.waitIo;
      }
      regs := regs.(a := o.r, psw := SetNZ(regs.psw.(c := o.psw.c), o.r));
    }

    /** `inc_reg`, `dec_reg`. */
    method IncDecRegister(reg: Reg, inc: bool)
      requires Valid()
      modifies this
      ensures Valid() && State() == IncDecRegSem(old(State()), reg, inc)
    {
      var v := Step8(GetReg(regs, reg), inc);
      if inc {
        counter := counter + io.waitRam;
      } else {
        counter := counter + io.waitIo;
      }
      regs := SetReg(regs, reg, v).(psw := SetNZ(regs.psw, v));
    }

    /** `clr_c`, `set_c`, `notc`, `clr_hv`, `clrp`, `setp`, `ei`, `di`. */
    method FlagOperation(f: FlagOp)
      requires Valid()
      modifies this
      ensures Valid() && State() == FlagSem(old(State()), f)
    {
      match f
      case ClrC => counter := counter + io.waitRam; regs := regs.(psw := regs.psw.(c := false));
      case SetC => counter := counter + io.waitRam + io.waitIo; regs := regs.(psw := regs.psw.(c := true));
      case NotC => counter := counter + io.waitRam + io.waitIo; regs := regs.(psw := regs.psw.(c := !regs.psw.c));
      case ClrHv => regs := regs.(psw := regs.psw.(h := false, v := false)); counter := counter + io.waitIo;
      case ClrP => counter := counter + io.waitRam; regs := regs.(psw := regs.psw.(p := false));
      case SetP => counter := counter + io.waitRam; regs := regs.(psw := regs.psw.(p := true));
      case Ei => counter := counter + io.waitRam + io.waitIo; regs := regs.(psw := regs.psw.(i := true));
      case Di => counter := counter + io.waitRam + io.waitIo; regs := regs.(psw := regs.psw.(i := false));
    }

    /** `nop`. */
    method NoOperation()
      requires Valid()
      modifies this
      ensures Valid() && State() == NopSem(old(State()))
    {
      counter := counter + io.waitRam;
    }

    // ------------------------------------------------------------ returns

    /** `ret`. */
    method Return()
      requires Valid()
      modifies this, io.timers
      ensures Valid() && State() == RetSem(old(State()))
    {
      counter := counter + io.waitRam;
      counter := counter + io.waitIo;
      var pc := Pop16();
      regs := regs.(pc := pc);
    }

    /** `reti`. */
    method ReturnFromInterrupt()
      requires Valid()
      modifies this, io.timers
      ensures Valid() && State() == RetiSem(old(State()))
    {
      ghost var m0 := State();
      counter := counter + io.waitRam;
      counter := counter + io.waitIo;
      assert State() == WaitIo(WaitRam(m0));
      var p := Pop8();
      regs := regs.(psw := PswOfByte(p));
      ghost var m1 := State();
      assert m1 == SpcMemory.Pop8(WaitIo(WaitRam(m0))).m.(regs := m1.regs);
      var pc := Pop16();
      regs := regs.(pc := pc);
    }

    // ------------------------------------------------------------ the ALU

    /** `alu`. */
    method AluOperation(op: AluType, mode: SpcMode) returns (ok: bool)
      requires Valid()
      modifies Repr()
      ensures Valid() && Done(AluSem(old(State()), op, mode), ok, State())
    {
      ghost var m0 := State();
      if !HasAddress(mode) {
        var modes := OperandModes(mode);
        assert AluSem(m0, op, mode) == AluMemory(m0, op, modes.0, modes.1);
        ok := AluTwoOperands(op, modes.0, modes.1);
      } else if mode in {YIndexedDirectPage, IndirectY, IndirectAutoIncrement} {
        ok := false;
      } else {
        assert AluSem(m0, op, mode) == AluAccumulator(m0, op, mode);
        ok := AluWithA(op, mode);
      }
    }

    /** The single-operand arms of `alu`: A combined with the operand; CMP sets flags only. */
    /** The end of `alu` in the single-operand modes: A combined with the operand, A kept by CMP. */
    method AluAccumulate(op: AluType, b: u8)
      requires Valid()
      modifies this
      ensures Valid() && State() == AluOnA(old(State()), op, b)
    {
      var r := AluOp(op, regs.a, b, regs.psw);
      regs := regs.(a := if op == AluCmp then regs.a else r.r, psw := r.psw);
    }

    /** The end of `alu` in the two-operand modes: the flags, then the result stored unless the operation is CMP. */
    method AluStore(op: AluType, at: WrapAddr, x: u8, y: u8)
      requires Valid()
      modifies Repr()
      ensures Valid() && State() == AluToMemory(old(State()), op, at, x, y)
    {
      var r := AluOp(op, x, y, regs.psw);
      regs := regs.(psw := r.psw);
      if op != AluCmp {
        Write8(at, r.r);
      }
    }

    method AluWithA(op: AluType, mode: SpcMode) returns (ok: bool)
      requires Valid() && HasAddress(mode)
      modifies this, io.timers
      ensures Valid() && Done(AluAccumulator(old(State()), op, mode), ok, State())
    {
      var o;
      ghost var m0 := State();
      o, ok := ReadOperand(mode);
      if ok {
        ghost var m1 := State();
        assert AluAccumulator(m0, op, mode) == Some(AluOnA(m1, op, o.byte));
        AluAccumulate(op, o.byte);
      }
    }

    /** The memory-to-memory arms of `alu`: the second operand, then the first, then flags and the write back. */
    method AluTwoOperands(op: AluType, src: SpcMode, dst: SpcMode) returns (ok: bool)
      requires Valid() && HasAddress(src) && HasAddress(dst)
      modifies Repr()
      ensures Valid() && Done(AluMemory(old(State()), op, src, dst), ok, State())
    {
      var o2;
      o2, ok := ReadOperand(src);
      if ok {
        ok := AluIntoOperand(op, dst, o2.byte);
      }
    }

    /** The second half of the memory-to-memory `alu`: the first operand, the flags, and the write back except for CMP. */
    method AluIntoOperand(op: AluType, dst: SpcMode, y: u8) returns (ok: bool)
      requires Valid() && HasAddress(dst)
      modifies Repr()
      ensures Valid() && Done(AluInto(old(State()), op, dst, y), ok, State())
    {
      var o1;
      ghost var m0 := State();
      o1, ok := ReadOperand(dst);
      if !ok {
        return;
      }
      ghost var m1 := State();
      assert AluInto(m0, op, dst, y) == Some(AluToMemory(m1, op, o1.at, o1.byte, y));
      AluStore(op, o1.at, o1.byte, y);
    }

    /** `cmp_x`, `cmp_y`. */
    method CompareRegister(reg: Reg, mode: SpcMode) returns (ok: bool)
      requires Valid() && HasAddress(mode)
      modifies this, io.timers
      ensures Valid() && Done(CmpRegSem(old(State()), reg, mode), ok, State())
    {
      var o;
      o, ok := ReadOperand(mode);
      if ok {
        regs := regs.(psw := AluOp(AluCmp, GetReg(regs, reg), o.byte, regs.psw).psw);
      }
    }

    // ------------------------------------------------------------ moves between memory cells

    /** `mov_dp_dp`. */
    method MoveDirectPage() returns (ok: bool)
      requires Valid()
      modifies Repr()
      ensures Valid() && Done(MovDpDpSem(old(State())), ok, State())
    {
      var o, w;
      o, ok := ReadOperand(DirectPage);
      if !ok {
        return;
      }
      w, ok := GetAddress(DirectPage);
      if ok {
        Write8(w, o.byte);
      }
    }

    /** `mov_dp_imm`. */
    method MoveImmediate() returns (ok: bool)
      requires Valid()
      modifies Repr()
      ensures Valid() && Done(MovDpImmSem(old(State())), ok, State())
    {
      var v, w;
      v, ok := Fetch8();
      if !ok {
        return;
      }
      w, ok := GetAddress(DirectPage);
      if ok {
        ghost var m2 := State();
        counter := counter + io.waitRam;
        assert State() == WaitRam(m2);
        Write8(w, v);
      }
    }

    // ------------------------------------------------------------ read-modify-write

    /** `asl_with_addressing`, `lsr_with_addressing` (write, then flags), `rol_with_addressing`, `ror_with_addressing` (flags, then write). */
    method ShiftMemory(k: Shift, mode: SpcMode) returns (ok: bool)
      requires Valid() && HasAddress(mode)
      modifies Repr()
      ensures Valid() && Done(ShiftMemSem(old(State()), k, mode), ok, State())
    {
      var o;
      o, ok := ReadOperand(mode);
      if !ok {
        return;
      }
      ghost var m1 := State();
      var psw := ShiftFlags(k, o.byte, regs.psw);
      Write8(o.at, ShiftOp(k, o.byte, regs.psw.c).r);
      ghost var m2 := State();
      assert m2 == SpcMemory.Write8(m1, o.at, ShiftOp(k, o.byte, m1.regs.psw.c).r);
      regs := regs.(psw := psw);
    }

    /** `inc_with_addressing`, `dec_with_addressing`. */
    method IncDecMemory(mode: SpcMode, inc: bool) returns (ok: bool)
      requires Valid() && HasAddress(mode)
      modifies Repr()
      ensures Valid() && Done(IncDecMemSem(old(State()), mode, inc), ok, State())
    {
      var o;
      o, ok := ReadOperand(mode);
      if !ok {
        return;
      }
      var v := Step8(o.byte, inc);
      regs := regs.(psw := SetNZ(regs.psw, v));
      Write8(o.at, v);
    }

    /** `tset` and `tclr` (with the RAM wait state). */
    method TestAndSetBits(setting: bool) returns (ok: bool)
      requires Valid()
      modifies Repr()
      ensures Valid() && Done(TestSetSem(old(State()), setting), ok, State())
    {
      var o;
      o, ok := ReadOperand(Absolute);
      if !ok {
        return;
      }
      ghost var m1 := State();
      if !setting {
        counter := counter + io.waitRam;
      }
      ghost var m2 := if setting then m1 else WaitRam(m1);
      assert State() == m2;
      var r := TestAndSet(regs.a, o.byte, regs.psw, setting);
      regs := regs.(psw := r.psw);
      assert State() == m2.(regs := m2.regs.(psw := r.psw));
      Write8(o.at, r.r);
    }

    // ------------------------------------------------------------ 16-bit operations on YA

    /** `movw_ya_dp`. */
    method LoadYaWord() returns (ok: bool)
      requires Valid()
      modifies this, io.timers
      ensures Valid() && Done(MovwYaDpSem(old(State())), ok, State())
    {
      ghost var m0 := State();
      var w, v;
      w, ok := GetAddress(DirectPage);
      if !ok {
        return;
      }
      ghost var m1 := State();
      counter := counter + io.waitIo;
      assert State() == WaitIo(m1);
      v, ok := Read16(w);
      if ok {
        regs := SetYa(regs, v).(psw := SpcTypes.SetNZ16(regs.psw, v));
      }
    }

    /** `movw_dp_ya`. */
    method StoreYaWord() returns (ok: bool)
      requires Valid()
      modifies Repr()
      ensures Valid() && Done(MovwDpYaSem(old(State())), ok, State())
    {
      var w;
      ghost var m0 := State();
      w, ok := GetAddress(DirectPage);
      if ok {
        ghost var m1 := State();
        assert MovwDpYaSem(m0) == Some(SpcMemory.Write16(WaitIo(m1), w, GetYa(m1.regs)));
        counter := counter + io.waitIo;
        assert State() == WaitIo(m1);
        Write16(w, GetYa(regs));
      }
    }

    /** `addw` and `subw`. */
    method AddSubtractWord(add: bool) returns (ok: bool)
      requires Valid()
      modifies this, io.timers
      ensures Valid() && Done(if add then AddwSem(old(State())) else SubwSem(old(State())), ok, State())
    {
      var w, v;
      w, ok := GetAddress(DirectPage);
      if !ok {
        return;
      }
      ghost var m1 := State();
      v, ok := Read16(w);
      if ok {
        ghost var m2 := State();
        counter := counter + io.waitIo;
        assert State() == WaitIo(m2);
        var o := if add then AddwOp(GetYa(regs), v, regs.psw) else SubwOp(GetYa(regs), v, regs.psw);
        regs := SetYa(regs, o.0).(psw := o.1);
      }
    }

    /** `cmpw`. */
    method CompareWord() returns (ok: bool)
      requires Valid()
      modifies this, io.timers
      ensures Valid() && Done(CmpwSem(old(State())), ok, State())
    {
      var w, v;
      w, ok := GetAddress(DirectPage);
      if !ok {
        return;
      }
      v, ok := Read16(w);
      if ok {
        var ya := GetYa(regs);
        var d: u16 := (ya as int - v) % 0x1_0000;
        regs := regs.(psw := SpcTypes.SetNZ16(regs.psw.(c := ya >= v), d));
      }
    }

    /** `incw`, `decw`: the low byte is written back before the high byte is read. */
    method IncDecWord(inc: bool) returns (ok: bool)
      requires Valid()
      modifies Repr()
      ensures Valid() && Done(IncDecWordSem(old(State()), inc), ok, State())
    {
      var o, hi;
      o, ok := ReadOperand(DirectPage);
      if !ok {
        return;
      }
      Write8(o.at, Step8(o.byte, inc));
      var hiAddr := SpcTypes.Offset(o.at, 1);
      hi, ok := Read8(hiAddr);
      if ok {
        var v := Step16(Word(o.byte, hi), inc);
        regs := regs.(psw := SpcTypes.SetNZ16(regs.psw, v));
        Write8(hiAddr, Hi(v));
      }
    }

    // ------------------------------------------------------------ single bits

    /** `set_n_bit`, `clr_n_bit`: setting adds the I/O wait state before the read. */
    method SetClearBit(bit: nat, setting: bool) returns (ok: bool)
      requires Valid() && bit < 8
      modifies Repr()
      ensures Valid() && Done(SetClrBitSem(old(State()), bit, setting), ok, State())
    {
      var w, v;
      w, ok := GetAddress(DirectPage);
      if !ok {
        return;
      }
      ghost var m1 := State();
      if setting {
        counter := counter + io.waitIo;
      }
      assert State() == if setting then WaitIo(m1) else m1;
      v, ok := Read8(w);
      if ok {
        Write8(w, if setting then SetBit(v, bit) else ClearBit(v, bit));
      }
    }

    /** `not1`. */
    method NotMemBit() returns (ok: bool)
      requires Valid()
      modifies Repr()
      ensures Valid() && Done(Not1Sem(old(State())), ok, State())
    {
      var f, v;
      f, ok := Fetch16();
      if !ok {
        return;
      }
      MemBitSplit(f);
      var w := WrapAddr(MemBitAddress(f), NoWrap);
      v, ok := Read8(w);
      if ok {
        Write8(w, FlipBit(v, MemBitNumber(f)));
      }
    }

    /** `mov1_aaa_b_c`. */
    method StoreCarryBit() returns (ok: bool)
      requires Valid()
      modifies Repr()
      ensures Valid() && Done(Mov1ToMemSem(old(State())), ok, State())
    {
      var f, v;
      f, ok := Fetch16();
      if !ok {
        return;
      }
      MemBitSplit(f);
      var w := WrapAddr(MemBitAddress(f), NoWrap);
      v, ok := Read8(w);
      if ok {
        ghost var m2 := State();
        counter := counter + io.waitIo;
        assert State() == WaitIo(m2);
        Write8(w, StoreBit(v, MemBitNumber(f), regs.psw.c));
      }
    }

    /** `mov1_c_aaa_b`, `or1`, `or_not1`, `and1`, `and_not1`, `eor1`. */
    method CarryBitOperation(op: CarryBitOp) returns (ok: bool)
      requires Valid()
      modifies this, io.timers
      ensures Valid() && Done(CarryBitSem(old(State()), op), ok, State())
    {
      var f;
      f, ok := Fetch16();
      if ok {
        ok := CarryBitWith(op, f);
      }
    }

    /** The carry-bit instructions after the operand fetch. */
    method CarryBitWith(op: CarryBitOp, baaa: u16) returns (ok: bool)
      requires Valid()
      modifies this, io.timers
      ensures Valid() && Done(CarryBitFrom(old(State()), op, baaa), ok, State())
    {
      MemBitSplit(baaa);
      var v;
      ghost var m0 := State();
      if op == OrNot1 {
        counter := counter + io.waitIo;
      }
      assert State() == if op == OrNot1 then WaitIo(m0) else m0;
      v, ok := Read8(WrapAddr(MemBitAddress(baaa), NoWrap));
      if ok {
        ghost var m2 := State();
        if op == Or1 || op == Eor1 {
          counter := counter + io.waitIo;
        }
        regs := regs.(psw := regs.psw.(c := CarryBit(op, regs.psw.c, v, MemBitNumber(baaa))));
        assert State() == CarryBitResult(Got(v, m2), op, MemBitNumber(baaa));
      }
    }

    // ------------------------------------------------------------ branches

    /** `br`. */
    method BranchIf(cond: SpcBranch) returns (ok: bool)
      requires Valid()
      modifies this, io.timers
      ensures Valid() && Done(BranchSem(old(State()), cond), ok, State())
    {
      var offset;
      offset, ok := Fetch8();
      if ok && CheckSpcBranch(cond, regs.psw) {
        counter := counter + 2 * io.waitIo;
        regs := regs.(pc := Relative(regs.pc, offset));
      }
    }

    /** `bb_sc`. */
    method BranchOnMemBit(bit: nat, isSet: bool) returns (ok: bool)
      requires Valid() && bit < 8
      modifies this, io.timers
      ensures Valid() && Done(BranchBitSem(old(State()), bit, isSet), ok, State())
    {
      var o, offset;
      o, ok := ReadOperand(DirectPage);
      if !ok {
        return;
      }
      ghost var m1 := State();
      counter := counter + io.waitIo;
      assert State() == WaitIo(m1);
      offset, ok := Fetch8();
      if ok && (CpuAlu.And8(o.byte, BitMask(bit)) != 0) == isSet {
        counter := counter + 2 * io.waitRam;
        regs := regs.(pc := Relative(regs.pc, offset));
      }
    }

    /** `cbne`. */
    method CompareBranch(mode: SpcMode) returns (ok: bool)
      requires Valid() && HasAddress(mode)
      modifies this, io.timers
      ensures Valid() && Done(CbneSem(old(State()), mode), ok, State())
    {
      var w, v, offset;
      w, ok := GetAddress(mode);
      if !ok {
        return;
      }
      ghost var m1 := State();
      counter := counter + io.waitIo;
      assert State() == WaitIo(m1);
      v, ok := Read8(w);
      if !ok {
        return;
      }
      offset, ok := Fetch8();
      ghost var m3 := State();
      if ok && regs.a != v {
        assert m3 == SpcMemory.Fetch8(SpcMemory.Read8(WaitIo(m1), w).value.m).value.m;
        counter := counter + io.waitRam;
        regs := regs.(pc := Relative(regs.pc, offset));
      }
    }

    /** `dbnz_y`. */
    method DecBranchY() returns (ok: bool)
      requires Valid()
      modifies this, io.timers
      ensures Valid() && Done(DbnzYSem(old(State())), ok, State())
    {
      ghost var m0 := State();
      var offset;
      counter := counter + io.waitRam;
      counter := counter + io.waitIo;
      ghost var m1 := WaitIo(WaitRam(m0));
      assert State() == m1;
      regs := regs.(y := Step8(regs.y, false));
      assert State() == m1.(regs := m1.regs.(y := Step8(m1.regs.y, false)));
      offset, ok := Fetch8();
      if ok && regs.y != 0 {
        counter := counter + 2 * io.waitIo;
        regs := regs.(pc := Relative(regs.pc, offset));
      }
    }

    /** `dbnz_dp`. */
    method DecBranchDp() returns (ok: bool)
      requires Valid()
      modifies Repr()
      ensures Valid() && Done(DbnzDpSem(old(State())), ok, State())
    {
      var o, offset;
      o, ok := ReadOperand(DirectPage);
      if !ok {
        return;
      }
      var v := Step8(o.byte, false);
      Write8(o.at, v);
      offset, ok := Fetch8();
      if ok && v != 0 {
        counter := counter + 2 * io.waitIo;
        regs := regs.(pc := Relative(regs.pc, offset));
      }
    }

    // ------------------------------------------------------------ jumps and calls

    /** `jmp_abs`. */
    method JumpAbsolute() returns (ok: bool)
      requires Valid()
      modifies this, io.timers
      ensures Valid() && Done(JmpAbsSem(old(State())), ok, State())
    {
      var dest;
      dest, ok := Fetch16();
      if ok {
        regs := regs.(pc := dest);
      }
    }

    /** `jmp_x_abs`. */
    method JumpIndexed() returns (ok: bool)
      requires Valid()
      modifies this, io.timers
      ensures Valid() && Done(JmpXAbsSem(old(State())), ok, State())
    {
      var w, dest;
      w, ok := GetAddress(XIndexedAbsolute);
      if !ok {
        return;
      }
      dest, ok := Read16(w);
      if ok {
        regs := regs.(pc := dest);
      }
    }

    /** `call`. */
    method CallAbsolute() returns (ok: bool)
      requires Valid()
      modifies Repr()
      ensures Valid() && Done(CallSem(old(State())), ok, State())
    {
      var dest;
      dest, ok := Fetch16();
      if ok {
        ghost var m1 := State();
        counter := counter + 3 * io.waitIo;
        assert State() == Wait(m1, 3 * m1.io.waitIo);
        Push16(regs.pc);
        regs := regs.(pc := dest);
      }
    }

    /** `tcall_n`. */
    method TableCall(n: nat) returns (ok: bool)
      requires Valid() && n < 16
      modifies Repr()
      ensures Valid() && Done(TcallSem(old(State()), n), ok, State())
    {
      ghost var m0 := State();
      var dest;
      counter := counter + 3 * io.waitRam;
      ghost var m1 := Wait(m0, 3 * m0.io.waitRam);
      assert State() == m1;
      Push16(regs.pc);
      assert State() == SpcMemory.Push16(m1, m1.regs.pc);
      dest, ok := Read16(WrapAddr(TcallVector(n), NoWrap));
      if ok {
        regs := regs.(pc := dest);
      }
    }

    /** `pcall`. */
    method PageCall() returns (ok: bool)
      requires Valid()
      modifies Repr()
      ensures Valid() && Done(PcallSem(old(State())), ok, State())
    {
      var v;
      v, ok := Fetch8();
      if ok {
        ghost var m1 := State();
        counter := counter + 2 * io.waitIo;
        assert State() == Wait(m1, 2 * m1.io.waitIo);
        Push16(regs.pc);
        regs := regs.(pc := 0xFF00 + v as int);
      }
    }

    /** `brk`. */
    method SoftwareBreak() returns (ok: bool)
      requires Valid()
      modifies Repr()
      ensures Valid() && Done(BrkSem(old(State())), ok, State())
    {
      ghost var m0 := State();
      var dest;
      Push16(regs.pc);
      Push8(PswByte(regs.psw));
      ghost var m1 := SpcMemory.Push8(SpcMemory.Push16(m0, m0.regs.pc), PswByte(m0.regs.psw));
      assert State() == m1;
      regs := regs.(psw := regs.psw.(i := false, b := true));
      ghost var m2 := m1.(regs := m1.regs.(psw := m1.regs.psw.(i := false, b := true)));
      assert State() == m2;
      counter := counter + 2 * io.waitIo;
      assert State() == Wait(m2, 2 * m2.io.waitIo);
      dest, ok := Read16(WrapAddr(0xFFDE, NoWrap));
      if ok {
        regs := regs.(pc := dest);
      }
    }

    // ------------------------------------------------------------ the step

    /** The handler an opcode selects, run on the state after the opcode fetch. */
    method Execute(i: SpcInstr) returns (ok: bool)
      requires Valid()
      modifies Repr()
      ensures Valid() && Done(ExecuteSem(old(State()), i), ok, State())
    {
      ghost var m0 := State();
      if BitOrAluGroup(i) {
        assert ExecuteSem(m0, i) == BitOrAluSem(m0, i);
        ok := ExecuteBitOrAlu(i);
      } else if ControlGroup(i) {
        assert ExecuteSem(m0, i) == ControlSem(m0, i);
        ok := ExecuteControl(i);
      } else if MoveGroup(i) {
        assert ExecuteSem(m0, i) == MoveSem(m0, i);
        ok := ExecuteMove(i);
      } else {
        assert ExecuteSem(m0, i) == RegisterSem(m0, i);
        ok := ExecuteRegister(i);
      }
    }

    /** The single-bit, ALU, shift and test-and-set handlers. */
    method ExecuteBitOrAlu(i: SpcInstr) returns (ok: bool)
      requires Valid() && BitOrAluGroup(i)
      modifies Repr()
      ensures Valid() && Done(BitOrAluSem(old(State()), i), ok, State())
    {
      if i.Bit1? {
        ok := SetClearBit(i.bit, i.setting);
      } else if i.BranchOnBit? {
        ok := BranchOnMemBit(i.bit, i.isSet);
      } else if i.Arith? {
        ok := AluOperation(i.op, i.mode);
      } else if i.CarryOp? {
        ok := CarryBitOperation(i.cop);
      } else if i.Not1? {
        ok := NotMemBit();
      } else if i.Mov1ToMem? {
        ok := StoreCarryBit();
      } else if i.ShiftMem? {
        ok := ShiftMemory(i.k, i.at);
      } else {
        ok := TestAndSetBits(i.setting);
      }
    }

    /** The branches, jumps and calls. */
    method ExecuteControl(i: SpcInstr) returns (ok: bool)
      requires Valid() && ControlGroup(i)
      modifies Repr()
      ensures Valid() && Done(ControlSem(old(State()), i), ok, State())
    {
      if i.Brk? {
        ok := SoftwareBreak();
      } else if i.Tcall? {
        ok := TableCall(i.n);
      } else if i.Branch? {
        ok := BranchIf(i.cond);
      } else if i.Cbne? {
        ok := CompareBranch(i.at);
      } else if i.DbnzDp? {
        ok := DecBranchDp();
      } else if i.DbnzY? {
        ok := DecBranchY();
      } else if i.JmpXAbs? {
        ok := JumpIndexed();
      } else if i.JmpAbs? {
        ok := JumpAbsolute();
      } else if i.Call? {
        ok := CallAbsolute();
      } else {
        ok := PageCall();
      }
    }

    /** The loads, stores, memory moves and 16-bit operations. */
    method ExecuteMove(i: SpcInstr) returns (ok: bool)
      requires Valid() && MoveGroup(i)
      modifies Repr()
      ensures Valid() && Done(MoveSem(old(State()), i), ok, State())
    {
      if i.IncDecWord? {
        ok := IncDecWord(i.inc);
      } else if i.IncDecMem? {
        ok := IncDecMemory(i.at, i.inc);
      } else if i.CmpReg? {
        ok := CompareRegister(i.reg, i.at);
      } else if i.Cmpw? {
        ok := CompareWord();
      } else if i.Addw? || i.Subw? {
        ok := AddSubtractWord(i.Addw?);
      } else if i.MovwYaDp? {
        ok := LoadYaWord();
      } else if i.MovwDpYa? {
        ok := StoreYaWord();
      } else if i.Load? {
        ok := LoadRegister(i.reg, i.at);
      } else if i.Store? {
        ok := StoreRegister(i.reg, i.at);
      } else if i.MovDpImm? {
        ok := MoveImmediate();
      } else {
        ok := MoveDirectPage();
      }
    }

    /** The handlers that work on registers only, and `sleep` and `stop`, which panic after their wait state. */
    method ExecuteRegister(i: SpcInstr) returns (ok: bool)
      requires Valid() && RegisterGroup(i)
      modifies Repr()
      ensures Valid() && Done(RegisterSem(old(State()), i), ok, State())
    {
      ok := true;
      if i.Sleep? || i.Stop? {
        counter := counter + io.waitRam;
        ok := false;
      } else if i.Nop? {
        NoOperation();
      } else if i.ShiftA? {
        ShiftAccumulator(i.k);
      } else if i.PushReg? {
        PushRegister(i.s);
      } else if i.PullReg? {
        PullRegister(i.s);
      } else if i.IncDecReg? {
        IncDecRegister(i.reg, i.inc);
      } else if i.Ret? {
        Return();
      } else if i.Reti? {
        ReturnFromInterrupt();
      } else if i.Flags? {
        FlagOperation(i.f);
      } else if i.Move? {
        TransferRegister(i.t);
      } else if i.DivYa? {
        Divide();
      } else if i.MulYa? {
        Multiply();
      } else if i.XcnA? {
        ExchangeNibbles();
      } else if i.DaaA? {
        DecimalAdjustAdd();
      } else {
        DecimalAdjustSubtract();
      }
    }

    /** `execute_instruction`: fetch the opcode at PC and run the handler the table selects. */
    method ExecuteInstruction() returns (ok: bool)
      requires Valid()
      modifies Repr()
      ensures Valid() && Done(StepSem(old(State())), ok, State())
    {
      var op;
      op, ok := Fetch8();
      if ok {
        ok := Execute(DecodeOpcode(op));
      }
    }

    // ------------------------------------------------------------ the main CPU's side

    /** `write_port`. */
    method WritePort(port: u16, data: u8) returns (ok: bool)
      requires Valid()
      modifies io.cpuIn
      ensures Valid() && (ok <==> port < 4)
      ensures ok ==> State() == old(State()).(io := PortWrite(old(State()).io, port, data).value)
    {
      ok := port < 4;
      if ok {
        io.cpuIn[port] := data;
      }
    }

    /** `read_port`. */
    method ReadPort(port: u16) returns (v: u8, ok: bool)
      requires Valid()
      ensures (ok <==> port < 4) && (ok ==> PortRead(State().io, port) == Some(v))
    {
      ok := port < 4;
      v := if ok then io.cpuOut[port] else 0;
    }
  }
}
