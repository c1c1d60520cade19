/**
 * The main CPU (src/cpu.rs) as the source has it: an object whose methods
 * fetch, push, pop and execute by updating its registers in place and
 * calling the context for the bus and the clock. The registers are held in
 * one record-valued field, `regs`, which the methods update register by
 * register. Every handler is proved to leave the registers, the memory and
 * the clock exactly as the corresponding function of module CpuSemantics
 * says.
 */
module MainCpu {
  import opened Wrappers
  import opened CpuTypes
  import opened CpuAlu
  import opened CpuContext
  import opened CpuCore
  import opened CpuInstr
  import opened CpuSemantics

  class Cpu {
    /** A, X, Y, PC, S, P, D, DB, PB, the emulation flag and the STP/WAI flags. */
    var regs: Regs
    /** The clock value when the last instruction finished. */
    var prevCounter: nat

    /** The registers, the bus and the clock are those the outcome `o` describes, starting from clock `now0`. */
    predicate Reached(ctx: Context, o: Outcome, now0: nat)
      reads this, ctx
    {
      ctx.Valid() && regs == o.r && ctx.mem == o.mem && ctx.now == now0 + o.cycles
    }

    /** `Cpu::default()`: S = 0x01FF, emulation mode, the default status. */
    constructor ()
      ensures regs == Regs(0, 0, 0, 0, 0x01FF, DefaultStatus, 0, 0, 0, true, false, false)
      ensures prevCounter == 0
    {
      regs := Regs(0, 0, 0, 0, 0x01FF, DefaultStatus, 0, 0, 0, true, false, false);
      prevCounter := 0;
    }

    /** `reset`: PC from the reset vector, registers cleared, emulation mode, 170 cycles. */
    method Reset(ctx: Context)
      requires ctx.Valid()
      modifies this, ctx
      ensures ctx.Valid() && ctx.mem == old(ctx.mem) && ctx.now == old(ctx.now) + 170
      ensures ctx.nmi == old(ctx.nmi) && ctx.irq == old(ctx.irq) && prevCounter == old(prevCounter)
      ensures regs == old(regs).(pc := Mem16(ctx.mem, WarpAddress(ResetVector, NoWarp)),
                                 a := 0, x := 0, y := 0, s := 0x01FF, p := DefaultStatus,
                                 d := 0, db := 0, pb := 0, e := true)
    {
      regs := regs.(pc := Mem16(ctx.mem, WarpAddress(ResetVector, NoWarp)));
      regs := regs.(a := 0, x := 0, y := 0, s := 0x01FF, p := DefaultStatus);
      regs := regs.(d := 0, db := 0, pb := 0, e := true);
      ctx.Elapse(170);
    }

    // ------------------------------------------------------------ fetch

    /** `fetch_8`: the byte at PB:PC; PC wraps within the bank. */
    method Fetch8(ctx: Context) returns (data: u8)
      requires ctx.Valid()
      modifies this
      ensures data == OpByte(old(regs), ctx.mem, 0)
      ensures regs == Advance(old(regs), 1) && prevCounter == old(prevCounter)
    {
      assert (regs.pc + 0) % 0x1_0000 == regs.pc;
      data := ctx.Read(Long(regs.pb, regs.pc));
      regs := regs.(pc := Inc16(regs.pc));
    }

    /** `fetch_16`: low byte first. */
    method Fetch16(ctx: Context) returns (data: u16)
      requires ctx.Valid()
      modifies this
      ensures data == OpWord(old(regs), ctx.mem)
      ensures regs == Advance(old(regs), 2) && prevCounter == old(prevCounter)
    {
      ghost var r0 := regs;
      var lo := Fetch8(ctx);
      AdvanceAdds(r0, ctx.mem, 1, 0);
      AdvanceAdds(r0, ctx.mem, 1, 1);
      var hi := Fetch8(ctx);
      data := Word(lo, hi);
    }

    /** `fetch_24`: low, high, bank. */
    method Fetch24(ctx: Context) returns (data: u24)
      requires ctx.Valid()
      modifies this
      ensures data == OpLong(old(regs), ctx.mem)
      ensures regs == Advance(old(regs), 3) && prevCounter == old(prevCounter)
    {
      ghost var r0 := regs;
      var lo := Fetch8(ctx);
      AdvanceAdds(r0, ctx.mem, 1, 0);
      AdvanceAdds(r0, ctx.mem, 1, 1);
      var hi := Fetch8(ctx);
      AdvanceAdds(r0, ctx.mem, 2, 0);
      AdvanceAdds(r0, ctx.mem, 2, 1);
      var bank := Fetch8(ctx);
      data := Long(bank, Word(lo, hi));
    }

    // ------------------------------------------------------------ stack

    /** `push_8`: write at S in bank 0, then move S down (within page 1 in emulation mode). */
    method Push8(ctx: Context, data: u8)
      requires ctx.Valid()
      modifies this, ctx
      ensures ctx.Valid() && StackOf(regs, ctx.mem) == CpuCore.Push8(StackOf(old(regs), old(ctx.mem)), regs.e, data)
      ensures regs == old(regs).(s := regs.s) && prevCounter == old(prevCounter)
      ensures ctx.now == old(ctx.now) && ctx.nmi == old(ctx.nmi) && ctx.irq == old(ctx.irq)
    {
      ctx.Write(regs.s, data);
      if regs.e {
        regs := regs.(s := SetLow(regs.s, Dec8(Lo(regs.s))));
      } else {
        regs := regs.(s := Dec16(regs.s));
      }
    }

    /** `push_16`: high byte first. */
    method Push16(ctx: Context, data: u16)
      requires ctx.Valid()
      modifies this, ctx
      ensures ctx.Valid() && StackOf(regs, ctx.mem) == CpuCore.Push16(StackOf(old(regs), old(ctx.mem)), regs.e, data)
      ensures regs == old(regs).(s := regs.s) && prevCounter == old(prevCounter)
      ensures ctx.now == old(ctx.now) && ctx.nmi == old(ctx.nmi) && ctx.irq == old(ctx.irq)
    {
      Push8(ctx, Hi(data));
      Push8(ctx, Lo(data));
    }

    /** `pop_8`: move S up, then read at S in bank 0. */
    method Pop8(ctx: Context) returns (data: u8)
      requires ctx.Valid()
      modifies this
      ensures data == Popped8(old(regs), ctx.mem)
      ensures regs == AfterPop8(old(regs)) && prevCounter == old(prevCounter)
    {
      if regs.e {
        regs := regs.(s := SetLow(regs.s, Inc8(Lo(regs.s))));
      } else {
        regs := regs.(s := Inc16(regs.s));
      }
      data := ctx.Read(regs.s);
    }

    /** `pop_16`: low byte first. */
    method Pop16(ctx: Context) returns (data: u16)
      requires ctx.Valid()
      modifies this
      ensures data == Popped16(old(regs), ctx.mem)
      ensures regs == AfterPop16(old(regs)) && prevCounter == old(prevCounter)
    {
      var lo := Pop8(ctx);
      var hi := Pop8(ctx);
      data := Word(lo, hi);
    }

    // ------------------------------------------------------------ modes and registers

    /** `set_e`. */
    method SetE(data: bool)
      modifies this
      ensures regs == CpuCore.SetE(old(regs), data) && prevCounter == old(prevCounter)
    {
      regs := regs.(e := data);
      if data {
        regs := regs.(p := regs.p.(m := true, x := true));
        regs := regs.(x := Lo(regs.x), y := Lo(regs.y));
        regs := regs.(s := 0x100 + Lo(regs.s));
      }
    }

    /** Load A, X or Y at its width and set N and Z (the register half of the loads, pulls and transfers). */
    method SetRegister(reg: Register, v: u16)
      requires !Narrow(regs, reg) || v < 0x100
      modifies this
      ensures regs == Put(old(regs), reg, v) && prevCounter == old(prevCounter)
    {
      var narrow := Narrow(regs, reg);
      match reg {
        case A => regs := regs.(a := if narrow then SetLow(regs.a, v) else v);
        case X => regs := regs.(x := v);
        case Y => regs := regs.(y := v);
      }
      regs := regs.(p := SetNZ(regs.p, v, !narrow));
    }

    // ------------------------------------------------------------ exceptions

    /** `exeption`. */
    method Exception(ex: Exception, ctx: Context)
      requires ctx.Valid()
      modifies this, ctx
      ensures Reached(ctx, ExceptionEntry(old(regs), old(ctx.mem), ex), old(ctx.now))
      ensures ctx.nmi == old(ctx.nmi) && ctx.irq == old(ctx.irq) && prevCounter == old(prevCounter)
    {
      regs := regs.(halt := false);
      if regs.e {
        regs := regs.(p := regs.p.(x := ex == Brk || ex == Cop));
      }
      if !regs.e {
        Push8(ctx, regs.pb);
      }
      Push16(ctx, regs.pc);
      Push8(ctx, StatusByte(regs.p));
      regs := regs.(p := regs.p.(i := true));
      regs := regs.(pb := 0);
      regs := regs.(pc := Mem16(ctx.mem, WarpAddress(InterruptVector(ex, regs.e), NoWarp)));
    }

    // ------------------------------------------------------------ effective addresses

    /** The direct-page pointer of the indirect modes, with the penalty cycle outside `is_wrap8`. */
    method DirectPointerOf(off: u8, ctx: Context) returns (w: WarpAddress)
      requires ctx.Valid()
      modifies ctx
      ensures ctx.Valid() && ctx.mem == old(ctx.mem) && w == DirectPointer(regs, off)
      ensures ctx.now == old(ctx.now) + (if IsWrap8(regs) then 0 else DirectPenalty(regs))
      ensures ctx.nmi == old(ctx.nmi) && ctx.irq == old(ctx.irq)
    {
      if IsWrap8(regs) {
        w := WarpAddress(DirectPage(regs, off), Warp8bit);
      } else {
        if regs.d % 0x100 != 0 {
          ctx.Elapse(CpuCycle);
        }
        w := Offset(WarpAddress(regs.d, Warp16bit), off);
      }
    }

    /** The penalty cycle of the direct modes when D is not page aligned. */
    method DirectPenaltyCycle(ctx: Context)
      modifies ctx
      ensures ctx.now == old(ctx.now) + DirectPenalty(regs)
      ensures ctx.mem == old(ctx.mem) && ctx.nmi == old(ctx.nmi) && ctx.irq == old(ctx.irq)
    {
      if regs.d % 0x100 != 0 {
        ctx.Elapse(CpuCycle);
      }
    }

    /** `get_warp_address` for the absolute and stack-relative modes. */
    method AbsoluteAddress(mode: MemMode, ctx: Context) returns (w: WarpAddress)
      requires ctx.Valid() && mode in {Absolute, AbsoluteLong, AbsoluteX, AbsoluteLongX, AbsoluteY, AbsoluteIndexedIndirect, StackRelative}
      modifies this
      ensures prevCounter == old(prevCounter)
      ensures var ea := EffectiveAddress(old(regs), ctx.mem, mode);
        w == ea.w && regs == Advance(old(regs), ea.len) && ea.cycles == 0
    {
      var r := regs;
      ghost var ea := EffectiveAddress(r, ctx.mem, mode);
      match mode {
        case Absolute =>
          var lo := Fetch16(ctx);
          w := WarpAddress(Long(r.db, lo), NoWarp);
        case AbsoluteLong =>
          var addr := Fetch24(ctx);
          w := WarpAddress(addr, NoWarp);
        case AbsoluteX =>
          var lo := Fetch16(ctx);
          w := Offset(WarpAddress(Long(r.db, lo), NoWarp), r.x);
        case AbsoluteLongX =>
          var addr := Fetch24(ctx);
          w := Offset(WarpAddress(addr, NoWarp), r.x);
        case AbsoluteY =>
          var lo := Fetch16(ctx);
          w := Offset(WarpAddress(Long(r.db, lo), NoWarp), r.y);
        case AbsoluteIndexedIndirect =>
          var lo := Fetch16(ctx);
          w := WarpAddress(Long(r.pb, (lo + r.x) % 0x1_0000), Warp16bit);
          assert w == ea.w;
        case StackRelative =>
          var off := Fetch8(ctx);
          w := WarpAddress((r.s + off) % 0x1_0000, Warp16bit);
          assert w == ea.w;
      }
    }

    /** `get_warp_address` for the direct modes that read no pointer. */
    method DirectAddress(mode: MemMode, ctx: Context) returns (w: WarpAddress)
      requires ctx.Valid() && mode in {Direct, DirectX, DirectY}
      modifies this, ctx
      ensures ctx.Valid() && ctx.mem == old(ctx.mem) && prevCounter == old(prevCounter)
      ensures var ea := EffectiveAddress(old(regs), old(ctx.mem), mode);
        w == ea.w && regs == Advance(old(regs), ea.len) && ctx.now == old(ctx.now) + ea.cycles
      ensures ctx.nmi == old(ctx.nmi) && ctx.irq == old(ctx.irq)
    {
      ghost var ea := EffectiveAddress(regs, ctx.mem, mode);
      var off := Fetch8(ctx);
      if mode == Direct {
        if IsWrap8(regs) {
          w := WarpAddress(DirectPage(regs, off), Warp8bit);
        } else {
          DirectPenaltyCycle(ctx);
          w := Offset(WarpAddress(regs.d, Warp16bit), off);
        }
      } else {
        DirectPenaltyCycle(ctx);
        var index := if mode == DirectX then regs.x else regs.y;
        if IsWrap8(regs) {
          w := Offset(WarpAddress(DirectPage(regs, off), Warp8bit), index);
        } else {
          w := Offset(Offset(WarpAddress(regs.d, Warp16bit), off), index);
        }
      }
    }

    /** `get_warp_address` for the modes that index a pointer read from the direct page by Y. */
    method IndirectIndexedAddress(mode: MemMode, ctx: Context) returns (w: WarpAddress)
      requires ctx.Valid() && mode in {DirectIndirectIndexedY, DirectIndirectIndexedLongY}
      modifies this, ctx
      ensures ctx.Valid() && ctx.mem == old(ctx.mem) && prevCounter == old(prevCounter)
      ensures var ea := EffectiveAddress(old(regs), old(ctx.mem), mode);
        w == ea.w && regs == Advance(old(regs), ea.len) && ctx.now == old(ctx.now) + ea.cycles
      ensures ctx.nmi == old(ctx.nmi) && ctx.irq == old(ctx.irq)
    {
      ghost var r0 := regs;
      ghost var ea := EffectiveAddress(regs, ctx.mem, mode);
      var off := Fetch8(ctx);
      assert off == OpByte(r0, ctx.mem, 0) && regs.d == r0.d && regs.e == r0.e;
      var pointer := DirectPointerOf(off, ctx);
      assert pointer == DirectPointer(r0, off);
      if mode == DirectIndirectIndexedY {
        w := Offset(WarpAddress(Long(regs.db, Mem16(ctx.mem, pointer)), NoWarp), regs.y);
      } else {
        w := Offset(WarpAddress(Mem24(ctx.mem, pointer), NoWarp), regs.y);
      }
    }

    /** `get_warp_address` for the stack-relative indirect indexed mode: one internal cycle. */
    method StackIndirectAddress(ctx: Context) returns (w: WarpAddress)
      requires ctx.Valid()
      modifies this, ctx
      ensures ctx.Valid() && ctx.mem == old(ctx.mem) && prevCounter == old(prevCounter)
      ensures var ea := EffectiveAddress(old(regs), old(ctx.mem), StackRelativeIndirectIndexed);
        w == ea.w && regs == Advance(old(regs), ea.len) && ctx.now == old(ctx.now) + ea.cycles
      ensures ctx.nmi == old(ctx.nmi) && ctx.irq == old(ctx.irq)
    {
      ghost var ea := EffectiveAddress(regs, ctx.mem, StackRelativeIndirectIndexed);
      var off := Fetch8(ctx);
      ctx.Elapse(CpuCycle);
      var pointer := Mem16(ctx.mem, Offset(WarpAddress(regs.s, Warp16bit), off));
      w := Offset(WarpAddress(Long(regs.db, pointer), NoWarp), regs.y);
    }

    /** `get_warp_address` for the modes that read a pointer at D plus the operand. */
    method DirectIndirectAddress(mode: MemMode, ctx: Context) returns (w: WarpAddress)
      requires ctx.Valid() && mode in {DirectIndexedIndirect, DirectIndirect, DirectIndirectLong}
      modifies this, ctx
      ensures ctx.Valid() && ctx.mem == old(ctx.mem) && prevCounter == old(prevCounter)
      ensures var ea := EffectiveAddress(old(regs), old(ctx.mem), mode);
        w == ea.w && regs == Advance(old(regs), ea.len) && ctx.now == old(ctx.now) + ea.cycles
      ensures ctx.nmi == old(ctx.nmi) && ctx.irq == old(ctx.irq)
    {
      ghost var ea := EffectiveAddress(regs, ctx.mem, mode);
      var off := Fetch8(ctx);
      DirectPenaltyCycle(ctx);
      match mode {
        case DirectIndexedIndirect =>
          var base := WarpAddress(regs.d, if IsWrap8(regs) then Warp8bit else Warp16bit);
          w := WarpAddress(Long(regs.db, Mem16(ctx.mem, Offset(Offset(base, off), regs.x))), NoWarp);
        case DirectIndirect =>
          w := WarpAddress(Long(regs.db, Mem16(ctx.mem, Offset(WarpAddress(regs.d, Warp16bit), off))), NoWarp);
        case DirectIndirectLong =>
          w := WarpAddress(Mem24(ctx.mem, Offset(WarpAddress(regs.d, Warp16bit), off)), NoWarp);
      }
    }

    /** `get_warp_address`. */
    method GetWarpAddress(mode: MemMode, ctx: Context) returns (w: WarpAddress)
      requires ctx.Valid()
      modifies this, ctx
      ensures ctx.Valid() && ctx.mem == old(ctx.mem) && prevCounter == old(prevCounter)
      ensures var ea := EffectiveAddress(old(regs), old(ctx.mem), mode);
        w == ea.w && regs == Advance(old(regs), ea.len) && ctx.now == old(ctx.now) + ea.cycles
      ensures ctx.nmi == old(ctx.nmi) && ctx.irq == old(ctx.irq)
    {
      if mode in {Direct, DirectX, DirectY} {
        w := DirectAddress(mode, ctx);
      } else if mode in {DirectIndirectIndexedY, DirectIndirectIndexedLongY} {
        w := IndirectIndexedAddress(mode, ctx);
      } else if mode == StackRelativeIndirectIndexed {
        w := StackIndirectAddress(ctx);
      } else if mode in {DirectIndexedIndirect, DirectIndirect, DirectIndirectLong} {
        w := DirectIndirectAddress(mode, ctx);
      } else {
        w := AbsoluteAddress(mode, ctx);
      }
    }

    /** The operand of `alu`, `bit`, `cmp_xy` and the loads: `fetch_8`/`fetch_16` or `read_8`/`read_16`. */
    method ReadOperandOf(src: Operand, wide: bool, ctx: Context) returns (v: u16)
      requires ctx.Valid()
      modifies this, ctx
      ensures ctx.Valid() && ctx.mem == old(ctx.mem) && prevCounter == old(prevCounter)
      ensures var f := ReadOperand(old(regs), old(ctx.mem), src, wide);
        v == f.value && regs == Advance(old(regs), f.len) && ctx.now == old(ctx.now) + f.cycles
      ensures ctx.nmi == old(ctx.nmi) && ctx.irq == old(ctx.irq)
    {
      if src == Imm {
        if wide {
          v := Fetch16(ctx);
        } else {
          var b := Fetch8(ctx);
          v := b;
        }
      } else {
        var w := GetWarpAddress(src.mode, ctx);
        v := if wide then Mem16(ctx.mem, w) else Mem8(ctx.mem, w);
      }
    }

    // ------------------------------------------------------------ ALU and read-modify-write handlers

    /** `alu`: OR, AND, EOR, ADC, SBC and CMP on the accumulator. */
    method AluOp(op: AluType, src: Operand, ctx: Context)
      requires ctx.Valid()
      modifies this, ctx
      ensures Reached(ctx, AluSem(old(regs), old(ctx.mem), op, src), old(ctx.now))
      ensures ctx.nmi == old(ctx.nmi) && ctx.irq == old(ctx.irq) && prevCounter == old(prevCounter)
    {
      var narrow := IsA8(regs);
      var a, p := regs.a, regs.p;
      var b := ReadOperandOf(src, !narrow, ctx);
      var out := if narrow then AluA8(op, a, b, p) else AluA16(op, a, b, p);
      regs := regs.(a := out.a, p := out.p);
    }

    /** `cmp_xy`: CPX and CPY. */
    method CompareIndex(index: IndexRegister, src: Operand, ctx: Context)
      requires ctx.Valid()
      modifies this, ctx
      ensures Reached(ctx, CmpIndexSem(old(regs), old(ctx.mem), index, src), old(ctx.now))
      ensures ctx.nmi == old(ctx.nmi) && ctx.irq == old(ctx.irq) && prevCounter == old(prevCounter)
    {
      var narrow := IsXY8(regs);
      var v, p := if index == IndexX then regs.x else regs.y, regs.p;
      var b := ReadOperandOf(src, !narrow, ctx);
      var q := if narrow then AluA8(Cmp, v, b, p).p else AluA16(Cmp, v, b, p).p;
      regs := regs.(p := q);
    }

    /** `bit`. */
    method BitTestOp(src: Operand, ctx: Context)
      requires ctx.Valid()
      modifies this, ctx
      ensures Reached(ctx, BitSem(old(regs), old(ctx.mem), src), old(ctx.now))
      ensures ctx.nmi == old(ctx.nmi) && ctx.irq == old(ctx.irq) && prevCounter == old(prevCounter)
    {
      var narrow := IsA8(regs);
      var a, p := regs.a, regs.p;
      var b := ReadOperandOf(src, !narrow, ctx);
      var q := if narrow then Bit8(Lo(a), b, src == Imm, p) else Bit16(a, b, src == Imm, p);
      regs := regs.(p := q);
    }

    /** `tsb`, `trb`, the shifts with an address, `inc` and `dec`: the shifts spend their cycle before the address, `inc` and `dec` after it. */
    method ReadModifyWrite(mode: MemMode, kind: Modify, ctx: Context)
      requires ctx.Valid()
      modifies this, ctx
      ensures Reached(ctx, ModifySem(old(regs), old(ctx.mem), mode, kind), old(ctx.now))
      ensures ctx.nmi == old(ctx.nmi) && ctx.irq == old(ctx.irq) && prevCounter == old(prevCounter)
    {
      ghost var o := ModifySem(regs, ctx.mem, mode, kind);
      var a, p, narrow := regs.a, regs.p, IsA8(regs);
      if kind.ModShift? {
        ctx.Elapse(CpuCycle);
      }
      var w := GetWarpAddress(mode, ctx);
      if kind == ModInc || kind == ModDec {
        ctx.Elapse(CpuCycle);
      }
      if narrow {
        var out := Modify8(kind, Lo(a), Mem8(ctx.mem, w), p);
        regs := regs.(p := out.p);
        ctx.Write8(w, out.r);
      } else {
        var out := Modify16(kind, a, Mem16(ctx.mem, w), p);
        regs := regs.(p := out.p);
        ctx.Write16(w, out.r);
      }
    }

    /** `asl_a`, `lsr_a`, `rol_a`, `ror_a`. */
    method ShiftAccumulator(op: ShiftOp, ctx: Context)
      requires ctx.Valid()
      modifies this, ctx
      ensures Reached(ctx, Outcome(ShiftASem(old(regs), op), old(ctx.mem), CpuCycle), old(ctx.now))
      ensures ctx.nmi == old(ctx.nmi) && ctx.irq == old(ctx.irq) && prevCounter == old(prevCounter)
    {
      ctx.Elapse(CpuCycle);
      if IsA8(regs) {
        var out := Shift8(op, Lo(regs.a), regs.p);
        regs := regs.(a := SetLow(regs.a, out.r), p := out.p);
      } else {
        var out := Shift16(op, regs.a, regs.p);
        regs := regs.(a := out.r, p := out.p);
      }
    }

    /** `ina`, `inx`, `iny`, `dea`, `dex`, `dey`. */
    method StepReg(reg: Register, up: bool, ctx: Context)
      requires ctx.Valid()
      modifies this, ctx
      ensures Reached(ctx, Outcome(StepRegister(old(regs), reg, up), old(ctx.mem), CpuCycle), old(ctx.now))
      ensures ctx.nmi == old(ctx.nmi) && ctx.irq == old(ctx.irq) && prevCounter == old(prevCounter)
    {
      ctx.Elapse(CpuCycle);
      var v := Get(regs, reg);
      if Narrow(regs, reg) {
        SetRegister(reg, if up then Inc8(Lo(v)) else Dec8(Lo(v)));
      } else {
        SetRegister(reg, if up then Inc16(v) else Dec16(v));
      }
    }

    // ------------------------------------------------------------ register handlers

    /** The transfers between A, X, Y, S and D. */
    method TransferReg(t: TransferOp, ctx: Context)
      requires ctx.Valid()
      modifies this, ctx
      ensures Reached(ctx, Outcome(TransferSem(old(regs), t), old(ctx.mem), CpuCycle), old(ctx.now))
      ensures ctx.nmi == old(ctx.nmi) && ctx.irq == old(ctx.irq) && prevCounter == old(prevCounter)
    {
      var xy8, a8 := IsXY8(regs), IsA8(regs);
      match t {
        case Tay => SetRegister(Y, if xy8 then Lo(regs.a) else regs.a);
        case Tax => SetRegister(X, if xy8 then Lo(regs.a) else regs.a);
        case Tsx => SetRegister(X, if xy8 then Lo(regs.s) else regs.s);
        case Tya => SetRegister(A, if a8 then Lo(regs.y) else regs.y);
        case Txa => SetRegister(A, if a8 then Lo(regs.x) else regs.x);
        case Txs => regs := regs.(s := if regs.e then SetLow(regs.s, Lo(regs.x)) else regs.x);
        case Txy => SetRegister(Y, if xy8 then Lo(regs.x) else regs.x);
        case Tyx => SetRegister(X, if xy8 then Lo(regs.y) else regs.y);
        case Tdc => regs := regs.(a := regs.d, p := SetNZ16(regs.p, regs.d));
        case Tcd => regs := regs.(d := regs.a, p := SetNZ16(regs.p, regs.a));
        case Tsc => regs := regs.(a := regs.s, p := SetNZ16(regs.p, regs.s));
        case Tcs => regs := regs.(s := if regs.e then SetLow(regs.s, Lo(regs.a)) else regs.a);
      }
      ctx.Elapse(CpuCycle);
    }

    /** `lda`, `ldx`, `ldy` and their immediate forms. */
    method LoadReg(reg: Register, src: Operand, ctx: Context)
      requires ctx.Valid()
      modifies this, ctx
      ensures Reached(ctx, LoadSem(old(regs), old(ctx.mem), reg, src), old(ctx.now))
      ensures ctx.nmi == old(ctx.nmi) && ctx.irq == old(ctx.irq) && prevCounter == old(prevCounter)
    {
      ghost var r0 := regs;
      var narrow := Narrow(regs, reg);
      var v := ReadOperandOf(src, !narrow, ctx);
      assert Narrow(regs, reg) == narrow;
      SetRegister(reg, v);
    }

    /** `sta`, `stx`, `sty`, `stz`. */
    method StoreReg(stored: StoreSource, mode: MemMode, ctx: Context)
      requires ctx.Valid()
      modifies this, ctx
      ensures Reached(ctx, StoreSem(old(regs), old(ctx.mem), stored, mode), old(ctx.now))
      ensures ctx.nmi == old(ctx.nmi) && ctx.irq == old(ctx.irq) && prevCounter == old(prevCounter)
    {
      var narrow := if stored == StoreX || stored == StoreY then IsXY8(regs) else IsA8(regs);
      var v := match stored
        case StoreA => regs.a
        case StoreX => regs.x
        case StoreY => regs.y
        case StoreZero => 0;
      var w := GetWarpAddress(mode, ctx);
      if narrow {
        ctx.Write8(w, Lo(v));
      } else {
        ctx.Write16(w, v);
      }
    }

    // ------------------------------------------------------------ stack handlers

    /** `pha`, `phx`, `phy`, `php`, `phb`, `phk`, `phd`. */
    method PushReg(pushed: PushSource, ctx: Context)
      requires ctx.Valid()
      modifies this, ctx
      ensures Reached(ctx, PushSem(old(regs), old(ctx.mem), pushed), old(ctx.now))
      ensures ctx.nmi == old(ctx.nmi) && ctx.irq == old(ctx.irq) && prevCounter == old(prevCounter)
    {
      ctx.Elapse(CpuCycle);
      match pushed {
        case PushA => if IsA8(regs) { Push8(ctx, Lo(regs.a)); } else { Push16(ctx, regs.a); }
        case PushX => if IsXY8(regs) { Push8(ctx, Lo(regs.x)); } else { Push16(ctx, regs.x); }
        case PushY => if IsXY8(regs) { Push8(ctx, Lo(regs.y)); } else { Push16(ctx, regs.y); }
        case PushP => Push8(ctx, StatusByte(regs.p));
        case PushDB => Push8(ctx, regs.db);
        case PushPB => Push8(ctx, regs.pb);
        case PushD => Push16(ctx, regs.d);
      }
    }

    /** `pla`, `plx`, `ply`, `pld`, `plb`, `plp`. */
    method PullReg(pulled: PullTarget, ctx: Context)
      requires ctx.Valid()
      modifies this, ctx
      ensures Reached(ctx, Outcome(PullSem(old(regs), old(ctx.mem), pulled), old(ctx.mem), 2 * CpuCycle), old(ctx.now))
      ensures ctx.nmi == old(ctx.nmi) && ctx.irq == old(ctx.irq) && prevCounter == old(prevCounter)
    {
      ctx.Elapse(2 * CpuCycle);
      match pulled {
        case PullA =>
          if IsA8(regs) { var v := Pop8(ctx); SetRegister(A, v); } else { var v := Pop16(ctx); SetRegister(A, v); }
        case PullX =>
          if IsXY8(regs) { var v := Pop8(ctx); SetRegister(X, v); } else { var v := Pop16(ctx); SetRegister(X, v); }
        case PullY =>
          if IsXY8(regs) { var v := Pop8(ctx); SetRegister(Y, v); } else { var v := Pop16(ctx); SetRegister(Y, v); }
        case PullD =>
          var v := Pop16(ctx);
          regs := regs.(d := v, p := SetNZ16(regs.p, v));
        case PullDB =>
          var v := Pop8(ctx);
          regs := regs.(db := v, p := SetNZ8(regs.p, v));
        case PullP =>
          var v := Pop8(ctx);
          regs := regs.(p := StatusOfByte(v));
      }
    }

    /** `pei`: push the word at the direct-page operand. */
    method PushEffective(ctx: Context)
      requires ctx.Valid()
      modifies this, ctx
      ensures Reached(ctx, PeiSem(old(regs), old(ctx.mem)), old(ctx.now))
      ensures ctx.nmi == old(ctx.nmi) && ctx.irq == old(ctx.irq) && prevCounter == old(prevCounter)
    {
      var w := GetWarpAddress(Direct, ctx);
      var data := Mem16(ctx.mem, w);
      Push16(ctx, data);
    }

    /** `pea`: push the operand word. */
    method PushAbsolute(ctx: Context)
      requires ctx.Valid()
      modifies this, ctx
      ensures Reached(ctx, PeaSem(old(regs), old(ctx.mem)), old(ctx.now))
      ensures ctx.nmi == old(ctx.nmi) && ctx.irq == old(ctx.irq) && prevCounter == old(prevCounter)
    {
      var data := Fetch16(ctx);
      Push16(ctx, data);
    }

    /** `per`: push PC plus the operand word. */
    method PushRelative(ctx: Context)
      requires ctx.Valid()
      modifies this, ctx
      ensures Reached(ctx, PerSem(old(regs), old(ctx.mem)), old(ctx.now))
      ensures ctx.nmi == old(ctx.nmi) && ctx.irq == old(ctx.irq) && prevCounter == old(prevCounter)
    {
      ghost var o := PerSem(regs, ctx.mem);
      var disp := Fetch16(ctx);
      ctx.Elapse(CpuCycle);
      var data := (regs.pc + disp) % 0x1_0000;
      assert StackOf(regs, ctx.mem) == StackOf(Advance(old(regs), 2), old(ctx.mem));
      Push16(ctx, data);
    }

    /** `brk` and `cop`. */
    method SoftwareInterruptOp(ex: Exception, ctx: Context)
      requires ctx.Valid() && (ex == Brk || ex == Cop)
      modifies this, ctx
      ensures Reached(ctx, SoftwareInterrupt(old(regs), old(ctx.mem), ex), old(ctx.now))
      ensures ctx.nmi == old(ctx.nmi) && ctx.irq == old(ctx.irq) && prevCounter == old(prevCounter)
    {
      var _ := Fetch8(ctx);
      if regs.e {
        regs := regs.(db := 0);
      }
      Exception(ex, ctx);
    }

    // ------------------------------------------------------------ jumps and branches

    /** `jmp_disp_8` (BRA). */
    method BranchAlways(ctx: Context)
      requires ctx.Valid()
      modifies this, ctx
      ensures Reached(ctx, BranchAlwaysSem(old(regs), old(ctx.mem)), old(ctx.now))
      ensures ctx.nmi == old(ctx.nmi) && ctx.irq == old(ctx.irq) && prevCounter == old(prevCounter)
    {
      var disp := Fetch8(ctx);
      ctx.Elapse(CpuCycle);
      if regs.e && Lo(regs.pc) + disp >= 0x100 {
        ctx.Elapse(CpuCycle);
      }
      regs := regs.(pc := BranchTarget(regs.pc, disp));
    }

    /** `jmp_disp_16` (BRL). */
    method BranchLong(ctx: Context)
      requires ctx.Valid()
      modifies this, ctx
      ensures Reached(ctx, BranchLongSem(old(regs), old(ctx.mem)), old(ctx.now))
      ensures ctx.nmi == old(ctx.nmi) && ctx.irq == old(ctx.irq) && prevCounter == old(prevCounter)
    {
      var disp := Fetch16(ctx);
      ctx.Elapse(CpuCycle);
      regs := regs.(pc := (regs.pc + disp) % 0x1_0000);
    }

    /** `jmp_abs`. */
    method JumpAbsolute(ctx: Context)
      requires ctx.Valid()
      modifies this, ctx
      ensures Reached(ctx, JmpSem(old(regs), old(ctx.mem)), old(ctx.now))
      ensures ctx.nmi == old(ctx.nmi) && ctx.irq == old(ctx.irq) && prevCounter == old(prevCounter)
    {
      var addr := Fetch16(ctx);
      regs := regs.(pc := addr);
    }

    /** `jmp_abs_long`. */
    method JumpLong(ctx: Context)
      requires ctx.Valid()
      modifies this, ctx
      ensures Reached(ctx, JmlSem(old(regs), old(ctx.mem)), old(ctx.now))
      ensures ctx.nmi == old(ctx.nmi) && ctx.irq == old(ctx.irq) && prevCounter == old(prevCounter)
    {
      var addr := Fetch24(ctx);
      regs := regs.(pc := addr % 0x1_0000, pb := addr / 0x1_0000);
    }

    /** `jmp_nnnn`. */
    method JumpIndirect(ctx: Context)
      requires ctx.Valid()
      modifies this, ctx
      ensures Reached(ctx, JmpIndirectSem(old(regs), old(ctx.mem)), old(ctx.now))
      ensures ctx.nmi == old(ctx.nmi) && ctx.irq == old(ctx.irq) && prevCounter == old(prevCounter)
    {
      var pointer := Fetch16(ctx);
      regs := regs.(pc := Mem16(ctx.mem, WarpAddress(pointer, Warp16bit)));
    }

    /** `jmp_nnnn_x`. */
    method JumpIndexedIndirect(ctx: Context)
      requires ctx.Valid()
      modifies this, ctx
      ensures Reached(ctx, JmpIndexedIndirectSem(old(regs), old(ctx.mem)), old(ctx.now))
      ensures ctx.nmi == old(ctx.nmi) && ctx.irq == old(ctx.irq) && prevCounter == old(prevCounter)
    {
      ctx.Elapse(CpuCycle);
      var pb := regs.pb;
      var lo := Fetch16(ctx);
      regs := regs.(pc := Mem16(ctx.mem, Offset(WarpAddress(Long(pb, lo), Warp16bit), regs.x)));
    }

    /** `jmp_far`. */
    method JumpLongIndirect(ctx: Context)
      requires ctx.Valid()
      modifies this, ctx
      ensures Reached(ctx, JmlIndirectSem(old(regs), old(ctx.mem)), old(ctx.now))
      ensures ctx.nmi == old(ctx.nmi) && ctx.irq == old(ctx.irq) && prevCounter == old(prevCounter)
    {
      var pointer := Fetch16(ctx);
      var addr := Mem24(ctx.mem, WarpAddress(pointer, Warp16bit));
      regs := regs.(pc := addr % 0x1_0000, pb := addr / 0x1_0000);
    }

    /** `jsr_abs`. */
    method JumpSubroutine(ctx: Context)
      requires ctx.Valid()
      modifies this, ctx
      ensures Reached(ctx, JsrSem(old(regs), old(ctx.mem)), old(ctx.now))
      ensures ctx.nmi == old(ctx.nmi) && ctx.irq == old(ctx.irq) && prevCounter == old(prevCounter)
    {
      ghost var o := JsrSem(regs, ctx.mem);
      var addr := Fetch16(ctx);
      ctx.Elapse(CpuCycle);
      Push16(ctx, Dec16(regs.pc));
      regs := regs.(pc := addr);
    }

    /** `jsl_far`. */
    method JumpSubroutineLong(ctx: Context)
      requires ctx.Valid()
      modifies this, ctx
      ensures Reached(ctx, JslSem(old(regs), old(ctx.mem)), old(ctx.now))
      ensures ctx.nmi == old(ctx.nmi) && ctx.irq == old(ctx.irq) && prevCounter == old(prevCounter)
    {
      ghost var r0, m0 := regs, ctx.mem;
      ghost var o := JslSem(regs, ctx.mem);
      ctx.Elapse(CpuCycle);
      var pc := Fetch16(ctx);
      var pb := Fetch8(ctx);
      AdvanceAdds(r0, m0, 2, 0);
      AdvanceAdds(r0, m0, 2, 1);
      assert ctx.mem == m0;
      assert pc == OpWord(r0, m0) && pb == OpByte(r0, m0, 2) && regs == Advance(r0, 3);
      Push8(ctx, regs.pb);
      ghost var st := CpuCore.Push8(StackOf(Advance(r0, 3), m0), r0.e, r0.pb);
      assert ctx.mem == st.mem && regs == Advance(r0, 3).(s := st.s);
      Push16(ctx, Dec16(regs.pc));
      regs := regs.(pc := pc, pb := pb);
    }

    /** `jsr_aix`. */
    method JumpSubroutineIndexedIndirect(ctx: Context)
      requires ctx.Valid()
      modifies this, ctx
      ensures Reached(ctx, JsrIndexedIndirectSem(old(regs), old(ctx.mem)), old(ctx.now))
      ensures ctx.nmi == old(ctx.nmi) && ctx.irq == old(ctx.irq) && prevCounter == old(prevCounter)
    {
      ghost var o := JsrIndexedIndirectSem(regs, ctx.mem);
      var w := GetWarpAddress(AbsoluteIndexedIndirect, ctx);
      var addr := Mem16(ctx.mem, w);
      ctx.Elapse(CpuCycle);
      Push16(ctx, Dec16(regs.pc));
      regs := regs.(pc := addr);
    }

    /** `rti`. */
    method ReturnFromInterrupt(ctx: Context)
      requires ctx.Valid()
      modifies this, ctx
      ensures Reached(ctx, RtiSem(old(regs), old(ctx.mem)), old(ctx.now))
      ensures ctx.nmi == old(ctx.nmi) && ctx.irq == old(ctx.irq) && prevCounter == old(prevCounter)
    {
      ctx.Elapse(CpuCycle);
      var p := Pop8(ctx);
      regs := regs.(p := StatusOfByte(p));
      var pc := Pop16(ctx);
      regs := regs.(pc := pc);
      if !regs.e {
        var pb := Pop8(ctx);
        regs := regs.(pb := pb);
        ctx.Elapse(CpuCycle);
      }
    }

    /** `rtl`. */
    method ReturnLong(ctx: Context)
      requires ctx.Valid()
      modifies this, ctx
      ensures Reached(ctx, Outcome(RtlSem(old(regs), old(ctx.mem)), old(ctx.mem), 2 * CpuCycle), old(ctx.now))
      ensures ctx.nmi == old(ctx.nmi) && ctx.irq == old(ctx.irq) && prevCounter == old(prevCounter)
    {
      ctx.Elapse(2 * CpuCycle);
      var pc := Pop16(ctx);
      regs := regs.(pc := Inc16(pc));
      var pb := Pop8(ctx);
      regs := regs.(pb := pb);
    }

    /** `rts`. */
    method ReturnSubroutine(ctx: Context)
      requires ctx.Valid()
      modifies this, ctx
      ensures Reached(ctx, Outcome(RtsSem(old(regs), old(ctx.mem)), old(ctx.mem), 3 * CpuCycle), old(ctx.now))
      ensures ctx.nmi == old(ctx.nmi) && ctx.irq == old(ctx.irq) && prevCounter == old(prevCounter)
    {
      ctx.Elapse(3 * CpuCycle);
      var pc := Pop16(ctx);
      regs := regs.(pc := Inc16(pc));
    }

    /** `cond_branch`. */
    method ConditionalBranch(cond: BranchType, ctx: Context)
      requires ctx.Valid()
      modifies this, ctx
      ensures Reached(ctx, BranchSem(old(regs), old(ctx.mem), cond), old(ctx.now))
      ensures ctx.nmi == old(ctx.nmi) && ctx.irq == old(ctx.irq) && prevCounter == old(prevCounter)
    {
      var disp := Fetch8(ctx);
      if CheckBranchCondition(cond, regs.p) {
        ctx.Elapse(CpuCycle);
        var prev := regs.pc;
        regs := regs.(pc := BranchTarget(regs.pc, disp));
        if regs.e && Hi(prev) != Hi(regs.pc) {
          ctx.Elapse(CpuCycle);
        }
      }
    }

    // ------------------------------------------------------------ status and control handlers

    /** `clc`, `cli`, `cld`, `clv`, `sec`, `sei`, `sed`. */
    method StatusFlag(f: FlagOp, ctx: Context)
      requires ctx.Valid()
      modifies this, ctx
      ensures Reached(ctx, Outcome(old(regs).(p := FlagSem(old(regs).p, f)), old(ctx.mem), CpuCycle), old(ctx.now))
      ensures ctx.nmi == old(ctx.nmi) && ctx.irq == old(ctx.irq) && prevCounter == old(prevCounter)
    {
      ctx.Elapse(CpuCycle);
      regs := regs.(p := FlagSem(regs.p, f));
    }

    /** `rep`: clear the status bits set in the operand. */
    method ResetStatus(ctx: Context)
      requires ctx.Valid()
      modifies this, ctx
      ensures Reached(ctx, StatusBitsSem(old(regs), old(ctx.mem), false), old(ctx.now))
      ensures ctx.nmi == old(ctx.nmi) && ctx.irq == old(ctx.irq) && prevCounter == old(prevCounter)
    {
      var data := Fetch8(ctx);
      ctx.Elapse(CpuCycle);
      regs := regs.(p := Rep(regs.p, data as bv8));
    }

    /** `sep`: set the status bits set in the operand. */
    method SetStatus(ctx: Context)
      requires ctx.Valid()
      modifies this, ctx
      ensures Reached(ctx, StatusBitsSem(old(regs), old(ctx.mem), true), old(ctx.now))
      ensures ctx.nmi == old(ctx.nmi) && ctx.irq == old(ctx.irq) && prevCounter == old(prevCounter)
    {
      var data := Fetch8(ctx);
      ctx.Elapse(CpuCycle);
      regs := regs.(p := Sep(regs.p, data as bv8));
    }

    /** `xce`: exchange C and E through `set_e`. */
    method ExchangeCarryEmulation(ctx: Context)
      requires ctx.Valid()
      modifies this, ctx
      ensures Reached(ctx, Outcome(Xce(old(regs)), old(ctx.mem), CpuCycle), old(ctx.now))
      ensures ctx.nmi == old(ctx.nmi) && ctx.irq == old(ctx.irq) && prevCounter == old(prevCounter)
    {
      ctx.Elapse(CpuCycle);
      var prevC := regs.p.c;
      regs := regs.(p := regs.p.(c := regs.e));
      SetE(prevC);
    }

    /** `stp`. */
    method StopClock(ctx: Context)
      requires ctx.Valid()
      modifies this, ctx
      ensures Reached(ctx, Outcome(old(regs).(stop := true), old(ctx.mem), CpuCycle), old(ctx.now))
      ensures ctx.nmi == old(ctx.nmi) && ctx.irq == old(ctx.irq) && prevCounter == old(prevCounter)
    {
      ctx.Elapse(CpuCycle);
      regs := regs.(stop := true);
    }

    /** `xba`: swap the bytes of A; N and Z follow the new low byte. */
    method SwapAccumulator(ctx: Context)
      requires ctx.Valid()
      modifies this, ctx
      ensures Reached(ctx, Outcome(XbaSem(old(regs)), old(ctx.mem), CpuCycle), old(ctx.now))
      ensures ctx.nmi == old(ctx.nmi) && ctx.irq == old(ctx.irq) && prevCounter == old(prevCounter)
    {
      ctx.Elapse(CpuCycle);
      var hi := Hi(regs.a);
      regs := regs.(a := Word(hi, Lo(regs.a)));
      WordRoundTrip(regs.a, hi, Lo(old(regs).a));
      regs := regs.(p := SetNZ8(regs.p, Lo(regs.a)));
    }

    /** `wai`. */
    method WaitInterrupt(ctx: Context)
      requires ctx.Valid()
      modifies this, ctx
      ensures Reached(ctx, Outcome(old(regs).(halt := true), old(ctx.mem), 2 * CpuCycle), old(ctx.now))
      ensures ctx.nmi == old(ctx.nmi) && ctx.irq == old(ctx.irq) && prevCounter == old(prevCounter)
    {
      ctx.Elapse(2 * CpuCycle);
      regs := regs.(halt := true);
    }

    /** `wdm`: skip the signature byte. */
    method ReservedOp(ctx: Context)
      requires ctx.Valid()
      modifies this, ctx
      ensures Reached(ctx, Outcome(Advance(old(regs), 1), old(ctx.mem), 0), old(ctx.now))
      ensures ctx.nmi == old(ctx.nmi) && ctx.irq == old(ctx.irq) && prevCounter == old(prevCounter)
    {
      var _ := Fetch8(ctx);
    }

    /** `nop`. */
    method NoOperation(ctx: Context)
      requires ctx.Valid()
      modifies this, ctx
      ensures Reached(ctx, Outcome(old(regs), old(ctx.mem), CpuCycle), old(ctx.now))
      ensures ctx.nmi == old(ctx.nmi) && ctx.irq == old(ctx.irq) && prevCounter == old(prevCounter)
    {
      ctx.Elapse(CpuCycle);
    }

    /** `mvp` (`up` false) and `mvn` (`up` true): move one byte and step the registers. */
    method BlockMove(up: bool, ctx: Context)
      requires ctx.Valid()
      modifies this, ctx
      ensures Reached(ctx, MoveSem(old(regs), old(ctx.mem), up), old(ctx.now))
      ensures ctx.nmi == old(ctx.nmi) && ctx.irq == old(ctx.irq) && prevCounter == old(prevCounter)
    {
      ghost var r0, m0 := regs, ctx.mem;
      var dst := Fetch8(ctx);
      AdvanceAdds(r0, m0, 1, 0);
      AdvanceAdds(r0, m0, 1, 1);
      var src := Fetch8(ctx);
      assert dst == OpByte(r0, m0, 0) && src == OpByte(r0, m0, 1) && regs == Advance(r0, 2);
      ghost var o := MoveSem(r0, m0, up);
      var data := Mem8(ctx.mem, WarpAddress(Long(src, regs.x), NoWarp));
      ctx.Write8(WarpAddress(Long(dst, regs.y), NoWarp), data);
      assert ctx.mem == o.mem;
      var a := Dec16(regs.a);
      var pc := if a != 0xFFFF then (regs.pc - 3) % 0x1_0000 else regs.pc;
      regs := regs.(db := dst, x := MoveIndex(regs, regs.x, up), y := MoveIndex(regs, regs.y, up), a := a, pc := pc);
      assert regs == o.r;
      ctx.Elapse(2 * CpuCycle);
    }

    // ------------------------------------------------------------ dispatch

    /** The part of `excecute_instruction_`'s `match opcode` for the ALU, accumulator-shift and register-step instructions. */
    method RunArithmetic(instr: Instr, ctx: Context)
      requires ctx.Valid() && GroupOf(instr) == Arithmetic
      modifies this, ctx
      ensures Reached(ctx, ExecuteArithmetic(old(regs), old(ctx.mem), instr), old(ctx.now))
      ensures ctx.nmi == old(ctx.nmi) && ctx.irq == old(ctx.irq) && prevCounter == old(prevCounter)
    {
      match instr
      case Break => SoftwareInterruptOp(Brk, ctx);
      case Coprocessor => SoftwareInterruptOp(Cop, ctx);
      case Alu(op, src) => AluOp(op, src, ctx);
      case CmpIndex(index, src) => CompareIndex(index, src, ctx);
      case BitTest(src) => BitTestOp(src, ctx);
      case ShiftA(op) => ShiftAccumulator(op, ctx);
      case IncReg(reg) => StepReg(reg, true, ctx);
      case DecReg(reg) => StepReg(reg, false, ctx);
      case _ => assert false;
    }

    /** The part of `excecute_instruction_`'s `match opcode` for the read-modify-write instructions on memory. */
    method RunModify(instr: Instr, ctx: Context)
      requires ctx.Valid() && GroupOf(instr) == MemoryModify
      modifies this, ctx
      ensures Reached(ctx, ExecuteModify(old(regs), old(ctx.mem), instr), old(ctx.now))
      ensures ctx.nmi == old(ctx.nmi) && ctx.irq == old(ctx.irq) && prevCounter == old(prevCounter)
    {
      match instr
      case Tsb(mode) => ReadModifyWrite(mode, ModTsb, ctx);
      case Trb(mode) => ReadModifyWrite(mode, ModTrb, ctx);
      case ShiftMem(op, mode) => ReadModifyWrite(mode, ModShift(op), ctx);
      case IncMem(mode) => ReadModifyWrite(mode, ModInc, ctx);
      case DecMem(mode) => ReadModifyWrite(mode, ModDec, ctx);
      case _ => assert false;
    }

    /** The part of `excecute_instruction_`'s `match opcode` for loads, stores, transfers and the stack instructions. */
    method RunTransfer(instr: Instr, ctx: Context)
      requires ctx.Valid() && GroupOf(instr) == DataTransfer
      modifies this, ctx
      ensures Reached(ctx, ExecuteTransfer(old(regs), old(ctx.mem), instr), old(ctx.now))
      ensures ctx.nmi == old(ctx.nmi) && ctx.irq == old(ctx.irq) && prevCounter == old(prevCounter)
    {
      match instr
      case Transfer(t) => TransferReg(t, ctx);
      case Load(reg, src) => LoadReg(reg, src, ctx);
      case Store(stored, mode) => StoreReg(stored, mode, ctx);
      case Push(pushed) => PushReg(pushed, ctx);
      case Pei => PushEffective(ctx);
      case Pea => PushAbsolute(ctx);
      case Per => PushRelative(ctx);
      case Pull(pulled) => PullReg(pulled, ctx);
      case _ => assert false;
    }

    /** The part of `excecute_instruction_`'s `match opcode` for jumps, branches, calls and returns. */
    method RunControl(instr: Instr, ctx: Context)
      requires ctx.Valid() && GroupOf(instr) == ControlFlow
      modifies this, ctx
      ensures Reached(ctx, ExecuteControl(old(regs), old(ctx.mem), instr), old(ctx.now))
      ensures ctx.nmi == old(ctx.nmi) && ctx.irq == old(ctx.irq) && prevCounter == old(prevCounter)
    {
      match instr
      case BranchAlways => BranchAlways(ctx);
      case BranchLong => BranchLong(ctx);
      case Jmp => JumpAbsolute(ctx);
      case Jml => JumpLong(ctx);
      case JmpIndirect => JumpIndirect(ctx);
      case JmpIndexedIndirect => JumpIndexedIndirect(ctx);
      case JmlIndirect => JumpLongIndirect(ctx);
      case Jsr => JumpSubroutine(ctx);
      case Jsl => JumpSubroutineLong(ctx);
      case JsrIndexedIndirect => JumpSubroutineIndexedIndirect(ctx);
      case Rti => ReturnFromInterrupt(ctx);
      case Rtl => ReturnLong(ctx);
      case Rts => ReturnSubroutine(ctx);
      case Branch(cond) => ConditionalBranch(cond, ctx);
      case _ => assert false;
    }

    /** The part of `excecute_instruction_`'s `match opcode` for the status-flag, mode and block-move instructions. */
    method RunMisc(instr: Instr, ctx: Context)
      requires ctx.Valid() && GroupOf(instr) == Miscellaneous
      modifies this, ctx
      ensures Reached(ctx, ExecuteMisc(old(regs), old(ctx.mem), instr), old(ctx.now))
      ensures ctx.nmi == old(ctx.nmi) && ctx.irq == old(ctx.irq) && prevCounter == old(prevCounter)
    {
      match instr
      case Flag(f) => StatusFlag(f, ctx);
      case ResetFlags => ResetStatus(ctx);
      case SetFlags => SetStatus(ctx);
      case ExchangeCE => ExchangeCarryEmulation(ctx);
      case Stop => StopClock(ctx);
      case ExchangeBA => SwapAccumulator(ctx);
      case WaitForInterrupt => WaitInterrupt(ctx);
      case Reserved => ReservedOp(ctx);
      case Nop => NoOperation(ctx);
      case MovePrevious => BlockMove(false, ctx);
      case MoveNext => BlockMove(true, ctx);
      case _ => assert false;
    }

    /** The `match opcode` of `excecute_instruction_`, on the decoded instruction. */
    method Run(instr: Instr, ctx: Context)
      requires ctx.Valid()
      modifies this, ctx
      ensures Reached(ctx, Execute(old(regs), old(ctx.mem), instr), old(ctx.now))
      ensures ctx.nmi == old(ctx.nmi) && ctx.irq == old(ctx.irq) && prevCounter == old(prevCounter)
    {
      match GroupOf(instr)
      case Arithmetic => RunArithmetic(instr, ctx);
      case MemoryModify => RunModify(instr, ctx);
      case DataTransfer => RunTransfer(instr, ctx);
      case ControlFlow => RunControl(instr, ctx);
      case Miscellaneous => RunMisc(instr, ctx);
    }

    // ------------------------------------------------------------ one step

    /** The last part of `excecute_instruction_`: fetch the opcode and run its handler. */
    method FetchAndRun(ctx: Context)
      requires ctx.Valid()
      modifies this, ctx
      ensures Reached(ctx, Execute(Advance(old(regs), 1), old(ctx.mem), Decode(OpByte(old(regs), old(ctx.mem), 0))), old(ctx.now))
      ensures ctx.nmi == old(ctx.nmi) && ctx.irq == old(ctx.irq) && prevCounter == old(prevCounter)
    {
      var opcode := Fetch8(ctx);
      Run(Decode(opcode), ctx);
    }

    /** The interrupt entry of `excecute_instruction_`: a dummy read of PB:PC, one cycle, then the exception. */
    method Interrupt(ex: Exception, ctx: Context)
      requires ctx.Valid()
      modifies this, ctx
      ensures Reached(ctx, ExceptionEntry(old(regs), old(ctx.mem), ex).(cycles := CpuCycle), old(ctx.now))
      ensures ctx.nmi == old(ctx.nmi) && ctx.irq == old(ctx.irq) && prevCounter == old(prevCounter)
    {
      ctx.Elapse(CpuCycle);
      Exception(ex, ctx);
    }

    /**
     * `excecute_instruction_`: nothing when the clock has moved past `prev_counter`;
     * otherwise an NMI, an unmasked IRQ, an idle cycle of WAI, or the next
     * opcode, as `Step` says.
     */
    method StepInstruction(ctx: Context)
      requires ctx.Valid()
      modifies this, ctx
      ensures Reached(ctx, Step(old(regs), old(ctx.mem), prevCounter, old(ctx.now), old(ctx.nmi), old(ctx.irq)), old(ctx.now))
      ensures ctx.nmi == old(ctx.nmi) && ctx.irq == old(ctx.irq) && prevCounter == old(prevCounter)
    {
      if prevCounter < ctx.now {
        return;
      }
      if ctx.nmi {
        Interrupt(Nmi, ctx);
        return;
      }
      if ctx.irq && !regs.p.i {
        Interrupt(Irq, ctx);
        return;
      }
      if regs.halt {
        if ctx.irq {
          regs := regs.(halt := false);
        } else {
          ctx.Elapse(CpuCycle);
          return;
        }
      }
      FetchAndRun(ctx);
    }

    /** `excecute_instruction`: one step, after which the CPU has caught up with the clock. */
    method ExecuteInstruction(ctx: Context)
      requires ctx.Valid()
      modifies this, ctx
      ensures Reached(ctx, Step(old(regs), old(ctx.mem), old(prevCounter), old(ctx.now), old(ctx.nmi), old(ctx.irq)), old(ctx.now))
      ensures ctx.nmi == old(ctx.nmi) && ctx.irq == old(ctx.irq) && prevCounter == ctx.now
    {
      StepInstruction(ctx);
      prevCounter := ctx.now;
    }
  }
}
