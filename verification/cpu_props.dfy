/**
 * Properties of the main CPU's instruction semantics (module CpuSemantics)
 * that relate several instructions: what a pull gives back after a push,
 * where a return lands after a call, what RTI restores after an exception,
 * and when a block move repeats.
 */
module CpuProperties {
  import opened Wrappers
  import opened Arith
  import opened CpuTypes
  import opened CpuAlu
  import opened CpuContext
  import opened CpuCore
  import opened CpuInstr
  import opened CpuSemantics

  // ---------------------------------------------------------------- stack slots

  /** `wrapping_sub(1)` on a byte, without the modulus. */
  lemma Dec8Exact(x: u8)
    ensures Dec8(x) == if x == 0 then 0xFF else x - 1
  {
    if x == 0 { DivMod(-1, 0x100, -1, 0xFF); } else { DivMod(x - 1, 0x100, 0, x - 1); }
  }

  /** `wrapping_sub(1)` on a word, without the modulus. */
  lemma Dec16Exact(x: u16)
    ensures Dec16(x) == if x == 0 then 0xFFFF else x - 1
  {
    if x == 0 { DivMod(-1, 0x1_0000, -1, 0xFFFF); } else { DivMod(x - 1, 0x1_0000, 0, x - 1); }
  }

  /** Four pushes in a row write four different bytes, in either mode. */
  lemma PushSlotsDistinct(s: u16, e: bool)
    ensures var s1 := PushS(s, e); var s2 := PushS(s1, e); var s3 := PushS(s2, e);
      s != s1 && s != s2 && s != s3 && s1 != s2 && s1 != s3 && s2 != s3
  {
    var s1 := PushS(s, e);
    var s2 := PushS(s1, e);
    var s3 := PushS(s2, e);
    if e {
      Dec8Exact(Lo(s));
      Dec8Exact(Lo(s1));
      Dec8Exact(Lo(s2));
      assert Lo(s1) == Dec8(Lo(s)) && Lo(s2) == Dec8(Lo(s1)) && Lo(s3) == Dec8(Lo(s2));
    } else {
      Dec16Exact(s);
      Dec16Exact(s1);
      Dec16Exact(s2);
    }
  }

  // ---------------------------------------------------------------- push and pull

  /** PLA after PHA gives A back at either width and restores S; only N and Z may differ. */
  lemma PhaThenPla(r: Regs, mem: seq<u8>)
    requires IsMemory(mem)
    ensures var o := PushSem(r, mem, PushA); var r2 := PullSem(o.r, o.mem, PullA);
      r2 == r.(p := r2.p)
  {
    var o := PushSem(r, mem, PushA);
    var st := StackOf(r, mem);
    if IsA8(r) {
      PushThenPull8(st, r.e, Lo(r.a));
      WordRoundTrip(r.a, 0, 0);
      assert SetLow(r.a, Lo(r.a)) == r.a;
    } else {
      PushThenPull16(st, r.e, r.a);
    }
  }

  /** PLX after PHX (and PLY after PHY) gives back the index register's value at its width and restores S. */
  lemma PhxThenPlx(r: Regs, mem: seq<u8>)
    requires IsMemory(mem)
    ensures var o := PushSem(r, mem, PushX); var r2 := PullSem(o.r, o.mem, PullX);
      r2 == r.(x := if IsXY8(r) then Lo(r.x) else r.x, p := r2.p)
    ensures var o := PushSem(r, mem, PushY); var r2 := PullSem(o.r, o.mem, PullY);
      r2 == r.(y := if IsXY8(r) then Lo(r.y) else r.y, p := r2.p)
  {
    var st := StackOf(r, mem);
    if IsXY8(r) {
      PushThenPull8(st, r.e, Lo(r.x));
      PushThenPull8(st, r.e, Lo(r.y));
    } else {
      PushThenPull16(st, r.e, r.x);
      PushThenPull16(st, r.e, r.y);
    }
  }

  /** PLP after PHP restores every register, P included. */
  lemma PhpThenPlp(r: Regs, mem: seq<u8>)
    requires IsMemory(mem)
    ensures var o := PushSem(r, mem, PushP); PullSem(o.r, o.mem, PullP) == r
  {
    PushThenPull8(StackOf(r, mem), r.e, StatusByte(r.p));
    StatusByteRoundTrip(r.p);
  }

  /** PLD after PHD restores D and S; N and Z follow D. */
  lemma PhdThenPld(r: Regs, mem: seq<u8>)
    requires IsMemory(mem)
    ensures var o := PushSem(r, mem, PushD); PullSem(o.r, o.mem, PullD) == r.(p := SetNZ16(r.p, r.d))
  {
    PushThenPull16(StackOf(r, mem), r.e, r.d);
  }

  // ---------------------------------------------------------------- calls and returns

  /** RTS after JSR continues after the JSR's operand with S restored: every register is as if the call had been skipped. */
  lemma JsrThenRts(r: Regs, mem: seq<u8>)
    requires IsMemory(mem)
    ensures var o := JsrSem(r, mem); RtsSem(o.r, o.mem) == Advance(r, 2)
  {
    var r1 := Advance(r, 2);
    PushThenPull16(StackOf(r1, mem), r.e, Dec16(r1.pc));
    IncDecInverse16(r1.pc);
  }

  /** RTL after JSL continues after the JSL's three operand bytes, in the caller's bank, with S restored. */
  lemma JslThenRtl(r: Regs, mem: seq<u8>)
    requires IsMemory(mem)
    ensures var o := JslSem(r, mem); RtlSem(o.r, o.mem) == Advance(r, 3)
  {
    var r1 := Advance(r, 3);
    var st := Push8(StackOf(r1, mem), r.e, r.pb);
    var st2 := Push16(st, r.e, Dec16(r1.pc));
    PushThenPull16(st, r.e, Dec16(r1.pc));
    IncDecInverse16(r1.pc);
    PushSlotsDistinct(r1.s, r.e);
    StackPointerRoundTrip(r1.s, r.e);
    assert st2.mem[r1.s] == r.pb;
  }

  // ---------------------------------------------------------------- exceptions

  /**
   * RTI after the entry to any exception restores S, PC and P as they were
   * pushed, and PB in native mode; in emulation mode PB stays 0, because it
   * was not pushed. The P that comes back is the pushed one, whose X bit in
   * emulation mode tells BRK and COP from the hardware interrupts.
   */
  lemma ExceptionThenRti(r: Regs, mem: seq<u8>, ex: Exception)
    requires IsMemory(mem)
    ensures var o := ExceptionEntry(r, mem, ex);
      var pushed := if r.e then r.p.(x := ex == Brk || ex == Cop) else r.p;
      RtiSem(o.r, o.mem).r == r.(halt := false, p := pushed, pb := if r.e then 0 else r.pb)
  {
    var p1 := if r.e then r.p.(x := ex == Brk || ex == Cop) else r.p;
    var st0 := StackOf(r, mem);
    var st1 := if r.e then st0 else Push8(st0, r.e, r.pb);
    var st2 := Push16(st1, r.e, r.pc);
    var st3 := Push8(st2, r.e, StatusByte(p1));
    PushSlotsDistinct(r.s, r.e);
    PushSlotsDistinct(st1.s, r.e);
    PushThenPull8(st2, r.e, StatusByte(p1));
    StatusByteRoundTrip(p1);
    PushThenPull16(st1, r.e, r.pc);
    StackPointerRoundTrip(st1.s, r.e);
    StackPointerRoundTrip(PushS(st1.s, r.e), r.e);
    assert Pull16(st3.mem, st2.s, r.e) == Pull16(st2.mem, st2.s, r.e);
    if !r.e {
      StackPointerRoundTrip(r.s, r.e);
      assert st3.mem[r.s] == r.pb;
    }
  }

  // ---------------------------------------------------------------- block move

  /**
   * One step of MVN or MVP copies the byte at bank `src`, X to bank `dst`, Y
   * and changes no other byte; A counts down, and PC returns to the opcode
   * exactly when A was not 0, so the instruction repeats A + 1 times in all.
   */
  lemma BlockMoveStep(r: Regs, mem: seq<u8>, up: bool)
    requires IsMemory(mem)
    ensures var o := MoveSem(r, mem, up);
      var dst := Long(OpByte(r, mem, 0), r.y);
      o.mem[dst] == mem[Long(OpByte(r, mem, 1), r.x)]
      && (forall i :: 0 <= i < |mem| && i != dst ==> o.mem[i] == mem[i])
      && o.r.a == Dec16(r.a) && o.r.db == OpByte(r, mem, 0)
      && o.r.pc == if r.a != 0 then Dec16(r.pc) else Advance(r, 2).pc
  {
    Dec16Exact(r.a);
    Dec16Exact(r.pc);
    var pc2 := (r.pc + 2) % 0x1_0000;
    if r.pc + 2 < 0x1_0000 {
      DivMod(r.pc + 2, 0x1_0000, 0, r.pc + 2);
      if r.pc >= 1 {
        DivMod(pc2 - 3, 0x1_0000, 0, r.pc - 1);
      } else {
        DivMod(pc2 - 3, 0x1_0000, -1, 0xFFFF);
      }
    } else {
      DivMod(r.pc + 2, 0x1_0000, 1, r.pc + 2 - 0x1_0000);
      DivMod(pc2 - 3, 0x1_0000, -1, r.pc - 1);
    }
  }

  // ---------------------------------------------------------------- registers

  /**
   * DEX after INX (DEY after INY, DEA after INA) gives the register back at
   * any width; only N and Z may differ. An 8-bit index register holds a
   * byte, as `set_e` and SEP leave it.
   */
  lemma IncThenDecRegister(r: Regs, reg: Register)
    requires reg == A || !IsXY8(r) || Get(r, reg) < 0x100
    ensures var r2 := StepRegister(StepRegister(r, reg, true), reg, false); r2 == r.(p := r2.p)
  {
    if !Narrow(r, reg) {
      IncThenDecWide(r, reg);
    } else if reg == A {
      IncThenDecA8(r);
    } else {
      IncThenDecIndex8(r, reg);
    }
  }

  lemma IncThenDecA8(r: Regs)
    requires IsA8(r)
    ensures var r2 := StepRegister(StepRegister(r, A, true), A, false); r2 == r.(p := r2.p)
  {
    var b := Inc8(Lo(r.a));
    IncDecInverse8(Lo(r.a));
    ByteReplacedBack(r.a, b);
    var r1 := StepRegister(r, A, true);
    assert r1 == r.(a := SetLow(r.a, b), p := r1.p);
  }

  lemma IncThenDecIndex8(r: Regs, reg: Register)
    requires reg != A && IsXY8(r) && Get(r, reg) < 0x100
    ensures var r2 := StepRegister(StepRegister(r, reg, true), reg, false); r2 == r.(p := r2.p)
  {
    IncDecInverse8(Get(r, reg));
    if reg == X { IncThenDecX8(r); } else { IncThenDecY8(r); }
  }

  lemma IncThenDecX8(r: Regs)
    requires IsXY8(r) && r.x < 0x100 && Dec8(Inc8(r.x)) == r.x
    ensures var r2 := StepRegister(StepRegister(r, X, true), X, false); r2 == r.(p := r2.p)
  {
    var b := Inc8(r.x);
    var r1 := StepRegister(r, X, true);
    assert Lo(r.x) == r.x && Lo(b) == b;
    assert r1 == r.(x := b, p := SetNZ8(r.p, b));
  }

  lemma IncThenDecY8(r: Regs)
    requires IsXY8(r) && r.y < 0x100 && Dec8(Inc8(r.y)) == r.y
    ensures var r2 := StepRegister(StepRegister(r, Y, true), Y, false); r2 == r.(p := r2.p)
  {
    var b := Inc8(r.y);
    var r1 := StepRegister(r, Y, true);
    assert Lo(r.y) == r.y && Lo(b) == b;
    assert r1 == r.(y := b, p := SetNZ8(r.p, b));
  }

  /** Replacing the low byte of a word and then putting the old low byte back gives the word. */
  lemma ByteReplacedBack(v: u16, b: u8)
    ensures Lo(SetLow(v, b)) == b && SetLow(SetLow(v, b), Lo(v)) == v
  {
    assert v == Hi(v) * 0x100 + Lo(v);
  }

  lemma IncThenDecWide(r: Regs, reg: Register)
    requires !Narrow(r, reg)
    ensures var r2 := StepRegister(StepRegister(r, reg, true), reg, false); r2 == r.(p := r2.p)
  {
    IncDecInverse16(Get(r, reg));
    StepWide(r, reg, true);
    StepWide(StepRegister(r, reg, true), reg, false);
  }

  /** A wide register steps as a word. */
  lemma StepWide(r: Regs, reg: Register, up: bool)
    requires !Narrow(r, reg)
    ensures var v := if up then Inc16(Get(r, reg)) else Dec16(Get(r, reg));
      var r1 := StepRegister(r, reg, up);
      !Narrow(r1, reg) && r1 == r.(a := r1.a, x := r1.x, y := r1.y, p := r1.p) && Get(r1, reg) == v
      && (reg != A ==> r1.a == r.a) && (reg != X ==> r1.x == r.x) && (reg != Y ==> r1.y == r.y)
  {
  }

  /**
   * TDC after TCD gives A back and leaves D equal to it; in native mode TSC
   * after TCS does the same for S; with 16-bit registers TXA after TAX does
   * the same for X. In emulation mode TXS and TCS keep S in its page.
   */
  lemma TransferRoundTrips(r: Regs)
    ensures var r2 := TransferSem(TransferSem(r, Tcd), Tdc); r2 == r.(d := r.a, p := r2.p)
    ensures !r.e ==> var r2 := TransferSem(TransferSem(r, Tcs), Tsc); r2 == r.(s := r.a, p := r2.p)
    ensures !IsA8(r) && !IsXY8(r) ==> var r2 := TransferSem(TransferSem(r, Tax), Txa); r2 == r.(x := r.a, p := r2.p)
    ensures r.e ==> Hi(TransferSem(r, Txs).s) == Hi(r.s) && Hi(TransferSem(r, Tcs).s) == Hi(r.s)
  {
  }

  /** XBA twice gives A back; N and Z then follow A's low byte. */
  lemma XbaTwice(r: Regs)
    ensures XbaSem(XbaSem(r)) == r.(p := SetNZ8(r.p, Lo(r.a)))
  {
    WordRoundTrip(r.a, Hi(r.a), Lo(r.a));
  }

  // ---------------------------------------------------------------- memory

  /**
   * A load through any addressing mode that reaches the address a store of
   * A wrote reads A back, at the accumulator's width.
   */
  lemma StaThenLda(r: Regs, mem: seq<u8>, mode: MemMode, r2: Regs, mode2: MemMode)
    requires IsMemory(mem) && IsA8(r2) == IsA8(r)
    requires EffectiveAddress(r2, StoreSem(r, mem, StoreA, mode).mem, mode2).w == EffectiveAddress(r, mem, mode).w
    ensures var l := LoadSem(r2, StoreSem(r, mem, StoreA, mode).mem, A, Mem(mode2));
      if IsA8(r) then Lo(l.r.a) == Lo(r.a) else l.r.a == r.a
  {
    var w := EffectiveAddress(r, mem, mode).w;
    var m := StoreSem(r, mem, StoreA, mode).mem;
    var f := ReadOperand(r2, m, Mem(mode2), !IsA8(r2));
    if IsA8(r) {
      assert m == mem[w.addr := Lo(r.a)];
      assert f.value == Lo(r.a);
    } else {
      assert m == Store16(mem, w, r.a);
      assert f.value == r.a;
    }
  }

  /**
   * DEC after INC at the same address gives memory back at either width,
   * provided the increment did not move the address (it did not write its
   * own operand or pointer).
   */
  lemma IncThenDecMemory(r: Regs, mem: seq<u8>, mode: MemMode)
    requires IsMemory(mem)
    requires EffectiveAddress(r, ModifySem(r, mem, mode, ModInc).mem, mode).w == EffectiveAddress(r, mem, mode).w
    ensures ModifySem(r, ModifySem(r, mem, mode, ModInc).mem, mode, ModDec).mem == mem
  {
    var w := EffectiveAddress(r, mem, mode).w;
    var m1 := ModifySem(r, mem, mode, ModInc).mem;
    var m2 := ModifySem(r, m1, mode, ModDec).mem;
    if IsA8(r) {
      var b := Mem8(mem, w);
      IncDecInverse8(b);
      assert m1 == mem[w.addr := Inc8(b)];
      assert m2 == m1[w.addr := Dec8(Inc8(b))];
    } else {
      var v := Mem16(mem, w);
      IncDecInverse16(v);
      OffsetMoves(w);
      assert m1 == Store16(mem, w, Inc16(v));
      assert Mem16(m1, w) == Inc16(v);
      assert m2 == Store16(m1, w, v);
      WordRoundTrip(v, mem[w.addr], mem[Offset(w, 1).addr]);
      forall i | 0 <= i < |mem|
        ensures m2[i] == mem[i]
      {
      }
    }
  }

  // ---------------------------------------------------------------- one step

  /**
   * One step does nothing when the clock has moved past the last step's end;
   * otherwise it enters an NMI, else an unmasked IRQ, else idles one cycle
   * while halted with no IRQ.
   */
  lemma StepRules(r: Regs, mem: seq<u8>, prevCounter: nat, now: nat, nmi: bool, irq: bool)
    requires IsMemory(mem)
    ensures prevCounter < now ==> Step(r, mem, prevCounter, now, nmi, irq) == Outcome(r, mem, 0)
    ensures prevCounter >= now && nmi ==> Step(r, mem, prevCounter, now, nmi, irq) == ExceptionEntry(r, mem, Nmi).(cycles := CpuCycle)
    ensures prevCounter >= now && !nmi && irq && !r.p.i ==> Step(r, mem, prevCounter, now, nmi, irq) == ExceptionEntry(r, mem, Irq).(cycles := CpuCycle)
    ensures prevCounter >= now && !nmi && !irq && r.halt ==> Step(r, mem, prevCounter, now, nmi, irq) == Outcome(r, mem, CpuCycle)
  {
  }

  /** With no interrupt to take and no halt to keep, one step clears the halt and runs the opcode at PB:PC. */
  lemma StepRunsOpcode(r: Regs, mem: seq<u8>, prevCounter: nat, now: nat, nmi: bool, irq: bool)
    requires IsMemory(mem) && prevCounter >= now && !nmi && (irq ==> r.p.i) && (r.halt ==> irq)
    ensures Step(r, mem, prevCounter, now, nmi, irq) == Execute(Advance(r.(halt := false), 1), mem, Decode(OpByte(r, mem, 0)))
  {
  }
}
