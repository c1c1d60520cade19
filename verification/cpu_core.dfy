/**
 * The register-level rules of the main CPU (src/cpu.rs) as functions of the
 * register file and the memory: the stack discipline, the effective address
 * of every addressing mode `get_warp_address` implements, the choice between
 * NMI, IRQ and the next opcode, the accumulator update of `alu`, and the
 * emulation-mode switch. The `Cpu` class (module MainCpu) performs these
 * step by step and is proved to agree with them.
 */
module CpuCore {
  import opened Wrappers
  import opened Arith
  import opened CpuTypes
  import opened CpuAlu
  import opened CpuDecimal
  import opened CpuContext

  /** `CPU_CYCLE`: master-clock cycles per CPU cycle. */
  const CpuCycle: nat := 6

  /** `RESET_VECTOR`. */
  const ResetVector: u16 := 0xFFFC

  /** The architectural state of `Cpu` (`prev_counter` and the debug counter aside). */
  datatype Regs = Regs(a: u16, x: u16, y: u16, pc: u16, s: u16, p: Status, d: u16,
                       db: u8, pb: u8, e: bool, stop: bool, halt: bool)

  /** `is_a_register_8bit` and `is_memory_8bit` (the source defines both the same way). */
  predicate IsA8(r: Regs) { r.e || r.p.m }

  /** `is_xy_register_8bit`. */
  predicate IsXY8(r: Regs) { r.e || r.p.x }

  /** `is_wrap8`: emulation mode with a page-aligned direct register. */
  predicate IsWrap8(r: Regs) { r.e && r.d % 0x100 == 0 }

  // ---------------------------------------------------------------- stack

  /** S after `push_8`: in emulation mode only the low byte moves, so S stays in its page. */
  function PushS(s: u16, e: bool): u16
  {
    if e then SetLow(s, Dec8(Lo(s))) else Dec16(s)
  }

  /** S before the read of `pop_8`. */
  function PopS(s: u16, e: bool): u16
  {
    if e then SetLow(s, Inc8(Lo(s))) else Inc16(s)
  }

  /** In emulation mode push and pop move only the low byte of S, and undo each other. */
  lemma StackPointerEmulation(s: u16)
    ensures PopS(PushS(s, true), true) == s && PushS(PopS(s, true), true) == s
    ensures Hi(PushS(s, true)) == Hi(s) && Hi(PopS(s, true)) == Hi(s)
    ensures PushS(s, true) != s && PopS(s, true) != s
  {
    IncDecInverse8(Lo(s));
    WordRoundTrip(s, 0, 0);
    var down := PushS(s, true);
    var up := PopS(s, true);
    assert Hi(down) == Hi(s) && Lo(down) == Dec8(Lo(s));
    assert Hi(up) == Hi(s) && Lo(up) == Inc8(Lo(s));
    assert PopS(down, true) == Hi(s) * 0x100 + Lo(s);
    assert PushS(up, true) == Hi(s) * 0x100 + Lo(s);
  }

  /**
   * Push and pop move S in opposite directions and undo each other; in
   * emulation mode neither changes the high byte of S, and neither leaves S
   * where it was.
   */
  lemma StackPointerRoundTrip(s: u16, e: bool)
    ensures PopS(PushS(s, e), e) == s && PushS(PopS(s, e), e) == s
    ensures e ==> Hi(PushS(s, e)) == Hi(s) && Hi(PopS(s, e)) == Hi(s)
    ensures PushS(s, e) != s && PopS(s, e) != s
  {
    if e {
      StackPointerEmulation(s);
    } else {
      IncDecInverse16(s);
    }
  }

  /** The stack as the memory it lives in and the stack pointer. */
  datatype Stack = Stack(mem: seq<u8>, s: u16)

  /** `push_8`: write the byte at S (bank 0), then move S down. */
  function Push8(st: Stack, e: bool, data: u8): (r: Stack)
    requires IsMemory(st.mem)
    ensures IsMemory(r.mem) && r.mem[st.s] == data && r.s == PushS(st.s, e)
    ensures forall i :: 0 <= i < |r.mem| && i != st.s ==> r.mem[i] == st.mem[i]
  {
    Stack(st.mem[st.s := data], PushS(st.s, e))
  }

  /** `push_16`: the high byte first, so the low byte ends up at the lower address. */
  function Push16(st: Stack, e: bool, data: u16): (r: Stack)
    requires IsMemory(st.mem)
    ensures IsMemory(r.mem) && r.s == PushS(PushS(st.s, e), e)
    ensures r.mem[st.s] == Hi(data) && r.mem[PushS(st.s, e)] == Lo(data)
    ensures forall i :: 0 <= i < |r.mem| && i != st.s && i != PushS(st.s, e) ==> r.mem[i] == st.mem[i]
  {
    StackPointerRoundTrip(st.s, e);
    Push8(Push8(st, e, Hi(data)), e, Lo(data))
  }

  /** The byte `pop_8` returns: the one at S after S moves up. */
  function Pull8(mem: seq<u8>, s: u16, e: bool): u8
    requires IsMemory(mem)
  {
    mem[PopS(s, e)]
  }

  /** The word `pop_16` returns: the low byte is popped first. */
  function Pull16(mem: seq<u8>, s: u16, e: bool): u16
    requires IsMemory(mem)
  {
    Word(Pull8(mem, s, e), Pull8(mem, PopS(s, e), e))
  }

  /** `pop_8` after `push_8` returns the pushed byte and restores S. */
  lemma PushThenPull8(st: Stack, e: bool, data: u8)
    requires IsMemory(st.mem)
    ensures var q := Push8(st, e, data);
      Pull8(q.mem, q.s, e) == data && PopS(q.s, e) == st.s
  {
    StackPointerRoundTrip(st.s, e);
  }

  /** `pop_16` after `push_16` returns the pushed word and restores S, in both modes. */
  lemma PushThenPull16(st: Stack, e: bool, data: u16)
    requires IsMemory(st.mem)
    ensures var q := Push16(st, e, data);
      Pull16(q.mem, q.s, e) == data && PopS(PopS(q.s, e), e) == st.s
  {
    var q1 := Push8(st, e, Hi(data));
    StackPointerRoundTrip(st.s, e);
    StackPointerRoundTrip(q1.s, e);
    WordRoundTrip(data, 0, 0);
  }

  // ---------------------------------------------------------------- operand fetch and effective addresses

  /** The byte k places after PC in the program bank; `fetch_8` wraps PC within the bank. */
  function OpByte(r: Regs, mem: seq<u8>, k: nat): u8
    requires IsMemory(mem)
  {
    mem[Long(r.pb, (r.pc + k) % 0x1_0000)]
  }

  /** `fetch_16` and `fetch_24`: little-endian operands. */
  function OpWord(r: Regs, mem: seq<u8>): u16
    requires IsMemory(mem)
  {
    Word(OpByte(r, mem, 0), OpByte(r, mem, 1))
  }

  function OpLong(r: Regs, mem: seq<u8>): u24
    requires IsMemory(mem)
  {
    Long(OpByte(r, mem, 2), OpWord(r, mem))
  }

  /** The addressing modes that `get_warp_address` implements; the others panic there and are never passed to it. */
  datatype MemMode =
    | Absolute | AbsoluteLong | Direct
    | DirectIndirectIndexedY | DirectIndirectIndexedLongY | DirectIndexedIndirect
    | DirectX | DirectY | AbsoluteX | AbsoluteLongX | AbsoluteY
    | DirectIndirect | DirectIndirectLong | AbsoluteIndexedIndirect
    | StackRelative | StackRelativeIndirectIndexed

  /** An effective address, the operand bytes consumed after the opcode, and the extra master cycles spent. */
  datatype Ea = Ea(w: WarpAddress, len: nat, cycles: nat)

  /** The one-cycle penalty when the direct register is not page aligned (`self.d & 0xFF != 0`). */
  function DirectPenalty(r: Regs): nat { if r.d % 0x100 != 0 then CpuCycle else 0 }

  /** `self.d & 0xFF00 | offset`: the direct page with the low byte replaced by the operand. */
  function DirectPage(r: Regs, off: u8): u24 { r.d - r.d % 0x100 + off }

  /** The direct-page pointer of the indirect modes: wrapped in its page when `is_wrap8`, in bank 0 otherwise. */
  function DirectPointer(r: Regs, off: u8): WarpAddress
  {
    if IsWrap8(r) then WarpAddress(DirectPage(r, off), Warp8bit)
    else Offset(WarpAddress(r.d, Warp16bit), off)
  }

  /** `get_warp_address`: where the operand of each addressing mode lives. */
  function EffectiveAddress(r: Regs, mem: seq<u8>, mode: MemMode): (ea: Ea)
    requires IsMemory(mem)
    ensures ea.len == (match mode
                         case Absolute | AbsoluteX | AbsoluteY | AbsoluteIndexedIndirect => 2
                         case AbsoluteLong | AbsoluteLongX => 3
                         case _ => 1)
  {
    var off := OpByte(r, mem, 0);
    match mode
    case Absolute => Ea(WarpAddress(Long(r.db, OpWord(r, mem)), NoWarp), 2, 0)
    case AbsoluteLong => Ea(WarpAddress(OpLong(r, mem), NoWarp), 3, 0)
    case Direct =>
      if IsWrap8(r) then Ea(WarpAddress(DirectPage(r, off), Warp8bit), 1, 0)
      else Ea(Offset(WarpAddress(r.d, Warp16bit), off), 1, DirectPenalty(r))
    case DirectIndirectIndexedY =>
      var ptr := Mem16(mem, DirectPointer(r, off));
      Ea(Offset(WarpAddress(Long(r.db, ptr), NoWarp), r.y), 1, if IsWrap8(r) then 0 else DirectPenalty(r))
    case DirectIndirectIndexedLongY =>
      var ptr := Mem24(mem, DirectPointer(r, off));
      Ea(Offset(WarpAddress(ptr, NoWarp), r.y), 1, if IsWrap8(r) then 0 else DirectPenalty(r))
    case DirectIndexedIndirect =>
      var base := WarpAddress(r.d, if IsWrap8(r) then Warp8bit else Warp16bit);
      var mid := Mem16(mem, Offset(Offset(base, off), r.x));
      Ea(WarpAddress(Long(r.db, mid), NoWarp), 1, DirectPenalty(r))
    case DirectX =>
      var w := if IsWrap8(r) then WarpAddress(DirectPage(r, off), Warp8bit)
               else Offset(WarpAddress(r.d, Warp16bit), off);
      Ea(Offset(w, r.x), 1, DirectPenalty(r))
    case DirectY =>
      var w := if IsWrap8(r) then WarpAddress(DirectPage(r, off), Warp8bit)
               else Offset(WarpAddress(r.d, Warp16bit), off);
      Ea(Offset(w, r.y), 1, DirectPenalty(r))
    case AbsoluteX => Ea(Offset(WarpAddress(Long(r.db, OpWord(r, mem)), NoWarp), r.x), 2, 0)
    case AbsoluteLongX => Ea(Offset(WarpAddress(OpLong(r, mem), NoWarp), r.x), 3, 0)
    case AbsoluteY => Ea(Offset(WarpAddress(Long(r.db, OpWord(r, mem)), NoWarp), r.y), 2, 0)
    case DirectIndirect =>
      var ptr := Mem16(mem, Offset(WarpAddress(r.d, Warp16bit), off));
      Ea(WarpAddress(Long(r.db, ptr), NoWarp), 1, DirectPenalty(r))
    case DirectIndirectLong =>
      var ptr := Mem24(mem, Offset(WarpAddress(r.d, Warp16bit), off));
      Ea(WarpAddress(ptr, NoWarp), 1, DirectPenalty(r))
    case AbsoluteIndexedIndirect =>
      Ea(WarpAddress(Long(r.pb, (OpWord(r, mem) + r.x) % 0x1_0000), Warp16bit), 2, 0)
    case StackRelative =>
      Ea(WarpAddress((r.s + off) % 0x1_0000, Warp16bit), 1, 0)
    case StackRelativeIndirectIndexed =>
      var ptr := Mem16(mem, Offset(WarpAddress(r.s, Warp16bit), off));
      Ea(Offset(WarpAddress(Long(r.db, ptr), NoWarp), r.y), 1, CpuCycle)
  }

  /**
   * The absolute mode as `get_warp_address` has it: the 16-bit operand in the
   * program bank. Every opcode that uses the mode reads or writes data, which
   * the 65816 takes from the data bank, as the source's own absolute-X and
   * absolute-Y modes do; `EffectiveAddress` uses the data bank.
   */
  function AbsoluteAsWritten(r: Regs, mem: seq<u8>): WarpAddress
    requires IsMemory(mem)
  {
    WarpAddress(Long(r.pb, OpWord(r, mem)), NoWarp)
  }

  /**
   * As written, the absolute mode does not address what absolute-X with
   * X = 0 addresses whenever PB and DB differ: with PB = 0x00 and DB = 0x7E,
   * `LDA $1234` reads 0x001234 instead of 0x7E1234.
   */
  lemma AbsoluteAsWrittenMissesDataBank(r: Regs, mem: seq<u8>)
    requires IsMemory(mem) && r.pb != r.db
    ensures AbsoluteAsWritten(r, mem).addr != EffectiveAddress(r.(x := 0), mem, AbsoluteX).w.addr
    ensures AbsoluteAsWritten(r, mem).addr / 0x1_0000 == r.pb
  {
    var w := OpWord(r, mem);
    var a := Long(r.db, w);
    assert OpWord(r.(x := 0), mem) == w;
    assert EffectiveAddress(r.(x := 0), mem, AbsoluteX).w == Offset(WarpAddress(a, NoWarp), 0);
    DivMod(a, 0x100_0000, 0, a);
    DivMod(Long(r.pb, w), 0x1_0000, r.pb, w);
    DivMod(a, 0x1_0000, r.db, w);
  }

  /** The absolute mode addresses the operand in the data bank: it is absolute-X with X = 0. */
  lemma AbsoluteIsUnindexed(r: Regs, mem: seq<u8>)
    requires IsMemory(mem)
    ensures EffectiveAddress(r, mem, Absolute).w == EffectiveAddress(r.(x := 0), mem, AbsoluteX).w
    ensures EffectiveAddress(r, mem, Absolute).w.addr / 0x1_0000 == r.db
  {
    var w := OpWord(r, mem);
    var a := Long(r.db, w);
    assert OpWord(r.(x := 0), mem) == w;
    assert EffectiveAddress(r, mem, Absolute).w == WarpAddress(a, NoWarp);
    assert EffectiveAddress(r.(x := 0), mem, AbsoluteX).w == Offset(WarpAddress(a, NoWarp), 0);
    DivMod(a, 0x100_0000, 0, a);
    DivMod(a, 0x1_0000, r.db, w);
  }

  /**
   * In emulation mode with a page-aligned direct register, the direct modes
   * stay in the direct page: indexing wraps within the page instead of
   * crossing into the next one.
   */
  lemma DirectPageWraps(r: Regs, mem: seq<u8>)
    requires IsMemory(mem) && IsWrap8(r)
    ensures EffectiveAddress(r, mem, Direct).w.addr == r.d + OpByte(r, mem, 0)
    ensures EffectiveAddress(r, mem, DirectX).w.addr / 0x100 == r.d / 0x100
    ensures EffectiveAddress(r, mem, DirectY).w.addr / 0x100 == r.d / 0x100
  {
    var off := OpByte(r, mem, 0);
    OffsetKeepsPage(DirectPage(r, off), r.x);
    OffsetKeepsPage(DirectPage(r, off), r.y);
  }

  /** In native mode the direct modes address bank 0 at D plus the operand, wrapping at 64 KiB. */
  lemma DirectNative(r: Regs, mem: seq<u8>)
    requires IsMemory(mem) && !r.e
    ensures EffectiveAddress(r, mem, Direct).w.addr == (r.d + OpByte(r, mem, 0)) % 0x1_0000
    ensures EffectiveAddress(r, mem, Direct).cycles == (if r.d % 0x100 == 0 then 0 else CpuCycle)
  {
    OffsetKeepsBank(r.d, OpByte(r, mem, 0));
  }

  /** The operand bytes, low byte first, make up the operand word and the long operand. */
  lemma OperandBytes(r: Regs, mem: seq<u8>)
    requires IsMemory(mem)
    ensures OpWord(r, mem) == OpByte(r, mem, 1) * 0x100 + OpByte(r, mem, 0)
    ensures OpLong(r, mem) == OpByte(r, mem, 2) * 0x1_0000 + OpByte(r, mem, 1) * 0x100 + OpByte(r, mem, 0)
    ensures Long(r.db, OpWord(r, mem)) == r.db * 0x1_0000 + OpByte(r, mem, 1) * 0x100 + OpByte(r, mem, 0)
  {
  }

  /** An offset from an unwrapped address is the plain sum modulo 16 MiB. */
  lemma NoWarpOffset(a: u24, off: u16)
    ensures Offset(WarpAddress(a, NoWarp), off) == WarpAddress((a + off) % 0x100_0000, NoWarp)
  {
  }

  /** The long modes, unfolded. */
  lemma LongShape(r: Regs, mem: seq<u8>)
    requires IsMemory(mem)
    ensures EffectiveAddress(r, mem, AbsoluteLong) == Ea(WarpAddress(OpLong(r, mem), NoWarp), 3, 0)
    ensures EffectiveAddress(r, mem, AbsoluteLongX) == Ea(Offset(WarpAddress(OpLong(r, mem), NoWarp), r.x), 3, 0)
  {
  }

  /** `(a,X)`, unfolded. */
  lemma IndexedIndirectJumpShape(r: Regs, mem: seq<u8>)
    requires IsMemory(mem)
    ensures EffectiveAddress(r, mem, AbsoluteIndexedIndirect)
              == Ea(WarpAddress(Long(r.pb, (OpWord(r, mem) + r.x) % 0x1_0000), Warp16bit), 2, 0)
  {
  }

  /** `(d),Y`, unfolded. */
  lemma IndirectIndexedShape(r: Regs, mem: seq<u8>)
    requires IsMemory(mem)
    ensures EffectiveAddress(r, mem, DirectIndirectIndexedY)
              == Ea(Offset(WarpAddress(Long(r.db, Mem16(mem, DirectPointer(r, OpByte(r, mem, 0)))), NoWarp), r.y),
                    1, if IsWrap8(r) then 0 else DirectPenalty(r))
  {
  }

  /** `(d,X)` outside the page-wrapping case, unfolded. */
  lemma IndexedIndirectNativeShape(r: Regs, mem: seq<u8>)
    requires IsMemory(mem) && !IsWrap8(r)
    ensures EffectiveAddress(r, mem, DirectIndexedIndirect)
              == Ea(WarpAddress(Long(r.db, Mem16(mem, Offset(Offset(WarpAddress(r.d, Warp16bit), OpByte(r, mem, 0)), r.x))), NoWarp),
                    1, DirectPenalty(r))
  {
  }

  /** `(d,X)` in the page-wrapping case, unfolded. */
  lemma IndexedIndirectWrap8Shape(r: Regs, mem: seq<u8>)
    requires IsMemory(mem) && IsWrap8(r)
    ensures EffectiveAddress(r, mem, DirectIndexedIndirect)
              == Ea(WarpAddress(Long(r.db, Mem16(mem, Offset(Offset(WarpAddress(r.d, Warp8bit), OpByte(r, mem, 0)), r.x))), NoWarp), 1, 0)
  {
  }

  /** Absolute X and absolute Y, unfolded. */
  lemma AbsoluteIndexedShape(r: Regs, mem: seq<u8>)
    requires IsMemory(mem)
    ensures EffectiveAddress(r, mem, AbsoluteX) == Ea(Offset(WarpAddress(Long(r.db, OpWord(r, mem)), NoWarp), r.x), 2, 0)
    ensures EffectiveAddress(r, mem, AbsoluteY) == Ea(Offset(WarpAddress(Long(r.db, OpWord(r, mem)), NoWarp), r.y), 2, 0)
  {
  }

  /** Direct X and direct Y outside the page-wrapping case, unfolded. */
  lemma DirectIndexedShape(r: Regs, mem: seq<u8>)
    requires IsMemory(mem) && !IsWrap8(r)
    ensures var w := Offset(WarpAddress(r.d, Warp16bit), OpByte(r, mem, 0));
      && EffectiveAddress(r, mem, DirectX) == Ea(Offset(w, r.x), 1, DirectPenalty(r))
      && EffectiveAddress(r, mem, DirectY) == Ea(Offset(w, r.y), 1, DirectPenalty(r))
  {
  }

  /** Direct X and direct Y in the page-wrapping case, unfolded. */
  lemma DirectIndexedWrap8Shape(r: Regs, mem: seq<u8>)
    requires IsMemory(mem) && IsWrap8(r)
    ensures r.d + OpByte(r, mem, 0) < 0x1_0000
    ensures var w := WarpAddress(r.d + OpByte(r, mem, 0), Warp8bit);
      && EffectiveAddress(r, mem, DirectX) == Ea(Offset(w, r.x), 1, 0)
      && EffectiveAddress(r, mem, DirectY) == Ea(Offset(w, r.y), 1, 0)
  {
  }

  /** `(d)` and `[d]`, unfolded. */
  lemma DirectIndirectShape(r: Regs, mem: seq<u8>)
    requires IsMemory(mem)
    ensures var w := Offset(WarpAddress(r.d, Warp16bit), OpByte(r, mem, 0));
      && EffectiveAddress(r, mem, DirectIndirect) == Ea(WarpAddress(Long(r.db, Mem16(mem, w)), NoWarp), 1, DirectPenalty(r))
      && EffectiveAddress(r, mem, DirectIndirectLong) == Ea(WarpAddress(Mem24(mem, w), NoWarp), 1, DirectPenalty(r))
  {
  }

  /** `[d],Y`, unfolded. */
  lemma IndirectLongIndexedShape(r: Regs, mem: seq<u8>)
    requires IsMemory(mem)
    ensures EffectiveAddress(r, mem, DirectIndirectIndexedLongY)
              == Ea(Offset(WarpAddress(Mem24(mem, DirectPointer(r, OpByte(r, mem, 0))), NoWarp), r.y),
                    1, if IsWrap8(r) then 0 else DirectPenalty(r))
  {
  }

  /** The stack-relative modes, unfolded. */
  lemma StackRelativeShape(r: Regs, mem: seq<u8>)
    requires IsMemory(mem)
    ensures EffectiveAddress(r, mem, StackRelative) == Ea(WarpAddress((r.s + OpByte(r, mem, 0)) % 0x1_0000, Warp16bit), 1, 0)
    ensures var w := Offset(WarpAddress(r.s, Warp16bit), OpByte(r, mem, 0));
      EffectiveAddress(r, mem, StackRelativeIndirectIndexed) == Ea(Offset(WarpAddress(Long(r.db, Mem16(mem, w)), NoWarp), r.y), 1, CpuCycle)
  {
  }

  /** `(a mod m + b) mod m = (a + b) mod m`. */
  lemma ModAddMod(a: nat, b: nat, m: nat)
    requires m > 0
    ensures (a % m + b) % m == (a + b) % m
  {
    var c := a % m + b;
    assert a == (a / m) * m + a % m;
    assert c == (c / m) * m + c % m;
    assert a + b == (a / m + c / m) * m + c % m;
    DivMod(a + b, m, a / m + c / m, c % m);
  }

  /** A bank-wrapping offset from bank 0 stays in bank 0. */
  lemma Bank0Offset(p: u16, off: u16)
    ensures Offset(WarpAddress(p, Warp16bit), off) == WarpAddress((p + off) % 0x1_0000, Warp16bit)
  {
    assert p % 0x1_0000 == p;
  }

  /** A page-wrapping offset from a page-aligned base stays in the page. */
  lemma PageOffset(page: u16, lo: nat, off: u16)
    requires page % 0x100 == 0 && lo < 0x100
    ensures page + lo < 0x1_0000
    ensures Offset(WarpAddress(page + lo, Warp8bit), off) == WarpAddress(page + (lo + off) % 0x100, Warp8bit)
  {
    DivMod(page + lo, 0x100, page / 0x100, lo);
    ModAddMod(off, lo, 0x100);
  }

  /** Two page-wrapping offsets from the start of a page add up modulo 256. */
  lemma PageTwoOffsets(page: u16, o: u8, x: u16)
    requires page % 0x100 == 0
    ensures Offset(Offset(WarpAddress(page, Warp8bit), o), x) == WarpAddress(page + (o + x) % 0x100, Warp8bit)
  {
    PageOffset(page, 0, o);
    assert Offset(WarpAddress(page, Warp8bit), o) == WarpAddress(page + o, Warp8bit);
    PageOffset(page, o, x);
  }

  /** The little-endian word at `p` in bank 0, its high byte wrapping within the bank. */
  function BankWord(mem: seq<u8>, p: u16): u16
    requires IsMemory(mem)
  {
    Word(mem[p], mem[(p + 1) % 0x1_0000])
  }

  /** The 24-bit little-endian pointer at `p` in bank 0. */
  function BankLong(mem: seq<u8>, p: u16): u24
    requires IsMemory(mem)
  {
    Long(mem[(p + 2) % 0x1_0000], BankWord(mem, p))
  }

  /** The little-endian word at offset `lo` of the page at `page`, its high byte wrapping within the page. */
  function PageWord(mem: seq<u8>, page: u16, lo: u8): u16
    requires IsMemory(mem) && page % 0x100 == 0
  {
    Word(mem[page + lo], mem[page + (lo + 1) % 0x100])
  }

  /** The two bank-0 pointers at `p`: a word and a 24-bit pointer, each byte wrapping within the bank. */
  lemma BankPointers(mem: seq<u8>, p: u16)
    requires IsMemory(mem)
    ensures Mem16(mem, WarpAddress(p, Warp16bit)) == BankWord(mem, p)
    ensures Mem24(mem, WarpAddress(p, Warp16bit)) == BankLong(mem, p)
  {
    Bank0Offset(p, 1);
    Bank0Offset(p, 2);
  }

  /** The page-wrapped word at offset `lo` of a page. */
  lemma PageMem16(mem: seq<u8>, page: u16, lo: u8)
    requires IsMemory(mem) && page % 0x100 == 0
    ensures page + lo < 0x1_0000
    ensures Mem16(mem, WarpAddress(page + lo, Warp8bit)) == PageWord(mem, page, lo)
  {
    PageOffset(page, lo, 1);
  }

  /** Two bank-wrapping offsets from bank 0 add up modulo 2^16. */
  lemma Bank0TwoOffsets(p: u16, o: u8, x: u16)
    ensures Offset(Offset(WarpAddress(p, Warp16bit), o), x) == WarpAddress((p + o + x) % 0x1_0000, Warp16bit)
  {
    Bank0Offset(p, o);
    Bank0Offset((p + o) % 0x1_0000, x);
    ModAddMod(p + o, x, 0x1_0000);
  }

  /** The bank-0 pointers at D + operand (or S + operand), wrapping at 64 KiB. */
  lemma BankPointerAt(mem: seq<u8>, base: u16, o: u8)
    requires IsMemory(mem)
    ensures Mem16(mem, Offset(WarpAddress(base, Warp16bit), o)) == BankWord(mem, (base + o) % 0x1_0000)
    ensures Mem24(mem, Offset(WarpAddress(base, Warp16bit), o)) == BankLong(mem, (base + o) % 0x1_0000)
  {
    Bank0Offset(base, o);
    BankPointers(mem, (base + o) % 0x1_0000);
  }

  /** The direct pointer outside the page-wrapping case is the bank-0 pointer at D + operand. */
  lemma NativePointer(r: Regs, mem: seq<u8>)
    requires IsMemory(mem) && !IsWrap8(r)
    ensures Mem16(mem, DirectPointer(r, OpByte(r, mem, 0))) == BankWord(mem, (r.d + OpByte(r, mem, 0)) % 0x1_0000)
    ensures Mem24(mem, DirectPointer(r, OpByte(r, mem, 0))) == BankLong(mem, (r.d + OpByte(r, mem, 0)) % 0x1_0000)
  {
    BankPointerAt(mem, r.d, OpByte(r, mem, 0));
  }

  /** The direct pointer in the page-wrapping case is the word at the operand within D's page. */
  lemma Wrap8Pointer(r: Regs, mem: seq<u8>)
    requires IsMemory(mem) && IsWrap8(r)
    ensures Mem16(mem, DirectPointer(r, OpByte(r, mem, 0))) == PageWord(mem, r.d, OpByte(r, mem, 0))
  {
    PageMem16(mem, r.d, OpByte(r, mem, 0));
  }

  /** The `(d,X)` pointer outside the page-wrapping case: the bank-0 word at D + operand + X. */
  lemma IndexedPointerNative(r: Regs, mem: seq<u8>)
    requires IsMemory(mem)
    ensures Mem16(mem, Offset(Offset(WarpAddress(r.d, Warp16bit), OpByte(r, mem, 0)), r.x))
              == BankWord(mem, (r.d + OpByte(r, mem, 0) + r.x) % 0x1_0000)
  {
    Bank0TwoOffsets(r.d, OpByte(r, mem, 0), r.x);
    BankPointers(mem, (r.d + OpByte(r, mem, 0) + r.x) % 0x1_0000);
  }

  /** The `(d,X)` pointer in the page-wrapping case: the word at operand + X within the page. */
  lemma IndexedPointerWrap8(mem: seq<u8>, page: u16, o: u8, x: u16)
    requires IsMemory(mem) && page % 0x100 == 0
    ensures Mem16(mem, Offset(Offset(WarpAddress(page, Warp8bit), o), x)) == PageWord(mem, page, (o + x) % 0x100)
  {
    PageTwoOffsets(page, o, x);
    PageMem16(mem, page, (o + x) % 0x100);
  }

  /** A long address splits into its bank and its 16-bit offset. */
  lemma LongSplit(bank: u8, w: u16)
    ensures Long(bank, w) / 0x1_0000 == bank && Long(bank, w) % 0x1_0000 == w
  {
    DivMod(Long(bank, w), 0x1_0000, bank, w);
  }

  /**
   * The long modes take the three operand bytes, low byte first, as the
   * address; the X-indexed one adds X across bank boundaries, wrapping at
   * 16 MiB.
   */
  lemma LongModes(r: Regs, mem: seq<u8>)
    requires IsMemory(mem)
    ensures var long := OpByte(r, mem, 2) * 0x1_0000 + OpByte(r, mem, 1) * 0x100 + OpByte(r, mem, 0);
      && EffectiveAddress(r, mem, AbsoluteLong) == Ea(WarpAddress(long, NoWarp), 3, 0)
      && EffectiveAddress(r, mem, AbsoluteLongX) == Ea(WarpAddress((long + r.x) % 0x100_0000, NoWarp), 3, 0)
  {
    OperandBytes(r, mem);
    LongShape(r, mem);
    NoWarpOffset(OpLong(r, mem), r.x);
  }

  /**
   * Absolute X and absolute Y: the operand word in the data bank plus the
   * index, carrying into the next bank and wrapping at 16 MiB.
   */
  lemma AbsoluteIndexed(r: Regs, mem: seq<u8>)
    requires IsMemory(mem)
    ensures var base := r.db * 0x1_0000 + OpByte(r, mem, 1) * 0x100 + OpByte(r, mem, 0);
      && EffectiveAddress(r, mem, AbsoluteX) == Ea(WarpAddress((base + r.x) % 0x100_0000, NoWarp), 2, 0)
      && EffectiveAddress(r, mem, AbsoluteY) == Ea(WarpAddress((base + r.y) % 0x100_0000, NoWarp), 2, 0)
  {
    OperandBytes(r, mem);
    AbsoluteIndexedShape(r, mem);
    NoWarpOffset(Long(r.db, OpWord(r, mem)), r.x);
    NoWarpOffset(Long(r.db, OpWord(r, mem)), r.y);
  }

  /** `(a,X)` of the jumps: the operand word plus X, wrapping within the program bank. */
  lemma AbsoluteIndexedIndirectInProgramBank(r: Regs, mem: seq<u8>)
    requires IsMemory(mem)
    ensures var ea := EffectiveAddress(r, mem, AbsoluteIndexedIndirect);
      && ea.w.mode == Warp16bit && ea.len == 2 && ea.cycles == 0
      && ea.w.addr / 0x1_0000 == r.pb
      && ea.w.addr % 0x1_0000 == (OpByte(r, mem, 1) * 0x100 + OpByte(r, mem, 0) + r.x) % 0x1_0000
  {
    OperandBytes(r, mem);
    IndexedIndirectJumpShape(r, mem);
    LongSplit(r.pb, (OpWord(r, mem) + r.x) % 0x1_0000);
  }

  /**
   * Direct X and direct Y outside the page-wrapping case: bank 0 at
   * D + operand + index, wrapping at 64 KiB, with the penalty cycle when D
   * is not page aligned.
   */
  lemma DirectIndexedNative(r: Regs, mem: seq<u8>)
    requires IsMemory(mem) && !IsWrap8(r)
    ensures EffectiveAddress(r, mem, DirectX) == Ea(WarpAddress((r.d + OpByte(r, mem, 0) + r.x) % 0x1_0000, Warp16bit), 1, DirectPenalty(r))
    ensures EffectiveAddress(r, mem, DirectY) == Ea(WarpAddress((r.d + OpByte(r, mem, 0) + r.y) % 0x1_0000, Warp16bit), 1, DirectPenalty(r))
  {
    DirectIndexedShape(r, mem);
    Bank0TwoOffsets(r.d, OpByte(r, mem, 0), r.x);
    Bank0TwoOffsets(r.d, OpByte(r, mem, 0), r.y);
  }

  /**
   * In the page-wrapping case direct X and direct Y stay in D's page: the
   * low byte is operand + index modulo 256, and no penalty cycle is spent.
   */
  lemma DirectIndexedWrap8(r: Regs, mem: seq<u8>)
    requires IsMemory(mem) && IsWrap8(r)
    ensures EffectiveAddress(r, mem, DirectX) == Ea(WarpAddress(r.d + (OpByte(r, mem, 0) + r.x) % 0x100, Warp8bit), 1, 0)
    ensures EffectiveAddress(r, mem, DirectY) == Ea(WarpAddress(r.d + (OpByte(r, mem, 0) + r.y) % 0x100, Warp8bit), 1, 0)
  {
    DirectIndexedWrap8Shape(r, mem);
    PageOffset(r.d, OpByte(r, mem, 0), r.x);
    PageOffset(r.d, OpByte(r, mem, 0), r.y);
  }

  /**
   * `(d)` and `[d]`: the pointer sits in bank 0 at D + operand (wrapping at
   * 64 KiB, page alignment or not); `(d)` addresses its word in the data
   * bank, `[d]` the full 24-bit pointer.
   */
  lemma DirectIndirectModes(r: Regs, mem: seq<u8>)
    requires IsMemory(mem)
    ensures var p := (r.d + OpByte(r, mem, 0)) % 0x1_0000;
      && EffectiveAddress(r, mem, DirectIndirect) == Ea(WarpAddress(Long(r.db, BankWord(mem, p)), NoWarp), 1, DirectPenalty(r))
      && EffectiveAddress(r, mem, DirectIndirectLong) == Ea(WarpAddress(BankLong(mem, p), NoWarp), 1, DirectPenalty(r))
  {
    DirectIndirectShape(r, mem);
    BankPointerAt(mem, r.d, OpByte(r, mem, 0));
  }

  /**
   * `(d),Y` outside the page-wrapping case: the pointer is a bank-0 word at
   * D + operand; Y is added to the data-bank address, carrying across banks.
   */
  lemma IndirectIndexedNative(r: Regs, mem: seq<u8>)
    requires IsMemory(mem) && !IsWrap8(r)
    ensures EffectiveAddress(r, mem, DirectIndirectIndexedY)
              == Ea(WarpAddress((Long(r.db, BankWord(mem, (r.d + OpByte(r, mem, 0)) % 0x1_0000)) + r.y) % 0x100_0000, NoWarp),
                    1, DirectPenalty(r))
  {
    IndirectIndexedShape(r, mem);
    NativePointer(r, mem);
    NoWarpOffset(Long(r.db, BankWord(mem, (r.d + OpByte(r, mem, 0)) % 0x1_0000)), r.y);
  }

  /** `[d],Y` outside the page-wrapping case: Y is added to the bank-0 long pointer at D + operand. */
  lemma IndirectLongIndexedNative(r: Regs, mem: seq<u8>)
    requires IsMemory(mem) && !IsWrap8(r)
    ensures var p := (r.d + OpByte(r, mem, 0)) % 0x1_0000;
      EffectiveAddress(r, mem, DirectIndirectIndexedLongY) == Ea(WarpAddress((BankLong(mem, p) + r.y) % 0x100_0000, NoWarp), 1, DirectPenalty(r))
  {
    IndirectLongIndexedShape(r, mem);
    NativePointer(r, mem);
    NoWarpOffset(BankLong(mem, (r.d + OpByte(r, mem, 0)) % 0x1_0000), r.y);
  }

  /** `(d),Y` in the page-wrapping case: the pointer's two bytes both come from D's page. */
  lemma IndirectIndexedWrap8(r: Regs, mem: seq<u8>)
    requires IsMemory(mem) && IsWrap8(r)
    ensures EffectiveAddress(r, mem, DirectIndirectIndexedY)
              == Ea(WarpAddress((Long(r.db, PageWord(mem, r.d, OpByte(r, mem, 0))) + r.y) % 0x100_0000, NoWarp), 1, 0)
  {
    IndirectIndexedShape(r, mem);
    Wrap8Pointer(r, mem);
    NoWarpOffset(Long(r.db, PageWord(mem, r.d, OpByte(r, mem, 0))), r.y);
  }

  /** `(d,X)` outside the page-wrapping case: the pointer is a bank-0 word at D + operand + X; it addresses the data bank. */
  lemma IndexedIndirectNative(r: Regs, mem: seq<u8>)
    requires IsMemory(mem) && !IsWrap8(r)
    ensures EffectiveAddress(r, mem, DirectIndexedIndirect)
              == Ea(WarpAddress(Long(r.db, BankWord(mem, (r.d + OpByte(r, mem, 0) + r.x) % 0x1_0000)), NoWarp), 1, DirectPenalty(r))
  {
    IndexedIndirectNativeShape(r, mem);
    IndexedPointerNative(r, mem);
  }

  /** `(d,X)` in the page-wrapping case: operand + X and the pointer's two bytes all wrap within D's page. */
  lemma IndexedIndirectWrap8(r: Regs, mem: seq<u8>)
    requires IsMemory(mem) && IsWrap8(r)
    ensures EffectiveAddress(r, mem, DirectIndexedIndirect)
              == Ea(WarpAddress(Long(r.db, PageWord(mem, r.d, (OpByte(r, mem, 0) + r.x) % 0x100)), NoWarp), 1, 0)
  {
    IndexedIndirectWrap8Shape(r, mem);
    IndexedPointerWrap8(mem, r.d, OpByte(r, mem, 0), r.x);
  }

  /**
   * The stack-relative modes: `(s)` is S + operand in bank 0; `(s),Y` reads
   * a pointer there, adds Y to it in the data bank, and spends one cycle.
   */
  lemma StackRelativeModes(r: Regs, mem: seq<u8>)
    requires IsMemory(mem)
    ensures var p := (r.s + OpByte(r, mem, 0)) % 0x1_0000;
      && EffectiveAddress(r, mem, StackRelative) == Ea(WarpAddress(p, Warp16bit), 1, 0)
      && EffectiveAddress(r, mem, StackRelativeIndirectIndexed)
           == Ea(WarpAddress((Long(r.db, BankWord(mem, p)) + r.y) % 0x100_0000, NoWarp), 1, CpuCycle)
  {
    StackRelativeShape(r, mem);
    BankPointerAt(mem, r.s, OpByte(r, mem, 0));
    NoWarpOffset(Long(r.db, BankWord(mem, (r.s + OpByte(r, mem, 0)) % 0x1_0000)), r.y);
  }

  // ---------------------------------------------------------------- interrupt arbitration

  /** What `excecute_instruction_` does at the start of a step. */
  datatype StepKind =
    | Behind     // the clock has moved past `prev_counter`: nothing happens
    | TakeNmi    // NMI exception entry
    | TakeIrq    // IRQ exception entry
    | Waiting    // WAI halt with no IRQ pending: one idle cycle
    | RunOpcode  // fetch and execute the next opcode (waking from WAI if an IRQ is pending)

  /** The priority order: the clock check, then NMI, then IRQ unless masked by I, then a pending halt. */
  function Arbitrate(prevCounter: nat, now: nat, nmi: bool, irq: bool, i: bool, halt: bool): (k: StepKind)
    ensures k == Behind <==> prevCounter < now
    ensures prevCounter >= now && nmi ==> k == TakeNmi
    ensures k == TakeIrq ==> irq && !i && !nmi
    ensures k == Waiting ==> halt && !irq && !nmi
  {
    if prevCounter < now then Behind
    else if nmi then TakeNmi
    else if irq && !i then TakeIrq
    else if halt && !irq then Waiting
    else RunOpcode
  }

  /**
   * An NMI is taken whatever I and the halt state are; an IRQ is taken only
   * when I is clear and no NMI is pending; a masked IRQ still ends a WAI
   * halt, which is left only by an IRQ or an NMI.
   */
  lemma ArbitrationRules(prevCounter: nat, now: nat, nmi: bool, irq: bool, i: bool, halt: bool)
    requires prevCounter >= now
    ensures nmi ==> Arbitrate(prevCounter, now, nmi, irq, i, halt) == TakeNmi
    ensures Arbitrate(prevCounter, now, nmi, irq, i, halt) == TakeIrq <==> !nmi && irq && !i
    ensures !nmi && irq && i ==> Arbitrate(prevCounter, now, nmi, irq, i, halt) == RunOpcode
    ensures Arbitrate(prevCounter, now, nmi, irq, i, halt) == Waiting <==> halt && !nmi && !irq
  {
  }

  // ---------------------------------------------------------------- the accumulator ALU

  /** `AluType`. */
  datatype AluType = Or | And | Xor | Add | Sub | Cmp

  /** The operation itself on bytes: `alu_add_8`/`alu_sub_8` pick decimal or binary by D. */
  function AluOp8(op: AluType, a: u8, b: u8, p: Status): Out8
  {
    match op
    case Or => Out8(Or8(a, b), p)
    case And => Out8(And8(a, b), p)
    case Xor => Out8(Xor8(a, b), p)
    case Add => if p.d then DcdAdd8(a, b, p) else BinAdd8(a, b, p)
    case Sub => if p.d then DcdSub8(a, b, p) else BinSub8(a, b, p)
    case Cmp => Cmp8(a, b, p)
  }

  function AluOp16(op: AluType, a: u16, b: u16, p: Status): Out16
  {
    match op
    case Or => Out16(Or16(a, b), p)
    case And => Out16(And16(a, b), p)
    case Xor => Out16(Xor16(a, b), p)
    case Add => if p.d then DcdAdd16(a, b, p) else BinAdd16(a, b, p)
    case Sub => if p.d then DcdSub16(a, b, p) else BinSub16(a, b, p)
    case Cmp => Cmp16(a, b, p)
  }

  /** The accumulator and the status register after `alu`. */
  datatype AccOut = AccOut(a: u16, p: Status)

  /** `alu` with an 8-bit accumulator: the result replaces the low byte of A unless the operation is Cmp; N and Z follow the result. */
  function AluA8(op: AluType, a: u16, b: u8, p: Status): AccOut
  {
    var o := AluOp8(op, Lo(a), b, p);
    AccOut(if op == Cmp then a else SetLow(a, o.r), SetNZ8(o.p, o.r))
  }

  /** `alu` with a 16-bit accumulator. */
  function AluA16(op: AluType, a: u16, b: u16, p: Status): AccOut
  {
    var o := AluOp16(op, a, b, p);
    AccOut(if op == Cmp then a else o.r, SetNZ16(o.p, o.r))
  }

  /**
   * With an 8-bit accumulator `alu` never touches the high byte of A; Cmp
   * leaves A alone and changes only N, Z and C (C set exactly when A's low
   * byte is at least the operand); the logic operations change only N and Z;
   * I, X, M and E-related bits are never changed.
   */
  lemma AluAccumulator8(op: AluType, a: u16, b: u8, p: Status)
    ensures Hi(AluA8(op, a, b, p).a) == Hi(a)
    ensures op == Cmp ==> AluA8(op, a, b, p).a == a
    ensures op == Cmp ==> AluA8(op, a, b, p).p == p.(n := AluA8(op, a, b, p).p.n, z := AluA8(op, a, b, p).p.z, c := Lo(a) >= b)
    ensures op in {Or, And, Xor} ==> AluA8(op, a, b, p).p == p.(n := AluA8(op, a, b, p).p.n, z := AluA8(op, a, b, p).p.z)
    ensures op != Cmp ==> (AluA8(op, a, b, p).p.z <==> Lo(AluA8(op, a, b, p).a) == 0)
    ensures AluA8(op, a, b, p).p.i == p.i && AluA8(op, a, b, p).p.x == p.x && AluA8(op, a, b, p).p.m == p.m && AluA8(op, a, b, p).p.d == p.d
  {
    var o := AluOp8(op, Lo(a), b, p);
    if op == Add {
      if p.d { assert o.p == p.(c := o.p.c, v := o.p.v); } else { BinAdd8Spec(Lo(a), b, p); }
    } else if op == Sub {
      if p.d { assert o.p == p.(c := o.p.c, v := o.p.v); } else { BinSub8Spec(Lo(a), b, p); }
    }
  }

  /** With a 16-bit accumulator Cmp leaves A alone and changes only N, Z and C; the others replace A. */
  lemma AluAccumulator16(op: AluType, a: u16, b: u16, p: Status)
    ensures op == Cmp ==> AluA16(op, a, b, p).a == a
    ensures op == Cmp ==> AluA16(op, a, b, p).p == p.(n := AluA16(op, a, b, p).p.n, z := AluA16(op, a, b, p).p.z, c := a >= b)
    ensures op in {Or, And, Xor} ==> AluA16(op, a, b, p).p == p.(n := AluA16(op, a, b, p).p.n, z := AluA16(op, a, b, p).p.z)
    ensures op != Cmp ==> (AluA16(op, a, b, p).p.z <==> AluA16(op, a, b, p).a == 0)
    ensures AluA16(op, a, b, p).p.i == p.i && AluA16(op, a, b, p).p.x == p.x && AluA16(op, a, b, p).p.m == p.m && AluA16(op, a, b, p).p.d == p.d
  {
    var o := AluOp16(op, a, b, p);
    if op == Add {
      if p.d { assert o.p == p.(c := o.p.c, v := o.p.v); } else { BinAdd16Spec(a, b, p); }
    } else if op == Sub {
      if p.d { assert o.p == p.(c := o.p.c, v := o.p.v); } else { BinSub16Spec(a, b, p); }
    }
  }

  // ---------------------------------------------------------------- emulation mode

  /**
   * `set_e`: entering emulation mode forces 8-bit registers, clears the high
   * bytes of X and Y and moves S into page 1; leaving it changes only E.
   */
  function SetE(r: Regs, data: bool): (t: Regs)
    ensures t.e == data && t.a == r.a && t.d == r.d && t.db == r.db && t.pb == r.pb && t.pc == r.pc
    ensures data ==> t.p.m && t.p.x && t.x < 0x100 && t.y < 0x100 && Hi(t.s) == 0x01
    ensures data ==> Lo(t.x) == Lo(r.x) && Lo(t.y) == Lo(r.y) && Lo(t.s) == Lo(r.s)
    ensures !data ==> t == r.(e := false)
  {
    r.(e := data,
       p := r.p.(m := data || r.p.m, x := data || r.p.x),
       x := if data then Lo(r.x) else r.x,
       y := if data then Lo(r.y) else r.y,
       s := if data then 0x100 + Lo(r.s) else r.s)
  }

  /** `xce`: C receives the old E, and E is set from the old C. */
  function Xce(r: Regs): (t: Regs)
    ensures t.e == r.p.c && t.p.c == r.e
  {
    SetE(r.(p := r.p.(c := r.e)), r.p.c)
  }

  /** XCE exchanges C and E, so two XCEs in a row give back the original C and E. */
  lemma XceExchanges(r: Regs)
    ensures Xce(r).e == r.p.c && Xce(r).p.c == r.e
    ensures Xce(Xce(r)).e == r.e && Xce(Xce(r)).p.c == r.p.c
  {
  }

  /**
   * Entering emulation mode leaves M and X set, X and Y below 0x100 with
   * their low bytes kept, and S in page 1 with its low byte kept.
   */
  lemma XceToEmulation(r: Regs)
    requires r.p.c
    ensures Xce(r).p.m && Xce(r).p.x && Xce(r).x == Lo(r.x) && Xce(r).y == Lo(r.y)
    ensures Hi(Xce(r).s) == 0x01 && Lo(Xce(r).s) == Lo(r.s)
  {
    assert Xce(r).s == 0x100 + Lo(r.s);
  }

  /** Entering (or staying in) native mode changes nothing but C and E. */
  lemma XceToNative(r: Regs)
    requires !r.p.c
    ensures Xce(r) == r.(e := false, p := r.p.(c := r.e))
  {
  }

  // ---------------------------------------------------------------- branches

  /** `cond_branch` and `jmp_disp_8`: PC plus the sign-extended displacement, wrapping within the bank. */
  function BranchTarget(pc: u16, disp: u8): u16
  {
    (pc + SignExtend8(disp)) % 0x1_0000
  }

  /** The displacement is a signed byte: the target is within -128..127 of PC, modulo 2^16. */
  lemma BranchTargetSigned(pc: u16, disp: u8)
    ensures BranchTarget(pc, disp) == (pc + (if disp >= 0x80 then disp - 0x100 else disp)) % 0x1_0000
  {
    SignExtendIsSigned(pc, disp);
  }
}
