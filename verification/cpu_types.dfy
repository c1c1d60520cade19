/**
 * The pure parts of the main CPU, a WDC 65C816 (src/cpu.rs): the processor
 * status byte, address wrapping, interrupt vectors, branch conditions and the
 * byte/word helpers the instruction handlers share.
 *
 * Register values are bounded integers (`u8`, `u16`); the source's masks and
 * shifts by whole bytes become division and remainder by 0x100 and 0x10000.
 * The status byte, whose bits are packed and unpacked one by one, is a `bv8`.
 */
module CpuTypes {
  import opened Wrappers

  // ---------------------------------------------------------------- bytes and words

  /** `(hi as u16) << 8 | lo as u16`. */
  function Word(lo: u8, hi: u8): u16 { hi * 0x100 + lo }

  /** `w as u8`. */
  function Lo(w: u16): u8 { w % 0x100 }

  /** `(w >> 8) as u8`. */
  function Hi(w: u16): u8 { w / 0x100 }

  /** A word is rebuilt from its two bytes, and the bytes of a built word are the ones it was built from. */
  lemma WordRoundTrip(w: u16, lo: u8, hi: u8)
    ensures Word(Lo(w), Hi(w)) == w
    ensures Lo(Word(lo, hi)) == lo && Hi(Word(lo, hi)) == hi
  {
  }

  /** `(bank as u32) << 16 | w as u32`: a 24-bit address. */
  function Long(bank: u8, w: u16): u24 { bank * 0x1_0000 + w }

  /** `(w & 0xFF00) | b as u16`: replace the low byte of a 16-bit register. */
  function SetLow(w: u16, b: u8): (r: u16)
    ensures Hi(r) == Hi(w) && Lo(r) == b
  {
    Hi(w) * 0x100 + b
  }

  /** The `Value` trait's `negative`: the top bit. */
  predicate Negative8(v: u8) { v >= 0x80 }
  predicate Negative16(v: u16) { v >= 0x8000 }

  // ---------------------------------------------------------------- status register

  /** The processor status register P; bit 4 is X (B in emulation mode), bit 5 is M. */
  datatype Status = Status(c: bool, z: bool, i: bool, d: bool, x: bool, m: bool, v: bool, n: bool)

  /** `Status::default()`: interrupts masked, 8-bit accumulator and index registers. */
  const DefaultStatus := Status(false, false, true, false, true, true, false, false)

  /** `impl From<u8> for Status`: bit k of the byte is the k-th flag in the order c z i d x m v n. */
  function StatusFromByte(data: bv8): Status
  {
    Status(data & 1 == 1, (data >> 1) & 1 == 1, (data >> 2) & 1 == 1, (data >> 3) & 1 == 1,
           (data >> 4) & 1 == 1, (data >> 5) & 1 == 1, (data >> 6) & 1 == 1, (data >> 7) & 1 == 1)
  }

  function Bit(b: bool): bv8 { if b then 1 else 0 }

  /** `impl Into<u8> for Status`. */
  function StatusToByte(p: Status): bv8
  {
    Bit(p.c) | (Bit(p.z) << 1) | (Bit(p.i) << 2) | (Bit(p.d) << 3) |
    (Bit(p.x) << 4) | (Bit(p.m) << 5) | (Bit(p.v) << 6) | (Bit(p.n) << 7)
  }

  /** Every byte survives the trip through `Status`, and every status the trip through a byte. */
  lemma StatusRoundTrip(data: bv8, p: Status)
    ensures StatusToByte(StatusFromByte(data)) == data
    ensures StatusFromByte(StatusToByte(p)) == p
  {
  }

  /** Set N and Z from an 8-bit result (`set_nz` on a `u8`). */
  function SetNZ8(p: Status, v: u8): (q: Status)
    ensures q.z <==> v == 0
    ensures q.n <==> v >= 0x80
    ensures q.(n := p.n, z := p.z) == p
  {
    p.(n := Negative8(v), z := v == 0)
  }

  /** Set N and Z from a 16-bit result (`set_nz` on a `u16`). */
  function SetNZ16(p: Status, v: u16): (q: Status)
    ensures q.z <==> v == 0
    ensures q.n <==> v >= 0x8000
    ensures q.(n := p.n, z := p.z) == p
  {
    p.(n := Negative16(v), z := v == 0)
  }

  /** `rep`: `Status::from(u8::from(p) & !data)`. */
  function Rep(p: Status, data: bv8): Status
  {
    StatusFromByte(StatusToByte(p) & !data)
  }

  /** `sep`: `Status::from(u8::from(p) | data)`. */
  function Sep(p: Status, data: bv8): Status
  {
    StatusFromByte(StatusToByte(p) | data)
  }

  /** REP clears exactly the flags whose bit is set in the operand and leaves the others. */
  lemma RepClearsExactly(p: Status, data: bv8)
    ensures Rep(p, data).c == (p.c && data & 0x01 == 0) && Rep(p, data).z == (p.z && data & 0x02 == 0)
    ensures Rep(p, data).i == (p.i && data & 0x04 == 0) && Rep(p, data).d == (p.d && data & 0x08 == 0)
    ensures Rep(p, data).x == (p.x && data & 0x10 == 0) && Rep(p, data).m == (p.m && data & 0x20 == 0)
    ensures Rep(p, data).v == (p.v && data & 0x40 == 0) && Rep(p, data).n == (p.n && data & 0x80 == 0)
  {
  }

  /** SEP sets exactly the flags whose bit is set in the operand and leaves the others. */
  lemma SepSetsExactly(p: Status, data: bv8)
    ensures Sep(p, data).c == (p.c || data & 0x01 != 0) && Sep(p, data).z == (p.z || data & 0x02 != 0)
    ensures Sep(p, data).i == (p.i || data & 0x04 != 0) && Sep(p, data).d == (p.d || data & 0x08 != 0)
    ensures Sep(p, data).x == (p.x || data & 0x10 != 0) && Sep(p, data).m == (p.m || data & 0x20 != 0)
    ensures Sep(p, data).v == (p.v || data & 0x40 != 0) && Sep(p, data).n == (p.n || data & 0x80 != 0)
  {
  }

  // ---------------------------------------------------------------- address wrapping

  /** How an effective address wraps when an offset is added to it. */
  datatype WarpMode = Warp8bit | Warp16bit | NoWarp

  /** A 24-bit address with its wrapping rule. */
  datatype WarpAddress = WarpAddress(addr: u24, mode: WarpMode)

  /**
   * `WarpAddress::offset`: Warp8bit replaces the low byte by the low byte of
   * the sum (the source's `u8` wrapping add of the truncated operands),
   * Warp16bit the low word by the low word of the sum, and NoWarp adds
   * modulo 2^24 (`& 0xFFFFFF`).
   */
  function OffsetAddr(addr: u24, mode: WarpMode, off: u16): u24
  {
    match mode
    case Warp8bit => addr - addr % 0x100 + (addr % 0x100 + off % 0x100) % 0x100
    case Warp16bit => addr - addr % 0x1_0000 + (addr % 0x1_0000 + off) % 0x1_0000
    case NoWarp => (addr + off) % 0x100_0000
  }

  /** `WarpAddress::offset`: the wrapping rule is kept. */
  function Offset(w: WarpAddress, off: u16): (r: WarpAddress)
    ensures r.mode == w.mode
  {
    WarpAddress(OffsetAddr(w.addr, w.mode, off), w.mode)
  }

  /** Warp8bit keeps address bits 8-23; the low byte is the low byte of the plain sum. */
  lemma OffsetKeepsPage(addr: u24, off: u16)
    ensures OffsetAddr(addr, Warp8bit, off) / 0x100 == addr / 0x100
    ensures OffsetAddr(addr, Warp8bit, off) % 0x100 == (addr + off) % 0x100
  {
  }

  /** Warp16bit keeps address bits 16-23; the low word is the low word of the plain sum. */
  lemma OffsetKeepsBank(addr: u24, off: u16)
    ensures OffsetAddr(addr, Warp16bit, off) / 0x1_0000 == addr / 0x1_0000
    ensures OffsetAddr(addr, Warp16bit, off) % 0x1_0000 == (addr + off) % 0x1_0000
  {
  }

  /** NoWarp is the plain sum modulo 2^24, which differs from the 16-bit modes only across a bank boundary. */
  lemma OffsetNoWarp(addr: u24, off: u16)
    ensures OffsetAddr(addr, NoWarp, off) == (addr + off) % 0x100_0000
    ensures addr % 0x1_0000 + off < 0x1_0000 ==> OffsetAddr(addr, NoWarp, off) == OffsetAddr(addr, Warp16bit, off)
  {
  }

  // ---------------------------------------------------------------- exceptions

  datatype Exception = Cop | Brk | Abort | Nmi | Irq | Reset

  /** `get_interrupt_vector`: the emulation-mode (e) or native-mode vector of each exception. */
  function InterruptVector(ex: Exception, e: bool): (v: u16)
    ensures 0xFFE4 <= v && v % 2 == 0
    ensures (e || ex == Reset) <==> v >= 0xFFF4
  {
    match ex
    case Cop => if e then 0xFFF4 else 0xFFE4
    case Brk => if e then 0xFFFE else 0xFFE6
    case Abort => if e then 0xFFF8 else 0xFFE8
    case Nmi => if e then 0xFFFA else 0xFFEA
    case Irq => if e then 0xFFFE else 0xFFEE
    case Reset => 0xFFFC
  }

  /** In emulation mode BRK and IRQ share one vector; in native mode every exception has its own. */
  lemma VectorsDistinctInNativeMode(a: Exception, b: Exception)
    requires a != b && a != Reset && b != Reset
    ensures InterruptVector(a, false) != InterruptVector(b, false)
    ensures InterruptVector(a, true) == InterruptVector(b, true) <==> {a, b} == {Brk, Irq}
  {
  }

  // ---------------------------------------------------------------- branches

  datatype BranchType = Bpl | Bmi | Bvc | Bvs | Bcc | Bcs | Bne | Beq

  /** `check_branch_condition`. */
  function CheckBranchCondition(cond: BranchType, p: Status): bool
  {
    match cond
    case Bpl => !p.n
    case Bmi => p.n
    case Bvc => !p.v
    case Bvs => p.v
    case Bcc => !p.c
    case Bcs => p.c
    case Bne => !p.z
    case Beq => p.z
  }

  /** The branches come in complementary pairs: exactly one of each pair is taken. */
  lemma BranchPairsComplementary(p: Status)
    ensures CheckBranchCondition(Bpl, p) != CheckBranchCondition(Bmi, p)
    ensures CheckBranchCondition(Bvc, p) != CheckBranchCondition(Bvs, p)
    ensures CheckBranchCondition(Bcc, p) != CheckBranchCondition(Bcs, p)
    ensures CheckBranchCondition(Bne, p) != CheckBranchCondition(Beq, p)
  {
  }

  /** `disp as i8 as u16`: sign-extend a branch displacement. */
  function SignExtend8(b: u8): (r: u16)
    ensures Lo(r) == b
    ensures Hi(r) == if b >= 0x80 then 0xFF else 0x00
  {
    if b >= 0x80 then 0xFF00 + b else b
  }

  /** Adding the sign-extended displacement moves PC by the signed value of the byte, modulo 2^16. */
  lemma SignExtendIsSigned(pc: u16, b: u8)
    ensures (pc + SignExtend8(b)) % 0x1_0000 == (pc + (if b >= 0x80 then b - 0x100 else b)) % 0x1_0000
  {
  }
}
