/**
 * The pure parts of the audio CPU, a Sony SPC700 (src/spc.rs): the program
 * status word, 16-bit address wrapping, the register file with its YA pair,
 * the page-1 stack slots, the boot ROM and the branch conditions.
 *
 * As for the main CPU, registers are bounded integers and the program status
 * word, whose bits are packed and unpacked one by one, goes through a `bv8`.
 */
module SpcTypes {
  import opened Wrappers
  import opened CpuTypes
  import opened CpuAlu

  // ---------------------------------------------------------------- program status word

  /** `Psw`: bit k of the byte is the k-th flag in the order c z i h b p v n. */
  datatype Psw = Psw(c: bool, z: bool, i: bool, h: bool, b: bool, p: bool, v: bool, n: bool)

  /** `Psw::default()`: every flag clear. */
  const DefaultPsw := Psw(false, false, false, false, false, false, false, false)

  /** `impl From<u8> for Psw`. */
  function PswFromByte(data: bv8): Psw
  {
    Psw(data & 1 == 1, (data >> 1) & 1 == 1, (data >> 2) & 1 == 1, (data >> 3) & 1 == 1,
        (data >> 4) & 1 == 1, (data >> 5) & 1 == 1, (data >> 6) & 1 == 1, (data >> 7) & 1 == 1)
  }

  /** `impl From<Psw> for u8`. */
  function PswToByte(p: Psw): bv8
  {
    Bit(p.c) | (Bit(p.z) << 1) | (Bit(p.i) << 2) | (Bit(p.h) << 3) |
    (Bit(p.b) << 4) | (Bit(p.p) << 5) | (Bit(p.v) << 6) | (Bit(p.n) << 7)
  }

  /** Unpacking a byte and packing it again gives the byte back, and packing loses no flag. */
  lemma PswRoundTrip(data: bv8, p: Psw)
    ensures PswToByte(PswFromByte(data)) == data
    ensures PswFromByte(PswToByte(p)) == p
  {
  }

  /** The status word as the byte pushed on the stack. */
  function PswByte(p: Psw): u8 { PswToByte(p) as int }

  /** The status word a pulled byte gives. */
  function PswOfByte(b: u8): Psw { PswFromByte(b as bv8) }

  /** Pushing the status word and pulling the byte back restores every flag. */
  lemma PswByteRoundTrip(p: Psw)
    ensures PswOfByte(PswByte(p)) == p
  {
    PswRoundTrip(0, p);
  }

  /** `set_nz`: N from bit 7, Z from zero. */
  function SetNZ(p: Psw, v: u8): (q: Psw)
    ensures q == p.(n := q.n, z := q.z)
    ensures q.n <==> v >= 0x80
    ensures q.z <==> v == 0
  {
    p.(n := v >= 0x80, z := v == 0)
  }

  /** `set_nz16`: N from bit 15, Z from zero. */
  function SetNZ16(p: Psw, v: u16): (q: Psw)
    ensures q == p.(n := q.n, z := q.z)
    ensures q.n <==> v >= 0x8000
    ensures q.z <==> v == 0
  {
    p.(n := v >= 0x8000, z := v == 0)
  }

  // ---------------------------------------------------------------- address wrapping

  /** `WrapMode`: whether an offset may leave the 256-byte page. */
  datatype WrapMode = NoWrap | Wrap8bit

  /** `WrapAddr`: an address and the rule for the bytes after it. */
  datatype WrapAddr = WrapAddr(addr: u16, mode: WrapMode)

  /**
   * `WrapAddr::offset`: modulo 2^16 without wrapping, and within the page of
   * the address (`addr & 0xFF00 | (addr + offset) & 0xFF`) with 8-bit wrapping.
   */
  function Offset(w: WrapAddr, off: u16): WrapAddr
  {
    match w.mode
    case NoWrap => WrapAddr((w.addr + off) % 0x1_0000, NoWrap)
    case Wrap8bit => WrapAddr(Hi(w.addr) * 0x100 + (Lo(w.addr) + off) % 0x100, Wrap8bit)
  }

  /** With 8-bit wrapping, an offset keeps the high byte and moves the low byte modulo 256. */
  lemma OffsetKeepsPage(w: WrapAddr, off: u16)
    requires w.mode == Wrap8bit
    ensures Hi(Offset(w, off).addr) == Hi(w.addr)
    ensures Lo(Offset(w, off).addr) == (Lo(w.addr) + off) % 0x100
    ensures Offset(w, off).mode == Wrap8bit
  {
  }

  /** Without wrapping, an offset is addition modulo 2^16 (and the whole 16 bits carry). */
  lemma OffsetNoWrap(w: WrapAddr, off: u16)
    requires w.mode == NoWrap
    ensures Offset(w, off).addr == (w.addr + off) % 0x1_0000
    ensures w.addr + off < 0x1_0000 ==> Offset(w, off).addr == w.addr + off
    ensures Offset(w, off).mode == NoWrap
  {
  }

  /** The byte after an address is always a different byte, whatever the wrapping rule. */
  lemma OffsetMoves(w: WrapAddr)
    ensures Offset(w, 1).addr != w.addr
  {
  }

  // ---------------------------------------------------------------- registers

  /** `Registers`: A, X, Y, PSW, SP and PC. */
  datatype SpcRegs = SpcRegs(a: u8, x: u8, y: u8, psw: Psw, sp: u8, pc: u16)

  /** `ROM`: the 64-byte boot program mapped at 0xFFC0. */
  const BootRom: seq<u8> := [
    0xCD, 0xEF, 0xBD, 0xE8, 0x00, 0xC6, 0x1D, 0xD0, 0xFC, 0x8F, 0xAA, 0xF4, 0x8F, 0xBB, 0xF5, 0x78,
    0xCC, 0xF4, 0xD0, 0xFB, 0x2F, 0x19, 0xEB, 0xF4, 0xD0, 0xFC, 0x7E, 0xF4, 0xD0, 0x0B, 0xE4, 0xF5,
    0xCB, 0xF4, 0xD7, 0x00, 0xFC, 0xD0, 0xF3, 0xAB, 0x01, 0x10, 0xEF, 0x7E, 0xF4, 0x10, 0xEB, 0xBA,
    0xF6, 0xDA, 0x00, 0xBA, 0xF4, 0xC4, 0xF4, 0xDD, 0x5D, 0xD0, 0xDB, 0x1F, 0x00, 0x00, 0xC0, 0xFF
  ]

  /** `Registers::default()`: SP = 0xFF and PC from the last two bytes of the boot ROM. */
  function DefaultRegs(): (r: SpcRegs)
    ensures r.pc == 0xFFC0 && r.sp == 0xFF
    ensures r.pc == Word(BootRom[0x3E], BootRom[0x3F])
  {
    SpcRegs(0, 0, 0, DefaultPsw, 0xFF, Word(BootRom[0x3E], BootRom[0x3F]))
  }

  /** `get_ya`: Y is the high byte and A the low byte. */
  function GetYa(r: SpcRegs): u16 { Word(r.a, r.y) }

  /** `set_ya`: the low byte to A and the high byte to Y. */
  function SetYa(r: SpcRegs, v: u16): SpcRegs { r.(a := Lo(v), y := Hi(v)) }

  /**
   * YA is Y * 256 + A; writing it and reading it back gives the value written,
   * and writing it changes only A and Y.
   */
  lemma YaRoundTrip(r: SpcRegs, v: u16)
    ensures GetYa(r) == r.y * 0x100 + r.a
    ensures GetYa(SetYa(r, v)) == v
    ensures SetYa(r, v) == r.(a := SetYa(r, v).a, y := SetYa(r, v).y)
    ensures SetYa(r, GetYa(r)) == r
  {
    WordRoundTrip(v, r.a, r.y);
  }

  // ---------------------------------------------------------------- stack

  /** The stack slot for SP: `0x100 | sp`, always in page 1. */
  function StackSlot(sp: u8): WrapAddr { WrapAddr(0x100 + sp, Wrap8bit) }

  /** Every stack slot is in page 1, and different stack pointers address different slots. */
  lemma StackSlotInPageOne(sp: u8, sp': u8)
    ensures Hi(StackSlot(sp).addr) == 1 && Lo(StackSlot(sp).addr) == sp
    ensures sp != sp' ==> StackSlot(sp).addr != StackSlot(sp').addr
  {
  }

  // ---------------------------------------------------------------- branches

  /** `BranchType`. */
  datatype SpcBranch = Bra | Beq | Bne | Bcs | Bcc | Bvs | Bvc | Bmi | Bpl

  /** `check_branch_condition`. */
  function CheckSpcBranch(cond: SpcBranch, p: Psw): bool
  {
    match cond
    case Bra => true
    case Beq => p.z
    case Bne => !p.z
    case Bcs => p.c
    case Bcc => !p.c
    case Bvs => p.v
    case Bvc => !p.v
    case Bmi => p.n
    case Bpl => !p.n
  }

  /** BRA is always taken, and the other branches come in complementary pairs. */
  lemma SpcBranchPairs(p: Psw)
    ensures CheckSpcBranch(SpcBranch.Bra, p)
    ensures CheckSpcBranch(SpcBranch.Beq, p) != CheckSpcBranch(SpcBranch.Bne, p)
    ensures CheckSpcBranch(SpcBranch.Bcs, p) != CheckSpcBranch(SpcBranch.Bcc, p)
    ensures CheckSpcBranch(SpcBranch.Bvs, p) != CheckSpcBranch(SpcBranch.Bvc, p)
    ensures CheckSpcBranch(SpcBranch.Bmi, p) != CheckSpcBranch(SpcBranch.Bpl, p)
  {
  }

  /** `pc.wrapping_add(offset as i8 as u16)`. */
  function Relative(pc: u16, offset: u8): u16 { (pc + SignExtend8(offset)) % 0x1_0000 }
}
