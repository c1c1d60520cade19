/**
 * The arithmetic and logic unit of the main CPU (src/cpu.rs): binary and
 * decimal add and subtract, compare, shifts and rotates, and the flag rules
 * of BIT/TSB/TRB. Each operation takes the operands and the status register
 * and returns the result with the updated status register, as the source's
 * `&mut self` helpers do by assigning `self.p`.
 *
 * The source widens operands to `u32`/`i32` and tests single bits of the
 * intermediate (`& 0x80`, `& 0x8000`); on bounded integers a bit test on the
 * top bit of the truncated value is a comparison with 0x80 or 0x8000, and
 * `x & 0xF` / `x & 0xF0` are `x % 0x10` and `x % 0x100 - x % 0x10` (also for
 * the negative `i32` intermediates of decimal subtraction, since `%` here
 * never returns a negative remainder).
 */
module CpuAlu {
  import opened Wrappers
  import opened Arith
  import opened CpuTypes
  import opened Bits

  /** An 8-bit result and the status register after the operation. */
  datatype Out8 = Out8(r: u8, p: Status)

  /** A 16-bit result and the status register after the operation. */
  datatype Out16 = Out16(r: u16, p: Status)

  /** `self.p.c as u32`. */
  function Carry(c: bool): int { if c then 1 else 0 }

  /** The two's-complement value of a byte or word (`as i8`, `as i16`). */
  function Signed8(x: u8): int { if x >= 0x80 then x - 0x100 else x }
  function Signed16(x: u16): int { if x >= 0x8000 then x - 0x1_0000 else x }

  // ---------------------------------------------------------------- binary add and subtract

  /** `bin_add_8`: the truncated sum, C from `c > 0xFF`, V from bit 7 of the operands and the sum. */
  function BinAdd8(a: u8, b: u8, p: Status): (o: Out8)
  {
    var c := a + b + Carry(p.c);
    var r := c % 0x100;
    Out8(r, p.(c := c > 0xFF, v := Negative8(a) == Negative8(b) && Negative8(r) != Negative8(a)))
  }

  /** `bin_add_16`: as `bin_add_8`, at 16 bits. */
  function BinAdd16(a: u16, b: u16, p: Status): (o: Out16)
  {
    var c := a + b + Carry(p.c);
    var r := c % 0x1_0000;
    Out16(r, p.(c := c > 0xFFFF, v := Negative16(a) == Negative16(b) && Negative16(r) != Negative16(a)))
  }

  /** `bin_sub_8`: `a.wrapping_sub(b).wrapping_sub(borrow)` on `u32`, C from `c < 0x100`. */
  function BinSub8(a: u8, b: u8, p: Status): (o: Out8)
  {
    var c := (a - b - Carry(!p.c)) % 0x1_0000_0000;
    var r := c % 0x100;
    Out8(r, p.(c := c < 0x100, v := Negative8(a) != Negative8(b) && Negative8(r) != Negative8(a)))
  }

  /** `bin_sub_16`: as `bin_sub_8`, at 16 bits. */
  function BinSub16(a: u16, b: u16, p: Status): (o: Out16)
  {
    var c := (a - b - Carry(!p.c)) % 0x1_0000_0000;
    var r := c % 0x1_0000;
    Out16(r, p.(c := c < 0x1_0000, v := Negative16(a) != Negative16(b) && Negative16(r) != Negative16(a)))
  }

  /**
   * Binary addition: the carry and the result together are the exact sum,
   * V is set exactly when the signed sum leaves the range of an `i8`, and no
   * flag other than C and V changes.
   */
  lemma BinAdd8Spec(a: u8, b: u8, p: Status)
    ensures var o := BinAdd8(a, b, p);
      && Carry(o.p.c) * 0x100 + o.r == a + b + Carry(p.c)
      && (o.p.v <==> !(-0x80 <= Signed8(a) + Signed8(b) + Carry(p.c) < 0x80))
      && o.p == p.(c := o.p.c, v := o.p.v)
  {
  }

  lemma BinAdd16Spec(a: u16, b: u16, p: Status)
    ensures var o := BinAdd16(a, b, p);
      && Carry(o.p.c) * 0x1_0000 + o.r == a + b + Carry(p.c)
      && (o.p.v <==> !(-0x8000 <= Signed16(a) + Signed16(b) + Carry(p.c) < 0x8000))
      && o.p == p.(c := o.p.c, v := o.p.v)
  {
  }

  /**
   * Binary subtraction: the result is a - b - borrow modulo 256, where the
   * borrow is the inverted carry; C is set exactly when no borrow out occurs
   * (a >= b + borrow); V exactly when the signed difference leaves the `i8` range.
   */
  lemma BinSub8Spec(a: u8, b: u8, p: Status)
    ensures var o := BinSub8(a, b, p);
      && o.r == (a - b - Carry(!p.c)) % 0x100
      && (o.p.c <==> a >= b + Carry(!p.c))
      && (o.p.v <==> !(-0x80 <= Signed8(a) - Signed8(b) - Carry(!p.c) < 0x80))
      && o.p == p.(c := o.p.c, v := o.p.v)
  {
    var d := a - b - Carry(!p.c);
    if d >= 0 {
      DivMod(d, 0x1_0000_0000, 0, d);
    } else {
      DivMod(d, 0x1_0000_0000, -1, d + 0x1_0000_0000);
      DivMod(d + 0x1_0000_0000, 0x100, 0xFF_FFFF, d + 0x100);
      DivMod(d, 0x100, -1, d + 0x100);
    }
  }

  lemma BinSub16Spec(a: u16, b: u16, p: Status)
    ensures var o := BinSub16(a, b, p);
      && o.r == (a - b - Carry(!p.c)) % 0x1_0000
      && (o.p.c <==> a >= b + Carry(!p.c))
      && (o.p.v <==> !(-0x8000 <= Signed16(a) - Signed16(b) - Carry(!p.c) < 0x8000))
      && o.p == p.(c := o.p.c, v := o.p.v)
  {
    var d := a - b - Carry(!p.c);
    if d >= 0 {
      DivMod(d, 0x1_0000_0000, 0, d);
    } else {
      DivMod(d, 0x1_0000_0000, -1, d + 0x1_0000_0000);
      DivMod(d + 0x1_0000_0000, 0x1_0000, 0xFFFF, d + 0x1_0000);
      DivMod(d, 0x1_0000, -1, d + 0x1_0000);
    }
  }

  /** Subtraction is addition of the one's complement: result, C and V all agree. */
  lemma SubIsAddOfComplement8(a: u8, b: u8, p: Status)
    ensures BinSub8(a, b, p) == BinAdd8(a, 0xFF - b, p)
  {
    var x := BinSub8(a, b, p);
    var y := BinAdd8(a, 0xFF - b, p);
    BinSub8Spec(a, b, p);
    BinAdd8Spec(a, 0xFF - b, p);
    DivMod(a - b - Carry(!p.c), 0x100, Carry(y.p.c) - 1, y.r);
    assert x.r == y.r;
  }

  lemma SubIsAddOfComplement16(a: u16, b: u16, p: Status)
    ensures BinSub16(a, b, p) == BinAdd16(a, 0xFFFF - b, p)
  {
    var x := BinSub16(a, b, p);
    var y := BinAdd16(a, 0xFFFF - b, p);
    BinSub16Spec(a, b, p);
    BinAdd16Spec(a, 0xFFFF - b, p);
    DivMod(a - b - Carry(!p.c), 0x1_0000, Carry(y.p.c) - 1, y.r);
    assert x.r == y.r;
  }

  // ---------------------------------------------------------------- compare

  /** `cmp_8`: `a.overflowing_sub(b)`, C is the inverted borrow; no carry comes in. */
  function Cmp8(a: u8, b: u8, p: Status): (o: Out8)
  {
    Out8((a - b) % 0x100, p.(c := a >= b))
  }

  /** `cmp_16`: as `cmp_8`, at 16 bits. */
  function Cmp16(a: u16, b: u16, p: Status): (o: Out16)
  {
    Out16((a - b) % 0x1_0000, p.(c := a >= b))
  }

  /**
   * Compare is a subtraction with the carry set (no borrow in) whose V is
   * discarded: it yields the same difference and the same C, and changes
   * only C.
   */
  lemma CmpIsSubWithoutBorrow8(a: u8, b: u8, p: Status)
    ensures Cmp8(a, b, p).r == BinSub8(a, b, p.(c := true)).r
    ensures Cmp8(a, b, p).p.c == BinSub8(a, b, p.(c := true)).p.c
    ensures Cmp8(a, b, p).p.c <==> a >= b
    ensures Cmp8(a, b, p).p == p.(c := a >= b)
  {
    BinSub8Spec(a, b, p.(c := true));
  }

  lemma CmpIsSubWithoutBorrow16(a: u16, b: u16, p: Status)
    ensures Cmp16(a, b, p).r == BinSub16(a, b, p.(c := true)).r
    ensures Cmp16(a, b, p).p.c == BinSub16(a, b, p.(c := true)).p.c
    ensures Cmp16(a, b, p).p.c <==> a >= b
    ensures Cmp16(a, b, p).p == p.(c := a >= b)
  {
    BinSub16Spec(a, b, p.(c := true));
  }

  // ---------------------------------------------------------------- increment and decrement

  /** `wrapping_add(1)` and `wrapping_sub(1)` on a `u8` or a `u16`. */
  function Inc8(d: u8): u8 { (d + 1) % 0x100 }
  function Dec8(d: u8): u8 { (d - 1) % 0x100 }
  function Inc16(d: u16): u16 { (d + 1) % 0x1_0000 }
  function Dec16(d: u16): u16 { (d - 1) % 0x1_0000 }

  /** Increment and decrement wrap around at the width and undo each other. */
  lemma IncDecInverse8(d: u8)
    ensures Dec8(Inc8(d)) == d && Inc8(Dec8(d)) == d
    ensures Inc8(0xFF) == 0 && Dec8(0) == 0xFF
  {
    if d < 0xFF { DivMod(d + 1, 0x100, 0, d + 1); }
    if d > 0 { DivMod(d - 1, 0x100, 0, d - 1); }
  }

  lemma IncDecInverse16(d: u16)
    ensures Dec16(Inc16(d)) == d && Inc16(Dec16(d)) == d
    ensures Inc16(0xFFFF) == 0 && Dec16(0) == 0xFFFF
  {
    if d < 0xFFFF { DivMod(d + 1, 0x1_0000, 0, d + 1); }
    if d > 0 { DivMod(d - 1, 0x1_0000, 0, d - 1); }
  }

  // ---------------------------------------------------------------- shifts and rotates

  /** The four shift instructions; each has an accumulator and a memory form. */
  datatype ShiftOp = Asl | Lsr | Rol | Ror

  /**
   * `asl`, `lsr`, `rol`, `ror` on a byte: the bit shifted out goes to C, a
   * rotate shifts the old C in at the other end, and N and Z follow the result.
   */
  function Shift8(op: ShiftOp, d: u8, p: Status): (o: Out8)
    ensures o.p == p.(c := o.p.c, n := o.r >= 0x80, z := o.r == 0)
  {
    var r := match op
      case Asl => (d * 2) % 0x100
      case Lsr => d / 2
      case Rol => (d * 2) % 0x100 + Carry(p.c)
      case Ror => d / 2 + Carry(p.c) * 0x80;
    var c := if op == Asl || op == Rol then d >= 0x80 else d % 2 == 1;
    Out8(r, SetNZ8(p.(c := c), r))
  }

  /** As `Shift8`, at 16 bits (bit 15 goes out of or into the top). */
  function Shift16(op: ShiftOp, d: u16, p: Status): (o: Out16)
    ensures o.p == p.(c := o.p.c, n := o.r >= 0x8000, z := o.r == 0)
  {
    var r := match op
      case Asl => (d * 2) % 0x1_0000
      case Lsr => d / 2
      case Rol => (d * 2) % 0x1_0000 + Carry(p.c)
      case Ror => d / 2 + Carry(p.c) * 0x8000;
    var c := if op == Asl || op == Rol then d >= 0x8000 else d % 2 == 1;
    Out16(r, SetNZ16(p.(c := c), r))
  }

  /**
   * The shifts as arithmetic on the 9-bit quantity C:byte (or byte:C): a left
   * shift doubles it, a right shift halves it, the rotates bring the old carry
   * in; only C, N and Z change.
   */
  lemma Shift8Spec(op: ShiftOp, d: u8, p: Status)
    ensures var o := Shift8(op, d, p);
      && (op == Asl ==> Carry(o.p.c) * 0x100 + o.r == 2 * d)
      && (op == Rol ==> Carry(o.p.c) * 0x100 + o.r == 2 * d + Carry(p.c))
      && (op == Lsr ==> 2 * o.r + Carry(o.p.c) == d)
      && (op == Ror ==> 2 * o.r + Carry(o.p.c) == d + Carry(p.c) * 0x100)
  {
    var k := if d >= 0x80 then 1 else 0;
    DivMod(2 * d, 0x100, k, 2 * d - k * 0x100);
  }

  lemma Shift16Spec(op: ShiftOp, d: u16, p: Status)
    ensures var o := Shift16(op, d, p);
      && (op == Asl ==> Carry(o.p.c) * 0x1_0000 + o.r == 2 * d)
      && (op == Rol ==> Carry(o.p.c) * 0x1_0000 + o.r == 2 * d + Carry(p.c))
      && (op == Lsr ==> 2 * o.r + Carry(o.p.c) == d)
      && (op == Ror ==> 2 * o.r + Carry(o.p.c) == d + Carry(p.c) * 0x1_0000)
  {
    var k := if d >= 0x8000 then 1 else 0;
    DivMod(2 * d, 0x1_0000, k, 2 * d - k * 0x1_0000);
  }

  /** ROR undoes ROL and ROL undoes ROR: the operand and the carry both come back. */
  lemma RotateInverse8(d: u8, p: Status)
    ensures var o := Shift8(Rol, d, p); var q := Shift8(Ror, o.r, o.p);
      q.r == d && q.p.c == p.c
    ensures var o := Shift8(Ror, d, p); var q := Shift8(Rol, o.r, o.p);
      q.r == d && q.p.c == p.c
  {
    var o := Shift8(Rol, d, p);
    Shift8Spec(Rol, d, p);
    Shift8Spec(Ror, o.r, o.p);
    var o' := Shift8(Ror, d, p);
    Shift8Spec(Ror, d, p);
    Shift8Spec(Rol, o'.r, o'.p);
  }

  lemma RotateInverse16(d: u16, p: Status)
    ensures var o := Shift16(Rol, d, p); var q := Shift16(Ror, o.r, o.p);
      q.r == d && q.p.c == p.c
    ensures var o := Shift16(Ror, d, p); var q := Shift16(Rol, o.r, o.p);
      q.r == d && q.p.c == p.c
  {
    var o := Shift16(Rol, d, p);
    Shift16Spec(Rol, d, p);
    Shift16Spec(Ror, o.r, o.p);
    var o' := Shift16(Ror, d, p);
    Shift16Spec(Ror, d, p);
    Shift16Spec(Rol, o'.r, o'.p);
  }

  // ---------------------------------------------------------------- bitwise operations

  /** `&`, `|`, `^` and `& !` on bytes and words. */
  function And8(a: u8, b: u8): u8 { Bitwise(AndOp, a, b, 8) }
  function Or8(a: u8, b: u8): u8 { Bitwise(OrOp, a, b, 8) }
  function Xor8(a: u8, b: u8): u8 { Bitwise(XorOp, a, b, 8) }
  function AndNot8(a: u8, b: u8): u8 { Bitwise(AndNotOp, a, b, 8) }
  function And16(a: u16, b: u16): u16 { Pow2Widths(); Bitwise(AndOp, a, b, 16) }
  function Or16(a: u16, b: u16): u16 { Pow2Widths(); Bitwise(OrOp, a, b, 16) }
  function Xor16(a: u16, b: u16): u16 { Pow2Widths(); Bitwise(XorOp, a, b, 16) }
  function AndNot16(a: u16, b: u16): u16 { Pow2Widths(); Bitwise(AndNotOp, a, b, 16) }

  // ---------------------------------------------------------------- BIT, TSB, TRB

  /**
   * `bit`: Z from `A & data`; outside immediate mode N and V are copied from
   * the top two bits of the operand (`(data >> 7) & 1`, `(data >> 6) & 1`).
   */
  function Bit8(a: u8, data: u8, immediate: bool, p: Status): (q: Status)
    ensures q == p.(n := q.n, v := q.v, z := q.z)
    ensures immediate ==> q == p.(z := q.z)
  {
    p.(n := if immediate then p.n else BitAt(data, 7),
       v := if immediate then p.v else BitAt(data, 6),
       z := And8(a, data) == 0)
  }

  function Bit16(a: u16, data: u16, immediate: bool, p: Status): (q: Status)
    ensures q == p.(n := q.n, v := q.v, z := q.z)
    ensures immediate ==> q == p.(z := q.z)
  {
    p.(n := if immediate then p.n else BitAt(data, 15),
       v := if immediate then p.v else BitAt(data, 14),
       z := And16(a, data) == 0)
  }

  /**
   * BIT sets Z exactly when A and the operand have no set bit in common
   * (no bit where `a & data` is set);
   * immediate BIT changes nothing else, memory BIT sets N exactly when the
   * operand is negative and changes only N, V and Z.
   */
  lemma BitFlags8(a: u8, data: u8, immediate: bool, p: Status)
    ensures Bit8(a, data, immediate, p).z <==> NoBitSet(AndOp, a, data, 8)
    ensures !immediate ==> (Bit8(a, data, immediate, p).n <==> Negative8(data))
  {
    BitwiseZero(AndOp, a, data, 8);
    Pow2Widths();
    TopBit(data, 7);
  }

  lemma BitFlags16(a: u16, data: u16, immediate: bool, p: Status)
    ensures Bit16(a, data, immediate, p).z <==> NoBitSet(AndOp, a, data, 16)
    ensures !immediate ==> (Bit16(a, data, immediate, p).n <==> Negative16(data))
  {
    BitwiseZero(AndOp, a, data, 16);
    Pow2Widths();
    TopBit(data, 15);
  }

  /** `tsb`: Z from `A & data`, the memory operand becomes `data | A`. */
  function Tsb8(a: u8, data: u8, p: Status): (o: Out8)
  {
    Out8(Or8(data, a), p.(z := And8(a, data) == 0))
  }

  /** `trb`: Z from `A & data`, the memory operand becomes `data & !A`. */
  function Trb8(a: u8, data: u8, p: Status): (o: Out8)
  {
    Out8(AndNot8(data, a), p.(z := And8(a, data) == 0))
  }

  function Tsb16(a: u16, data: u16, p: Status): (o: Out16)
  {
    Out16(Or16(data, a), p.(z := And16(a, data) == 0))
  }

  function Trb16(a: u16, data: u16, p: Status): (o: Out16)
  {
    Out16(AndNot16(data, a), p.(z := And16(a, data) == 0))
  }

  /**
   * TSB sets every bit of the operand that is set in A and TRB clears every
   * such bit; both keep the operand's other bits, and both change no flag
   * but Z, which is set when A and the old operand share no bit.
   */
  lemma TestAndModify8(a: u8, data: u8, p: Status)
    ensures var s := Tsb8(a, data, p);
      forall k: nat :: k < 8 ==> (BitAt(s.r, k) <==> BitAt(a, k) || BitAt(data, k))
    ensures var t := Trb8(a, data, p);
      forall k: nat :: k < 8 ==> (BitAt(t.r, k) <==> !BitAt(a, k) && BitAt(data, k))
    ensures Tsb8(a, data, p).p == Trb8(a, data, p).p == p.(z := Bit8(a, data, true, p).z)
  {
    forall k: nat | k < 8
      ensures BitAt(Or8(data, a), k) <==> BitAt(a, k) || BitAt(data, k)
      ensures BitAt(AndNot8(data, a), k) <==> !BitAt(a, k) && BitAt(data, k)
    {
      BitwiseBit(OrOp, data, a, 8, k);
      BitwiseBit(AndNotOp, data, a, 8, k);
    }
  }

  lemma TestAndModify16(a: u16, data: u16, p: Status)
    ensures var s := Tsb16(a, data, p);
      forall k: nat :: k < 16 ==> (BitAt(s.r, k) <==> BitAt(a, k) || BitAt(data, k))
    ensures var t := Trb16(a, data, p);
      forall k: nat :: k < 16 ==> (BitAt(t.r, k) <==> !BitAt(a, k) && BitAt(data, k))
    ensures Tsb16(a, data, p).p == Trb16(a, data, p).p == p.(z := Bit16(a, data, true, p).z)
  {
    forall k: nat | k < 16
      ensures BitAt(Or16(data, a), k) <==> BitAt(a, k) || BitAt(data, k)
      ensures BitAt(AndNot16(data, a), k) <==> !BitAt(a, k) && BitAt(data, k)
    {
      BitwiseBit(OrOp, data, a, 16, k);
      BitwiseBit(AndNotOp, data, a, 16, k);
    }
  }
}
