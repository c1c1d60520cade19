/**
 * The arithmetic of the audio CPU (src/spc.rs): ADC and SBC with the
 * half-carry flag, compare, the decimal adjustments DAA and DAS, DIV and
 * MUL on the YA pair, XCN, and the single-bit operations on memory and on
 * the carry flag. Each operation takes the operands and the status word and
 * returns the result with the updated status word, as the source's `&mut
 * self` helpers do by updating `self.registers.psw`.
 */
module SpcAlu {
  import opened Wrappers
  import opened Arith
  import opened Bits
  import opened CpuTypes
  import opened CpuAlu
  import opened SpcTypes

  /** A byte result and the status word after the operation. */
  datatype SpcOut = SpcOut(r: u8, psw: Psw)

  // ---------------------------------------------------------------- add and subtract

  /**
   * `adc`: the truncated sum, C from `v > 0xFF`, H from the sum of the low
   * nibbles, V from bit 7 of the operands and the sum; N and Z are left to
   * the caller.
   */
  function Adc(a: u8, b: u8, p: Psw): (o: SpcOut)
    ensures Carry(o.psw.c) * 0x100 + o.r == a + b + Carry(p.c)
    ensures o.psw == p.(c := o.psw.c, v := o.psw.v, h := o.psw.h)
  {
    var sum := a + b + Carry(p.c);
    var half := a % 0x10 + b % 0x10 + Carry(p.c);
    var r := sum % 0x100;
    SpcOut(r, p.(c := sum > 0xFF, v := Negative8(a) == Negative8(b) && Negative8(r) != Negative8(a), h := half > 0xF))
  }

  /**
   * `sbc`: `a - b - !C` with `u32` wrap-around, C from `!(v > 0xFF)`, H from
   * the low nibbles with `u8` wrap-around, V from bit 7 of the operands and
   * the difference.
   */
  function Sbc(a: u8, b: u8, p: Psw): SpcOut
  {
    var diff := (a - b - Carry(!p.c)) % 0x1_0000_0000;
    var half := (a % 0x10 - b % 0x10 - Carry(!p.c)) % 0x100;
    var r := diff % 0x100;
    SpcOut(r, p.(c := !(diff > 0xFF), v := Negative8(a) != Negative8(b) && Negative8(r) != Negative8(a), h := !(half > 0xF)))
  }

  /**
   * ADC adds exactly: the carry out and the result make up the sum with the
   * carry in; H is the carry out of the low nibble; V is set exactly when the
   * signed sum leaves the range of an `i8`; no other flag changes.
   */
  lemma AdcSpec(a: u8, b: u8, p: Psw)
    ensures var o := Adc(a, b, p);
      && Carry(o.psw.c) * 0x100 + o.r == a + b + Carry(p.c)
      && (o.psw.h <==> a % 0x10 + b % 0x10 + Carry(p.c) >= 0x10)
      && (o.psw.v <==> !(-0x80 <= Signed8(a) + Signed8(b) + Carry(p.c) < 0x80))
      && o.psw == p.(c := o.psw.c, v := o.psw.v, h := o.psw.h)
  {
  }

  /** SBC is ADC of the one's complement of the subtrahend: result and every flag agree. */
  lemma SbcIsAdcOfComplement(a: u8, b: u8, p: Psw)
    ensures Sbc(a, b, p) == Adc(a, 0xFF - b, p)
  {
    SbcAdcByte(a, b, p);
    SbcAdcHalfCarry(a, b, p);
  }

  /** SBC and ADC of the complement leave the same byte and the same C, and so the same V. */
  lemma SbcAdcByte(a: u8, b: u8, p: Psw)
    ensures Sbc(a, b, p).r == Adc(a, 0xFF - b, p).r
    ensures Sbc(a, b, p).psw.c == Adc(a, 0xFF - b, p).psw.c
    ensures Sbc(a, b, p).psw.v == Adc(a, 0xFF - b, p).psw.v
  {
    WrappedDifference(a - b - Carry(!p.c));
  }

  /** SBC and ADC of the complement leave the same H. */
  lemma SbcAdcHalfCarry(a: u8, b: u8, p: Psw)
    ensures Sbc(a, b, p).psw.h == Adc(a, 0xFF - b, p).psw.h
  {
    assert (0xFF - b) % 0x10 == 0xF - b % 0x10;
    WrappedNibbleDifference(a % 0x10 - b % 0x10 - Carry(!p.c));
  }

  /** A byte difference wrapped to 32 bits exceeds 0xFF exactly when it is negative, and keeps its low byte. */
  lemma WrappedDifference(d: int)
    requires -0x100 <= d <= 0xFF
    ensures d % 0x1_0000_0000 > 0xFF <==> d < 0
    ensures d % 0x1_0000_0000 % 0x100 == (d + 0x100) % 0x100
  {
    if d >= 0 {
      DivMod(d, 0x1_0000_0000, 0, d);
      DivMod(d + 0x100, 0x100, 1, d);
    } else {
      DivMod(d, 0x1_0000_0000, -1, d + 0x1_0000_0000);
      DivMod(d + 0x1_0000_0000, 0x100, 0xFF_FFFF, d + 0x100);
      DivMod(d + 0x100, 0x100, 0, d + 0x100);
    }
  }

  /** A nibble difference wrapped to 8 bits exceeds 0xF exactly when it is negative. */
  lemma WrappedNibbleDifference(hd: int)
    requires -0x10 <= hd <= 0xF
    ensures hd % 0x100 > 0xF <==> hd < 0
  {
    if hd >= 0 {
      DivMod(hd, 0x100, 0, hd);
    } else {
      DivMod(hd, 0x100, -1, hd + 0x100);
    }
  }

  /**
   * SBC subtracts exactly: C is set exactly when there is no borrow
   * (`a >= b + !C`), H exactly when the low nibble does not borrow, and the
   * result is the difference modulo 256.
   */
  lemma SbcSpec(a: u8, b: u8, p: Psw)
    ensures var o := Sbc(a, b, p);
      && (o.psw.c <==> a >= b + Carry(!p.c))
      && (o.psw.h <==> a % 0x10 >= b % 0x10 + Carry(!p.c))
      && o.r == (a - b - Carry(!p.c)) % 0x100
      && o.psw == p.(c := o.psw.c, v := o.psw.v, h := o.psw.h)
  {
    SbcIsAdcOfComplement(a, b, p);
    AdcSpec(a, 0xFF - b, p);
    var d := a - b - Carry(!p.c);
    if d >= 0 {
      DivMod(d, 0x100, 0, d);
    } else {
      DivMod(d, 0x100, -1, d + 0x100);
    }
  }

  // ---------------------------------------------------------------- the ALU instructions

  /** `AluType`. */
  datatype AluType = AluOr | AluAnd | AluEor | AluCmp | AluAdc | AluSbc

  /**
   * The value `alu` computes from its two operands and the status word after
   * `set_nz`: CMP sets C from `!overflowing_sub(..).1`, ADC and SBC go through
   * `adc` and `sbc`.
   */
  function AluOp(op: AluType, x: u8, y: u8, p: Psw): SpcOut
  {
    match op
    case AluOr => var v := Or8(x, y); SpcOut(v, SetNZ(p, v))
    case AluAnd => var v := And8(x, y); SpcOut(v, SetNZ(p, v))
    case AluEor => var v := Xor8(x, y); SpcOut(v, SetNZ(p, v))
    case AluCmp => var v := (x - y) % 0x100; SpcOut(v, SetNZ(p.(c := x >= y), v))
    case AluAdc => var o := Adc(x, y, p); SpcOut(o.r, SetNZ(o.psw, o.r))
    case AluSbc => var o := Sbc(x, y, p); SpcOut(o.r, SetNZ(o.psw, o.r))
  }

  /**
   * The flags each ALU operation may change: OR, AND and EOR only N and Z;
   * CMP only N, Z and C, with C set exactly when `x >= y` and Z exactly when
   * `x == y`; ADC and SBC also V and H. N and Z always describe the result.
   */
  lemma AluOpFlags(op: AluType, x: u8, y: u8, p: Psw)
    ensures var o := AluOp(op, x, y, p);
      && (o.psw.n <==> o.r >= 0x80) && (o.psw.z <==> o.r == 0)
      && (op in {AluOr, AluAnd, AluEor} ==> o.psw == p.(n := o.psw.n, z := o.psw.z))
      && (op == AluCmp ==> o.psw == p.(n := o.psw.n, z := o.psw.z, c := o.psw.c))
      && (op == AluCmp ==> (o.psw.c <==> x >= y) && (o.psw.z <==> x == y))
      && o.psw == p.(n := o.psw.n, z := o.psw.z, c := o.psw.c, v := o.psw.v, h := o.psw.h)
  {
    if op == AluCmp {
      if x >= y {
        DivMod(x - y, 0x100, 0, x - y);
      } else {
        DivMod(x - y, 0x100, -1, x - y + 0x100);
      }
    }
  }

  // ---------------------------------------------------------------- decimal adjust

  /** A packed BCD byte: two decimal digits. */
  predicate IsBcd(x: u8) { x % 0x10 <= 9 && x / 0x10 <= 9 }

  /** The number a packed BCD byte stands for. */
  function BcdValue(x: u8): nat { x / 0x10 * 10 + x % 0x10 }

  /** The packed BCD byte for a number below 100. */
  function ToBcd(n: nat): (x: u8)
    requires n < 100
    ensures IsBcd(x) && BcdValue(x) == n
  {
    n / 10 * 0x10 + n % 10
  }

  /**
   * `daa`: add 6 when H is set or the low digit is above 9 (setting C if
   * that wraps), then add 0x60 and set C when C is set or the original value
   * is above 0x99; N and Z from the result.
   */
  function Daa(a: u8, p: Psw): SpcOut
  {
    var low := p.h || a % 0x10 > 9;
    var a1 := if low then (a + 6) % 0x100 else a;
    var c1 := p.c || (low && a1 < 6);
    var high := c1 || a > 0x99;
    var a2 := if high then (a1 + 0x60) % 0x100 else a1;
    SpcOut(a2, SetNZ(p.(c := c1 || a > 0x99), a2))
  }

  /**
   * `das`: subtract 6 when H is clear or the low digit is above 9, then
   * subtract 0x60 and clear C when C is clear or the original value is
   * above 0x99; N and Z from the result.
   */
  function Das(a: u8, p: Psw): SpcOut
  {
    var low := !p.h || a % 0x10 > 9;
    var a1 := if low then (a - 6) % 0x100 else a;
    var high := !p.c || a > 0x99;
    var a2 := if high then (a1 - 0x60) % 0x100 else a1;
    SpcOut(a2, SetNZ(p.(c := if high then false else p.c), a2))
  }

  /** The digits of a BCD byte. */
  lemma BcdDigits(x: u8)
    requires IsBcd(x)
    ensures x == 0x10 * (x / 0x10) + x % 0x10 && BcdValue(x) == 10 * (x / 0x10) + x % 0x10
  {
  }

  /** A number below 100 in BCD, from its two digits. */
  lemma ToBcdDigits(n: nat, hi: nat, lo: nat)
    requires n == 10 * hi + lo && hi <= 9 && lo <= 9
    ensures ToBcd(n) == 0x10 * hi + lo
  {
    DivMod(n, 10, hi, lo);
  }

  /**
   * The arithmetic behind DAA after ADC: `sum` is the binary sum of two BCD
   * bytes with high digits adding to `hs` and low digits (with the carry)
   * adding to `l`. The 0x60 adjustment happens exactly on a decimal carry,
   * and the adjusted byte holds the two decimal digits of the sum.
   */
  lemma DaaArith(sum: int, hs: int, l: int)
    requires 0 <= hs <= 18 && 0 <= l <= 19 && sum == 0x10 * hs + l
    ensures var r := sum % 0x100;
      var lowAdj := l >= 0x10 || r % 0x10 > 9;
      var a1 := if lowAdj then (r + 6) % 0x100 else r;
      var high := sum > 0xFF || (lowAdj && a1 < 6) || r > 0x99;
      var a2 := if high then (a1 + 0x60) % 0x100 else a1;
      var hsum := hs + (if l >= 10 then 1 else 0);
      var low := if l >= 10 then l - 10 else l;
      (high <==> hsum >= 10) && a2 == 0x10 * (if hsum >= 10 then hsum - 10 else hsum) + low
  {
    var q := if sum < 0x100 then 0 else 1;
    var r := sum - q * 0x100;
    DivMod(sum, 0x100, q, r);
    if l < 0x10 {
      DivMod(r, 0x10, hs - q * 0x10, l);
    }
    var hsum := hs + (if l >= 10 then 1 else 0);
    var low := if l >= 10 then l - 10 else l;
    var t := 0x10 * hsum + low;
    assert t == sum + (if l >= 10 then 6 else 0);
    var q1 := if t < 0x100 then 0 else 1;
    var a1 := t - q1 * 0x100;
    if l >= 10 {
      DivMod(r + 6, 0x100, q1 - q, a1);
    } else {
      assert q1 == q && a1 == r;
    }
    if hsum >= 10 {
      DivMod(a1 + 0x60, 0x100, 1 - q1, 0x10 * (hsum - 10) + low);
    } else {
      assert q == 0 && q1 == 0 && a1 == t && r == sum;
    }
  }


  /** DAA on the binary sum of two BCD bytes gives the decimal sum modulo 100, in BCD, with C the decimal carry. */
  lemma DaaDecimal(r: u8, p: Psw, sum: int, hs: int, l: int, hsum: int, low: int, s: int)
    requires 0 <= hs <= 18 && 0 <= l <= 19 && sum == 0x10 * hs + l
    requires r == sum % 0x100 && (p.c <==> sum > 0xFF) && (p.h <==> l >= 0x10)
    requires hsum == hs + (if l >= 10 then 1 else 0) && low == (if l >= 10 then l - 10 else l) && s == 10 * hsum + low
    ensures Daa(r, p).r == ToBcd(s % 100) && (Daa(r, p).psw.c <==> s >= 100)
  {
    DaaArith(sum, hs, l);
    assert Daa(r, p).r == 0x10 * (if hsum >= 10 then hsum - 10 else hsum) + low;
    assert Daa(r, p).psw.c <==> hsum >= 10;
    DecimalDigits(s, hsum, low);
  }



  /**
   * DAA after ADC of two BCD bytes gives the BCD sum: the result is the low
   * two decimal digits of `x + y + C` and C is the decimal carry.
   */
  lemma {:induction false} DaaAfterAdc(x: u8, y: u8, p: Psw)
    requires IsBcd(x) && IsBcd(y)
    ensures var s := BcdValue(x) + BcdValue(y) + Carry(p.c);
      var o := Adc(x, y, p); var d := Daa(o.r, o.psw);
      d.r == ToBcd(s % 100) && (d.psw.c <==> s >= 100)
  {
    AdcSpec(x, y, p);
    BcdSum(x, y, Carry(p.c));
    var hs := x / 0x10 + y / 0x10;
    var l := x % 0x10 + y % 0x10 + Carry(p.c);
    var hsum := hs + (if l >= 10 then 1 else 0);
    var low := if l >= 10 then l - 10 else l;
    var o := Adc(x, y, p);
    DaaDecimal(o.r, o.psw, x + y + Carry(p.c), hs, l, hsum, low, BcdValue(x) + BcdValue(y) + Carry(p.c));
  }


  /** The digits of the sum of two BCD bytes: a high-digit sum and a low-digit sum with the carry. */
  lemma BcdSum(x: u8, y: u8, c: int)
    requires IsBcd(x) && IsBcd(y) && 0 <= c <= 1
    ensures var hs := x / 0x10 + y / 0x10; var l := x % 0x10 + y % 0x10 + c;
      && 0 <= hs <= 18 && 0 <= l <= 19 && x + y + c == 0x10 * hs + l
      && BcdValue(x) + BcdValue(y) + c == 10 * hs + l
  {
    BcdDigits(x);
    BcdDigits(y);
  }


  /**
   * A number between -100 and 199 given by a tens digit (between -10 and 19)
   * and a units digit: its remainder modulo 100 in BCD.
   */
  lemma DecimalDigits(s: int, tens: int, units: int)
    requires -10 <= tens <= 19 && 0 <= units <= 9 && s == 10 * tens + units
    ensures ToBcd(s % 100) == 0x10 * (if tens < 0 then tens + 10 else if tens >= 10 then tens - 10 else tens) + units
  {
    if tens < 0 {
      DivMod(s, 100, -1, 10 * (tens + 10) + units);
      ToBcdDigits(s % 100, tens + 10, units);
    } else if tens >= 10 {
      DivMod(s, 100, 1, 10 * (tens - 10) + units);
      ToBcdDigits(s % 100, tens - 10, units);
    } else {
      DivMod(s, 100, 0, s);
      ToBcdDigits(s % 100, tens, units);
    }
  }

  /** Adding in two steps modulo 256 is adding once. */
  lemma AddMod256(r: u8, sum: int, u: int, v: int)
    requires r == sum % 0x100
    ensures ((r + u) % 0x100 + v) % 0x100 == (sum + u + v) % 0x100
  {
  }

  /**
   * The arithmetic behind DAS after SBC: `diff` is the exact difference of
   * two BCD bytes with high digits differing by `hd0` and low digits (with the
   * borrow) by `l`. The 0x60 adjustment happens exactly on a decimal borrow,
   * and the adjusted byte holds the two decimal digits of the difference
   * modulo 100.
   */
  lemma DasArith(diff: int, hd0: int, l: int)
    requires -9 <= hd0 <= 9 && -10 <= l <= 9 && diff == 0x10 * hd0 + l
    ensures var r := diff % 0x100;
      var lowAdj := l < 0 || r % 0x10 > 9;
      var a1 := if lowAdj then (r - 6) % 0x100 else r;
      var high := diff < 0 || r > 0x99;
      var a2 := if high then (a1 - 0x60) % 0x100 else a1;
      var hd := hd0 - (if l < 0 then 1 else 0);
      var low := if l < 0 then l + 10 else l;
      (high <==> hd < 0) && a2 == 0x10 * (if hd < 0 then hd + 10 else hd) + low
  {
    var q := if diff >= 0 then 0 else -1;
    var r := diff - q * 0x100;
    DivMod(diff, 0x100, q, r);
    if l >= 0 {
      DivMod(r, 0x10, hd0 - q * 0x10, l);
    }
    var hd := hd0 - (if l < 0 then 1 else 0);
    var low := if l < 0 then l + 10 else l;
    var t := 0x10 * hd + low;
    assert t == diff - (if l < 0 then 6 else 0);
    var q1 := if t >= 0 then 0 else -1;
    var a1 := t - q1 * 0x100;
    if l < 0 {
      DivMod(r - 6, 0x100, q1 - q, a1);
    } else {
      assert q1 == q && a1 == r;
    }
    if hd < 0 {
      DivMod(a1 - 0x60, 0x100, -1 - q1, 0x10 * (hd + 10) + low);
    } else {
      assert q1 == 0 && q == 0 && a1 == t;
    }
  }

  /** DAS on the exact difference of two BCD bytes gives the decimal difference modulo 100, in BCD, with C set when nothing was borrowed. */
  lemma DasDecimal(r: u8, p: Psw, diff: int, hd0: int, l: int, hd: int, low: int, s: int)
    requires -9 <= hd0 <= 9 && -10 <= l <= 9 && diff == 0x10 * hd0 + l
    requires r == diff % 0x100 && (p.c <==> diff >= 0) && (p.h <==> l >= 0)
    requires hd == hd0 - (if l < 0 then 1 else 0) && low == (if l < 0 then l + 10 else l) && s == 10 * hd + low
    ensures Das(r, p).r == ToBcd(s % 100) && (Das(r, p).psw.c <==> s >= 0)
  {
    DasArith(diff, hd0, l);
    assert Das(r, p).r == 0x10 * (if hd < 0 then hd + 10 else hd) + low;
    assert Das(r, p).psw.c <==> hd >= 0;
    DecimalDigits(s, hd, low);
  }



  /**
   * DAS after SBC of two BCD bytes gives the BCD difference: the result is
   * `x - y - !C` modulo 100 in BCD, and C is set exactly when there is no
   * decimal borrow.
   */
  lemma {:induction false} DasAfterSbc(x: u8, y: u8, p: Psw)
    requires IsBcd(x) && IsBcd(y)
    ensures var s := BcdValue(x) - BcdValue(y) - Carry(!p.c);
      var o := Sbc(x, y, p); var d := Das(o.r, o.psw);
      d.r == ToBcd(s % 100) && (d.psw.c <==> s >= 0)
  {
    SbcSpec(x, y, p);
    BcdDifference(x, y, Carry(!p.c));
    var hd0 := x / 0x10 - y / 0x10;
    var l := x % 0x10 - y % 0x10 - Carry(!p.c);
    var hd := hd0 - (if l < 0 then 1 else 0);
    var low := if l < 0 then l + 10 else l;
    var o := Sbc(x, y, p);
    var diff := x - y - Carry(!p.c);
    assert o.r == diff % 0x100 && (o.psw.c <==> diff >= 0) && (o.psw.h <==> l >= 0);
    DasDecimal(o.r, o.psw, diff, hd0, l, hd, low, BcdValue(x) - BcdValue(y) - Carry(!p.c));
  }


  /** The digits of the difference of two BCD bytes: a high-digit difference and a low-digit difference with the borrow. */
  lemma BcdDifference(x: u8, y: u8, c: int)
    requires IsBcd(x) && IsBcd(y) && 0 <= c <= 1
    ensures var hd0 := x / 0x10 - y / 0x10; var l := x % 0x10 - y % 0x10 - c;
      && -9 <= hd0 <= 9 && -10 <= l <= 9 && x - y - c == 0x10 * hd0 + l
      && BcdValue(x) - BcdValue(y) - c == 10 * hd0 + l
  {
    BcdDigits(x);
    BcdDigits(y);
  }


  /** Subtracting in two steps modulo 256 is subtracting once. */
  lemma SubMod256(r: u8, diff: int, u: int, v: int)
    requires r == diff % 0x100
    ensures ((r - u) % 0x100 - v) % 0x100 == (diff - u - v) % 0x100
  {
  }

  // ---------------------------------------------------------------- multiply and divide

  /**
   * `div`: YA divided by X. With X = 0, A = Y = 0xFF and N, V set and Z
   * clear; otherwise A is the quotient truncated to a byte, Y the remainder,
   * V set when the quotient does not fit, N and Z from A.
   */
  function Div(r: SpcRegs): SpcRegs
  {
    var ya := GetYa(r);
    if r.x > 0 then
      var q := ya / r.x;
      var rem := ya % r.x;
      r.(a := q % 0x100, y := rem, psw := SetNZ(r.psw.(v := q > 0xFF), q % 0x100))
    else
      r.(a := 0xFF, y := 0xFF, psw := r.psw.(z := false, v := true, n := true))
  }

  /**
   * DIV divides exactly when V stays clear: then YA = A * X + Y with Y < X.
   * V is set exactly when YA >= 256 * X (the quotient needs more than eight
   * bits), which includes X = 0; only A, Y, N, V and Z change.
   */
  lemma DivSpec(r: SpcRegs)
    ensures var o := Div(r);
      && (o.psw.v <==> GetYa(r) >= 0x100 * r.x)
      && (!o.psw.v ==> GetYa(r) == o.a * r.x + o.y && o.y < r.x)
      && (r.x == 0 ==> o.a == 0xFF && o.y == 0xFF && o.psw.n && !o.psw.z)
      && o == r.(a := o.a, y := o.y, psw := r.psw.(n := o.psw.n, v := o.psw.v, z := o.psw.z))
  {
    if r.x > 0 {
      DivQuotient(GetYa(r), r.x);
    }
  }

  /** Euclidean division by a positive divisor, stated for the eight-bit quotient DIV keeps. */
  lemma DivQuotient(ya: nat, x: nat)
    requires x > 0
    ensures ya / x > 0xFF <==> ya >= 0x100 * x
    ensures ya / x <= 0xFF ==> ya == (ya / x % 0x100) * x + ya % x
    ensures ya % x < x
  {
    QuotientFits(ya, x, ya / x, ya % x);
  }

  /** A quotient needs more than eight bits exactly when the dividend is at least 256 times the divisor. */
  lemma QuotientFits(ya: nat, x: nat, q: nat, rem: nat)
    requires x > 0 && ya == q * x + rem && rem < x
    ensures q > 0xFF <==> ya >= 0x100 * x
    ensures q <= 0xFF ==> q % 0x100 == q
  {
    if q > 0xFF {
      MulMono(0x100, q, x);
    } else {
      MulMono(q + 1, 0x100, x);
      assert (q + 1) * x == q * x + x;
    }
  }

  /** `mul`: YA = A * Y; N and Z from the new Y, the high byte. */
  function Mul(r: SpcRegs): SpcRegs
  {
    ProductFits(r.a, r.y);
    var product := r.a * r.y;
    SetYa(r, product).(psw := SetNZ(r.psw, Hi(product)))
  }

  /** The product of two bytes fits in a word. */
  lemma ProductFits(a: u8, b: u8)
    ensures 0 <= a * b < 0x1_0000
  {
    MulMono(a, 0xFF, b);
    MulMono(b, 0xFF, 0xFF);
  }

  /** MUL leaves the exact product in YA; Z is set exactly when the product is below 256, N when it is at least 0x8000. */
  lemma MulSpec(r: SpcRegs)
    ensures var o := Mul(r);
      && GetYa(o) == r.a * r.y
      && (o.psw.z <==> r.a * r.y < 0x100)
      && (o.psw.n <==> r.a * r.y >= 0x8000)
      && o == r.(a := o.a, y := o.y, psw := r.psw.(n := o.psw.n, z := o.psw.z))
  {
    ProductFits(r.a, r.y);
    YaRoundTrip(r, r.a * r.y);
  }

  /** `xcn`: `a.rotate_right(4)`, which exchanges the two nibbles. */
  function Xcn(a: u8): u8 { a % 0x10 * 0x10 + a / 0x10 }

  /** XCN exchanges the nibbles, so applying it twice gives the byte back. */
  lemma XcnSwapsNibbles(a: u8)
    ensures Xcn(a) % 0x10 == a / 0x10 && Xcn(a) / 0x10 == a % 0x10
    ensures Xcn(Xcn(a)) == a
  {
    DivMod(Xcn(a), 0x10, a % 0x10, a / 0x10);
  }

  // ---------------------------------------------------------------- single bits

  /** `1 << bit` for a bit number below 8. */
  function BitMask(bit: nat): u8
    requires bit < 8
  {
    Pow2Less(bit, 8);
    Pow2Widths();
    Pow2(bit)
  }

  /** `set1`: `v | (1 << bit)`. */
  function SetBit(v: u8, bit: nat): u8
    requires bit < 8
  {
    Or8(v, BitMask(bit))
  }

  /** `clr1`: `v & !(1 << bit)`. */
  function ClearBit(v: u8, bit: nat): u8
    requires bit < 8
  {
    AndNot8(v, BitMask(bit))
  }

  /** `not1`: `v ^ (1 << bit)`. */
  function FlipBit(v: u8, bit: nat): u8
    requires bit < 8
  {
    Xor8(v, BitMask(bit))
  }

  /** `mov1 aaa.b, c`: `v & !(1 << bit) | (c as u8) << bit`. */
  function StoreBit(v: u8, bit: nat, c: bool): u8
    requires bit < 8
  {
    Or8(AndNot8(v, BitMask(bit)), if c then BitMask(bit) else 0)
  }

  /**
   * SET1 sets, CLR1 clears, NOT1 flips and MOV1 stores C into bit `bit` of
   * the byte; each keeps every other bit.
   */
  lemma SingleBitOps(v: u8, bit: nat, c: bool, j: nat)
    requires bit < 8 && j < 8
    ensures BitAt(SetBit(v, bit), j) <==> (j == bit || BitAt(v, j))
    ensures BitAt(ClearBit(v, bit), j) <==> (j != bit && BitAt(v, j))
    ensures BitAt(FlipBit(v, bit), j) <==> (if j == bit then !BitAt(v, j) else BitAt(v, j))
    ensures BitAt(StoreBit(v, bit, c), j) <==> (if j == bit then c else BitAt(v, j))
  {
    Pow2Bit(bit, j);
    BitwiseBit(OrOp, v, BitMask(bit), 8, j);
    BitwiseBit(AndNotOp, v, BitMask(bit), 8, j);
    BitwiseBit(XorOp, v, BitMask(bit), 8, j);
    BitwiseBit(OrOp, AndNot8(v, BitMask(bit)), if c then BitMask(bit) else 0, 8, j);
    ZeroHasNoBit(j);
  }

  /** The operand of the `aaa.b` instructions: a 13-bit address and a bit number. */
  function MemBitAddress(baaa: u16): u16 { baaa % 0x2000 }
  function MemBitNumber(baaa: u16): nat { baaa / 0x2000 }

  /** The operand word splits into its bit number (top three bits) and address (low thirteen), without loss. */
  lemma MemBitSplit(baaa: u16)
    ensures MemBitNumber(baaa) < 8 && MemBitAddress(baaa) < 0x2000
    ensures baaa == MemBitNumber(baaa) * 0x2000 + MemBitAddress(baaa)
  {
  }

  /** The operations that combine C with one bit of memory. */
  datatype CarryBitOp = Mov1ToC | Or1 | OrNot1 | And1 | AndNot1 | Eor1

  /** The new C of `mov1 c, aaa.b`, `or1`, `or1 /`, `and1`, `and1 /` and `eor1`. */
  function CarryBit(op: CarryBitOp, c: bool, v: u8, bit: nat): bool
    requires bit < 8
  {
    var b := And8(v, BitMask(bit)) != 0;
    match op
    case Mov1ToC => b
    case Or1 => c || b
    case OrNot1 => c || !b
    case And1 => c && b
    case AndNot1 => c && !b
    case Eor1 => c != b
  }

  /** The memory bit these operations combine with C is bit `bit` of the byte. */
  lemma CarryBitReadsBit(v: u8, bit: nat)
    requires bit < 8
    ensures (And8(v, BitMask(bit)) != 0) <==> BitAt(v, bit)
  {
    BitwiseZero(AndOp, v, BitMask(bit), 8);
    forall j: nat | j < 8
      ensures Apply(AndOp, BitAt(v, j), BitAt(BitMask(bit), j)) <==> j == bit && BitAt(v, bit)
    {
      Pow2Bit(bit, j);
    }
  }

  /**
   * `tset` and `tclr`: N and Z as for comparing A with the operand, which
   * becomes `v | A` or `v & !A`.
   */
  function TestAndSet(a: u8, v: u8, p: Psw, setting: bool): SpcOut
  {
    var cmp := (a - v) % 0x100;
    SpcOut(if setting then Or8(v, a) else AndNot8(v, a), SetNZ(p, cmp))
  }

  /**
   * TSET sets every bit of the operand that is set in A and TCLR clears every
   * such bit, keeping the others.
   */
  lemma TestAndSetBits(a: u8, v: u8, p: Psw, j: nat)
    requires j < 8
    ensures BitAt(TestAndSet(a, v, p, true).r, j) <==> BitAt(v, j) || BitAt(a, j)
    ensures BitAt(TestAndSet(a, v, p, false).r, j) <==> BitAt(v, j) && !BitAt(a, j)
  {
    BitwiseBit(OrOp, v, a, 8, j);
    BitwiseBit(AndNotOp, v, a, 8, j);
  }

  /**
   * TSET and TCLR set N and Z as CMP A with the operand would, Z exactly when
   * A equals the old operand, and change no other flag (C included).
   */
  lemma TestAndSetFlags(a: u8, v: u8, p: Psw, setting: bool)
    ensures TestAndSet(a, v, p, setting).psw == AluOp(AluCmp, a, v, p).psw.(c := p.c)
    ensures TestAndSet(a, v, p, setting).psw.z <==> a == v
  {
    AluOpFlags(AluCmp, a, v, p);
  }
}
