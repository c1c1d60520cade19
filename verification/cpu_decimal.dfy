/**
 * Decimal-mode addition and subtraction of the main CPU (`dcd_add_8`,
 * `dcd_add_16`, `dcd_sub_8`, `dcd_sub_16` in src/cpu.rs), digit stage by
 * digit stage as the source computes them, and their correctness on
 * binary-coded-decimal operands.
 *
 * `x & (0xF * k)` for a digit position k (1, 0x10, 0x100, 0x1000) is written
 * `Mask(x, k)`; it agrees with the two's-complement mask also for the
 * negative `i32` intermediates of subtraction, because `%` here never
 * returns a negative remainder.
 */
module CpuDecimal {
  import opened Wrappers
  import opened Arith
  import opened CpuTypes
  import opened CpuAlu

  // ---------------------------------------------------------------- digits

  /** A digit position: 16^0 .. 16^3. */
  predicate Place(k: int) { k == 1 || k == 0x10 || k == 0x100 || k == 0x1000 }

  /** `x & (0xF * k)`. */
  function Mask(x: int, k: int): int
    requires Place(k)
  {
    x % (0x10 * k) - x % k
  }

  /** The hexadecimal digit of x at position k. */
  function Digit(x: int, k: int): int
    requires Place(k)
  {
    x / k % 0x10
  }

  predicate IsBcd8(x: u8) { Digit(x, 1) <= 9 && Digit(x, 0x10) <= 9 }

  predicate IsBcd16(x: u16) { Digit(x, 1) <= 9 && Digit(x, 0x10) <= 9 && Digit(x, 0x100) <= 9 && Digit(x, 0x1000) <= 9 }

  /** The number the decimal digits of x stand for. */
  function BcdValue8(x: u8): nat { Digit(x, 0x10) * 10 + Digit(x, 1) }

  function BcdValue16(x: u16): nat
  {
    Digit(x, 0x1000) * 1000 + Digit(x, 0x100) * 100 + Digit(x, 0x10) * 10 + Digit(x, 1)
  }

  /** The digits of a number written as a sum of digits are those digits, and masking keeps one of them. */
  lemma Digits(x: int, d0: int, d1: int, d2: int, d3: int)
    requires 0 <= d0 < 0x10 && 0 <= d1 < 0x10 && 0 <= d2 < 0x10 && 0 <= d3 < 0x10
    requires x == d3 * 0x1000 + d2 * 0x100 + d1 * 0x10 + d0
    ensures Digit(x, 1) == d0 && Digit(x, 0x10) == d1 && Digit(x, 0x100) == d2 && Digit(x, 0x1000) == d3
    ensures Mask(x, 1) == d0 && Mask(x, 0x10) == d1 * 0x10 && Mask(x, 0x100) == d2 * 0x100 && Mask(x, 0x1000) == d3 * 0x1000
  {
    DivMod(x, 1, x, 0);
    DivMod(x, 0x10, d3 * 0x100 + d2 * 0x10 + d1, d0);
    DivMod(x, 0x100, d3 * 0x10 + d2, d1 * 0x10 + d0);
    DivMod(x, 0x1000, d3, d2 * 0x100 + d1 * 0x10 + d0);
    DivMod(x / 0x10, 0x10, d3 * 0x10 + d2, d1);
    DivMod(x / 0x100, 0x10, d3, d2);
    DivMod(x / 0x1000, 0x10, 0, d3);
  }

  /** Every 16-bit value is the sum of its four digits. */
  lemma DigitsOf(x: u16)
    ensures x == Digit(x, 0x1000) * 0x1000 + Digit(x, 0x100) * 0x100 + Digit(x, 0x10) * 0x10 + Digit(x, 1)
  {
    DivMod(x, 0x10, x / 0x10, x % 0x10);
    DivMod(x / 0x10, 0x10, x / 0x100, x / 0x10 % 0x10);
    DivMod(x / 0x100, 0x10, x / 0x1000, x / 0x100 % 0x10);
    DivMod(x, 0x100, x / 0x100, x % 0x100);
    DivMod(x, 0x1000, x / 0x1000, x % 0x1000);
    DivMod(x / 0x1000, 0x10, 0, x / 0x1000);
  }

  /** Masking a word keeps one of its digits in place. */
  lemma MasksOf(x: u16)
    ensures Mask(x, 1) == Digit(x, 1) && Mask(x, 0x10) == Digit(x, 0x10) * 0x10
    ensures Mask(x, 0x100) == Digit(x, 0x100) * 0x100 && Mask(x, 0x1000) == Digit(x, 0x1000) * 0x1000
  {
    DigitsOf(x);
    Digits(x, Digit(x, 1), Digit(x, 0x10), Digit(x, 0x100), Digit(x, 0x1000));
  }

  // ---------------------------------------------------------------- addition

  /**
   * One correction stage of `dcd_add_*` at digit position k: a digit sum of
   * ten or more has 6*k added, is cut to the digits up to k, and carries 0x10*k.
   */
  function AddAdjust(x: int, k: int): int
    requires Place(k)
  {
    if x >= 0x0A * k then (x + 0x06 * k) % (0x10 * k) + 0x10 * k else x
  }

  /** The decimal carry out of a digit sum. */
  function DecimalCarry(t: int): int { if t >= 10 then 1 else 0 }

  /** The last stage: `if c >= 0xA0 { c += 0x60 }` (k = 0x10) or `0xA000`/`0x6000` (k = 0x1000). */
  function AddAdjustTop(x: int, k: int): int
    requires Place(k)
  {
    if x >= 0x0A * k then x + 0x06 * k else x
  }

  lemma ScaledCompare(t: int, low: int, k: int, limit: int)
    requires Place(k) && 0 <= low < k && (limit == 0x0A || limit == 0)
    ensures t >= limit <==> t * k + low >= limit * k
  {
  }

  lemma ScaledWrap(t: int, low: int, k: int)
    requires Place(k) && 10 <= t <= 19 && 0 <= low < k
    ensures (t * k + low + 0x06 * k) % (0x10 * k) == (t - 10) * k + low
  {
    MulMono(t - 10, 9, k);
    DivMod(t * k + low + 0x06 * k, 0x10 * k, 1, (t - 10) * k + low);
  }

  /**
   * A stage whose value is t digits at position k above the lower result
   * digits: a t of ten or more leaves t - 10 there and carries 0x10*k.
   */
  lemma AddStage(x: int, t: int, low: int, k: int)
    requires Place(k) && 0 <= t <= 19 && 0 <= low < k && x == t * k + low
    ensures AddAdjust(x, k) == DecimalCarry(t) * (0x10 * k) + (t - 10 * DecimalCarry(t)) * k + low
    ensures AddAdjustTop(x, k) == AddAdjust(x, k)
  {
    ScaledCompare(t, low, k, 0x0A);
    if t >= 10 {
      ScaledWrap(t, low, k);
    }
  }

  /** `dcd_add_8`. V is computed from the signed operands and the carry just produced, as the source does. */
  function DcdAdd8(a: u8, b: u8, p: Status): (o: Out8)
    ensures o.p == p.(c := o.p.c, v := o.p.v)
  {
    var c := DcdAdd8Raw(a, b, Carry(p.c));
    var carry := c > 0xFF;
    var d := Signed8(a) + Signed8(b) + Carry(carry);
    Out8(c % 0x100, p.(c := carry, v := d < -128 || d > 127))
  }

  /** The value `dcd_add_8` computes before truncation to `u8`. */
  function DcdAdd8Raw(a: u8, b: u8, cin: int): int
  {
    AddAdjustTop(Mask(a, 0x10) + Mask(b, 0x10) + AddAdjust(Mask(a, 1) + Mask(b, 1) + cin, 1), 0x10)
  }

  /** Digit by digit: the low result digit and its carry, then the high digit and the carry out. */
  lemma DcdAdd8RawDigits(a: u8, b: u8, cin: int)
    requires IsBcd8(a) && IsBcd8(b) && 0 <= cin <= 1
    ensures var t0 := Digit(a, 1) + Digit(b, 1) + cin;
      var t1 := Digit(a, 0x10) + Digit(b, 0x10) + DecimalCarry(t0);
      DcdAdd8Raw(a, b, cin) == DecimalCarry(t1) * 0x100 + (t1 - 10 * DecimalCarry(t1)) * 0x10 + (t0 - 10 * DecimalCarry(t0))
  {
    var a0, a1, b0, b1 := Digit(a, 1), Digit(a, 0x10), Digit(b, 1), Digit(b, 0x10);
    DigitsOf(a);
    DigitsOf(b);
    Digits(a, a0, a1, 0, 0);
    Digits(b, b0, b1, 0, 0);
    var t0 := a0 + b0 + cin;
    AddStage(Mask(a, 1) + Mask(b, 1) + cin, t0, 0, 1);
    var r0 := t0 - 10 * DecimalCarry(t0);
    var x1 := Mask(a, 0x10) + Mask(b, 0x10) + AddAdjust(Mask(a, 1) + Mask(b, 1) + cin, 1);
    AddStage(x1, a1 + b1 + DecimalCarry(t0), r0, 0x10);
  }

  /** The truncated raw value is decimal, and the carry out and it make up the decimal sum. */
  lemma DcdAdd8RawValue(a: u8, b: u8, cin: int)
    requires IsBcd8(a) && IsBcd8(b) && 0 <= cin <= 1
    ensures var c := DcdAdd8Raw(a, b, cin);
      && 0 <= c < 0x200
      && Digit(c % 0x100, 1) <= 9 && Digit(c % 0x100, 0x10) <= 9
      && (if c > 0xFF then 100 else 0) + BcdValue8(c % 0x100) == BcdValue8(a) + BcdValue8(b) + cin
  {
    DcdAdd8RawDigits(a, b, cin);
    var t0 := Digit(a, 1) + Digit(b, 1) + cin;
    var t1 := Digit(a, 0x10) + Digit(b, 0x10) + DecimalCarry(t0);
    Truncate8(DcdAdd8Raw(a, b, cin), DecimalCarry(t1), t1 - 10 * DecimalCarry(t1), t0 - 10 * DecimalCarry(t0));
  }

  /** On decimal operands the result is decimal, and carry and result together are the exact decimal sum. */
  lemma DcdAdd8Spec(a: u8, b: u8, p: Status)
    requires IsBcd8(a) && IsBcd8(b)
    ensures IsBcd8(DcdAdd8(a, b, p).r)
    ensures Carry(DcdAdd8(a, b, p).p.c) * 100 + BcdValue8(DcdAdd8(a, b, p).r) == BcdValue8(a) + BcdValue8(b) + Carry(p.c)
  {
    DcdAdd8RawValue(a, b, Carry(p.c));
  }

  /** `dcd_add_16`: four correction stages; V from the signed operands and the new carry. */
  function DcdAdd16(a: u16, b: u16, p: Status): (o: Out16)
    ensures o.p == p.(c := o.p.c, v := o.p.v)
  {
    var c := DcdAdd16Raw(a, b, Carry(p.c));
    var carry := c > 0xFFFF;
    var d := Signed16(a) + Signed16(b) + Carry(carry);
    Out16(c % 0x1_0000, p.(c := carry, v := d < -32768 || d > 32767))
  }

  /** The value `dcd_add_16` computes before truncation to `u16`. */
  function DcdAdd16Raw(a: u16, b: u16, cin: int): int
  {
    AddChain16(Mask(a, 1), Mask(a, 0x10), Mask(a, 0x100), Mask(a, 0x1000), Mask(b, 1), Mask(b, 0x10), Mask(b, 0x100), Mask(b, 0x1000), cin)
  }

  /** The four correction stages of `dcd_add_16` applied to the masked digits of the operands. */
  function AddChain16(ma0: int, ma1: int, ma2: int, ma3: int, mb0: int, mb1: int, mb2: int, mb3: int, cin: int): int
  {
    AddHigh(ma2, ma3, mb2, mb3, AddLow(ma0, ma1, mb0, mb1, cin))
  }

  /** The stages at digits 0 and 1. */
  function AddLow(ma0: int, ma1: int, mb0: int, mb1: int, cin: int): int
  {
    AddAdjust(ma1 + mb1 + AddAdjust(ma0 + mb0 + cin, 1), 0x10)
  }

  /** The stages at digits 2 and 3, given what the low stages produced. */
  function AddHigh(ma2: int, ma3: int, mb2: int, mb3: int, c1: int): int
  {
    AddAdjustTop(ma3 + mb3 + AddAdjust(ma2 + mb2 + c1, 0x100), 0x1000)
  }

  /** The two low stages of `dcd_add_16`, on masked digits ma0 = a0, ma1 = a1 * 0x10 (and so for b). */
  lemma AddLowStages(ma0: int, ma1: int, mb0: int, mb1: int, a0: int, a1: int, b0: int, b1: int, cin: int)
    requires 0 <= a0 <= 9 && 0 <= a1 <= 9 && 0 <= b0 <= 9 && 0 <= b1 <= 9 && 0 <= cin <= 1
    requires ma0 == a0 && ma1 == a1 * 0x10 && mb0 == b0 && mb1 == b1 * 0x10
    ensures var t0 := a0 + b0 + cin;
      var t1 := a1 + b1 + DecimalCarry(t0);
      AddLow(ma0, ma1, mb0, mb1, cin)
        == DecimalCarry(t1) * 0x100 + (t1 - 10 * DecimalCarry(t1)) * 0x10 + (t0 - 10 * DecimalCarry(t0))
  {
    var t0 := a0 + b0 + cin;
    AddStage(ma0 + mb0 + cin, t0, 0, 1);
    var r0 := t0 - 10 * DecimalCarry(t0);
    AddStage(ma1 + mb1 + AddAdjust(ma0 + mb0 + cin, 1), a1 + b1 + DecimalCarry(t0), r0, 0x10);
  }

  /**
   * The two high stages of `dcd_add_16`, on masked digits ma2 = a2 * 0x100,
   * ma3 = a3 * 0x1000 (and so for b), given the carry into digit 2 and the two low result digits.
   */
  lemma AddHighStages(ma2: int, ma3: int, mb2: int, mb3: int, a2: int, a3: int, b2: int, b3: int, c1: int, carry: int, low: int)
    requires 0 <= a2 <= 9 && 0 <= a3 <= 9 && 0 <= b2 <= 9 && 0 <= b3 <= 9 && 0 <= carry <= 1 && 0 <= low < 0x100
    requires ma2 == a2 * 0x100 && ma3 == a3 * 0x1000 && mb2 == b2 * 0x100 && mb3 == b3 * 0x1000
    requires c1 == carry * 0x100 + low
    ensures var t2 := a2 + b2 + carry;
      var t3 := a3 + b3 + DecimalCarry(t2);
      AddHigh(ma2, ma3, mb2, mb3, c1)
        == DecimalCarry(t3) * 0x1_0000 + (t3 - 10 * DecimalCarry(t3)) * 0x1000 + (t2 - 10 * DecimalCarry(t2)) * 0x100 + low
  {
    var t2 := a2 + b2 + carry;
    AddStage(ma2 + mb2 + c1, t2, low, 0x100);
    var r2 := t2 - 10 * DecimalCarry(t2);
    AddStage(ma3 + mb3 + AddAdjust(ma2 + mb2 + c1, 0x100), a3 + b3 + DecimalCarry(t2), r2 * 0x100 + low, 0x1000);
  }

  /** The four stages of `dcd_add_16` on masked digits ma_i = a_i * 16^i (and so for b). */
  lemma AddStages16(ma0: int, ma1: int, ma2: int, ma3: int, mb0: int, mb1: int, mb2: int, mb3: int,
                    a0: int, a1: int, a2: int, a3: int, b0: int, b1: int, b2: int, b3: int, cin: int)
    requires 0 <= a0 <= 9 && 0 <= a1 <= 9 && 0 <= a2 <= 9 && 0 <= a3 <= 9
    requires 0 <= b0 <= 9 && 0 <= b1 <= 9 && 0 <= b2 <= 9 && 0 <= b3 <= 9 && 0 <= cin <= 1
    requires ma0 == a0 && ma1 == a1 * 0x10 && ma2 == a2 * 0x100 && ma3 == a3 * 0x1000
    requires mb0 == b0 && mb1 == b1 * 0x10 && mb2 == b2 * 0x100 && mb3 == b3 * 0x1000
    ensures var t0 := a0 + b0 + cin;
      var t1 := a1 + b1 + DecimalCarry(t0);
      var t2 := a2 + b2 + DecimalCarry(t1);
      var t3 := a3 + b3 + DecimalCarry(t2);
      AddChain16(ma0, ma1, ma2, ma3, mb0, mb1, mb2, mb3, cin)
        == DecimalCarry(t3) * 0x1_0000 + (t3 - 10 * DecimalCarry(t3)) * 0x1000
        + (t2 - 10 * DecimalCarry(t2)) * 0x100 + (t1 - 10 * DecimalCarry(t1)) * 0x10 + (t0 - 10 * DecimalCarry(t0))
  {
    var t0 := a0 + b0 + cin;
    var t1 := a1 + b1 + DecimalCarry(t0);
    AddLowStages(ma0, ma1, mb0, mb1, a0, a1, b0, b1, cin);
    AddHighStages(ma2, ma3, mb2, mb3, a2, a3, b2, b3, AddLow(ma0, ma1, mb0, mb1, cin),
      DecimalCarry(t1), (t1 - 10 * DecimalCarry(t1)) * 0x10 + (t0 - 10 * DecimalCarry(t0)));
  }

  /** `dcd_add_16` on decimal operands, stage by stage. */
  lemma DcdAdd16RawDigits(a: u16, b: u16, cin: int)
    requires IsBcd16(a) && IsBcd16(b) && 0 <= cin <= 1
    ensures var t0 := Digit(a, 1) + Digit(b, 1) + cin;
      var t1 := Digit(a, 0x10) + Digit(b, 0x10) + DecimalCarry(t0);
      var t2 := Digit(a, 0x100) + Digit(b, 0x100) + DecimalCarry(t1);
      var t3 := Digit(a, 0x1000) + Digit(b, 0x1000) + DecimalCarry(t2);
      DcdAdd16Raw(a, b, cin) == DecimalCarry(t3) * 0x1_0000 + (t3 - 10 * DecimalCarry(t3)) * 0x1000
        + (t2 - 10 * DecimalCarry(t2)) * 0x100 + (t1 - 10 * DecimalCarry(t1)) * 0x10 + (t0 - 10 * DecimalCarry(t0))
  {
    MasksOf(a);
    MasksOf(b);
    AddStages16(Mask(a, 1), Mask(a, 0x10), Mask(a, 0x100), Mask(a, 0x1000), Mask(b, 1), Mask(b, 0x10), Mask(b, 0x100), Mask(b, 0x1000),
      Digit(a, 1), Digit(a, 0x10), Digit(a, 0x100), Digit(a, 0x1000), Digit(b, 1), Digit(b, 0x10), Digit(b, 0x100), Digit(b, 0x1000), cin);
  }

  /** The truncated raw value is decimal, and the carry out and it make up the decimal sum. */
  lemma DcdAdd16RawValue(a: u16, b: u16, cin: int)
    requires IsBcd16(a) && IsBcd16(b) && 0 <= cin <= 1
    ensures var c := DcdAdd16Raw(a, b, cin);
      && 0 <= c < 0x2_0000
      && IsBcd16(c % 0x1_0000)
      && (if c > 0xFFFF then 10000 else 0) + BcdValue16(c % 0x1_0000) == BcdValue16(a) + BcdValue16(b) + cin
  {
    DcdAdd16RawDigits(a, b, cin);
    var t0 := Digit(a, 1) + Digit(b, 1) + cin;
    var t1 := Digit(a, 0x10) + Digit(b, 0x10) + DecimalCarry(t0);
    var t2 := Digit(a, 0x100) + Digit(b, 0x100) + DecimalCarry(t1);
    var t3 := Digit(a, 0x1000) + Digit(b, 0x1000) + DecimalCarry(t2);
    Truncate16(DcdAdd16Raw(a, b, cin), DecimalCarry(t3), t3 - 10 * DecimalCarry(t3),
      t2 - 10 * DecimalCarry(t2), t1 - 10 * DecimalCarry(t1), t0 - 10 * DecimalCarry(t0));
  }

  /** On decimal operands the result is decimal, and carry and result together are the exact decimal sum. */
  lemma DcdAdd16Spec(a: u16, b: u16, p: Status)
    requires IsBcd16(a) && IsBcd16(b)
    ensures IsBcd16(DcdAdd16(a, b, p).r)
    ensures Carry(DcdAdd16(a, b, p).p.c) * 10000 + BcdValue16(DcdAdd16(a, b, p).r) == BcdValue16(a) + BcdValue16(b) + Carry(p.c)
  {
    DcdAdd16RawValue(a, b, Carry(p.c));
  }

  /** A four-digit decimal value with a carry above it, truncated to a word. */
  lemma Truncate16(c: int, c4: int, r3: int, r2: int, r1: int, r0: int)
    requires 0 <= c4 <= 1 && 0 <= r3 <= 9 && 0 <= r2 <= 9 && 0 <= r1 <= 9 && 0 <= r0 <= 9
    requires c == c4 * 0x1_0000 + r3 * 0x1000 + r2 * 0x100 + r1 * 0x10 + r0
    ensures c % 0x1_0000 == r3 * 0x1000 + r2 * 0x100 + r1 * 0x10 + r0 && (c > 0xFFFF <==> c4 == 1)
    ensures Digit(c % 0x1_0000, 1) == r0 && Digit(c % 0x1_0000, 0x10) == r1
    ensures Digit(c % 0x1_0000, 0x100) == r2 && Digit(c % 0x1_0000, 0x1000) == r3
  {
    DivMod(c, 0x1_0000, c4, r3 * 0x1000 + r2 * 0x100 + r1 * 0x10 + r0);
    Digits(c % 0x1_0000, r0, r1, r2, r3);
  }

  /** A two-digit decimal value with a carry above it, truncated to a byte. */
  lemma Truncate8(c: int, c2: int, r1: int, r0: int)
    requires 0 <= c2 <= 1 && 0 <= r1 <= 9 && 0 <= r0 <= 9
    requires c == c2 * 0x100 + r1 * 0x10 + r0
    ensures c % 0x100 == r1 * 0x10 + r0 && (c > 0xFF <==> c2 == 1)
    ensures Digit(c % 0x100, 1) == r0 && Digit(c % 0x100, 0x10) == r1
  {
    DivMod(c, 0x100, c2, r1 * 0x10 + r0);
    Digits(c % 0x100, r0, r1, 0, 0);
  }

  // ---------------------------------------------------------------- subtraction

  /** The decimal borrow out of a digit difference. */
  function DecimalBorrow(t: int): int { if t < 0 then 1 else 0 }

  /** One correction stage of `dcd_sub_*` at position k: a negative difference has 6*k taken off and is masked to digit k. */
  function SubAdjust(x: int, k: int): int
    requires Place(k)
  {
    if x < 0 then Mask(x - 0x06 * k, k) else x
  }

  /** The borrow a stage at position k passes to the next one: 0x10 * k after a negative difference. */
  function SubBorrow(x: int, k: int): int
    requires Place(k)
  {
    if x < 0 then 0x10 * k else 0
  }

  /** The difference at digit 1, given the masked digits and the incoming borrow. */
  function SubX1(ma0: int, ma1: int, mb0: int, mb1: int, br: int): int
  {
    ma1 - mb1 - SubBorrow(ma0 - mb0 - br, 1)
  }

  /**
   * The two digit stages of `dcd_sub_8`. The source or-s the stage results
   * (`c1 | c0`); they occupy disjoint digits (SubStagesDisjoint8), so the or is their sum.
   */
  function SubStages8(ma0: int, ma1: int, mb0: int, mb1: int, br: int): int
  {
    SubAdjust(SubX1(ma0, ma1, mb0, mb1, br), 0x10) + SubAdjust(ma0 - mb0 - br, 1)
  }

  /** The stages at digits 2 and 3 of `dcd_sub_16`, given the borrow into digit 2; the last stage passes no borrow on. */
  function SubHigh(ma2: int, ma3: int, mb2: int, mb3: int, bin: int): int
  {
    var x2 := ma2 - mb2 - bin;
    SubAdjust(ma3 - mb3 - SubBorrow(x2, 0x100), 0x1000) + SubAdjust(x2, 0x100)
  }

  /** The four digit stages of `dcd_sub_16`, or-ed together (SubStagesDisjoint16). */
  function SubStages16(ma0: int, ma1: int, ma2: int, ma3: int, mb0: int, mb1: int, mb2: int, mb3: int, br: int): int
  {
    SubHigh(ma2, ma3, mb2, mb3, SubBorrow(SubX1(ma0, ma1, mb0, mb1, br), 0x10)) + SubStages8(ma0, ma1, mb0, mb1, br)
  }

  /**
   * `dcd_sub_8`: C and V are computed from the binary difference
   * `a.wrapping_sub(b).wrapping_sub(borrow)` on `u32`, the result digit by digit.
   */
  function DcdSub8(a: u8, b: u8, p: Status): (o: Out8)
    ensures o.p == p.(c := o.p.c, v := o.p.v)
  {
    var borrow := Carry(!p.c);
    var tmp := (a - b - borrow) % 0x1_0000_0000;
    var c := SubStages8(Mask(a, 1), Mask(a, 0x10), Mask(b, 1), Mask(b, 0x10), borrow);
    Out8(c % 0x100, p.(c := tmp <= 0xFF, v := Negative8(a) != Negative8(b) && Negative8(tmp % 0x100) != Negative8(a)))
  }

  /** `dcd_sub_16`: as `dcd_sub_8` with four digit stages. */
  function DcdSub16(a: u16, b: u16, p: Status): (o: Out16)
    ensures o.p == p.(c := o.p.c, v := o.p.v)
  {
    var borrow := Carry(!p.c);
    var tmp := (a - b - borrow) % 0x1_0000_0000;
    var c := SubStages16(Mask(a, 1), Mask(a, 0x10), Mask(a, 0x100), Mask(a, 0x1000),
                         Mask(b, 1), Mask(b, 0x10), Mask(b, 0x100), Mask(b, 0x1000), borrow);
    Out16(c % 0x1_0000, p.(c := tmp <= 0xFFFF, v := Negative16(a) != Negative16(b) && Negative16(tmp % 0x1_0000) != Negative16(a)))
  }

  /** Decimal subtraction sets C and V exactly as binary subtraction does. */
  lemma DcdSub8Flags(a: u8, b: u8, p: Status)
    ensures DcdSub8(a, b, p).p == BinSub8(a, b, p).p
  {
  }

  lemma DcdSub16Flags(a: u16, b: u16, p: Status)
    ensures DcdSub16(a, b, p).p == BinSub16(a, b, p).p
  {
  }

  /** `x & (0xF * k)` is a multiple of k below 0x10 * k, whatever the sign of x. */
  lemma MaskRange(x: int, k: int)
    requires Place(k)
    ensures 0 <= Mask(x, k) < 0x10 * k && Mask(x, k) % k == 0
  {
    var r := x % (0x10 * k);
    DivMod(x, k, x / (0x10 * k) * 0x10 + r / k, r % k);
    DivMod(Mask(x, k), k, r / k, 0);
  }

  /** A stage at position k whose difference is t digits leaves t mod 10 there and borrows exactly when t < 0. */
  lemma SubStage(x: int, t: int, k: int)
    requires Place(k) && -10 <= t <= 9 && x == t * k
    ensures SubAdjust(x, k) == (t + 10 * DecimalBorrow(t)) * k
    ensures SubBorrow(x, k) == DecimalBorrow(t) * (0x10 * k)
  {
    if t < 0 {
      MulMono(t, -1, k);
      MulMono(0, t + 10, k);
      MulMono(t + 10, 9, k);
      DivMod(x - 0x06 * k, 0x10 * k, -1, (t + 10) * k);
      DivMod(x - 0x06 * k, k, t - 6, 0);
    } else {
      MulMono(0, t, k);
    }
  }

  /** A stage whose difference is a multiple of k above -0x20 * k gives a multiple of k below 0x10 * k. */
  lemma SubStageRange(x: int, d: int, k: int)
    requires Place(k) && -0x20 < d < 0x10 && x == d * k
    ensures 0 <= SubAdjust(x, k) < 0x10 * k && SubAdjust(x, k) % k == 0
    ensures SubBorrow(x, k) == (if d < 0 then 0x10 * k else 0)
  {
    if d < 0 {
      MulMono(d, -1, k);
      MaskRange(x - 0x06 * k, k);
    } else {
      MulMono(0, d, k);
      MulMono(d, 15, k);
      DivMod(x, k, d, 0);
    }
  }

  /**
   * For any operands, decimal or not, every stage result of `dcd_sub_16`
   * (and the low two, which are `dcd_sub_8`'s) stays within its own digit:
   * the or of the stage results is their sum, and it fits the register.
   */
  lemma SubStagesDisjoint(ma0: int, ma1: int, ma2: int, ma3: int, mb0: int, mb1: int, mb2: int, mb3: int,
                          a0: int, a1: int, a2: int, a3: int, b0: int, b1: int, b2: int, b3: int, br: int)
    requires 0 <= a0 < 0x10 && 0 <= a1 < 0x10 && 0 <= a2 < 0x10 && 0 <= a3 < 0x10
    requires 0 <= b0 < 0x10 && 0 <= b1 < 0x10 && 0 <= b2 < 0x10 && 0 <= b3 < 0x10 && 0 <= br <= 1
    requires ma0 == a0 && ma1 == a1 * 0x10 && ma2 == a2 * 0x100 && ma3 == a3 * 0x1000
    requires mb0 == b0 && mb1 == b1 * 0x10 && mb2 == b2 * 0x100 && mb3 == b3 * 0x1000
    ensures var x1 := SubX1(ma0, ma1, mb0, mb1, br);
      var x2 := ma2 - mb2 - SubBorrow(x1, 0x10);
      var x3 := ma3 - mb3 - SubBorrow(x2, 0x100);
      && 0 <= SubAdjust(ma0 - mb0 - br, 1) < 0x10
      && 0 <= SubAdjust(x1, 0x10) < 0x100 && SubAdjust(x1, 0x10) % 0x10 == 0
      && 0 <= SubAdjust(x2, 0x100) < 0x1000 && SubAdjust(x2, 0x100) % 0x100 == 0
      && 0 <= SubAdjust(x3, 0x1000) < 0x1_0000 && SubAdjust(x3, 0x1000) % 0x1000 == 0
  {
    var d0 := a0 - b0 - br;
    SubStageRange(ma0 - mb0 - br, d0, 1);
    var d1 := a1 - b1 - (if d0 < 0 then 1 else 0);
    var x1 := SubX1(ma0, ma1, mb0, mb1, br);
    SubStageRange(x1, d1, 0x10);
    var d2 := a2 - b2 - (if d1 < 0 then 1 else 0);
    var x2 := ma2 - mb2 - SubBorrow(x1, 0x10);
    SubStageRange(x2, d2, 0x100);
    var d3 := a3 - b3 - (if d2 < 0 then 1 else 0);
    SubStageRange(ma3 - mb3 - SubBorrow(x2, 0x100), d3, 0x1000);
  }

  /** The two stages of `dcd_sub_8` on masked decimal digits, and the borrow they pass on. */
  lemma SubLowStages(ma0: int, ma1: int, mb0: int, mb1: int, a0: int, a1: int, b0: int, b1: int, br: int)
    requires 0 <= a0 <= 9 && 0 <= a1 <= 9 && 0 <= b0 <= 9 && 0 <= b1 <= 9 && 0 <= br <= 1
    requires ma0 == a0 && ma1 == a1 * 0x10 && mb0 == b0 && mb1 == b1 * 0x10
    ensures var t0 := a0 - b0 - br;
      var t1 := a1 - b1 - DecimalBorrow(t0);
      && SubStages8(ma0, ma1, mb0, mb1, br) == (t1 + 10 * DecimalBorrow(t1)) * 0x10 + (t0 + 10 * DecimalBorrow(t0))
      && SubBorrow(SubX1(ma0, ma1, mb0, mb1, br), 0x10) == DecimalBorrow(t1) * 0x100
  {
    var t0 := a0 - b0 - br;
    SubStage(ma0 - mb0 - br, t0, 1);
    SubStage(SubX1(ma0, ma1, mb0, mb1, br), a1 - b1 - DecimalBorrow(t0), 0x10);
  }

  /** The two high stages of `dcd_sub_16` on masked decimal digits, given the borrow into digit 2. */
  lemma SubHighStages(ma2: int, ma3: int, mb2: int, mb3: int, a2: int, a3: int, b2: int, b3: int, bin: int, borrow: int)
    requires 0 <= a2 <= 9 && 0 <= a3 <= 9 && 0 <= b2 <= 9 && 0 <= b3 <= 9 && 0 <= borrow <= 1
    requires ma2 == a2 * 0x100 && ma3 == a3 * 0x1000 && mb2 == b2 * 0x100 && mb3 == b3 * 0x1000
    requires bin == borrow * 0x100
    ensures var t2 := a2 - b2 - borrow;
      var t3 := a3 - b3 - DecimalBorrow(t2);
      SubHigh(ma2, ma3, mb2, mb3, bin) == (t3 + 10 * DecimalBorrow(t3)) * 0x1000 + (t2 + 10 * DecimalBorrow(t2)) * 0x100
  {
    var t2 := a2 - b2 - borrow;
    SubStage(ma2 - mb2 - bin, t2, 0x100);
    SubStage(ma3 - mb3 - SubBorrow(ma2 - mb2 - bin, 0x100), a3 - b3 - DecimalBorrow(t2), 0x1000);
  }

  /** The two stages of `dcd_sub_8` leave two decimal digits worth the decimal difference plus 100 times the final borrow w. */
  lemma SubStages8Digits(ma0: int, ma1: int, mb0: int, mb1: int, a0: int, a1: int, b0: int, b1: int, br: int)
      returns (r0: int, r1: int, w: int)
    requires 0 <= a0 <= 9 && 0 <= a1 <= 9 && 0 <= b0 <= 9 && 0 <= b1 <= 9 && 0 <= br <= 1
    requires ma0 == a0 && ma1 == a1 * 0x10 && mb0 == b0 && mb1 == b1 * 0x10
    ensures 0 <= r0 <= 9 && 0 <= r1 <= 9 && 0 <= w <= 1
    ensures SubStages8(ma0, ma1, mb0, mb1, br) == r1 * 0x10 + r0
    ensures r1 * 10 + r0 == a1 * 10 + a0 - (b1 * 10 + b0) - br + 100 * w
  {
    SubLowStages(ma0, ma1, mb0, mb1, a0, a1, b0, b1, br);
    var t0 := a0 - b0 - br;
    var t1 := a1 - b1 - DecimalBorrow(t0);
    r0, r1 := t0 + 10 * DecimalBorrow(t0), t1 + 10 * DecimalBorrow(t1);
    w := DecimalBorrow(t1);
  }

  /** A byte written with two decimal digits is decimal, and stands for the number those digits make. */
  lemma Decimal8(c: int, r0: int, r1: int)
    requires 0 <= r0 <= 9 && 0 <= r1 <= 9 && c == r1 * 0x10 + r0
    ensures 0 <= c < 0x100 && IsBcd8(c) && BcdValue8(c) == r1 * 10 + r0
  {
    Digits(c, r0, r1, 0, 0);
  }

  /** The two stages of `dcd_sub_8` on masked decimal digits give a decimal byte worth the decimal difference modulo 100. */
  lemma SubStages8Value(ma0: int, ma1: int, mb0: int, mb1: int, a0: int, a1: int, b0: int, b1: int, br: int)
    requires 0 <= a0 <= 9 && 0 <= a1 <= 9 && 0 <= b0 <= 9 && 0 <= b1 <= 9 && 0 <= br <= 1
    requires ma0 == a0 && ma1 == a1 * 0x10 && mb0 == b0 && mb1 == b1 * 0x10
    ensures var c := SubStages8(ma0, ma1, mb0, mb1, br);
      && 0 <= c < 0x100 && IsBcd8(c)
      && BcdValue8(c) == (a1 * 10 + a0 - (b1 * 10 + b0) - br) % 100
  {
    var r0, r1, w := SubStages8Digits(ma0, ma1, mb0, mb1, a0, a1, b0, b1, br);
    Decimal8(SubStages8(ma0, ma1, mb0, mb1, br), r0, r1);
    DivMod(a1 * 10 + a0 - (b1 * 10 + b0) - br, 100, -w, r1 * 10 + r0);
  }

  /** On decimal operands `dcd_sub_8`'s digits are the decimal difference modulo 100. */
  lemma DcdSub8Value(a: u8, b: u8, br: int)
    requires IsBcd8(a) && IsBcd8(b) && 0 <= br <= 1
    ensures var c := SubStages8(Mask(a, 1), Mask(a, 0x10), Mask(b, 1), Mask(b, 0x10), br);
      && 0 <= c < 0x100 && IsBcd8(c)
      && BcdValue8(c) == (BcdValue8(a) - BcdValue8(b) - br) % 100
  {
    MasksOf(a);
    MasksOf(b);
    SubStages8Value(Mask(a, 1), Mask(a, 0x10), Mask(b, 1), Mask(b, 0x10), Digit(a, 1), Digit(a, 0x10), Digit(b, 1), Digit(b, 0x10), br);
  }

  /**
   * The four stages of `dcd_sub_16` on masked decimal digits leave four
   * decimal digits r0..r3, worth the decimal difference plus 10000 times the
   * final borrow w.
   */
  lemma SubStages16Digits(ma0: int, ma1: int, ma2: int, ma3: int, mb0: int, mb1: int, mb2: int, mb3: int,
                          a0: int, a1: int, a2: int, a3: int, b0: int, b1: int, b2: int, b3: int, br: int)
      returns (r0: int, r1: int, r2: int, r3: int, w: int)
    requires 0 <= a0 <= 9 && 0 <= a1 <= 9 && 0 <= a2 <= 9 && 0 <= a3 <= 9
    requires 0 <= b0 <= 9 && 0 <= b1 <= 9 && 0 <= b2 <= 9 && 0 <= b3 <= 9 && 0 <= br <= 1
    requires ma0 == a0 && ma1 == a1 * 0x10 && ma2 == a2 * 0x100 && ma3 == a3 * 0x1000
    requires mb0 == b0 && mb1 == b1 * 0x10 && mb2 == b2 * 0x100 && mb3 == b3 * 0x1000
    ensures 0 <= r0 <= 9 && 0 <= r1 <= 9 && 0 <= r2 <= 9 && 0 <= r3 <= 9 && 0 <= w <= 1
    ensures SubStages16(ma0, ma1, ma2, ma3, mb0, mb1, mb2, mb3, br) == r3 * 0x1000 + r2 * 0x100 + r1 * 0x10 + r0
    ensures r3 * 1000 + r2 * 100 + r1 * 10 + r0
         == a3 * 1000 + a2 * 100 + a1 * 10 + a0 - (b3 * 1000 + b2 * 100 + b1 * 10 + b0) - br + 10000 * w
  {
    SubLowStages(ma0, ma1, mb0, mb1, a0, a1, b0, b1, br);
    var t0 := a0 - b0 - br;
    var t1 := a1 - b1 - DecimalBorrow(t0);
    SubHighStages(ma2, ma3, mb2, mb3, a2, a3, b2, b3, SubBorrow(SubX1(ma0, ma1, mb0, mb1, br), 0x10), DecimalBorrow(t1));
    var t2 := a2 - b2 - DecimalBorrow(t1);
    var t3 := a3 - b3 - DecimalBorrow(t2);
    r0, r1 := t0 + 10 * DecimalBorrow(t0), t1 + 10 * DecimalBorrow(t1);
    r2, r3 := t2 + 10 * DecimalBorrow(t2), t3 + 10 * DecimalBorrow(t3);
    w := DecimalBorrow(t3);
  }

  /** A word written with four decimal digits is decimal, and stands for the number those digits make. */
  lemma Decimal16(c: int, r0: int, r1: int, r2: int, r3: int)
    requires 0 <= r0 <= 9 && 0 <= r1 <= 9 && 0 <= r2 <= 9 && 0 <= r3 <= 9
    requires c == r3 * 0x1000 + r2 * 0x100 + r1 * 0x10 + r0
    ensures 0 <= c < 0x1_0000 && IsBcd16(c) && BcdValue16(c) == r3 * 1000 + r2 * 100 + r1 * 10 + r0
  {
    Digits(c, r0, r1, r2, r3);
  }

  /** The four stages of `dcd_sub_16` on masked decimal digits give a decimal word worth the decimal difference modulo 10000. */
  lemma SubStages16Value(ma0: int, ma1: int, ma2: int, ma3: int, mb0: int, mb1: int, mb2: int, mb3: int,
                         a0: int, a1: int, a2: int, a3: int, b0: int, b1: int, b2: int, b3: int, br: int)
    requires 0 <= a0 <= 9 && 0 <= a1 <= 9 && 0 <= a2 <= 9 && 0 <= a3 <= 9
    requires 0 <= b0 <= 9 && 0 <= b1 <= 9 && 0 <= b2 <= 9 && 0 <= b3 <= 9 && 0 <= br <= 1
    requires ma0 == a0 && ma1 == a1 * 0x10 && ma2 == a2 * 0x100 && ma3 == a3 * 0x1000
    requires mb0 == b0 && mb1 == b1 * 0x10 && mb2 == b2 * 0x100 && mb3 == b3 * 0x1000
    ensures var c := SubStages16(ma0, ma1, ma2, ma3, mb0, mb1, mb2, mb3, br);
      && 0 <= c < 0x1_0000 && IsBcd16(c)
      && BcdValue16(c) == (a3 * 1000 + a2 * 100 + a1 * 10 + a0 - (b3 * 1000 + b2 * 100 + b1 * 10 + b0) - br) % 10000
  {
    var r0, r1, r2, r3, w := SubStages16Digits(ma0, ma1, ma2, ma3, mb0, mb1, mb2, mb3, a0, a1, a2, a3, b0, b1, b2, b3, br);
    Decimal16(SubStages16(ma0, ma1, ma2, ma3, mb0, mb1, mb2, mb3, br), r0, r1, r2, r3);
    DivMod(a3 * 1000 + a2 * 100 + a1 * 10 + a0 - (b3 * 1000 + b2 * 100 + b1 * 10 + b0) - br, 10000,
      -w, r3 * 1000 + r2 * 100 + r1 * 10 + r0);
  }

  /** On decimal operands `dcd_sub_16`'s digits are the decimal difference modulo 10000. */
  lemma DcdSub16Value(a: u16, b: u16, br: int)
    requires IsBcd16(a) && IsBcd16(b) && 0 <= br <= 1
    ensures var c := SubStages16(Mask(a, 1), Mask(a, 0x10), Mask(a, 0x100), Mask(a, 0x1000),
                                 Mask(b, 1), Mask(b, 0x10), Mask(b, 0x100), Mask(b, 0x1000), br);
      && 0 <= c < 0x1_0000 && IsBcd16(c)
      && BcdValue16(c) == (BcdValue16(a) - BcdValue16(b) - br) % 10000
  {
    MasksOf(a);
    MasksOf(b);
    SubStages16Value(Mask(a, 1), Mask(a, 0x10), Mask(a, 0x100), Mask(a, 0x1000), Mask(b, 1), Mask(b, 0x10), Mask(b, 0x100), Mask(b, 0x1000),
      Digit(a, 1), Digit(a, 0x10), Digit(a, 0x100), Digit(a, 0x1000), Digit(b, 1), Digit(b, 0x10), Digit(b, 0x100), Digit(b, 0x1000), br);
  }

  /** Four decimal digits compare the same way read in base 16 and in base 10: both orders are lexicographic. */
  lemma DigitOrder(a0: int, a1: int, a2: int, a3: int, b0: int, b1: int, b2: int, b3: int)
    requires 0 <= a0 <= 9 && 0 <= a1 <= 9 && 0 <= a2 <= 9 && 0 <= a3 <= 9
    requires 0 <= b0 <= 9 && 0 <= b1 <= 9 && 0 <= b2 <= 9 && 0 <= b3 <= 9
    ensures a3 * 0x1000 + a2 * 0x100 + a1 * 0x10 + a0 < b3 * 0x1000 + b2 * 0x100 + b1 * 0x10 + b0
        <==> a3 * 1000 + a2 * 100 + a1 * 10 + a0 < b3 * 1000 + b2 * 100 + b1 * 10 + b0
  {
    if a3 != b3 {
    } else if a2 != b2 {
    } else if a1 != b1 {
    }
  }

  /** Decimal encoding preserves order: on decimal bytes the binary and the decimal comparison agree. */
  lemma BcdOrder8(a: u8, b: u8)
    requires IsBcd8(a) && IsBcd8(b)
    ensures a < b <==> BcdValue8(a) < BcdValue8(b)
  {
    DigitsOf(a);
    DigitsOf(b);
    DigitOrder(Digit(a, 1), Digit(a, 0x10), 0, 0, Digit(b, 1), Digit(b, 0x10), 0, 0);
  }

  /** Decimal encoding preserves order on words. */
  lemma BcdOrder16(a: u16, b: u16)
    requires IsBcd16(a) && IsBcd16(b)
    ensures a < b <==> BcdValue16(a) < BcdValue16(b)
  {
    DigitsOf(a);
    DigitsOf(b);
    DigitOrder(Digit(a, 1), Digit(a, 0x10), Digit(a, 0x100), Digit(a, 0x1000), Digit(b, 1), Digit(b, 0x10), Digit(b, 0x100), Digit(b, 0x1000));
  }

  /**
   * On decimal operands the result is decimal and equals the decimal
   * difference modulo 100; C is set exactly when no decimal borrow occurs.
   */
  lemma DcdSub8Spec(a: u8, b: u8, p: Status)
    requires IsBcd8(a) && IsBcd8(b)
    ensures IsBcd8(DcdSub8(a, b, p).r)
    ensures BcdValue8(DcdSub8(a, b, p).r) == (BcdValue8(a) - BcdValue8(b) - Carry(!p.c)) % 100
    ensures DcdSub8(a, b, p).p.c <==> BcdValue8(a) >= BcdValue8(b) + Carry(!p.c)
  {
    DcdSub8Value(a, b, Carry(!p.c));
    var c := SubStages8(Mask(a, 1), Mask(a, 0x10), Mask(b, 1), Mask(b, 0x10), Carry(!p.c));
    DivMod(c, 0x100, 0, c);
    BinSub8Spec(a, b, p);
    DcdSub8Flags(a, b, p);
    BcdOrder8(a, b);
    BcdOrder8(b, a);
  }

  /** The 16-bit counterpart of DcdSub8Spec, modulo 10000. */
  lemma DcdSub16Spec(a: u16, b: u16, p: Status)
    requires IsBcd16(a) && IsBcd16(b)
    ensures IsBcd16(DcdSub16(a, b, p).r)
    ensures BcdValue16(DcdSub16(a, b, p).r) == (BcdValue16(a) - BcdValue16(b) - Carry(!p.c)) % 10000
    ensures DcdSub16(a, b, p).p.c <==> BcdValue16(a) >= BcdValue16(b) + Carry(!p.c)
  {
    DcdSub16Value(a, b, Carry(!p.c));
    var c := SubStages16(Mask(a, 1), Mask(a, 0x10), Mask(a, 0x100), Mask(a, 0x1000),
                         Mask(b, 1), Mask(b, 0x10), Mask(b, 0x100), Mask(b, 0x1000), Carry(!p.c));
    DivMod(c, 0x1_0000, 0, c);
    BinSub16Spec(a, b, p);
    DcdSub16Flags(a, b, p);
    BcdOrder16(a, b);
    BcdOrder16(b, a);
  }
}
