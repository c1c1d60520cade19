/**
 * The serial joypad shift register (src/controller.rs): two 16-bit pads are
 * shifted out most significant bit first, one bit per read.
 */
module Joypad {

  /** Bit `k` (0 = least significant) of a pad word. */
  function PadBit(w: bv16, k: nat): bool
    requires k < 16
  {
    w & (1 as bv16 << k) != 0
  }

  /** The byte a read returns at position `pos` (bit 0 from pad 0, bit 1 from pad 1). */
  function SerialBits(d0: bv16, d1: bv16, pos: nat): (r: bv8)
    ensures r <= 3
    ensures pos > 15 ==> r == 3
    ensures pos <= 15 ==> (r & 1 != 0 <==> PadBit(d0, 15 - pos)) && (r & 2 != 0 <==> PadBit(d1, 15 - pos))
  {
    if pos > 15 then 0x03
    else
      (if d0 & (1 as bv16 << (15 - pos)) != 0 then 0x01 else 0x00) |
      (if d1 & (1 as bv16 << (15 - pos)) != 0 then 0x02 else 0x00)
  }

  class Controller {
    var data0: bv16
    var data1: bv16
    var pos: nat
    var clk: bool

    constructor ()
      ensures data0 == 0 && data1 == 0 && pos == 0 && !clk
    {
      data0, data1, pos, clk := 0, 0, 0, false;
    }

    /** Latch: restart the shift-out from the most significant bit. */
    method Initialize()
      modifies this`pos
      ensures pos == 0
    {
      pos := 0;
    }

    /** Shift out one bit of each pad; once all 16 are out, read 0b11 and stay put. */
    method Read() returns (ret: bv8)
      modifies this`pos
      ensures ret == SerialBits(data0, data1, old(pos))
      ensures pos == if old(pos) > 15 then old(pos) else old(pos) + 1
    {
      if pos > 15 {
        ret := 0x03;
      } else {
        var d: bv8 := 0;
        if data0 & (1 as bv16 << (15 - pos)) != 0 {
          d := d | 0x01;
        }
        if data1 & (1 as bv16 << (15 - pos)) != 0 {
          d := d | 0x02;
        }
        pos := pos + 1;
        ret := d;
      }
    }
  }

  /**
   * Bit 0 of the results of `n` successive reads starting at position `from`
   * (by the contract of `Read`, each read returns `SerialBits` at the current
   * position and advances it while it is at most 15).
   */
  function Pad0Stream(d0: bv16, d1: bv16, from: nat, n: nat): (r: seq<bool>)
    ensures |r| == n
    decreases n
  {
    if n == 0 then [] else [SerialBits(d0, d1, from) & 1 != 0] + Pad0Stream(d0, d1, from + 1, n - 1)
  }

  /** After `Initialize` (from = 0), sixteen reads emit pad 0 most significant bit first. */
  lemma {:induction false} Pad0StreamIsMsbFirst(d0: bv16, d1: bv16, from: nat, n: nat)
    requires from + n <= 16
    ensures forall k :: 0 <= k < n ==> Pad0Stream(d0, d1, from, n)[k] == PadBit(d0, 15 - (from + k))
    decreases n
  {
    if n > 0 {
      Pad0StreamIsMsbFirst(d0, d1, from + 1, n - 1);
    }
  }
}
