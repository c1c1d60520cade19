/**
 * Bitwise operations on bounded integers. The registers of the model are
 * integers; the source's `&`, `|`, `^`, `& !` and single-bit tests
 * (`(x >> k) & 1`) are defined here bit by bit, from the least significant
 * bit up, and characterised by what they do to each bit.
 */
module Bits {
  /** 2^k. */
  function Pow2(k: nat): (r: nat)
    ensures r >= 1
  {
    if k == 0 then 1 else 2 * Pow2(k - 1)
  }

  /** The widths the registers use. */
  lemma Pow2Widths()
    ensures Pow2(6) == 0x40 && Pow2(7) == 0x80 && Pow2(8) == 0x100
    ensures Pow2(14) == 0x4000 && Pow2(15) == 0x8000 && Pow2(16) == 0x1_0000
  {
    assert Pow2(8) == 0x100;
    assert Pow2(12) == 0x1000;
  }

  /** Bit k of x: `(x >> k) & 1 == 1`. */
  predicate BitAt(x: nat, k: nat)
  {
    if k == 0 then x % 2 == 1 else BitAt(x / 2, k - 1)
  }

  /** The bitwise operators of the source. */
  datatype BitOp = AndOp | OrOp | XorOp | AndNotOp

  /** What an operator does to one pair of bits. */
  predicate Apply(op: BitOp, x: bool, y: bool)
  {
    match op
    case AndOp => x && y
    case OrOp => x || y
    case XorOp => x != y
    case AndNotOp => x && !y
  }

  /** `a op b` on the low w bits of the operands; the result has w bits. */
  function Bitwise(op: BitOp, a: nat, b: nat, w: nat): (r: nat)
    ensures r < Pow2(w)
  {
    if w == 0 then 0
    else 2 * Bitwise(op, a / 2, b / 2, w - 1) + (if Apply(op, a % 2 == 1, b % 2 == 1) then 1 else 0)
  }

  /** Every bit of the result is the operator applied to the same bit of the operands. */
  lemma {:induction false} BitwiseBit(op: BitOp, a: nat, b: nat, w: nat, k: nat)
    requires k < w
    ensures BitAt(Bitwise(op, a, b, w), k) == Apply(op, BitAt(a, k), BitAt(b, k))
  {
    var r := Bitwise(op, a, b, w);
    var r' := Bitwise(op, a / 2, b / 2, w - 1);
    assert r / 2 == r' && (r % 2 == 1 <==> Apply(op, a % 2 == 1, b % 2 == 1));
    if k > 0 {
      BitwiseBit(op, a / 2, b / 2, w - 1, k - 1);
    }
  }

  /** The operator yields a clear bit at each of the low w positions. */
  predicate NoBitSet(op: BitOp, a: nat, b: nat, w: nat)
  {
    forall k: nat :: k < w ==> !Apply(op, BitAt(a, k), BitAt(b, k))
  }

  /** The result is zero exactly when the operator yields no set bit at any of the w positions. */
  lemma {:induction false} BitwiseZero(op: BitOp, a: nat, b: nat, w: nat)
    ensures Bitwise(op, a, b, w) == 0 ==> NoBitSet(op, a, b, w)
    ensures NoBitSet(op, a, b, w) ==> Bitwise(op, a, b, w) == 0
  {
    if w > 0 {
      BitwiseZero(op, a / 2, b / 2, w - 1);
      var low := Apply(op, a % 2 == 1, b % 2 == 1);
      assert Bitwise(op, a, b, w) == 2 * Bitwise(op, a / 2, b / 2, w - 1) + (if low then 1 else 0);
      assert low == Apply(op, BitAt(a, 0), BitAt(b, 0));
      if Bitwise(op, a, b, w) == 0 {
        forall k: nat | k < w
          ensures !Apply(op, BitAt(a, k), BitAt(b, k))
        {
          if k > 0 {
            assert BitAt(a, k) == BitAt(a / 2, k - 1) && BitAt(b, k) == BitAt(b / 2, k - 1);
            assert !Apply(op, BitAt(a / 2, k - 1), BitAt(b / 2, k - 1));
          }
        }
      } else {
        if low {
          assert 0 < w && Apply(op, BitAt(a, 0), BitAt(b, 0));
          assert !(forall k: nat :: k < w ==> !Apply(op, BitAt(a, k), BitAt(b, k))) && Bitwise(op, a, b, w) != 0;
        } else {
          var k: nat :| k < w - 1 && Apply(op, BitAt(a / 2, k), BitAt(b / 2, k));
          assert BitAt(a, k + 1) == BitAt(a / 2, k) && BitAt(b, k + 1) == BitAt(b / 2, k);
          assert k + 1 < w && Apply(op, BitAt(a, k + 1), BitAt(b, k + 1));
          assert !(forall k: nat :: k < w ==> !Apply(op, BitAt(a, k), BitAt(b, k))) && Bitwise(op, a, b, w) != 0;
        }
      }
    }
  }

  /** Below 2^(k+1), bit k is set exactly when the value is at least 2^k. */
  lemma {:induction false} TopBit(x: nat, k: nat)
    requires x < 2 * Pow2(k)
    ensures BitAt(x, k) <==> x >= Pow2(k)
  {
    if k > 0 {
      TopBit(x / 2, k - 1);
    }
  }

  /** A smaller power of two is smaller. */
  lemma {:induction false} Pow2Less(k: nat, w: nat)
    requires k < w
    ensures Pow2(k) < Pow2(w)
  {
    if k < w - 1 {
      Pow2Less(k, w - 1);
    }
  }

  /** Zero has no bit set. */
  lemma {:induction false} ZeroHasNoBit(j: nat)
    ensures !BitAt(0, j)
  {
    if j > 0 {
      ZeroHasNoBit(j - 1);
    }
  }

  /** The mask `1 << k` has exactly bit k set. */
  lemma {:induction false} Pow2Bit(k: nat, j: nat)
    ensures BitAt(Pow2(k), j) <==> j == k
  {
    if k == 0 {
      if j > 0 {
        ZeroHasNoBit(j - 1);
      }
    } else if j > 0 {
      assert Pow2(k) / 2 == Pow2(k - 1);
      Pow2Bit(k - 1, j - 1);
    }
  }
}
