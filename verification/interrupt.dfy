/**
 * The NMI latch and interrupt-enable registers of the main CPU
 * (src/interrupt.rs).
 */
module InterruptLatch {

  /**
   * The latch rule shared by `set_nmi_flag` and `set_nmi_enable`: the
   * latched `nmi` is raised when the enable is (newly) on and it was not
   * already latched-and-enabled. Whatever the previous enable, the result is
   * simply "already latched, or enabled now".
   */
  function LatchNmi(nmi: bool, prevEnable: bool, enable: bool): (r: bool)
    ensures r <==> nmi || enable
    ensures nmi ==> r
  {
    var prev := nmi && prevEnable;
    if !prev && enable then true else nmi
  }

  class Interrupt {
    var nmiFlag: bool
    var nmiEnable: bool
    var nmi: bool
    var hvIrqEnable: bv8
    var joypadEnable: bool

    /** The derived default: every flag false, `hv_irq_enable` zero. */
    constructor ()
      ensures !nmiFlag && !nmiEnable && !nmi && hvIrqEnable == 0 && !joypadEnable
    {
      nmiFlag, nmiEnable, nmi, hvIrqEnable, joypadEnable := false, false, false, 0, false;
    }

    /** Read-and-clear of the NMI flag. */
    method GetNmiFlag() returns (ret: bool)
      modifies this`nmiFlag
      ensures ret == old(nmiFlag)
      ensures !nmiFlag
    {
      ret := nmiFlag;
      nmiFlag := false;
    }

    /**
     * Store the NMI flag; the latch depends only on the (unchanged) enable,
     * never on `flag`.
     */
    method SetNmiFlag(flag: bool)
      modifies this`nmiFlag, this`nmi
      ensures nmiFlag == flag
      ensures nmi == LatchNmi(old(nmi), nmiEnable, nmiEnable)
      ensures nmi <==> old(nmi) || nmiEnable
    {
      var prev := nmi && nmiEnable;
      nmiFlag := flag;
      if !prev && nmiEnable && nmiEnable {
        nmi := true;
      }
    }

    /** Store the NMI enable and latch an NMI if it is now enabled. */
    method SetNmiEnable(flag: bool)
      modifies this`nmiEnable, this`nmi
      ensures nmiEnable == flag
      ensures nmi == LatchNmi(old(nmi), old(nmiEnable), flag)
      ensures nmi <==> old(nmi) || flag
    {
      var prev := nmi && nmiEnable;
      nmiEnable := flag;
      if !prev && nmiEnable && nmiEnable {
        nmi := true;
      }
    }

    /** The latched NMI, read without side effects. */
    method NmiOccurred() returns (r: bool)
      ensures r == nmi
    {
      r := nmi;
    }

    method SetHvIrqEnable(val: bv8)
      modifies this`hvIrqEnable
      ensures hvIrqEnable == val
    {
      hvIrqEnable := val;
    }

    /** The last value stored by `SetHvIrqEnable`, read without side effects. */
    method GetHvIrqEnable() returns (r: bv8)
      ensures r == hvIrqEnable
    {
      r := hvIrqEnable;
    }

    method SetJoypadEnable(flag: bool)
      modifies this`joypadEnable
      ensures joypadEnable == flag
    {
      joypadEnable := flag;
    }
  }

  /** Once latched, no sequence of the two setters clears `nmi`. */
  lemma {:induction false} NmiMonotone(nmi: bool, enables: seq<bool>, start: bool)
    requires nmi
    ensures LatchAll(nmi, start, enables)
  {
    if |enables| > 0 {
      NmiMonotone(LatchNmi(nmi, start, enables[0]), enables[1..], enables[0]);
    }
  }

  /** The latch after a series of enable writes, starting from `prevEnable`. */
  function LatchAll(nmi: bool, prevEnable: bool, enables: seq<bool>): bool
    decreases |enables|
  {
    if |enables| == 0 then nmi
    else LatchAll(LatchNmi(nmi, prevEnable, enables[0]), enables[0], enables[1..])
  }
}
