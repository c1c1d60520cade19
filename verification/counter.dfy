/**
 * The master clock counter (src/counter.rs).
 *
 * The counter is a `u64` in the source; it is modelled as an unbounded `nat`,
 * so `elapse` never overflows here.
 */
module MasterCounter {

  class Counter {
    var counter: nat
    var frame: nat
    var x: nat
    var y: nat

    /** The derived default: every field is zero. */
    constructor ()
      ensures counter == 0 && frame == 0 && x == 0 && y == 0
    {
      counter, frame, x, y := 0, 0, 0, 0;
    }

    /** Advance the master counter by `clock` cycles; frame, x and y are left alone. */
    method Elapse(clock: nat)
      modifies this`counter
      ensures counter == old(counter) + clock
      ensures counter >= old(counter)
    {
      counter := counter + clock;
    }

    /** The current counter value, read without changing anything. */
    method Now() returns (n: nat)
      ensures n == counter
    {
      n := counter;
    }
  }
}
