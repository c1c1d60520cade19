/** Small shared types: optional values for operations that panic in the source, and fixed-width unsigned integers. */
module Wrappers {

  /** `None` stands for a panic (index out of range, `unreachable!`, `unimplemented!`). */
  datatype Option<T> = None | Some(value: T)
  {
    /** With these three members, `var x :- e;` stops at the first panic. */
    predicate IsFailure() { None? }

    function PropagateFailure<U>(): Option<U>
      requires None?
    {
      None
    }

    function Extract(): T
      requires Some?
    {
      value
    }
  }

  /** `u8`, `u16`, `u32` and a 24-bit address, as bounded integers; wrap-around is written out where the source wraps. */
  type u8 = x: int | 0 <= x < 0x100
  type u16 = x: int | 0 <= x < 0x1_0000
  type u24 = x: int | 0 <= x < 0x100_0000
  type u32 = x: int | 0 <= x < 0x1_0000_0000
}
