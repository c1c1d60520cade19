/**
 * What the main CPU (src/cpu.rs) sees of the rest of the machine: a 24-bit
 * byte-addressed bus, the master clock it advances with `elapse`, and the
 * two interrupt lines it polls before each instruction. The concrete bus is
 * `src/bus.rs`; here it is abstract storage of 2^24 bytes, so a read returns
 * what the last write to the same address stored. `WarpAddress::read_*` and
 * `write_*` are defined here over that storage.
 */
module CpuContext {
  import opened Wrappers
  import opened CpuTypes

  /** The 24-bit address space as 2^24 bytes. */
  predicate IsMemory(mem: seq<u8>) { |mem| == 0x100_0000 }

  /** `WarpAddress::read_8`. */
  function Mem8(mem: seq<u8>, w: WarpAddress): u8
    requires IsMemory(mem)
  {
    mem[w.addr]
  }

  /** `WarpAddress::read_16`: the high byte comes from the address offset by one under the same wrapping rule. */
  function Mem16(mem: seq<u8>, w: WarpAddress): u16
    requires IsMemory(mem)
  {
    Word(mem[w.addr], mem[Offset(w, 1).addr])
  }

  /** `WarpAddress::read_24`: low, high and bank bytes at offsets 0, 1 and 2. */
  function Mem24(mem: seq<u8>, w: WarpAddress): u24
    requires IsMemory(mem)
  {
    Long(mem[Offset(w, 2).addr], Mem16(mem, w))
  }

  /** `WarpAddress::write_16`: the low byte at the address, then the high byte at the address offset by one. */
  function Store16(mem: seq<u8>, w: WarpAddress, data: u16): (m: seq<u8>)
    requires IsMemory(mem)
    ensures IsMemory(m) && Mem16(m, w) == data
    ensures forall i :: 0 <= i < |mem| && i != w.addr && i != Offset(w, 1).addr ==> m[i] == mem[i]
  {
    OffsetMoves(w);
    mem[w.addr := Lo(data)][Offset(w, 1).addr := Hi(data)]
  }

  /** The bus, the clock and the interrupt lines. */
  class Context {
    var mem: seq<u8>
    var now: nat
    var nmi: bool
    var irq: bool

    predicate Valid()
      reads this
    {
      IsMemory(mem)
    }

    constructor (mem0: seq<u8>)
      requires |mem0| == 0x100_0000
      ensures Valid() && mem == mem0 && now == 0 && !nmi && !irq
    {
      mem := mem0;
      now := 0;
      nmi := false;
      irq := false;
    }

    /** `bus_read`. */
    function Read(addr: u24): u8
      reads this
      requires Valid()
    {
      mem[addr]
    }

    /** `bus_write`: exactly one byte of the storage changes. */
    method Write(addr: u24, data: u8)
      requires Valid()
      modifies this
      ensures Valid() && mem == old(mem)[addr := data]
      ensures now == old(now) && nmi == old(nmi) && irq == old(irq)
    {
      mem := mem[addr := data];
    }

    /** `elapse`: the clock moves forward by exactly `clock`. */
    method Elapse(clock: nat)
      modifies this
      ensures now == old(now) + clock
      ensures mem == old(mem) && nmi == old(nmi) && irq == old(irq)
    {
      now := now + clock;
    }

    /** `WarpAddress::write_8`. */
    method Write8(w: WarpAddress, data: u8)
      requires Valid()
      modifies this
      ensures Valid() && mem == old(mem)[w.addr := data]
      ensures now == old(now) && nmi == old(nmi) && irq == old(irq)
    {
      Write(w.addr, data);
    }

    /** `WarpAddress::write_16`. */
    method Write16(w: WarpAddress, data: u16)
      requires Valid()
      modifies this
      ensures Valid() && mem == Store16(old(mem), w, data)
      ensures now == old(now) && nmi == old(nmi) && irq == old(irq)
    {
      Write(w.addr, Lo(data));
      Write(Offset(w, 1).addr, Hi(data));
    }
  }

  /** Offsetting by one always reaches a different address, whatever the wrapping rule. */
  lemma OffsetMoves(w: WarpAddress)
    ensures Offset(w, 1).addr != w.addr
  {
  }
}
