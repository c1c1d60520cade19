/**
 * The cartridge ROM (src/cartridge.rs). A 24-bit bus address is split into a
 * bank (`addr >> 16`) and a 16-bit offset; reads mirror the upper 32 KiB of a
 * bank onto the lower.
 */
module CartridgeRom {
  import opened Wrappers

  /** `addr >> 16` for a 32-bit address. */
  function Bank(addr: u32): nat { addr / 0x10000 }

  /** `addr as u16` for a 32-bit address. */
  function Offset(addr: u32): nat { addr % 0x10000 }

  /** `usize` subtraction, which panics on underflow. */
  function CheckedSub(a: nat, b: nat): (r: Option<nat>)
    ensures r.Some? <==> a >= b
    ensures r.Some? ==> r.value + b == a
  {
    if a >= b then Some(a - b) else None
  }

  /**
   * The ROM index `read` uses before bounds checking: the offset, folded by
   * 0x8000, and then (for banks 40 and above) rebased by subtracting
   * 0x400000, 0x800000 or 0xC00000. That subtraction always underflows, so
   * only banks 00-3F yield an index.
   */
  function ReadIndex(addr: u32): (r: Option<nat>)
    ensures r.Some? <==> Bank(addr) <= 0x3F
    ensures r.Some? ==> r.value < 0x8000
    ensures r.Some? ==> r.value == Offset(addr) % 0x8000
  {
    var bank := Bank(addr);
    var off := Offset(addr);
    var off := if off >= 0x8000 then off - 0x8000 else off;
    if bank <= 0x3F then Some(off)
    else if bank <= 0x7D then CheckedSub(off, 0x400000)
    else if 0x80 <= bank <= 0xBF then CheckedSub(off, 0x800000)
    else if 0xC0 <= bank <= 0xFF then CheckedSub(off, 0xC00000)
    else None
  }

  /** `Cartridge::read`: `None` where the source panics. */
  function Read(rom: seq<bv8>, addr: u32): (r: Option<bv8>)
    ensures Bank(addr) <= 0x3F && Offset(addr) >= 0x8000 && Offset(addr) - 0x8000 < |rom| ==>
              r == Some(rom[Offset(addr) - 0x8000])
    ensures Bank(addr) <= 0x3F && Offset(addr) < 0x8000 && Offset(addr) < |rom| ==>
              r == Some(rom[Offset(addr)])
    ensures Bank(addr) <= 0x3F && Offset(addr) % 0x8000 >= |rom| ==> r == None
    ensures Bank(addr) > 0x3F ==> r == None
  {
    match ReadIndex(addr)
    case Some(i) => if i < |rom| then Some(rom[i]) else None
    case None => None
  }

  /**
   * The ROM index `write` uses: the whole address in banks 00-3F (the offset is
   * not folded, and the bank bits stay in), otherwise the address rebased to its
   * bank group. Banks 7E-7F and above 0xFF hit `unreachable!`.
   */
  function WriteIndex(addr: u32): (r: Option<nat>)
    ensures r.Some? <==> Bank(addr) <= 0x7D || 0x80 <= Bank(addr) <= 0xFF
    ensures Bank(addr) <= 0x3F ==> r == Some(addr)
    ensures 0x40 <= Bank(addr) <= 0x7D ==> r == Some(addr - 0x400000)
    ensures 0x80 <= Bank(addr) <= 0xBF ==> r == Some(addr - 0x800000)
    ensures 0xC0 <= Bank(addr) <= 0xFF ==> r == Some(addr - 0xC00000)
  {
    var bank := Bank(addr);
    if bank <= 0x3F then Some(addr)
    else if bank <= 0x7D then Some(addr - 0x400000)
    else if bank <= 0x7F then None
    else if bank <= 0xBF then Some(addr - 0x800000)
    else if bank <= 0xFF then Some(addr - 0xC00000)
    else None
  }

  class Cartridge {
    var rom: seq<bv8>

    constructor (image: seq<bv8>)
      ensures rom == image
    {
      rom := image;
    }

    /**
     * `Cartridge::write`: stores `data` at `WriteIndex(addr)`; `ok` is false
     * exactly when the source panics (no index, or the index is past the end
     * of the ROM), and then nothing changes.
     */
    method Write(addr: u32, data: bv8) returns (ok: bool)
      modifies this`rom
      ensures ok <==> WriteIndex(addr).Some? && WriteIndex(addr).value < |old(rom)|
      ensures ok ==> rom == old(rom)[WriteIndex(addr).value := data]
      ensures !ok ==> rom == old(rom)
    {
      var bank := addr / 0x10000;
      var index: int;
      if bank <= 0x3F {
        index := addr;
      } else if 0x40 <= bank <= 0x7D {
        index := addr - 0x400000;
      } else if 0x80 <= bank <= 0xBF {
        index := addr - 0x800000;
      } else if 0xC0 <= bank <= 0xFF {
        index := addr - 0xC00000;
      } else {
        return false;
      }
      if index < |rom| {
        rom := rom[index := data];
        ok := true;
      } else {
        ok := false;
      }
    }
  }

  /** Banks 00-3F ignore the bank number, and offsets o and o + 0x8000 read the same byte. */
  lemma LowBanksMirror(rom: seq<bv8>, bank: nat, o: nat)
    requires bank <= 0x3F && o < 0x8000
    ensures Read(rom, bank * 0x10000 + o) == Read(rom, o)
    ensures Read(rom, bank * 0x10000 + o + 0x8000) == Read(rom, o)
  {
  }

  /** So bank 0, offset 0x8000 reads the first ROM byte. */
  lemma FirstRomByte(rom: seq<bv8>)
    requires |rom| > 0
    ensures Read(rom, 0x8000) == Some(rom[0])
  {
  }

  /**
   * In bank 0 a write uses the raw address but a read folds offsets above
   * 0x8000: below 0x8000 the pair round-trips, above it the read sees the byte
   * 0x8000 lower.
   */
  lemma Bank0WriteThenRead(rom: seq<bv8>, o: nat, d: bv8)
    requires o < 0x10000 && o < |rom|
    ensures WriteIndex(o) == Some(o)
    ensures o < 0x8000 ==> Read(rom[o := d], o) == Some(d)
    ensures o >= 0x8000 ==> Read(rom[o := d], o) == Some(rom[o - 0x8000])
  {
  }
}
