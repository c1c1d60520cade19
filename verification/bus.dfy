/**
 * The main CPU's address decoder (src/bus.rs): a 24-bit address selects the
 * 128 KiB work RAM, the PPU registers or the cartridge.
 */
module SystemBus {
  import opened Wrappers
  import CartridgeRom

  const WramSize: nat := 0x20000

  /** Where an address is routed. */
  datatype Target =
    | Wram(index: nat)   // a cell of work RAM
    | Ppu                // PPU registers 0x2100-0x213F of a system bank
    | Cart               // the cartridge
    | Unmapped           // a system-bank offset with nothing behind it
    | BadBank            // a "bank" above 0xFF

  /** A system bank (00-3F, 80-BF) mirrors low RAM, the PPU and the cartridge. */
  predicate SystemBank(bank: nat) { bank <= 0x3F || 0x80 <= bank <= 0xBF }

  /** The bank/offset dispatch shared by `read` and `write`. */
  function Decode(addr: u32): (t: Target)
    ensures SystemBank(addr / 0x10000) && addr % 0x10000 < 0x2000 ==> t == Wram(addr % 0x10000)
    ensures 0x7E <= addr / 0x10000 <= 0x7F ==> t.Wram? && t.index == addr - 0x7E0000
    ensures t.Wram? ==> t.index < WramSize
    ensures t == Cart <==>
              (0x40 <= addr / 0x10000 <= 0x7D || 0xC0 <= addr / 0x10000 <= 0xFF ||
               (SystemBank(addr / 0x10000) && addr % 0x10000 >= 0x8000))
    ensures t == Unmapped <==>
              SystemBank(addr / 0x10000) &&
              (0x2000 <= addr % 0x10000 < 0x2100 || 0x2140 <= addr % 0x10000 < 0x8000)
    ensures t == BadBank <==> addr / 0x10000 > 0xFF
  {
    var bank := addr / 0x10000;
    var offset := addr % 0x10000;
    if bank <= 0x3F || 0x80 <= bank <= 0xBF then
      if offset <= 0x1FFF then Wram(offset)
      else if 0x2100 <= offset <= 0x213F then Ppu
      else if offset >= 0x8000 then Cart
      else Unmapped
    else if 0x40 <= bank <= 0x7D then Cart
    else if 0x7E <= bank <= 0x7F then Wram(addr % WramSize)
    else if 0xC0 <= bank <= 0xFF then Cart
    else BadBank
  }

  /** Low RAM in every system bank is the first 8 KiB of bank 7E. */
  lemma LowRamMirrorsBank7E(bank: nat, o: nat)
    requires SystemBank(bank) && o < 0x2000
    ensures Decode(bank * 0x10000 + o) == Decode(0x7E0000 + o) == Wram(o)
  {
  }

  class Bus {
    const wram: array<bv8>

    ghost predicate Valid() reads this { wram.Length == WramSize }

    constructor ()
      ensures Valid() && fresh(wram)
      ensures forall i :: 0 <= i < wram.Length ==> wram[i] == 0
    {
      wram := new bv8[WramSize](_ => 0);
    }

    /**
     * `Bus::read`. PPU reads go to the PPU stub, which answers 0; cartridge
     * reads go to `Cartridge::read`. `None` is a panic: an unmapped offset of
     * a system bank, a bank above 0xFF, or a panicking cartridge read.
     */
    method Read(addr: u32, cart: CartridgeRom.Cartridge) returns (r: Option<bv8>)
      requires Valid()
      ensures Decode(addr).Wram? ==> r == Some(wram[Decode(addr).index])
      ensures Decode(addr) == Ppu ==> r == Some(0)
      ensures Decode(addr) == Cart ==> r == CartridgeRom.Read(cart.rom, addr)
      ensures Decode(addr) == Unmapped || Decode(addr) == BadBank ==> r == None
    {
      var bank := addr / 0x10000;
      var offset := addr % 0x10000;
      if bank <= 0x3F || 0x80 <= bank <= 0xBF {
        if offset <= 0x1FFF {
          r := Some(wram[offset]);
        } else if 0x2100 <= offset <= 0x213F {
          r := Some(0);
        } else if offset >= 0x8000 {
          r := CartridgeRom.Read(cart.rom, addr);
        } else {
          r := None;
        }
      } else if 0x40 <= bank <= 0x7D {
        r := CartridgeRom.Read(cart.rom, addr);
      } else if 0x7E <= bank <= 0x7F {
        r := Some(wram[addr % 0x20000]);
      } else if 0xC0 <= bank <= 0xFF {
        r := CartridgeRom.Read(cart.rom, addr);
      } else {
        r := None;
      }
    }

    /**
     * `Bus::write`. A work-RAM write changes exactly one cell; PPU writes go to
     * the stub and change nothing; an unmapped system-bank offset is logged and
     * dropped (`ok` stays true). `ok` is false where the source panics: a bank
     * above 0xFF or a panicking cartridge write.
     */
    method Write(addr: u32, data: bv8, cart: CartridgeRom.Cartridge) returns (ok: bool)
      requires Valid()
      modifies wram, cart`rom
      ensures Decode(addr).Wram? ==>
                ok && wram[..] == old(wram[..])[Decode(addr).index := data] && cart.rom == old(cart.rom)
      ensures Decode(addr) == Cart ==>
                wram[..] == old(wram[..]) &&
                ok == (CartridgeRom.WriteIndex(addr).Some? && CartridgeRom.WriteIndex(addr).value < |old(cart.rom)|) &&
                cart.rom == (if ok then old(cart.rom)[CartridgeRom.WriteIndex(addr).value := data] else old(cart.rom))
      ensures Decode(addr) in {Ppu, Unmapped, BadBank} ==>
                ok == (Decode(addr) != BadBank) && wram[..] == old(wram[..]) && cart.rom == old(cart.rom)
    {
      var bank := addr / 0x10000;
      var offset := addr % 0x10000;
      ok := true;
      if bank <= 0x3F || 0x80 <= bank <= 0xBF {
        if offset <= 0x1FFF {
          wram[offset] := data;
        } else if 0x2100 <= offset <= 0x213F {
        } else if offset >= 0x8000 {
          ok := cart.Write(addr, data);
        } else {
        }
      } else if 0x40 <= bank <= 0x7D {
        ok := cart.Write(addr, data);
      } else if 0x7E <= bank <= 0x7F {
        wram[addr % 0x20000] := data;
      } else if 0xC0 <= bank <= 0xFF {
        ok := cart.Write(addr, data);
      } else {
        ok := false;
      }
    }
  }

  /** A work-RAM write followed by a read of the same address returns the byte. */
  method WriteThenRead(bus: Bus, cart: CartridgeRom.Cartridge, addr: u32, data: bv8) returns (r: Option<bv8>)
    requires bus.Valid() && Decode(addr).Wram?
    modifies bus.wram, cart`rom
    ensures r == Some(data)
  {
    var _ := bus.Write(addr, data, cart);
    r := bus.Read(addr, cart);
  }
}
