/**
 * The audio CPU's view of its 64 KiB address space (src/spc.rs, `read_8`,
 * `write_8` and the helpers built on them), on values: the registers, the
 * cycle counter, the RAM the CPU shares with the DSP, and the I/O registers.
 *
 * Reads at 0xF0-0xFF go to the I/O registers, reads at 0xFFC0-0xFFFF see the
 * boot ROM while it is enabled, and every other read sees RAM. A write always
 * reaches RAM while RAM writes are enabled (the I/O window and the ROM window
 * included) and, at 0xF0-0xFF, also reaches the I/O register. Each access
 * adds a wait state to the counter.
 *
 * Reads of the write-only I/O registers panic in the source; those reads
 * return `None`, and everything built on a read returns `None` with them.
 */
module SpcMemory {
  import opened Wrappers
  import opened CpuTypes
  import opened SpcTypes
  import opened SpcIo

  /** The state an instruction works on. */
  datatype Machine = Machine(regs: SpcRegs, counter: nat, ram: seq<u8>, io: IoState)

  predicate MachineOk(m: Machine) { |m.ram| == 0x1_0000 && IoOk(m.io) }

  /** A value read and the machine after the access. */
  datatype Got<T> = Got(v: T, m: Machine)

  /** `increment_counter`. */
  function Wait(m: Machine, n: nat): Machine { m.(counter := m.counter + n) }

  /** A read may clear timer outputs but changes no other I/O register. */
  predicate SettingsKept(before: IoState, after: IoState) { after == before.(timers := after.timers) }

  /** The I/O window: `0x00F0..=0x00FF`. */
  predicate InIoWindow(addr: u16) { 0xF0 <= addr < 0x100 }

  /** `read_8`. */
  function Read8(m: Machine, w: WrapAddr): (r: Option<Got<u8>>)
    requires MachineOk(m)
    ensures r.None? ==> InIoWindow(w.addr)
    ensures r.Some? ==> MachineOk(r.value.m) && r.value.m.regs == m.regs && r.value.m.ram == m.ram
    ensures r.Some? ==> r.value.m.counter >= m.counter && SettingsKept(m.io, r.value.m.io)
  {
    var addr := w.addr;
    if addr < 0xF0 || 0x100 <= addr < 0xFFC0 then
      Some(Got(m.ram[addr], Wait(m, m.io.waitRam)))
    else if addr < 0x100 then
      var v :- IoReadValue(m.io, addr - 0xF0);
      Some(Got(v, Wait(m, m.io.waitIo).(io := IoAfterRead(m.io, addr - 0xF0))))
    else if m.io.romReadEnabled then
      Some(Got(BootRom[addr - 0xFFC0], Wait(m, m.io.waitIo)))
    else
      Some(Got(m.ram[addr], Wait(m, m.io.waitRam)))
  }

  /**
   * `write_8`; the I/O wait state is the one in force after the write, since
   * the write itself may change it.
   */
  function Write8(m: Machine, w: WrapAddr, data: u8): (r: Machine)
    requires MachineOk(m)
    ensures MachineOk(r) && r.regs == m.regs && r.counter >= m.counter
  {
    var addr := w.addr;
    var ram := if m.io.ramWriteEnabled then m.ram[addr := data] else m.ram;
    if addr / 0x10 == 0xF then
      var io := IoWriteSpec(m.io, addr % 0x10, data).value;
      m.(ram := ram, io := io, counter := m.counter + io.waitIo)
    else
      m.(ram := ram, counter := m.counter + m.io.waitRam)
  }

  /**
   * The memory map: outside the I/O window and the enabled ROM a read sees
   * RAM, inside the ROM window with the ROM enabled it sees the boot ROM, and
   * only reads in the I/O window can fail.
   */
  lemma MemoryMap(m: Machine, w: WrapAddr)
    requires MachineOk(m)
    ensures !InIoWindow(w.addr) ==> Read8(m, w).Some?
    ensures !InIoWindow(w.addr) && !(w.addr >= 0xFFC0 && m.io.romReadEnabled) ==>
              Read8(m, w).value.v == m.ram[w.addr] && Read8(m, w).value.m == Wait(m, m.io.waitRam)
    ensures w.addr >= 0xFFC0 && m.io.romReadEnabled ==>
              Read8(m, w).value.v == BootRom[w.addr - 0xFFC0] && Read8(m, w).value.m == Wait(m, m.io.waitIo)
    ensures InIoWindow(w.addr) ==>
              (Read8(m, w).Some? <==> IoReadValue(m.io, w.addr - 0xF0).Some?) &&
              (Read8(m, w).Some? ==> Read8(m, w).value.v == IoReadValue(m.io, w.addr - 0xF0).value)
  {
  }

  /**
   * A write changes at most the addressed RAM byte, and that byte only while
   * RAM writes are enabled; below the I/O window it touches no I/O register.
   */
  lemma WriteTouchesOneByte(m: Machine, w: WrapAddr, data: u8, a: u16)
    requires MachineOk(m)
    ensures a != w.addr ==> Write8(m, w, data).ram[a] == m.ram[a]
    ensures Write8(m, w, data).ram[w.addr] == if m.io.ramWriteEnabled then data else m.ram[w.addr]
    ensures !InIoWindow(w.addr) ==> Write8(m, w, data).io == m.io
  {
  }

  /**
   * With RAM writes enabled, reading back an address outside the I/O window
   * returns the byte written, unless the boot ROM hides it: then the read
   * returns the ROM byte although RAM holds the written one.
   */
  lemma WriteThenRead(m: Machine, w: WrapAddr, data: u8)
    requires MachineOk(m) && m.io.ramWriteEnabled && !InIoWindow(w.addr)
    ensures Read8(Write8(m, w, data), w).Some?
    ensures !(w.addr >= 0xFFC0 && m.io.romReadEnabled) ==> Read8(Write8(m, w, data), w).value.v == data
    ensures w.addr >= 0xFFC0 && m.io.romReadEnabled ==>
              Read8(Write8(m, w, data), w).value.v == BootRom[w.addr - 0xFFC0] &&
              Write8(m, w, data).ram[w.addr] == data
  {
  }

  /** `read_16`: low byte, then the high byte at `offset(1)`. */
  function Read16(m: Machine, w: WrapAddr): (r: Option<Got<u16>>)
    requires MachineOk(m)
    ensures r.Some? ==> MachineOk(r.value.m) && r.value.m.regs == m.regs && r.value.m.ram == m.ram
    ensures r.Some? ==> SettingsKept(m.io, r.value.m.io)
  {
    var lo :- Read8(m, w);
    var hi :- Read8(lo.m, SpcTypes.Offset(w, 1));
    Some(Got(Word(lo.v, hi.v), hi.m))
  }

  /** `write_16`: low byte, then the high byte at `offset(1)`. */
  function Write16(m: Machine, w: WrapAddr, data: u16): (r: Machine)
    requires MachineOk(m)
    ensures MachineOk(r) && r.regs == m.regs
  {
    Write8(Write8(m, w, Lo(data)), SpcTypes.Offset(w, 1), Hi(data))
  }

  /** A word written outside the I/O and ROM windows, in RAM that takes writes, reads back whole. */
  lemma Write16ThenRead16(m: Machine, w: WrapAddr, data: u16)
    requires MachineOk(m) && m.io.ramWriteEnabled
    requires w.addr < 0xEF || 0x100 <= w.addr < 0xFFBF
    requires w.mode == NoWrap
    ensures Read16(Write16(m, w, data), w).Some?
    ensures Read16(Write16(m, w, data), w).value.v == data
  {
    var w1 := SpcTypes.Offset(w, 1);
    assert w1.addr == w.addr + 1 && !InIoWindow(w1.addr) && w1.addr < 0xFFC0;
    var m1 := Write8(m, w, Lo(data));
    var m2 := Write8(m1, w1, Hi(data));
    assert m2.ram[w.addr] == Lo(data);
    WordRoundTrip(data, 0, 0);
  }

  /** `pc.wrapping_add(n)`. */
  function PcPlus(pc: u16, n: nat): u16 { (pc + n) % 0x1_0000 }

  /** `fetch_8`: read at PC without wrapping, then advance PC. */
  function Fetch8(m: Machine): (r: Option<Got<u8>>)
    requires MachineOk(m)
    ensures r.Some? ==> MachineOk(r.value.m) && r.value.m.ram == m.ram
    ensures r.Some? ==> r.value.m.regs == m.regs.(pc := PcPlus(m.regs.pc, 1)) && SettingsKept(m.io, r.value.m.io)
  {
    var g :- Read8(m, WrapAddr(m.regs.pc, NoWrap));
    Some(Got(g.v, g.m.(regs := g.m.regs.(pc := PcPlus(m.regs.pc, 1)))))
  }

  /** `fetch_16`: the low byte, then the high byte. */
  function Fetch16(m: Machine): (r: Option<Got<u16>>)
    requires MachineOk(m)
    ensures r.Some? ==> MachineOk(r.value.m) && r.value.m.ram == m.ram
    ensures r.Some? ==> r.value.m.regs == m.regs.(pc := PcPlus(m.regs.pc, 2)) && SettingsKept(m.io, r.value.m.io)
  {
    var lo :- Fetch8(m);
    var hi :- Fetch8(lo.m);
    Some(Got(Word(lo.v, hi.v), hi.m))
  }

  /** `push_8`: write at `0x100 | sp` (8-bit wrapping), then decrement SP modulo 256. */
  function Push8(m: Machine, data: u8): (r: Machine)
    requires MachineOk(m)
    ensures MachineOk(r) && r.regs == m.regs.(sp := (m.regs.sp - 1) % 0x100) && r.io == m.io
  {
    var m1 := Write8(m, StackSlot(m.regs.sp), data);
    m1.(regs := m1.regs.(sp := (m.regs.sp - 1) % 0x100))
  }

  /** `pop_8`: increment SP modulo 256, then read at `0x100 | sp`; page 1 is always RAM, so a pop never fails. */
  function Pop8(m: Machine): (r: Got<u8>)
    requires MachineOk(m)
    ensures MachineOk(r.m) && r.m.regs == m.regs.(sp := (m.regs.sp + 1) % 0x100) && r.m.ram == m.ram
  {
    var m1 := m.(regs := m.regs.(sp := (m.regs.sp + 1) % 0x100));
    Read8(m1, StackSlot(m1.regs.sp)).value
  }

  /** `push_16`: the high byte first, so the low byte ends up at the lower address. */
  function Push16(m: Machine, data: u16): (r: Machine)
    requires MachineOk(m)
    ensures MachineOk(r) && r.regs == m.regs.(sp := (m.regs.sp - 2) % 0x100) && r.io == m.io
  {
    Push8(Push8(m, Hi(data)), Lo(data))
  }

  /** `pop_16`: the low byte, then the high byte. */
  function Pop16(m: Machine): (r: Got<u16>)
    requires MachineOk(m)
    ensures MachineOk(r.m) && r.m.regs == m.regs.(sp := (m.regs.sp + 2) % 0x100) && r.m.ram == m.ram
  {
    var lo := Pop8(m);
    var hi := Pop8(lo.m);
    Got(Word(lo.v, hi.v), hi.m)
  }

  /**
   * The stack lives in page 1: a push writes the byte at `0x100 + sp` and
   * nowhere else in RAM, and touches no I/O register.
   */
  lemma PushWritesPageOne(m: Machine, data: u8)
    requires MachineOk(m)
    ensures Push8(m, data).ram == if m.io.ramWriteEnabled then m.ram[0x100 + m.regs.sp := data] else m.ram
    ensures Push8(m, data).io == m.io
  {
  }

  /**
   * A pop undoes a push: SP (and every other register) is restored, and the
   * byte pushed comes back while RAM takes writes.
   */
  lemma PushThenPop8(m: Machine, data: u8)
    requires MachineOk(m)
    ensures Pop8(Push8(m, data)).m.regs == m.regs
    ensures m.io.ramWriteEnabled ==> Pop8(Push8(m, data)).v == data
  {
  }

  /** The same for words: the two pushes and the two pops pair up in reverse order. */
  lemma {:induction false} PushThenPop16(m: Machine, data: u16)
    requires MachineOk(m)
    ensures Pop16(Push16(m, data)).m.regs == m.regs
    ensures m.io.ramWriteEnabled ==> Pop16(Push16(m, data)).v == data
  {
    var m1 := Push8(m, Hi(data));
    var m2 := Push8(m1, Lo(data));
    PushThenPop8(m1, Lo(data));
    PushThenPop8(m, Hi(data));
    var lo := Pop8(m2);
    assert lo.m.regs == m1.regs;
    if m.io.ramWriteEnabled {
      PushWritesPageOne(m, Hi(data));
      PushWritesPageOne(m1, Lo(data));
      assert m1.regs.sp != m.regs.sp;
      assert lo.m.ram[0x100 + m.regs.sp] == Hi(data);
    }
    WordRoundTrip(data, 0, 0);
  }

  /** A pop reads the page-1 RAM byte just above SP, whatever the ROM and I/O settings. */
  lemma Pop8Reads(m: Machine)
    requires MachineOk(m)
    ensures Pop8(m).v == m.ram[0x100 + (m.regs.sp + 1) % 0x100]
  {
  }

  /** A word pop reads the two page-1 RAM bytes above SP, low byte first. */
  lemma Pop16Reads(m: Machine)
    requires MachineOk(m)
    ensures Pop16(m).v == Word(m.ram[0x100 + (m.regs.sp + 1) % 0x100], m.ram[0x100 + (m.regs.sp + 2) % 0x100])
  {
    var lo := Pop8(m);
    Pop8Reads(m);
    Pop8Reads(lo.m);
    assert ((m.regs.sp + 1) % 0x100 + 1) % 0x100 == (m.regs.sp + 2) % 0x100;
  }

  /** Stack-pointer arithmetic modulo 256: two steps down and back up meet, and three neighbouring slots are distinct. */
  lemma StackArith(sp: u8)
    ensures ((sp - 2) % 0x100 + 1) % 0x100 == (sp - 1) % 0x100
    ensures ((sp - 2) % 0x100 + 2) % 0x100 == sp
    ensures ((sp - 3) % 0x100 + 1) % 0x100 == (sp - 2) % 0x100
    ensures ((sp - 3) % 0x100 + 3) % 0x100 == sp
    ensures ((sp - 1) % 0x100 - 1) % 0x100 == (sp - 2) % 0x100
    ensures ((sp - 2) % 0x100 - 1) % 0x100 == (sp - 3) % 0x100
    ensures (sp - 1) % 0x100 != sp && (sp - 2) % 0x100 != sp && (sp - 2) % 0x100 != (sp - 1) % 0x100
  {
  }

  /** A word push writes its high byte at `0x100 + sp` and its low byte just below, and touches no I/O register. */
  lemma Push16Writes(m: Machine, data: u16)
    requires MachineOk(m) && m.io.ramWriteEnabled
    ensures Push16(m, data).ram[0x100 + m.regs.sp] == Hi(data)
    ensures Push16(m, data).ram[0x100 + (m.regs.sp - 1) % 0x100] == Lo(data)
    ensures Push16(m, data).io == m.io
  {
    var m1 := Push8(m, Hi(data));
    PushWritesPageOne(m, Hi(data));
    PushWritesPageOne(m1, Lo(data));
    StackArith(m.regs.sp);
  }

  /** A word pop from two slots below `sp` returns the word whose bytes sit in the two slots above. */
  lemma Pop16Below(m: Machine, sp: u8, data: u16)
    requires MachineOk(m) && m.regs.sp == (sp - 2) % 0x100
    requires m.ram[0x100 + sp] == Hi(data) && m.ram[0x100 + (sp - 1) % 0x100] == Lo(data)
    ensures Pop16(m).v == data && Pop16(m).m.regs.sp == sp
  {
    Pop16Reads(m);
    StackArith(sp);
    WordRoundTrip(data, 0, 0);
  }

  /** While the boot ROM is mapped, a word read inside its window returns ROM bytes. */
  lemma Read16Rom(m: Machine, a: u16)
    requires MachineOk(m) && m.io.romReadEnabled && 0xFFC0 <= a < 0xFFFF
    ensures Read16(m, WrapAddr(a, NoWrap)).Some?
    ensures Read16(m, WrapAddr(a, NoWrap)).value.v == Word(BootRom[a - 0xFFC0], BootRom[a - 0xFFC0 + 1])
  {
    var w := WrapAddr(a, NoWrap);
    MemoryMap(m, w);
    var lo := Read8(m, w).value;
    assert SpcTypes.Offset(w, 1).addr == a + 1;
    MemoryMap(lo.m, SpcTypes.Offset(w, 1));
  }
}
