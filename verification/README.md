# rust-snes core in Dafny

A model of the emulation core of rust-snes, an early-stage Super Nintendo
emulator, together with proofs about that model. It covers the following parts:

- **Main CPU (WDC 65C816), `src/cpu.rs`**:
  - the register file and the `Status` byte;
  - `WarpAddress` wrapping in its 8-bit-page, 16-bit-bank and 24-bit modes;
  - the stack, including the emulation-mode page-1 lock, and the emulation switch (`set_e`, `xce`);
  - binary and decimal add and subtract, compare, shifts and rotates, BIT/TSB/TRB;
  - branches, REP/SEP and the block moves;
  - exception entry and vector selection;
  - the per-instruction step, which takes an NMI first, then an IRQ that I does not mask, then the opcode.
- **Audio CPU (SPC700), `src/spc.rs`**:
  - the 8-bit registers and the YA pair, the page-1 stack and `WrapAddr`;
  - the memory map: RAM, the I/O registers at 0xF0-0xFF and the 64-byte boot ROM at 0xFFC0;
  - ADC/SBC with half carry, DAA/DAS, DIV/MUL, the bit instructions, branches and calls;
  - the control and port registers, and the three timers with their tick divider;
  - the opcode dispatch.
- **S-DSP, `src/dsp.rs`**:
  - the global and per-voice register file, including the bitmask registers that fan out over the eight voices;
  - the FLG soft reset and the key-on/key-off read-and-clear flags;
  - the ADSR/GAIN envelope state machine;
  - the 15-bit noise shift register;
  - the BRR decoder, which turns a 9-byte block into 16 clamped samples.
- **Address decoding**: `src/bus.rs` routes 24-bit addresses to the 128 KiB WRAM, the PPU registers or the cartridge, and `src/cartridge.rs` maps a bank and offset to a ROM index.
- **Small latches**: the NMI latch (`src/interrupt.rs`), the serial joypad (`src/controller.rs`) and the master counter (`src/counter.rs`).
- **ROM header helpers**: `calc_checksum` and the header bounds check (`src/bin/check_sum.rs`), and `get_title` (`src/bin/show_gametitle.rs`).

The source's style is kept file by file:

- Objects whose fields the source updates in place are classes: `Cpu`, `Spc`, `IoRegisters`, `Dsp`, `Noise`, `Bus`, `Cartridge`, `Interrupt`, `Controller` and `Counter`.
- Each of their methods is proved against a specification function on values, and the properties the emulator relies on are lemmas about those functions.
- Where the source panics, a function returns `None` or a method returns `ok == false`.
- The main CPU's environment has the methods `cpu.rs` calls: bus read and write, the clock, NMI and IRQ. It is an abstract context: a map from 24-bit addresses to bytes, a cycle counter and two interrupt flags.

Modules, by file:

| file | module | contents |
|---|---|---|
| wrappers.dfy | Wrappers | `Option`, fixed-width integer types |
| arith.dfy, bits.dfy | Arith, Bits | arithmetic and bitwise helper facts |
| counter.dfy | MasterCounter | `Counter` |
| interrupt.dfy | InterruptLatch | `Interrupt` |
| controller.dfy | Joypad | `Controller` |
| cartridge.dfy | CartridgeRom | `Cartridge` |
| bus.dfy | SystemBus | `Bus` and address decoding |
| rom_header.dfy | RomHeader | checksum, header words, titles |
| cpu_types.dfy | CpuTypes | registers, `Status`, `WarpAddress` |
| cpu_alu.dfy, cpu_decimal.dfy | CpuAlu, CpuDecimal | binary and decimal ALU |
| cpu_core.dfy | CpuCore | stack, mode switch, addressing, exceptions |
| cpu_instr.dfy | CpuInstr | instruction set and the opcode table |
| cpu_sem.dfy | CpuSemantics | the effect of each instruction and of one step |
| cpu_context.dfy | CpuContext | the abstract bus, clock and interrupt context |
| cpu.dfy | MainCpu | `Cpu` and its handlers |
| cpu_props.dfy | CpuProperties | round trips and step rules |
| spc_types.dfy, spc_mem.dfy | SpcTypes, SpcMemory | SPC700 registers, memory map, stack |
| spc_alu.dfy | SpcAlu | SPC700 ALU |
| spc_sem.dfy, spc_dispatch.dfy | SpcSemantics, SpcDispatch | instruction effects and the opcode dispatch |
| spc_io.dfy | SpcIo | I/O registers, ports and timers |
| spc.dfy | AudioCpu | `Spc` and its handlers |
| dsp_noise.dfy | DspNoise | noise generator |
| dsp_voice.dfy | DspVoice | voice registers, envelopes, BRR |
| dsp.dfy | Dsp | `Dsp` register file |

## Model

| member | source | states |
|---|---|---|
| MasterCounter.Counter.constructor | src/counter.rs:1-8 | the derived default starts the counter and the frame, x and y fields at zero |
| MasterCounter.Counter.Elapse | src/counter.rs:11-13 | the counter grows by exactly `clock` and so never decreases; nothing else changes |
| MasterCounter.Counter.Now | src/counter.rs:15-17 | returns the counter and changes nothing |
| InterruptLatch.LatchNmi | src/interrupt.rs:22-36 | the latch rule of both setters: afterwards `nmi` holds exactly when it was latched or the enable is now on, whatever the previous enable; a latched `nmi` stays latched |
| InterruptLatch.Interrupt.constructor | src/interrupt.rs:1-13 | the derived default: all flags false, `hv_irq_enable` zero |
| InterruptLatch.Interrupt.GetNmiFlag | src/interrupt.rs:16-20 | returns the stored NMI flag and leaves it cleared |
| InterruptLatch.Interrupt.SetNmiFlag | src/interrupt.rs:22-28 | stores the flag; `nmi` becomes "latched or enabled", so the flag argument never influences `nmi` and afterwards the enable implies `nmi` |
| InterruptLatch.Interrupt.SetNmiEnable | src/interrupt.rs:30-36 | stores the enable; `nmi` becomes "latched or newly enabled", so afterwards the enable implies `nmi` |
| InterruptLatch.Interrupt.NmiOccurred | src/interrupt.rs:38-40 | returns the latched `nmi` without side effects |
| InterruptLatch.Interrupt.SetHvIrqEnable | src/interrupt.rs:42-44 | stores the value |
| InterruptLatch.Interrupt.GetHvIrqEnable | src/interrupt.rs:46-48 | returns the last value stored, without side effects |
| InterruptLatch.Interrupt.SetJoypadEnable | src/interrupt.rs:50-52 | stores the flag |
| InterruptLatch.NmiMonotone | src/interrupt.rs:22-36 | once `nmi` is latched, no sequence of flag or enable writes clears it |
| Joypad.SerialBits | src/controller.rs:32-52 | the byte a read returns is at most 3: 0b11 past position 15, otherwise bit 0 is bit 15-pos of pad 0 and bit 1 is bit 15-pos of pad 1 |
| Joypad.Controller.constructor | src/controller.rs:19-24 | the derived default: both pads zero, position zero |
| Joypad.Controller.Initialize | src/controller.rs:27-30 | resets the position to 0 and leaves the pad data unchanged |
| Joypad.Controller.Read | src/controller.rs:32-61 | returns `SerialBits` at the current position and advances the position by one while it is at most 15, leaving it unchanged afterwards |
| Joypad.Pad0StreamIsMsbFirst | src/controller.rs:27-51 | after `initialize`, the sixteen reads emit pad 0 most significant bit first in bit 0 |
| SystemBus.Decode | src/bus.rs:16-33 | the bank/offset routing: system-bank offsets below 0x2000 and every address of banks 7E-7F go to WRAM, always at an index below 0x20000; banks 40-7D and C0-FF and system-bank offsets from 0x8000 go to the cartridge; 0x2100-0x213F to the PPU; the rest of a system bank is unmapped; banks above FF are invalid |
| SystemBus.LowRamMirrorsBank7E | src/bus.rs:20-28 | offset o below 0x2000 in any system bank reaches the same WRAM cell as 0x7E0000 + o |
| SystemBus.Bus.constructor | src/bus.rs:9-13 | the 128 KiB WRAM starts zeroed |
| SystemBus.Bus.Read | src/bus.rs:16-33 | returns the WRAM byte the address decodes to, 0 for PPU registers (the PPU is a stub), the cartridge's byte for cartridge addresses, and no value (the source panics) for unmapped addresses and invalid banks |
| SystemBus.Bus.Write | src/bus.rs:35-51 | a WRAM write changes exactly the one decoded byte; a cartridge write stores through the cartridge's index rule and fails when the index is missing or past the ROM; PPU and unmapped writes are dropped and change nothing; an invalid bank fails |
| SystemBus.WriteThenRead | src/bus.rs:16-47 | a WRAM write followed by a read at the same address returns the byte written |
| CartridgeRom.CheckedSub | src/cartridge.rs:25-36 | the `usize` subtraction of the high-bank cases: defined exactly when it does not underflow, and then the exact difference |
| CartridgeRom.ReadIndex | src/cartridge.rs:12-41 | an index exists exactly for banks 00-3F and is the 16-bit offset folded into the 32 KiB window; in banks 40-FF the base subtracted from a 16-bit offset always underflows |
| CartridgeRom.Read | src/cartridge.rs:12-41 | banks 00-3F read rom[offset - 0x8000] at offsets from 0x8000 and rom[offset] below; an index past the ROM and every bank above 3F yield no value (the source panics) |
| CartridgeRom.WriteIndex | src/cartridge.rs:43-61 | bank 00-3F writes use the raw address; banks 40-7D, 80-BF and C0-FF subtract 0x400000, 0x800000 and 0xC00000; no other bank has an index |
| CartridgeRom.Cartridge.constructor | src/cartridge.rs:6-8 | the cartridge holds the image it is given |
| CartridgeRom.Cartridge.Write | src/cartridge.rs:43-61 | succeeds exactly when the write index exists and is inside the ROM, then changes exactly that byte; otherwise the ROM is unchanged |
| CartridgeRom.LowBanksMirror | src/cartridge.rs:18-24 | in banks 00-3F the bank number is ignored and offsets o and o + 0x8000 read the same byte |
| CartridgeRom.FirstRomByte | src/cartridge.rs:18-24 | bank 0 offset 0x8000 reads rom[0] |
| CartridgeRom.Bank0WriteThenRead | src/cartridge.rs:12-46 | a bank-0 write then read round-trips below offset 0x8000; at and above 0x8000 the read sees rom[offset - 0x8000] instead |
| RomHeader.CalcChecksum | src/bin/check_sum.rs:24-30 | the wrapping 16-bit sum equals the sum of all bytes modulo 65536 (0 for an empty image) |
| RomHeader.SumPermutation | src/bin/check_sum.rs:24-30 | the checksum does not depend on the order of the bytes: images with the same multiset of bytes have the same sum |
| RomHeader.LeWord | src/bin/check_sum.rs:14-16 | `u16::from_le_bytes`: below 0x10000, low byte first |
| RomHeader.ReadHeader | src/bin/check_sum.rs:8-16 | "over" exactly when the 256-byte header page does not fit; otherwise the complement and checksum words, little-endian at base + 0xDC and base + 0xDE, lie inside the image |
| RomHeader.TitleAt | src/bin/show_gametitle.rs:17-26 | "over" exactly when base + 0x100 passes the end; otherwise the 21 bytes at base + 0xC0, decoded and trimmed, or "None" when decoding fails |
| RomHeader.GetTitle | src/bin/show_gametitle.rs:12-30 | exactly three entries, for the bases 0x7F00, 0xFF00 and 0x40FF00 in that order |
| CpuTypes.WordRoundTrip | src/cpu.rs:185-206 | a word rebuilt as `hi << 8 \| lo` from its two bytes is the word itself, and the bytes of a built word are the ones it was built from |
| CpuTypes.SetLow | src/cpu.rs:308-329 | `w & 0xFF00 \| b`: the high byte is kept and the low byte is `b` |
| CpuTypes.StatusRoundTrip | src/cpu.rs:67-95 | converting any byte to `Status` and back yields the same byte, and any status survives the trip through a byte |
| CpuTypes.SetNZ8 | src/cpu.rs:350-361 | `set_nz` on a byte: Z exactly when it is zero, N exactly when bit 7 is set, no other flag changes |
| CpuTypes.SetNZ16 | src/cpu.rs:350-361 | `set_nz` on a word: Z exactly when it is zero, N exactly when bit 15 is set, no other flag changes |
| CpuTypes.RepClearsExactly | src/cpu.rs:2292-2297 | REP clears exactly the status bits set in the operand and leaves the others |
| CpuTypes.SepSetsExactly | src/cpu.rs:2299-2304 | SEP sets exactly the status bits set in the operand and leaves the others |
| CpuTypes.Offset | src/cpu.rs:165-179 | `WarpAddress::offset` keeps the wrapping mode |
| CpuTypes.OffsetKeepsPage | src/cpu.rs:165-170 | in Warp8bit mode address bits 8-23 are kept and the low byte is that of the plain sum |
| CpuTypes.OffsetKeepsBank | src/cpu.rs:171-173 | in Warp16bit mode address bits 16-23 are kept and the low word is that of the plain sum |
| CpuTypes.OffsetNoWarp | src/cpu.rs:174 | in NoWarp mode the result is (addr + offset) mod 2^24, equal to the 16-bit wrap whenever no bank boundary is crossed |
| CpuTypes.InterruptVector | src/cpu.rs:400-438 | every vector is an even address from 0xFFE4; it lies at or above 0xFFF4 exactly in emulation mode or for RESET |
| CpuTypes.VectorsDistinctInNativeMode | src/cpu.rs:400-438 | in native mode distinct exceptions have distinct vectors; in emulation mode only BRK and IRQ share one |
| CpuTypes.BranchPairsComplementary | src/cpu.rs:2244-2255 | the eight branch conditions form four complementary pairs: exactly one of each pair holds |
| CpuTypes.SignExtend8 | src/cpu.rs:2233 | `disp as i8 as u16`: the low byte is the displacement and the high byte is 0xFF exactly when it is negative |
| CpuTypes.SignExtendIsSigned | src/cpu.rs:2233-2236 | adding the sign-extended displacement moves PC by the byte's signed value, modulo 2^16 |
| CpuAlu.BinAdd8Spec | src/cpu.rs:1565-1573 | `bin_add_8`: carry and result together are exactly a + b + C; V exactly when the signed sum leaves the `i8` range (the operands share a sign the result lacks); no flag but C and V changes |
| CpuAlu.BinAdd16Spec | src/cpu.rs:1601-1609 | `bin_add_16`: the same at 16 bits |
| CpuAlu.BinSub8Spec | src/cpu.rs:1672-1681 | `bin_sub_8`: the result is (a - b - (1 - C)) mod 256; C exactly when a >= b + (1 - C); V exactly when the signed difference leaves the `i8` range; no other flag changes |
| CpuAlu.BinSub16Spec | src/cpu.rs:1722-1731 | `bin_sub_16`: the same at 16 bits |
| CpuAlu.SubIsAddOfComplement8 | src/cpu.rs:1565-1681 | binary subtraction is binary addition of the one's complement: same result, C and V |
| CpuAlu.SubIsAddOfComplement16 | src/cpu.rs:1601-1731 | the same at 16 bits |
| CpuAlu.CmpIsSubWithoutBorrow8 | src/cpu.rs:1750-1754 | `cmp_8` yields the difference and C of a subtraction without borrow; C exactly when a >= b; no other flag changes |
| CpuAlu.CmpIsSubWithoutBorrow16 | src/cpu.rs:1756-1760 | the same at 16 bits |
| CpuAlu.IncDecInverse8 | src/cpu.rs:1842-1949 | the 8-bit wrapping increment and decrement undo each other and wrap at 0xFF and 0 |
| CpuAlu.IncDecInverse16 | src/cpu.rs:1842-1949 | the same at 16 bits |
| CpuAlu.Shift8 | src/cpu.rs:1976-2126 | an 8-bit shift or rotate sets N and Z from the result and changes no flag but C, N and Z |
| CpuAlu.Shift16 | src/cpu.rs:1976-2126 | the same at 16 bits |
| CpuAlu.Shift8Spec | src/cpu.rs:1976-2126 | ASL: C and result are 2d; ROL: 2d + C; LSR: 2 * result + C is d; ROR: 2 * result + C is d + 256 * old C |
| CpuAlu.Shift16Spec | src/cpu.rs:1976-2126 | the same at 16 bits |
| CpuAlu.RotateInverse8 | src/cpu.rs:2048-2126 | ROL then ROR (and ROR then ROL) restore the value and the carry |
| CpuAlu.RotateInverse16 | src/cpu.rs:2048-2126 | the same at 16 bits |
| CpuAlu.Bit8 | src/cpu.rs:1796-1810 | BIT changes only N, V and Z, and in immediate mode only Z |
| CpuAlu.Bit16 | src/cpu.rs:1811-1824 | the same at 16 bits |
| CpuAlu.BitFlags8 | src/cpu.rs:1796-1810 | Z exactly when A and the operand share no set bit; outside immediate mode N is bit 7 of the operand |
| CpuAlu.BitFlags16 | src/cpu.rs:1811-1824 | the same at 16 bits, N from bit 15 |
| CpuAlu.TestAndModify8 | src/cpu.rs:1950-1974 | TSB stores operand OR A and TRB operand AND NOT A, bit by bit; both set only Z, as BIT in immediate mode does |
| CpuAlu.TestAndModify16 | src/cpu.rs:1950-1974 | the same at 16 bits |
| CpuDecimal.DcdAdd8 | src/cpu.rs:1548-1563 | `dcd_add_8` changes no flag but C and V |
| CpuDecimal.DcdAdd8RawDigits | src/cpu.rs:1551-1558 | on decimal operands the two correction stages compute, digit by digit, each sum digit and its decimal carry |
| CpuDecimal.DcdAdd8RawValue | src/cpu.rs:1548-1563 | on decimal operands the value before truncation is below 0x200, its low byte is decimal, and carry-out and low byte make up the exact decimal sum |
| CpuDecimal.DcdAdd8Spec | src/cpu.rs:1548-1563 | on decimal operands the result is decimal and C * 100 + result is exactly a + b + C in decimal |
| CpuDecimal.DcdAdd16 | src/cpu.rs:1575-1599 | `dcd_add_16` changes no flag but C and V |
| CpuDecimal.DcdAdd16RawDigits | src/cpu.rs:1578-1593 | on decimal operands the four correction stages compute, digit by digit, each sum digit and its decimal carry |
| CpuDecimal.DcdAdd16RawValue | src/cpu.rs:1575-1599 | on decimal operands the value before truncation is below 0x20000, its low word is decimal, and carry-out and low word make up the exact decimal sum |
| CpuDecimal.DcdAdd16Spec | src/cpu.rs:1575-1599 | on decimal operands the result is decimal and C * 10000 + result is exactly a + b + C in decimal |
| CpuDecimal.DcdSub8 | src/cpu.rs:1629-1670 | `dcd_sub_8` changes no flag but C and V |
| CpuDecimal.DcdSub16 | src/cpu.rs:1683-1720 | `dcd_sub_16` changes no flag but C and V |
| CpuDecimal.DcdSub8Flags | src/cpu.rs:1632-1636 | decimal subtraction sets C and V exactly as binary subtraction does |
| CpuDecimal.DcdSub16Flags | src/cpu.rs:1686-1691 | the same at 16 bits |
| CpuDecimal.DcdSub8Value | src/cpu.rs:1653-1669 | on decimal operands the two digit stages yield a decimal byte whose value is (a - b - borrow) mod 100 |
| CpuDecimal.DcdSub16Value | src/cpu.rs:1692-1720 | on decimal operands the digit stages yield a decimal word whose value is (a - b - borrow) mod 10000 |
| CpuDecimal.BcdOrder8 | src/cpu.rs:1632-1634 | on decimal bytes the binary order is the decimal order, so the binary borrow is the decimal borrow |
| CpuDecimal.BcdOrder16 | src/cpu.rs:1686-1688 | the same for decimal words |
| CpuDecimal.DcdSub8Spec | src/cpu.rs:1629-1670 | on decimal operands the result is decimal, its value is (a - b - (1 - C)) mod 100, and C is set exactly when no decimal borrow occurs |
| CpuDecimal.DcdSub16Spec | src/cpu.rs:1683-1720 | the same at 16 bits, modulo 10000 |
| CpuCore.StackPointerEmulation | src/cpu.rs:308-329 | in emulation mode `push_8` and `pop_8` move only the low byte of S: they undo each other, keep S in its page and always move it |
| CpuCore.StackPointerRoundTrip | src/cpu.rs:308-329 | in either mode a push and a pop of S undo each other in both orders, and neither leaves S where it was |
| CpuCore.Push8 | src/cpu.rs:308-315 | `push_8` writes the byte at the old S, changes no other byte, and moves S down |
| CpuCore.Push16 | src/cpu.rs:317-320 | `push_16` writes the high byte at S and the low byte one below, changes no other byte, and moves S down twice |
| CpuCore.PushThenPull8 | src/cpu.rs:308-329 | `pop_8` after `push_8` returns the pushed byte and restores S |
| CpuCore.PushThenPull16 | src/cpu.rs:317-335 | `pop_16` after `push_16` returns the pushed word and restores S, in both modes |
| CpuCore.EffectiveAddress | src/cpu.rs:441-700 | `get_warp_address` consumes two operand bytes for the absolute modes, three for the long ones and one for the rest; its absolute mode is the corrected one of the Findings (data bank, not program bank) |
| CpuCore.LongModes | src/cpu.rs:461-620 | the long modes address the three operand bytes, low byte first, with no wrapping rule; long-X adds X modulo 2^24 |
| CpuCore.AbsoluteIndexed | src/cpu.rs:605-628 | absolute-X and absolute-Y address the operand word in the data bank plus the index, carrying into the next bank and wrapping at 2^24 |
| CpuCore.AbsoluteIndexedIndirectInProgramBank | src/cpu.rs:667-673 | `(a,X)` addresses operand + X modulo 2^16 in the program bank, with the in-bank wrapping rule |
| CpuCore.DirectIndexedNative | src/cpu.rs:565-604 | outside the page-wrapping case direct-X and direct-Y address bank 0 at D + operand + index modulo 2^16, with the penalty cycle when D is not page aligned |
| CpuCore.DirectIndexedWrap8 | src/cpu.rs:565-604 | in the page-wrapping case direct-X and direct-Y address D's page at (operand + index) modulo 256, with no extra cycle |
| CpuCore.DirectIndirectModes | src/cpu.rs:632-666 | `(d)` reads a pointer word from bank 0 at D + operand modulo 2^16 and addresses it in the data bank; `[d]` reads a 24-bit pointer there and addresses it as is |
| CpuCore.IndirectIndexedNative | src/cpu.rs:488-512 | outside the page-wrapping case `(d),Y` reads the pointer word from bank 0 at D + operand and adds Y to the data-bank address, carrying across banks |
| CpuCore.IndirectLongIndexedNative | src/cpu.rs:513-537 | outside the page-wrapping case `[d],Y` adds Y, modulo 2^24, to the long pointer read from bank 0 at D + operand |
| CpuCore.IndirectIndexedWrap8 | src/cpu.rs:488-512 | in the page-wrapping case both bytes of the `(d),Y` pointer come from D's page, and no extra cycle is spent |
| CpuCore.IndexedIndirectNative | src/cpu.rs:538-564 | outside the page-wrapping case `(d,X)` reads the pointer word from bank 0 at D + operand + X modulo 2^16 and addresses it in the data bank |
| CpuCore.IndexedIndirectWrap8 | src/cpu.rs:538-564 | in the page-wrapping case `(d,X)` reads the pointer word from D's page at (operand + X) modulo 256, its high byte wrapping within the page too |
| CpuCore.StackRelativeModes | src/cpu.rs:675-696 | `(s)` addresses S + operand modulo 2^16 in bank 0; `(s),Y` reads a pointer word there, adds Y in the data bank and spends one cycle |
| CpuCore.DirectPageWraps | src/cpu.rs:468-604 | in emulation mode with a page-aligned D, the direct modes address D plus the operand and indexing stays in D's page |
| CpuCore.DirectNative | src/cpu.rs:468-487 | in native mode the direct mode addresses D plus the operand modulo 64 KiB and costs one extra cycle exactly when D is not page aligned |
| CpuCore.ArbitrationRules | src/cpu.rs:707-736 | a pending NMI is always taken; an IRQ is taken exactly when I is clear and no NMI is pending; a masked IRQ runs the next opcode; the CPU stays halted exactly when halted with neither interrupt pending |
| CpuCore.Arbitrate | src/cpu.rs:707-736 | the start of `excecute_instruction_`: nothing happens exactly when the clock is past the previous counter; otherwise a pending NMI always wins, an IRQ is taken only when unmasked and no NMI is pending, and the CPU idles only while halted with neither pending |
| CpuCore.AluAccumulator8 | src/cpu.rs:1486-1508 | with an 8-bit accumulator `alu` keeps A's high byte; CMP keeps A and changes only N, Z and C (set exactly when A's low byte is at least the operand); OR/AND/EOR change only N and Z; Z tracks the result; I, X, M and D never change |
| CpuCore.AluAccumulator16 | src/cpu.rs:1509-1530 | the same with a 16-bit accumulator, comparing the whole of A |
| CpuCore.XceExchanges | src/cpu.rs:2306-2312 | XCE gives C the old E and E the old C, so two XCEs restore both |
| CpuCore.SetE | src/cpu.rs:337-348 | `set_e` stores E; entering emulation mode forces M and X, cuts X and Y to their low bytes and puts S in page 1 with its low byte kept; leaving it changes only E; A, D, DB, PB and PC never change |
| CpuCore.Xce | src/cpu.rs:2306-2312 | `xce` gives E the old C and C the old E |
| CpuCore.XceToEmulation | src/cpu.rs:337-348 | entering emulation mode sets M and X, keeps only the low bytes of X and Y, and puts S in page 1 with its low byte kept |
| CpuCore.XceToNative | src/cpu.rs:2306-2312 | entering or staying in native mode changes nothing but C and E |
| CpuCore.BranchTargetSigned | src/cpu.rs:2232-2242 | a taken branch adds the sign-extended displacement to PC, wrapping within the bank |
| CpuContext.Store16 | src/cpu.rs:202-205 | `write_16` stores a word that `read_16` at the same address reads back, and changes no byte but the two it writes |
| CpuContext.Context.Write | src/context.rs:1-4 | `bus_write` changes the one addressed byte and nothing else: not the clock, not the interrupt lines |
| CpuContext.Context.Elapse | src/context.rs:11-13 | `elapse` advances the clock by the given cycles and changes nothing else |
| CpuContext.Context.Write8 | src/cpu.rs:198-200 | `WarpAddress::write_8` stores one byte at the address |
| CpuContext.Context.Write16 | src/cpu.rs:202-205 | `WarpAddress::write_16` leaves memory as `Store16` describes |
| MainCpu.Cpu.constructor | src/cpu.rs:31-54 | `Cpu::default()`: every register zero except S = 0x01FF, emulation mode on, the default status, not halted or stopped |
| MainCpu.Cpu.Reset | src/cpu.rs:268-284 | `reset` loads PC from the reset vector at 0xFFFC, zeroes A, X, Y, D, DB and PB, sets S = 0x01FF, the default status and emulation mode, spends 170 cycles and writes no memory |
| MainCpu.Cpu.Fetch8 | src/cpu.rs:289-293 | `fetch_8` returns the byte at PB:PC and advances PC by one within the bank, changing no other register |
| MainCpu.Cpu.Fetch16 | src/cpu.rs:295-299 | `fetch_16` returns the little-endian word after PC and advances PC by two |
| MainCpu.Cpu.Fetch24 | src/cpu.rs:301-306 | `fetch_24` returns the little-endian 24-bit operand after PC and advances PC by three |
| MainCpu.Cpu.Push8 | src/cpu.rs:308-315 | `push_8` leaves the stack as `CpuCore.Push8` describes and changes no register but S, and not the clock |
| MainCpu.Cpu.Push16 | src/cpu.rs:317-320 | `push_16` leaves the stack as `CpuCore.Push16` describes and changes no register but S |
| MainCpu.Cpu.Pop8 | src/cpu.rs:322-329 | `pop_8` moves S up and returns the byte S then points at |
| MainCpu.Cpu.Pop16 | src/cpu.rs:331-335 | `pop_16` pops the low byte, then the high byte |
| MainCpu.Cpu.SetE | src/cpu.rs:337-348 | `set_e` leaves the registers as `CpuCore.SetE` describes |
| MainCpu.Cpu.Exception | src/cpu.rs:379-398 | `exeption` leaves WAI, in emulation mode sets the B bit for BRK and COP only, pushes PB (native mode only), PC and P, sets I, zeroes PB and jumps through the vector, as `ExceptionEntry` describes |
| MainCpu.Cpu.AbsoluteAddress | src/cpu.rs:441-700 | the absolute, long, absolute-indexed, absolute-indexed-indirect and stack-relative modes read their operands and return the address `EffectiveAddress` gives, with no extra cycle |
| MainCpu.Cpu.DirectAddress | src/cpu.rs:468-604 | the direct, direct-X and direct-Y modes return the address `EffectiveAddress` gives and spend its extra cycle |
| MainCpu.Cpu.IndirectIndexedAddress | src/cpu.rs:488-537 | the (d),Y and [d],Y modes read the pointer and return the address `EffectiveAddress` gives |
| MainCpu.Cpu.StackIndirectAddress | src/cpu.rs:682-697 | the (s),Y mode returns the address `EffectiveAddress` gives |
| MainCpu.Cpu.DirectIndirectAddress | src/cpu.rs:538-666 | the (d,X), (d) and [d] modes return the address `EffectiveAddress` gives |
| MainCpu.Cpu.GetWarpAddress | src/cpu.rs:441-700 | `get_warp_address` returns `EffectiveAddress`'s address, consumes its operand bytes, spends its cycles and writes no memory |
| MainCpu.Cpu.ReadOperandOf | src/cpu.rs:1486-1527 | the operand read: an immediate fetched after the opcode, or the byte or word at the effective address |
| MainCpu.Cpu.AluOp | src/cpu.rs:1486-1530 | `alu` leaves registers, memory and clock as `AluSem` describes |
| MainCpu.Cpu.CompareIndex | src/cpu.rs:1762-1794 | `cmp_xy` as `CmpIndexSem` describes |
| MainCpu.Cpu.BitTestOp | src/cpu.rs:1796-1824 | `bit` as `BitSem` describes |
| MainCpu.Cpu.ReadModifyWrite | src/cpu.rs:1826-2126 | INC, DEC, TSB, TRB and the shifts on memory as `ModifySem` describes |
| MainCpu.Cpu.ShiftAccumulator | src/cpu.rs:1976-2106 | `asl_a`, `lsr_a`, `rol_a` and `ror_a` as `ShiftASem` describes, one cycle |
| MainCpu.Cpu.StepReg | src/cpu.rs:1842-1948 | `inx`, `iny`, `ina`, `dex`, `dey` and `dea` as `StepRegister` describes, one cycle |
| MainCpu.Cpu.TransferReg | src/cpu.rs:1100-1248 | the register transfers as `TransferSem` describes, one cycle |
| MainCpu.Cpu.LoadReg | src/cpu.rs:1251-1327 | LDA, LDX and LDY as `LoadSem` describes |
| MainCpu.Cpu.StoreReg | src/cpu.rs:1329-1363 | STZ, STA, STX and STY as `StoreSem` describes |
| MainCpu.Cpu.PushReg | src/cpu.rs:1365-1410 | PHA, PHX, PHY, PHP, PHB, PHK and PHD as `PushSem` describes |
| MainCpu.Cpu.PullReg | src/cpu.rs:1429-1484 | PLA, PLX, PLY, PLD, PLB and PLP as `PullSem` describes, two cycles |
| MainCpu.Cpu.PushEffective | src/cpu.rs:1412-1416 | `pei` as `PeiSem` describes |
| MainCpu.Cpu.PushAbsolute | src/cpu.rs:1418-1421 | `pea` as `PeaSem` describes |
| MainCpu.Cpu.PushRelative | src/cpu.rs:1423-1427 | `per` as `PerSem` describes |
| MainCpu.Cpu.SoftwareInterruptOp | src/cpu.rs:1083-1097 | `brk` and `cop` skip the signature byte, clear DB in emulation mode, and enter the exception as `SoftwareInterrupt` describes |
| MainCpu.Cpu.BranchAlways | src/cpu.rs:2128-2135 | `jmp_disp_8` (BRA) as `BranchAlwaysSem` describes |
| MainCpu.Cpu.BranchLong | src/cpu.rs:2137-2141 | `jmp_disp_16` (BRL) as `BranchLongSem` describes |
| MainCpu.Cpu.JumpAbsolute | src/cpu.rs:2143-2146 | `jmp_abs` as `JmpSem` describes |
| MainCpu.Cpu.JumpLong | src/cpu.rs:2148-2152 | `jmp_abs_long` as `JmlSem` describes |
| MainCpu.Cpu.JumpIndirect | src/cpu.rs:2154-2161 | `jmp_nnnn` as `JmpIndirectSem` describes |
| MainCpu.Cpu.JumpIndexedIndirect | src/cpu.rs:2163-2173 | `jmp_nnnn_x` as `JmpIndexedIndirectSem` describes |
| MainCpu.Cpu.JumpLongIndirect | src/cpu.rs:2175-2183 | `jmp_far` as `JmlIndirectSem` describes |
| MainCpu.Cpu.JumpSubroutine | src/cpu.rs:2185-2190 | `jsr_abs` as `JsrSem` describes |
| MainCpu.Cpu.JumpSubroutineLong | src/cpu.rs:2192-2200 | `jsl_far` as `JslSem` describes |
| MainCpu.Cpu.JumpSubroutineIndexedIndirect | src/cpu.rs:2202-2209 | `jsr_aix` as `JsrIndexedIndirectSem` describes |
| MainCpu.Cpu.ReturnFromInterrupt | src/cpu.rs:2211-2219 | `rti` as `RtiSem` describes |
| MainCpu.Cpu.ReturnLong | src/cpu.rs:2221-2225 | `rtl` as `RtlSem` describes, two cycles |
| MainCpu.Cpu.ReturnSubroutine | src/cpu.rs:2227-2230 | `rts` as `RtsSem` describes, three cycles |
| MainCpu.Cpu.ConditionalBranch | src/cpu.rs:2232-2242 | `cond_branch` as `BranchSem` describes |
| MainCpu.Cpu.StatusFlag | src/cpu.rs:2257-2290 | CLC, CLI, CLD, CLV, SEC, SEI and SED change the one flag `FlagSem` names, one cycle |
| MainCpu.Cpu.ResetStatus | src/cpu.rs:2292-2297 | `rep` as `StatusBitsSem` describes with the bits cleared |
| MainCpu.Cpu.SetStatus | src/cpu.rs:2299-2304 | `sep` as `StatusBitsSem` describes with the bits set |
| MainCpu.Cpu.ExchangeCarryEmulation | src/cpu.rs:2306-2312 | `xce` leaves the registers as `Xce` describes, one cycle |
| MainCpu.Cpu.StopClock | src/cpu.rs:2314-2317 | `stp` sets the stop flag and changes nothing else, one cycle |
| MainCpu.Cpu.SwapAccumulator | src/cpu.rs:2319-2323 | `xba` as `XbaSem` describes, one cycle |
| MainCpu.Cpu.WaitInterrupt | src/cpu.rs:2325-2328 | `wai` sets the halt flag and changes nothing else, two cycles |
| MainCpu.Cpu.ReservedOp | src/cpu.rs:2330-2332 | `wdm` skips its operand byte and does nothing else |
| MainCpu.Cpu.NoOperation | src/cpu.rs:2334-2336 | `nop` spends one cycle and changes nothing |
| MainCpu.Cpu.BlockMove | src/cpu.rs:2338-2400 | `mvp` and `mvn` as `MoveSem` describes |
| MainCpu.Cpu.RunArithmetic | src/cpu.rs:739-1057 | the arithmetic opcodes run as `ExecuteArithmetic` describes |
| MainCpu.Cpu.RunModify | src/cpu.rs:739-1057 | the read-modify-write opcodes run as `ExecuteModify` describes |
| MainCpu.Cpu.RunTransfer | src/cpu.rs:739-1057 | the load, store, transfer, push and pull opcodes run as `ExecuteTransfer` describes |
| MainCpu.Cpu.RunControl | src/cpu.rs:739-1057 | the jump, call, return and branch opcodes run as `ExecuteControl` describes |
| MainCpu.Cpu.RunMisc | src/cpu.rs:739-1057 | the flag, mode and other opcodes run as `ExecuteMisc` describes |
| MainCpu.Cpu.Run | src/cpu.rs:739-1057 | the opcode table: every instruction runs as `Execute` describes |
| MainCpu.Cpu.FetchAndRun | src/cpu.rs:736-1057 | fetch the opcode, decode it with the table, and run it |
| MainCpu.Cpu.Interrupt | src/cpu.rs:713-726 | an interrupt taken between instructions costs one dummy read cycle and then enters the exception |
| MainCpu.Cpu.StepInstruction | src/cpu.rs:707-1081 | `excecute_instruction_` leaves registers, memory and clock as `Step` describes |
| MainCpu.Cpu.ExecuteInstruction | src/cpu.rs:702-705 | `excecute_instruction` does one step and then records the clock in `prev_counter` |
| CpuInstr.DecodeBranches | src/cpu.rs:739-1057 | every opcode x0 with an odd high nibble decodes to a conditional branch, taken exactly when the flag bits 6-7 select (N, V, C, Z) equals bit 5 |
| CpuInstr.DecodeAccumulatorGroup | src/cpu.rs:739-1057 | every odd opcode outside column B decodes to the ALU operation, LDA or STA that bits 5-7 select, on the operand bits 0-4 select; 0x89 is BIT immediate instead of STA |
| CpuInstr.SoleOpcodeDecodes | src/cpu.rs:739-1057 | each of the 28 handlers that take no argument from the table (BRK 0x00, COP 0x02, JSR 0x20, JSL 0x22, RTI 0x40, WDM 0x42, MVP 0x44, JMP 0x4C, MVN 0x54, JML 0x5C, RTS 0x60, PER 0x62, RTL 0x6B, JMP (a) 0x6C, JMP (a,X) 0x7C, BRA 0x80, BRL 0x82, REP 0xC2, WAI 0xCB, PEI 0xD4, STP 0xDB, JML [a] 0xDC, SEP 0xE2, NOP 0xEA, XBA 0xEB, PEA 0xF4, XCE 0xFB, JSR (a,X) 0xFC) is what its opcode decodes to |
| CpuInstr.DecodeSoleOpcode | src/cpu.rs:739-1057 | no other opcode decodes to one of those 28 handlers, so each sits in exactly one entry of the table |
| CpuCore.AbsoluteIsUnindexed | src/cpu.rs:605-611 | the corrected absolute mode of the Findings addresses the operand in the data bank DB, exactly as absolute-X with X = 0 does; the source takes the program bank |
| CpuCore.AbsoluteAsWrittenMissesDataBank | src/cpu.rs:454-460 | as written, the absolute mode puts PB in the bank byte, so whenever PB and DB differ it addresses another byte than absolute-X with X = 0 |
| CpuSemantics.AdvanceAdds | src/cpu.rs:289-306 | fetching n operand bytes and then k more is the same as fetching n + k, and the k-th byte after the first n is byte n + k |
| CpuSemantics.StatusByteRoundTrip | src/cpu.rs:68-94 | converting the flags to the P byte and back gives the same flags |
| CpuSemantics.ReadOperand | src/cpu.rs:1251-1327 | an operand read at 8-bit width is below 0x100 |
| CpuProperties.Dec8Exact | src/cpu.rs:1904-1917 | an 8-bit decrement is x - 1, and 0xFF when x is 0 |
| CpuProperties.Dec16Exact | src/cpu.rs:1904-1917 | a 16-bit decrement is x - 1, and 0xFFFF when x is 0 |
| CpuProperties.PushSlotsDistinct | src/cpu.rs:308-315 | three pushes in a row use three different stack slots, in either mode |
| CpuProperties.PhaThenPla | src/cpu.rs:1365-1441 | PLA after PHA gives back A at its width; only the flags change |
| CpuProperties.PhxThenPlx | src/cpu.rs:1374-1467 | PLX after PHX, and PLY after PHY, give back the index register, truncated to its low byte when the index registers are 8-bit; only the flags change |
| CpuProperties.PhpThenPlp | src/cpu.rs:1392-1484 | PLP after PHP restores every register and flag |
| CpuProperties.PhdThenPld | src/cpu.rs:1407-1473 | PLD after PHD restores D; N and Z then follow D |
| CpuProperties.JsrThenRts | src/cpu.rs:2185-2230 | RTS after JSR returns to the instruction after the JSR with S restored |
| CpuProperties.JslThenRtl | src/cpu.rs:2192-2225 | RTL after JSL returns to the instruction after the JSL, in the caller's bank, with S restored |
| CpuProperties.ExceptionThenRti | src/cpu.rs:379-398 | RTI (lines 2211-2219) after an interrupt or exception entry restores PC, S and the other registers and clears the halt; in emulation mode P comes back with its X (break) bit set exactly for BRK and COP, and PB stays 0 because RTI pulls no bank there |
| CpuProperties.BlockMoveStep | src/cpu.rs:2338-2400 | one MVN or MVP step copies the source byte to the destination, changes no other byte, sets DB to the destination bank, decrements A, and repeats the instruction until A was 0 |
| CpuProperties.IncThenDecRegister | src/cpu.rs:1842-1948 | DEA, DEX or DEY after INA, INX or INY restores the register at its width; only the flags change |
| CpuProperties.IncThenDecA8 | src/cpu.rs:1872-1948 | with an 8-bit accumulator, DEA after INA restores both bytes of A |
| CpuProperties.IncThenDecIndex8 | src/cpu.rs:1842-1932 | with 8-bit index registers, DEX after INX and DEY after INY restore the register |
| CpuProperties.IncThenDecX8 | src/cpu.rs:1842-1917 | with an 8-bit X, DEX after INX restores X |
| CpuProperties.IncThenDecY8 | src/cpu.rs:1857-1932 | with an 8-bit Y, DEY after INY restores Y |
| CpuProperties.IncThenDecWide | src/cpu.rs:1842-1948 | with a 16-bit register, the decrement after the increment restores it |
| CpuProperties.StepWide | src/cpu.rs:1842-1948 | a 16-bit increment or decrement wraps the register at 16 bits and leaves the other registers alone |
| CpuProperties.TransferRoundTrips | src/cpu.rs:1114-1248 | TCD then TDC, TCS then TSC (native mode) and TAX then TXA (16-bit registers) leave the copied value in both registers; in emulation mode TXS and TCS keep S in page 1 |
| CpuProperties.XbaTwice | src/cpu.rs:2319-2323 | two XBAs restore A; N and Z follow the low byte |
| CpuProperties.StaThenLda | src/cpu.rs:1264-1345 | LDA from the address STA just wrote reads back A at its width |
| CpuProperties.IncThenDecMemory | src/cpu.rs:1826-1902 | DEC after INC on the same address restores memory, at either width |
| CpuProperties.StepRules | src/cpu.rs:707-736 | one step does nothing while the clock is past the previous counter, otherwise takes NMI first, then an unmasked IRQ, and keeps a halted CPU waiting while no IRQ is pending |
| CpuProperties.StepRunsOpcode | src/cpu.rs:707-1057 | when no interrupt is taken and the CPU is not waiting, a step fetches the opcode at PB:PC and runs the instruction it decodes to |
| CpuSemantics.ExceptionEntry | src/cpu.rs:379-398 | `exeption` leaves WAI, sets I, zeroes PB and loads PC from the exception's vector (read after the pushes); it changes no other flag except the emulation-mode B bit, and keeps A, X, Y, D, DB and E |
| CpuSemantics.Execute | src/cpu.rs:739-1057 | of all the instructions in the table only XCE changes the emulation flag E |
| CpuSemantics.Step | src/cpu.rs:707-736 | one step does nothing while the clock is past the previous counter; a taken NMI or unmasked IRQ costs one cycle and leaves I set, PB 0 and WAI ended; a halted CPU with no interrupt pending idles one cycle and changes nothing |
| SpcTypes.PswRoundTrip | src/spc.rs:1605-1618 | the PSW bit-field packs C, Z, I, H, B, P, V and N into bits 0 to 7: unpacking a byte and packing it again gives the byte, and packing flags and unpacking them gives the flags |
| SpcTypes.PswByteRoundTrip | src/spc.rs:1605-1618 | the PSW byte as a number converts back to the same flags |
| SpcTypes.SetNZ | src/spc.rs:479-490 | `set_nz` sets N from bit 7 and Z from a zero byte and changes no other flag |
| SpcTypes.SetNZ16 | src/spc.rs:492-503 | `set_nz16` sets N from bit 15 and Z from a zero word and changes no other flag |
| SpcTypes.OffsetKeepsPage | src/spc.rs:1563-1574 | a page-wrapping address offset stays in its page and adds the offset to the low byte modulo 256 |
| SpcTypes.OffsetNoWrap | src/spc.rs:1563-1574 | a non-wrapping offset adds modulo 0x10000, exactly when the sum fits |
| SpcTypes.OffsetMoves | src/spc.rs:1563-1574 | an offset of one never yields the same address, in either mode |
| SpcTypes.DefaultRegs | src/spc.rs:1592-1603 | at power-on SP is 0xFF and PC is the little-endian reset vector at offsets 0x3E-0x3F of the boot ROM, 0xFFC0 |
| SpcTypes.YaRoundTrip | src/spc.rs:505-512 | YA is Y * 256 + A; `set_ya` then `get_ya` gives the word back, changes only A and Y, and `set_ya(get_ya())` changes nothing |
| SpcTypes.StackSlotInPageOne | src/spc.rs:449-471 | the stack slot of SP is 0x100 + SP: always in page 1, and different for different SP |
| SpcTypes.SpcBranchPairs | src/spc.rs:1242-1254 | BRA is always taken, and each conditional branch is taken exactly when its partner (BEQ/BNE, BCS/BCC, BVS/BVC, BMI/BPL) is not |
| SpcMemory.Read8 | src/spc.rs:369-392 | a read changes neither registers nor RAM, only advances the counter and keeps the I/O settings; it fails only inside the I/O window 0xF0-0xFF |
| SpcMemory.Write8 | src/spc.rs:394-419 | a write changes no register and only advances the counter |
| SpcMemory.MemoryMap | src/spc.rs:369-392 | outside the I/O window a read always succeeds: with the boot ROM enabled, 0xFFC0-0xFFFF read the ROM at the I/O wait state, everything else reads RAM at the RAM wait state; inside the window the read returns the I/O register's value and fails exactly when that read does |
| SpcMemory.WriteTouchesOneByte | src/spc.rs:394-419 | a write changes at most the one RAM byte it addresses, and that only when RAM writes are enabled, and writes outside 0xF0-0xFF leave the I/O registers alone |
| SpcMemory.WriteThenRead | src/spc.rs:369-419 | reading what was just written outside the I/O window gives the byte back, except under an enabled boot ROM, where the ROM byte shadows the RAM byte that was written |
| SpcMemory.Read16 | src/spc.rs:428-432 | a word read changes neither registers nor RAM and keeps the I/O settings |
| SpcMemory.Write16 | src/spc.rs:421-426 | a word write changes no register |
| SpcMemory.Write16ThenRead16 | src/spc.rs:421-432 | in plain RAM, reading a word just written gives it back |
| SpcMemory.Read16Rom | src/spc.rs:369-392 | with the boot ROM enabled, a word read in 0xFFC0-0xFFFE gives the little-endian ROM word |
| SpcMemory.Fetch8 | src/spc.rs:434-441 | a fetch changes no RAM and no register but PC, which advances by one modulo 0x10000 |
| SpcMemory.Fetch16 | src/spc.rs:443-447 | a word fetch advances PC by two and changes nothing else |
| SpcMemory.Push8 | src/spc.rs:449-458 | a push moves SP down by one modulo 256 and leaves the I/O registers alone |
| SpcMemory.Pop8 | src/spc.rs:465-471 | a pop moves SP up by one modulo 256 and changes no RAM |
| SpcMemory.Push16 | src/spc.rs:460-463 | a word push moves SP down by two |
| SpcMemory.Pop16 | src/spc.rs:473-477 | a word pop moves SP up by two |
| SpcMemory.PushWritesPageOne | src/spc.rs:449-458 | a push writes the byte at 0x100 + SP when RAM writes are enabled and changes nothing else |
| SpcMemory.PushThenPop8 | src/spc.rs:449-471 | a pop after a push restores the registers and, when RAM writes are enabled, returns the pushed byte |
| SpcMemory.PushThenPop16 | src/spc.rs:460-477 | a word pop after a word push restores the registers and returns the pushed word |
| SpcMemory.Pop8Reads | src/spc.rs:465-471 | a pop returns the byte at 0x100 + (SP + 1) mod 256 |
| SpcMemory.Pop16Reads | src/spc.rs:473-477 | a word pop returns the little-endian word at the next two stack slots |
| SpcMemory.Push16Writes | src/spc.rs:460-463 | a word push stores the high byte at the old SP and the low byte one below |
| SpcMemory.Pop16Below | src/spc.rs:473-477 | a word pop from two slots below a pushed word returns that word and restores SP |
| SpcAlu.AdcSpec | src/spc.rs:779-788 | ADC gives the 9-bit sum with its carry in C, H exactly when the low nibbles carry, V exactly when the signed sum leaves -128..127, and changes no other flag |
| SpcAlu.SbcIsAdcOfComplement | src/spc.rs:779-803 | SBC of b equals ADC of the one's complement of b, result and every flag alike |
| SpcAlu.SbcAdcByte | src/spc.rs:779-803 | SBC of b and ADC of the complement of b leave the same result byte, the same C and the same V |
| SpcAlu.SbcAdcHalfCarry | src/spc.rs:779-803 | SBC of b and ADC of the complement of b leave the same H |
| SpcAlu.SbcSpec | src/spc.rs:790-803 | SBC gives a - b - borrow modulo 256; C is set exactly when no borrow is needed, H exactly when the low nibble needs none; no other flag changes |
| SpcAlu.AluOpFlags | src/spc.rs:679-777 | every ALU operation sets N and Z from its result; OR, AND and EOR change no other flag; CMP changes only N, Z and C, with C set exactly when x >= y and Z exactly when x == y; no operation touches I, B, P |
| SpcAlu.DaaAfterAdc | src/spc.rs:636-651 | DAA after ADC of two BCD bytes gives the BCD of the decimal sum modulo 100, with C set exactly when the sum reaches 100 |
| SpcAlu.DasAfterSbc | src/spc.rs:653-665 | DAS after SBC of two BCD bytes gives the BCD of the decimal difference modulo 100, with C set exactly when no borrow out is needed |
| SpcAlu.ToBcd | src/spc.rs:636-665 | the two-digit BCD encoding of a number below 100 is a valid BCD byte with that value |
| SpcAlu.DivSpec | src/spc.rs:1035-1054 | DIV sets V exactly when the quotient does not fit a byte; otherwise YA = A * X + Y with Y < X; a zero divisor gives A = Y = 0xFF with N set and Z clear; only A, Y, N, V and Z change |
| SpcAlu.MulSpec | src/spc.rs:1056-1062 | MUL leaves the 16-bit product A * Y in YA, with N and Z taken from Y, and changes nothing else |
| SpcAlu.XcnSwapsNibbles | src/spc.rs:1212-1217 | XCN swaps the two nibbles of A, so two XCNs restore A |
| SpcAlu.SingleBitOps | src/spc.rs:1064-1102 | SET1, CLR1, NOT1 and MOV1 set, clear, flip or store exactly the addressed bit and keep the other seven |
| SpcAlu.MemBitSplit | src/spc.rs:1077-1187 | the `aaa.b` operand splits into a bit number below 8 (top three bits) and a 13-bit address, and they recompose the operand |
| SpcAlu.CarryBitReadsBit | src/spc.rs:1104-1187 | masking with `1 << b` is non-zero exactly when bit b is set, which is what the carry-bit instructions test |
| SpcAlu.TestAndSetBits | src/spc.rs:1219-1232 | TSET1 writes the operand with A's bits set and TCLR1 with A's bits cleared |
| SpcAlu.TestAndSetFlags | src/spc.rs:1219-1232 | TSET1 and TCLR1 set N and Z as CMP A with the operand would, so Z is set exactly when A equals it, and leave C and the other flags alone |
| SpcAlu.Adc | src/spc.rs:779-788 | `adc`: the carry out and the byte result make up a + b + C exactly; only C, V and H change |
| SpcSemantics.RegisterAddress | src/spc.rs:1390-1446 | the immediate, (X), (Y) and (X)+ modes fetch no operand address and cannot fail; only PC (immediate) or X ((X)+) changes, never RAM or the I/O registers |
| SpcSemantics.DirectPageAddress | src/spc.rs:1398-1421 | the direct-page modes change only PC and the counter, and no RAM |
| SpcSemantics.AbsoluteAddress | src/spc.rs:1447-1471 | the absolute modes change only PC and the counter, and no RAM |
| SpcSemantics.IndexedPointerAddress | src/spc.rs:1472-1484 | `[dp+X]` changes only PC and the counter, and no RAM |
| SpcSemantics.PointerIndexedAddress | src/spc.rs:1485-1500 | `[dp]+Y` changes only PC and the counter, and no RAM |
| SpcSemantics.Address | src/spc.rs:1388-1501 | computing an operand address changes no RAM and no register but PC and, for (X)+, X |
| SpcSemantics.AddressSpec | src/spc.rs:1388-1501 | an address computation advances PC past exactly the mode's operand bytes and increments X only for (X)+; the direct-page modes address page 0 or page 1 as P selects and wrap within it, the absolute and indirect modes do not wrap |
| SpcSemantics.ReadOperand | src/spc.rs:1388-1501 | reading an operand changes no RAM and no register but PC and, for (X)+, X |
| SpcSemantics.PushThenPull | src/spc.rs:588-634 | POP A, X, Y or PSW after PUSH of the same register restores every register, SP included, while RAM takes writes |
| SpcSemantics.AluToMemory | src/spc.rs:709-775 | a memory-to-memory ALU step never changes A and under CMP writes no RAM |
| SpcSemantics.OperandModes | src/spc.rs:709-775 | each two-operand mode reads its operands through two single-operand modes that have an address |
| SpcSemantics.AluMemory | src/spc.rs:709-775 | the memory-to-memory ALU leaves A alone and writes nothing under CMP |
| SpcSemantics.AluInto | src/spc.rs:709-775 | combining the destination operand with the source byte leaves A alone and writes nothing under CMP |
| SpcSemantics.AluOneOperand | src/spc.rs:679-708 | in the nine single-operand modes the ALU writes no RAM and CMP keeps A; the (Y), (X)+ and dp+Y modes, which the source leaves unreachable, yield no result |
| SpcSemantics.AluTwoOperands | src/spc.rs:709-775 | in dp-to-dp, immediate-to-dp and (X)-to-(Y) the ALU never changes A and CMP writes nothing |
| SpcSemantics.RolThenRor | src/spc.rs:853-902 | ROR after ROL gives the byte and the carry back |
| SpcSemantics.RorThenRol | src/spc.rs:853-902 | ROL after ROR gives the byte and the carry back |
| SpcSemantics.ShiftsAreRotates | src/spc.rs:835-885 | ASL and LSR are ROL and ROR with a clear carry in |
| SpcSemantics.Step8Inverse | src/spc.rs:904-952 | INC and DEC on a byte undo each other, in both orders |
| SpcSemantics.WrappedWordDifference | src/spc.rs:985-999 | a word difference wrapped to 32 bits exceeds 0xFFFF exactly when it is negative, and keeps its low 16 bits |
| SpcSemantics.AddwSpec | src/spc.rs:969-983 | ADDW's carry and result make up the exact sum YA + word, and H is the carry out of the low twelve bits |
| SpcSemantics.SubwSpec | src/spc.rs:985-999 | SUBW's C is set exactly when YA >= word, the result is the difference modulo 0x10000, and H is set exactly when the low twelve bits do not borrow |
| SpcSemantics.StepLowByte | src/spc.rs:1011-1033 | the low byte INCW and DECW write first is the low byte of the stepped word |
| SpcSemantics.BitBranchOperands | src/spc.rs:667-677 | reading BBS/BBC's operands changes no RAM |
| SpcSemantics.BranchBitTestsBit | src/spc.rs:667-677 | BBS jumps exactly when the bit is set and BBC exactly when it is clear, with two RAM wait states when taken |
| SpcSemantics.DbnzYCounts | src/spc.rs:1267-1276 | DBNZ Y decrements Y modulo 256, changes no flag, and falls through exactly when Y was 1 |
| SpcSemantics.ReturnAfterPush | src/spc.rs:1324-1328 | RET after a pushed return address jumps to it and restores SP, whatever changed in between |
| SpcSemantics.CallThenRet | src/spc.rs:1300-1328 | RET after CALL resumes after CALL's two operand bytes with every register as before |
| SpcSemantics.PcallThenRet | src/spc.rs:1317-1328 | RET after PCALL resumes after its one operand byte with every register as before |
| SpcSemantics.TcallThenRet | src/spc.rs:1307-1328 | TCALL n always succeeds, and RET after it restores every register |
| SpcSemantics.TcallVectorInRom | src/spc.rs:1307-1315 | TCALL n reads its vector from the even address 0xFFDE - 2n, inside 0xFFC0-0xFFDF |
| SpcSemantics.TcallThroughRom | src/spc.rs:1307-1315 | while the boot ROM is mapped, TCALL n jumps to the ROM word at its vector |
| SpcSemantics.BrkStack | src/spc.rs:1337-1348 | BRK pushes PC and then PSW, leaving SP three slots down |
| SpcSemantics.ReturnFromInterrupt | src/spc.rs:1330-1335 | RETI after pushes of a return address and a PSW restores both and SP |
| SpcSemantics.BrkThenReti | src/spc.rs:1337-1348 | RETI after BRK restores every register, PSW with I and B as before BRK included |
| SpcIo.TimerTickSpec | src/spc.rs:1776-1784 | a disabled timer does not tick; a tick changes only the counter and the 4-bit output, and keeps the output below 16; reading the output returns it and clears it, so a second read returns 0 (lines 1770-1774) |
| SpcIo.TimerTick | src/spc.rs:1776-1784 | a tick keeps the enable bit and the divider; a disabled timer does not move; a 4-bit output stays 4-bit, and when it changes it steps by one modulo 16 and the counter restarts at 0 |
| SpcIo.IoReadValue | src/spc.rs:1656-1671 | a register read panics exactly for indices 0, 1, 0xA-0xC and above 0xF; index 3 reads the DSP register that the DSP address selects; 0xD-0xF read the timer outputs |
| SpcIo.TimerCountsToDivider | src/spc.rs:1776-1784 | from counter 0 an enabled timer counts up one per tick and, after as many ticks as its divider (256 for divider 0), resets the counter and increments the output modulo 16 |
| SpcIo.TimerTicksAdd | src/spc.rs:1776-1784 | m ticks then n ticks are m + n ticks |
| SpcIo.IoAfterRead | src/spc.rs:1656-1671 | a register read keeps the I/O state well formed |
| SpcIo.EnableTimers | src/spc.rs:1687-1689 | enabling timers from the control byte keeps the number of timers |
| SpcIo.PortClearAsWritten | src/spc.rs:1691-1696 | the port-clear loop as written keeps the number of ports |
| SpcIo.PortClear | src/spc.rs:1691-1696 | the corrected port-clear loop keeps the number of ports |
| SpcIo.PortClearStep | src/spc.rs:1691-1696 | step i of the corrected loop clears ports 2i and 2i + 1 exactly when bit 4 + i of the control byte is set |
| SpcIo.PortClearAsWrittenMissesPort3 | src/spc.rs:1691-1696 | with control bit 5 set, the loop as written clears ports 1 and 2 and leaves port 3, where ports 2 and 3 should be cleared |
| SpcIo.ControlWrite | src/spc.rs:1686-1699 | a control-register write keeps the I/O state well formed |
| SpcIo.IoWriteSpec | src/spc.rs:1673-1723 | a register write succeeds exactly for indices below 0x10 and keeps the I/O state well formed; its control-register case uses the corrected port clear of the Findings |
| SpcIo.WaitStateWrite | src/spc.rs:1675-1685 | writing register 0 sets RAM writes from bit 1 and the RAM and I/O wait states from bits 4-5 and 6-7 through the table 1, 2, 5, 10, and changes nothing else |
| SpcIo.ControlRegisterWrite | src/spc.rs:1686-1699 | writing register 1 enables timer i from bit i, clears ports 0-1 on bit 4 and, as corrected in the Findings, ports 2-3 on bit 5 (the source clears ports 1-2), maps the boot ROM from bit 7, and leaves the output ports and the DSP alone |
| SpcIo.OutputsStayBounded | src/spc.rs:1656-1723 | reads and writes keep every timer output below 16, and reading a timer register returns a value below 16 |
| SpcIo.PortsAreOneWay | src/spc.rs:1656-1723 | writing port register 4-7 stores the byte for the main CPU and does not change what the audio CPU reads there |
| SpcIo.DspWindow | src/spc.rs:1656-1723 | register 2 reads back the DSP address written to it; register 3 reads and writes the DSP register at that address |
| SpcIo.PortWrite | src/spc.rs:59-61 | the main CPU's port write succeeds exactly for ports 0-3 and keeps the state well formed |
| SpcIo.PortRead | src/spc.rs:63-65 | the main CPU's port read succeeds exactly for ports 0-3 |
| SpcIo.PortsCarryBytes | src/spc.rs:59-65 | a byte the main CPU writes to port p is what the audio CPU reads at 0xF4 + p and does not change what the main CPU reads back, and vice versa |
| SpcIo.TickTimerSpec | src/spc.rs:1725-1739 | advancing the timers keeps the I/O state well formed |
| SpcIo.TickTimerSplit | src/spc.rs:1725-1739 | advancing the timers by a and then by b equals advancing them by a + b, and the leftover counters stay below 128 and 16 |
| SpcIo.TimersSplit | src/spc.rs:1725-1739 | the three timers after advancing by a and then b are those after advancing by a + b |
| SpcIo.CountersSplit | src/spc.rs:1725-1739 | both accumulators after advancing by a and then b are those after advancing by a + b |
| SpcIo.IoRegisters.State | src/spc.rs:1619-1633 | the registers' abstract state is well formed |
| SpcIo.IoRegisters.constructor | src/spc.rs:1635-1653 | power-on state: both wait states 1, ports 0, ROM mapped, RAM writable, DSP address 0, default DSP and timers, zeroed audio RAM |
| SpcIo.IoRegisters.Read | src/spc.rs:1656-1671 | a register read returns the value and leaves the state that `IoReadValue` and `IoAfterRead` describe |
| SpcIo.IoRegisters.EnableTimerLoop | src/spc.rs:1687-1689 | the timer-enable loop leaves the timers `EnableTimers` describes |
| SpcIo.IoRegisters.PortClearLoop | src/spc.rs:1691-1696 | the corrected port-clear loop leaves the ports `PortClear` describes |
| SpcIo.IoRegisters.Write | src/spc.rs:1673-1723 | a register write fails exactly for indices from 0x10 and otherwise leaves the state `IoWriteSpec` describes |
| SpcIo.IoRegisters.TickFastTimers | src/spc.rs:1729-1734 | one pass of the 8 kHz loop ticks timers 0 and 1 and leaves timer 2 |
| SpcIo.IoRegisters.SpendFastUnits | src/spc.rs:1729-1734 | the first loop leaves `counter01` at its old value mod 128 and ticks timers 0 and 1 once per whole 128 units, leaving timer 2 alone |
| SpcIo.IoRegisters.SpendSlowUnits | src/spc.rs:1735-1738 | the second loop leaves `counter2` at its old value mod 16 and ticks timer 2 once per whole 16 units, leaving timers 0 and 1 alone |
| SpcIo.IoRegisters.TickTimer | src/spc.rs:1725-1739 | `tick_timer` leaves the state `TickTimerSpec` describes |
| SpcDispatch.DecodeHalts | src/spc.rs:71-367 | exactly the opcodes 0xEF (SLEEP) and 0xFF (STOP) decode to an instruction that halts |
| SpcDispatch.DecodeOpcode | src/spc.rs:71-367 | in the opcode table NOP sits at 0x00 only, BRK at 0x0F only, SLEEP at 0xEF only and STOP at 0xFF only |
| SpcDispatch.DecodeJumps | src/spc.rs:71-367 | JMP [!a+X] sits at 0x1F only and JMP !a at 0x5F only |
| SpcDispatch.DecodeCalls | src/spc.rs:71-367 | CALL sits at 0x3F only, PCALL at 0x4F, RET at 0x6F and RETI at 0x7F |
| SpcDispatch.DecodeYaOps | src/spc.rs:71-367 | DIV YA,X sits at 0x9E only and MUL YA at 0xCF only |
| SpcDispatch.DecodeAccumulatorOps | src/spc.rs:71-367 | XCN A sits at 0x9F only, DAS A at 0xBE and DAA A at 0xDF |
| SpcDispatch.ExecuteSem | src/spc.rs:71-367 | SLEEP and STOP always panic, and of the register-only instructions they are the only ones that do |
| SpcDispatch.StepSem | src/spc.rs:71-367 | a step fails when the opcode fetch fails, and a step that completes did not fetch SLEEP or STOP |
| SpcDispatch.TcallColumn | src/spc.rs:71-367 | opcode column 1 is TCALL n with n the high nibble |
| SpcDispatch.Bit1Column | src/spc.rs:71-367 | opcode column 2 is SET1 (even rows) or CLR1 (odd rows) of bit high-nibble / 2 |
| SpcDispatch.BranchOnBitColumn | src/spc.rs:71-367 | opcode column 3 is BBS (even rows) or BBC (odd rows) of bit high-nibble / 2 |
| SpcDispatch.AluBlock | src/spc.rs:71-367 | in rows 0x0-0xB, columns 4-9 are the ALU operation of the row pair (OR, AND, EOR, CMP, ADC, SBC) in the column's addressing mode |
| SpcDispatch.AluEvenRows | src/spc.rs:71-367 | the even-row half of the ALU block |
| SpcDispatch.AluOddRows | src/spc.rs:71-367 | the odd-row half of the ALU block |
| SpcDispatch.SleepAndStopPanic | src/spc.rs:1354-1364 | fetching SLEEP or STOP ends the step with no result, as the source's `panic!` does |
| AudioCpu.Spc.State | src/spc.rs:10-23 | the abstract machine built from the registers, the counter, the audio RAM and the I/O registers is well formed |
| AudioCpu.Spc.constructor | src/spc.rs:10-23 | power-on: registers at their defaults (SP 0xFF, PC the boot ROM reset vector), counter 0, audio RAM all zero |
| AudioCpu.Spc.Read8 | src/spc.rs:369-392 | `read_8` returns the byte and leaves the state `SpcMemory.Read8` describes, failing only where an I/O read fails |
| AudioCpu.Spc.Write8 | src/spc.rs:394-419 | `write_8` leaves the state `SpcMemory.Write8` describes |
| AudioCpu.Spc.Read16 | src/spc.rs:428-432 | `read_16` returns the little-endian word and leaves the state `SpcMemory.Read16` describes |
| AudioCpu.Spc.Write16 | src/spc.rs:421-426 | `write_16` leaves the state `SpcMemory.Write16` describes |
| AudioCpu.Spc.Fetch8 | src/spc.rs:434-441 | `fetch_8` returns the byte at PC and leaves the state `SpcMemory.Fetch8` describes |
| AudioCpu.Spc.Fetch16 | src/spc.rs:443-447 | `fetch_16` returns the word at PC and leaves the state `SpcMemory.Fetch16` describes |
| AudioCpu.Spc.Push8 | src/spc.rs:449-458 | `push_8` leaves the state `SpcMemory.Push8` describes |
| AudioCpu.Spc.Push16 | src/spc.rs:460-463 | `push_16` leaves the state `SpcMemory.Push16` describes |
| AudioCpu.Spc.Pop8 | src/spc.rs:465-471 | `pop_8` returns the byte and leaves the state `SpcMemory.Pop8` describes |
| AudioCpu.Spc.Pop16 | src/spc.rs:473-477 | `pop_16` returns the word and leaves the state `SpcMemory.Pop16` describes |
| AudioCpu.Spc.GetAddress | src/spc.rs:1388-1501 | `get_warp_address` returns the operand address and leaves the state `SpcSemantics.Address` describes |
| AudioCpu.Spc.AddressFromRegisters | src/spc.rs:1390-1446 | the immediate and register-indirect arms of `get_warp_address`, as `SpcSemantics.RegisterAddress` |
| AudioCpu.Spc.AddressFromDirectPage | src/spc.rs:1398-1421 | the direct-page arms of `get_warp_address`, as `SpcSemantics.DirectPageAddress` |
| AudioCpu.Spc.AddressFromAbsolute | src/spc.rs:1447-1471 | the absolute arms of `get_warp_address`, as `SpcSemantics.AbsoluteAddress` |
| AudioCpu.Spc.AddressFromIndexedPointer | src/spc.rs:1472-1484 | the `[dp+X]` arm of `get_warp_address`, as `SpcSemantics.IndexedPointerAddress` |
| AudioCpu.Spc.AddressFromPointerIndexed | src/spc.rs:1485-1500 | the `[dp]+Y` arm of `get_warp_address`, as `SpcSemantics.PointerIndexedAddress` |
| AudioCpu.Spc.ReadOperand | src/spc.rs:1388-1501 | address then `read_8`, as `SpcSemantics.ReadOperand` |
| AudioCpu.Spc.LoadRegister | src/spc.rs:516-533 | `lda`, `ldx`, `ldy` load the operand with N and Z, as `SpcSemantics.LoadSem` |
| AudioCpu.Spc.StoreRegister | src/spc.rs:535-551 | `sta`, `stx`, `sty` write the register to the operand address, as `SpcSemantics.StoreSem` |
| AudioCpu.Spc.TransferRegister | src/spc.rs:553-586 | the register transfers, with N and Z except for TXS, as `SpcSemantics.TransferSem` |
| AudioCpu.Spc.PushRegister | src/spc.rs:588-610 | PUSH A, X, Y, PSW as `SpcSemantics.PushSem`; POP undoes it (`SpcSemantics.PushThenPull`) |
| AudioCpu.Spc.PullRegister | src/spc.rs:612-634 | POP A, X, Y, PSW as `SpcSemantics.PullSem` |
| AudioCpu.Spc.DecimalAdjustAdd | src/spc.rs:636-651 | `daa` as `SpcSemantics.DaaSem`; its decimal meaning is `SpcAlu.DaaAfterAdc` |
| AudioCpu.Spc.DecimalAdjustSubtract | src/spc.rs:653-665 | `das` as `SpcSemantics.DasSem`; its decimal meaning is `SpcAlu.DasAfterSbc` |
| AudioCpu.Spc.Divide | src/spc.rs:1035-1054 | `div` as `SpcSemantics.DivSem`; quotient and remainder as `SpcAlu.DivSpec` states |
| AudioCpu.Spc.Multiply | src/spc.rs:1056-1062 | `mul` as `SpcSemantics.MulSem`; the product as `SpcAlu.MulSpec` states |
| AudioCpu.Spc.ExchangeNibbles | src/spc.rs:1212-1217 | `xcn` as `SpcSemantics.XcnSem` |
| AudioCpu.Spc.ShiftAccumulator | src/spc.rs:835-893 | `asl_a`, `rol_a`, `lsr_a`, `ror_a` as `SpcSemantics.ShiftASem` |
| AudioCpu.Spc.IncDecRegister | src/spc.rs:904-945 | `inc_reg`, `dec_reg` as `SpcSemantics.IncDecRegSem` |
| AudioCpu.Spc.FlagOperation | src/spc.rs:1189-1210 | CLRC, SETC, NOTC, CLRV, CLRP, SETP, EI, DI (lines 1189-1210 and 1366-1386) as `SpcSemantics.FlagSem` |
| AudioCpu.Spc.NoOperation | src/spc.rs:1350-1352 | `nop` only waits, as `SpcSemantics.NopSem` |
| AudioCpu.Spc.Return | src/spc.rs:1324-1328 | `ret` as `SpcSemantics.RetSem` |
| AudioCpu.Spc.ReturnFromInterrupt | src/spc.rs:1330-1335 | `reti` as `SpcSemantics.RetiSem` |
| AudioCpu.Spc.AluOperation | src/spc.rs:679-777 | `alu` as `SpcSemantics.AluSem`, failing on the unreachable modes |
| AudioCpu.Spc.AluAccumulate | src/spc.rs:679-708 | A combined with an operand byte, as `SpcSemantics.AluOnA` |
| AudioCpu.Spc.AluStore | src/spc.rs:709-775 | the flags and write back of a memory-to-memory ALU step, as `SpcSemantics.AluToMemory` |
| AudioCpu.Spc.AluWithA | src/spc.rs:679-708 | the single-operand ALU modes, as `SpcSemantics.AluAccumulator` |
| AudioCpu.Spc.AluTwoOperands | src/spc.rs:709-775 | the memory-to-memory ALU modes, as `SpcSemantics.AluMemory` |
| AudioCpu.Spc.AluIntoOperand | src/spc.rs:709-775 | the destination half of a memory-to-memory ALU step, as `SpcSemantics.AluInto` |
| AudioCpu.Spc.CompareRegister | src/spc.rs:819-833 | `cmp_x`, `cmp_y` as `SpcSemantics.CmpRegSem` |
| AudioCpu.Spc.MoveDirectPage | src/spc.rs:805-810 | `mov_dp_dp` as `SpcSemantics.MovDpDpSem` |
| AudioCpu.Spc.MoveImmediate | src/spc.rs:812-817 | `mov_dp_imm` as `SpcSemantics.MovDpImmSem` |
| AudioCpu.Spc.ShiftMemory | src/spc.rs:843-902 | the shifts and rotates on memory, as `SpcSemantics.ShiftMemSem` |
| AudioCpu.Spc.IncDecMemory | src/spc.rs:922-952 | `inc_with_addressing`, `dec_with_addressing` as `SpcSemantics.IncDecMemSem` |
| AudioCpu.Spc.TestAndSetBits | src/spc.rs:1219-1232 | `tset` and `tclr` as `SpcSemantics.TestSetSem` |
| AudioCpu.Spc.LoadYaWord | src/spc.rs:954-960 | `movw_ya_dp` as `SpcSemantics.MovwYaDpSem` |
| AudioCpu.Spc.StoreYaWord | src/spc.rs:962-967 | `movw_dp_ya` as `SpcSemantics.MovwDpYaSem` |
| AudioCpu.Spc.AddSubtractWord | src/spc.rs:969-999 | `addw` and `subw` as `SpcSemantics.AddwSem` and `SubwSem` |
| AudioCpu.Spc.CompareWord | src/spc.rs:1001-1009 | `cmpw` as `SpcSemantics.CmpwSem` |
| AudioCpu.Spc.IncDecWord | src/spc.rs:1011-1033 | `incw`, `decw` as `SpcSemantics.IncDecWordSem` |
| AudioCpu.Spc.SetClearBit | src/spc.rs:1064-1075 | SET1 and CLR1 as `SpcSemantics.SetClrBitSem` |
| AudioCpu.Spc.NotMemBit | src/spc.rs:1077-1088 | `not1` as `SpcSemantics.Not1Sem` |
| AudioCpu.Spc.StoreCarryBit | src/spc.rs:1090-1102 | `mov1_aaa_b_c` as `SpcSemantics.Mov1ToMemSem` |
| AudioCpu.Spc.CarryBitOperation | src/spc.rs:1104-1187 | the carry-bit operations as `SpcSemantics.CarryBitSem` |
| AudioCpu.Spc.CarryBitWith | src/spc.rs:1104-1187 | one carry-bit operation on a decoded `aaa.b` operand, as `SpcSemantics.CarryBitFrom` |
| AudioCpu.Spc.BranchIf | src/spc.rs:1234-1254 | `br` as `SpcSemantics.BranchSem` |
| AudioCpu.Spc.BranchOnMemBit | src/spc.rs:667-677 | `bb_sc` as `SpcSemantics.BranchBitSem` |
| AudioCpu.Spc.CompareBranch | src/spc.rs:1256-1265 | `cbne` as `SpcSemantics.CbneSem` |
| AudioCpu.Spc.DecBranchY | src/spc.rs:1267-1276 | `dbnz_y` as `SpcSemantics.DbnzYSem` |
| AudioCpu.Spc.DecBranchDp | src/spc.rs:1278-1287 | `dbnz_dp` as `SpcSemantics.DbnzDpSem` |
| AudioCpu.Spc.JumpAbsolute | src/spc.rs:1289-1292 | `jmp_abs` as `SpcSemantics.JmpAbsSem` |
| AudioCpu.Spc.JumpIndexed | src/spc.rs:1294-1298 | `jmp_x_abs` as `SpcSemantics.JmpXAbsSem` |
| AudioCpu.Spc.CallAbsolute | src/spc.rs:1300-1305 | `call` as `SpcSemantics.CallSem` |
| AudioCpu.Spc.TableCall | src/spc.rs:1307-1315 | `tcall_n` as `SpcSemantics.TcallSem` |
| AudioCpu.Spc.PageCall | src/spc.rs:1317-1322 | `pcall` as `SpcSemantics.PcallSem` |
| AudioCpu.Spc.SoftwareBreak | src/spc.rs:1337-1348 | `brk` as `SpcSemantics.BrkSem` |
| AudioCpu.Spc.Execute | src/spc.rs:71-367 | the opcode dispatch runs the decoded instruction, as `SpcDispatch.ExecuteSem` |
| AudioCpu.Spc.ExecuteBitOrAlu | src/spc.rs:71-367 | the bit and ALU instructions of the dispatch, as `SpcDispatch.BitOrAluSem` |
| AudioCpu.Spc.ExecuteControl | src/spc.rs:71-367 | the jumps, calls and branches of the dispatch, as `SpcDispatch.ControlSem` |
| AudioCpu.Spc.ExecuteMove | src/spc.rs:71-367 | the moves and word operations of the dispatch, as `SpcDispatch.MoveSem` |
| AudioCpu.Spc.ExecuteRegister | src/spc.rs:71-367 | the register and flag instructions of the dispatch, as `SpcDispatch.RegisterSem` |
| AudioCpu.Spc.ExecuteInstruction | src/spc.rs:71-367 | `execute_instruction` fetches an opcode and runs it, as `SpcDispatch.StepSem`; SLEEP and STOP fail |
| AudioCpu.Spc.WritePort | src/spc.rs:59-61 | `write_port` succeeds exactly for ports 0-3 and stores the byte the audio CPU reads at 0xF4 + port |
| AudioCpu.Spc.ReadPort | src/spc.rs:63-65 | `read_port` succeeds exactly for ports 0-3 and returns the byte the audio CPU wrote there |
| DspNoise.Lfsr | src/dsp.rs:739-742 | the noise shift register stays within 15 bits and shifts the old value right by one, bit 14 taking bit 0 XOR bit 1 |
| DspNoise.LfsrNonZero | src/dsp.rs:739-742 | the shift register never reaches 0 from a non-zero 15-bit value, so the noise generator never locks up |
| DspNoise.NextNoise | src/dsp.rs:729-745 | `generate_noise` fails exactly for a frequency from 32 (an out-of-range table index) and otherwise keeps the state well formed and the frequency |
| DspNoise.NextNoiseSteps | src/dsp.rs:729-745 | at frequency 0 only the counter is reset; the noise changes only when the counter reaches the rate-table period, then it advances the shift register and resets the counter; non-zero noise stays non-zero |
| DspNoise.NoiseAfter | src/dsp.rs:729-745 | k noise steps keep the state well formed and the frequency |
| DspNoise.NoisePeriod | src/dsp.rs:729-745 | from counter 0 the noise holds for one period of the rate table and then advances the shift register exactly once |
| DspNoise.Noise.constructor | src/dsp.rs:718-726 | power-on noise state: value 1, frequency 0, counter 0 |
| DspNoise.Noise.GenerateNoise | src/dsp.rs:729-745 | `generate_noise` returns the new value and leaves the state `NextNoise` describes; an out-of-range frequency fails and changes nothing |
| DspNoise.Noise.SetFrequency | src/dsp.rs:747-749 | `set_frequency` changes only the frequency |
| DspVoice.AsI8RoundTrip | src/dsp.rs:466-469 | storing a byte as `i8` and reading it back as `u8` gives the byte |
| DspVoice.RatePeriods | src/dsp.rs:6-11 | every rate-table entry but the first is a period between 1 and 2048 |
| DspVoice.PushSample | src/dsp.rs:505-510 | `push_sample` puts the sample first among the four interpolation points, shifts the other three along and drops the last, changing nothing else |
| DspVoice.FourPushes | src/dsp.rs:505-510 | after four pushes the interpolation points are exactly the four samples, newest first |
| DspVoice.KeyFlagsReadAndClear | src/dsp.rs:537-547 | `is_key_on` and `is_key_off` return the flag and clear it, changing nothing else, so a second call returns false |
| DspVoice.UpdateEnvelope | src/dsp.rs:588-595 | `update_envelope` keeps the ADSR and GAIN settings, leaves an 11-bit envelope, never enters or leaves Release, keeps Sustain, and in GAIN mode keeps the state; its Decay case is the corrected one of the Findings |
| DspVoice.UpdateGainEnvelope | src/dsp.rs:597-631 | direct GAIN sets the envelope to 16 times the GAIN byte; the decreasing modes never raise the envelope and the increasing ones never lower an 11-bit envelope or take it past 0x7FF; settings and state stay |
| DspVoice.GainStep | src/dsp.rs:611-628 | the linear and exponential decreases never raise the envelope, the exponential one strictly lowers a positive one, and the increases keep an 11-bit envelope between its old value and 0x7FF |
| DspVoice.UpdateAdsrEnvelope | src/dsp.rs:633-640 | the ADSR states only move forward one step (Attack to Decay, Decay to Sustain), Sustain and Release stay, and outside Attack the envelope never rises |
| DspVoice.ProcessAttack | src/dsp.rs:642-652 | attack never lowers an 11-bit envelope nor takes it past 0x7FF, and moves to Decay only with an envelope of at least 0x7E0 |
| DspVoice.ProcessDecay | src/dsp.rs:654-666 | the corrected decay of the Findings never raises the envelope, and the state is Sustain exactly when the envelope ends at or below the sustain boundary |
| DspVoice.ProcessDecayAsWritten | src/dsp.rs:654-666 | on a positive envelope the decay as written agrees with the corrected one |
| DspVoice.ProcessSustain | src/dsp.rs:668-682 | sustain never raises the envelope or changes the state; sustain rate 0 holds the envelope and zeroes the counter |
| DspVoice.ProcessRelease | src/dsp.rs:684-690 | release lowers the envelope by at most 8 per call, never below 0, only when the period elapses, and keeps the state |
| DspVoice.UpdateEnvelopeBounded | src/dsp.rs:588-690 | with the corrected decay, every envelope update leaves the envelope within 11 bits and a counter below 0x800 |
| DspVoice.AttackThenDecay | src/dsp.rs:642-652 | in Attack the envelope never falls, and the state moves to Decay exactly when the period elapses and the envelope reaches 0x7E0 |
| DspVoice.DecayThenSustain | src/dsp.rs:654-666 | in Decay (corrected) the envelope never rises, and the state moves to Sustain exactly when the envelope is at or below the sustain boundary |
| DspVoice.SustainAndReleaseDecrease | src/dsp.rs:668-690 | in Sustain and Release the envelope never rises and the state stays |
| DspVoice.DecayUnderflowAsWritten | src/dsp.rs:654-666 | as written, Decay with envelope 0 and a period of one tick wraps the envelope to 0xFF00 and stays in Decay |
| DspVoice.VoiceRead | src/dsp.rs:446-464 | a voice register read succeeds exactly for 0x0-0xB, 0xE and 0xF |
| DspVoice.VoiceWrite | src/dsp.rs:466-490 | a voice register write succeeds exactly for 0x0-0xB, 0xE and 0xF |
| DspVoice.VoiceWriteThenRead | src/dsp.rs:446-490 | reading a voice register just written gives the byte back, for every register |
| DspVoice.VoiceWriteKeepsOthers | src/dsp.rs:446-490 | writing one voice register does not change what any other register reads |
| DspVoice.TableEntry | src/dsp.rs:323-325 | a sample directory entry is 4-byte aligned and lies wholly inside the 64 KiB audio RAM |
| DspVoice.SetBrrAddress | src/dsp.rs:323-339 | `set_brr_address` sets the BRR address to the little-endian start word of the source's entry, or the loop word two bytes on, and changes nothing else |
| DspVoice.SignExtend4 | src/dsp.rs:392-393 | the shift pair `<< 12 >> 12` sign-extends a nibble to -8..7 without changing it modulo 16 |
| DspVoice.Clamp16 | src/dsp.rs:415 | `clamp(-0x8000, 0x7FFF)` keeps values in range and saturates the others |
| DspVoice.NextAddr | src/dsp.rs:376-395 | the BRR address advances with `wrapping_add(1)` |
| DspVoice.BrrStep | src/dsp.rs:390-419 | one BRR step appends one sample |
| DspVoice.BrrSteps | src/dsp.rs:390-419 | i BRR steps append i samples |
| DspVoice.DecodeSample | src/dsp.rs:392-415 | one sample is decoded as `BrrSample` states: nibble, shift, filter, clamp |
| DspVoice.BrrSample | src/dsp.rs:392-415 | under filter 0 a sample is its scaled nibble, whatever the history, and never clamped |
| DspVoice.DecodeBrr | src/dsp.rs:368-423 | `decode_brr` leaves the voice `Decoded` describes |
| DspVoice.Decoded | src/dsp.rs:368-423 | `decode_brr` replaces the block with 16 samples under the header byte at the BRR address and changes neither the envelope, nor the NA registers, nor the BRR source and pitch counter |
| DspVoice.BrrStepsShape | src/dsp.rs:390-419 | after i steps the address has moved i / 2 bytes and the filter history holds the last two samples decoded |
| DspVoice.BrrStepsPrefix | src/dsp.rs:390-419 | decoding more samples never changes the samples already decoded |
| DspVoice.BrrSampleAt | src/dsp.rs:390-419 | sample j of a block decodes nibble j (high nibble first) of byte j / 2 with the two samples before it as filter history |
| DspVoice.DecodedBlock | src/dsp.rs:368-423 | a decoded block has 16 samples and the header byte at the old address, moves the address 9 bytes on, pushes its first sample, keeps its last two as history, sets voice-end when the header ends the sample, and changes nothing else |
| DspVoice.FilterZeroIsScaledNibble | src/dsp.rs:398-408 | under filter 0 every sample is its nibble scaled by the header's shift, with no history |
| DspVoice.ScaleFits | src/dsp.rs:398-402 | a scaled nibble always fits 16 bits, for every shift |
| DspVoice.BrrReadsOnlyItsBytes | src/dsp.rs:390-419 | decoding a block reads only the 8 data bytes after its header |
| DspVoice.LoadNextBrr | src/dsp.rs:341-366 | `load_next_brr` leaves the voice `Decoded(NextBrrSource(..))` describes |
| DspVoice.NextBrrSourceSpec | src/dsp.rs:341-366 | without an end flag decoding continues where it is; with one it restarts at the directory's loop word, keeping the envelope when the block repeats and releasing it at 0 otherwise |
| Dsp.SetFlag | src/dsp.rs:209-252 | setting one voice flag changes that flag and no other |
| Dsp.Mask | src/dsp.rs:136-192 | a mask gathered from n voices fits in n bits |
| Dsp.MaskBit | src/dsp.rs:136-192 | bit ch of a gathered mask is voice ch's flag |
| Dsp.MaskOfBits | src/dsp.rs:136-192 | gathering flags that were set from the bits of a byte gives back those bits |
| Dsp.FanOut | src/dsp.rs:209-252 | a per-voice update keeps the number of voices |
| Dsp.OrNewBit | src/dsp.rs:140 | OR-ing in `1 << ch` above the bits already gathered adds 2^ch |
| Dsp.AndMaskIsBit | src/dsp.rs:211 | `data & (1 << ch) != 0` holds exactly when bit ch of data is set |
| Dsp.RegisterOf | src/dsp.rs:130-201 | an address names a per-voice register exactly when its low nibble is neither 0xC nor 0xD; then the channel is bits 4-6 and the index the low nibble |
| Dsp.ScalarRegisterAt | src/dsp.rs:130-261 | each global register sits at its address and at its mirror 0x80 above |
| Dsp.MaskRegisterAt | src/dsp.rs:130-261 | each per-voice flag mask (KON, KOFF, ENDX, PMON, NON, EON) and FLG sit at their addresses and mirrors |
| Dsp.RegisterAddress | src/dsp.rs:130-261 | decoding an address to a global, mask or FLG register and encoding it again gives the address modulo 0x80 |
| Dsp.Mirror | src/dsp.rs:131 | addresses 0x80-0xFF mirror 0x00-0x7F |
| Dsp.ScalarWriteThenRead | src/dsp.rs:205-255 | a global register reads back what was written, other globals keep their values, and FLG is untouched |
| Dsp.WriteSpec | src/dsp.rs:203-261 | a DSP register write keeps the state well formed (eight voices) |
| Dsp.GlobalWriteThenRead | src/dsp.rs:130-261 | writing a global register reads back the byte and changes no other register, no voice and not the noise rate |
| Dsp.FanOutSetsBits | src/dsp.rs:209-252 | a mask write sets each voice's flag from its bit of the byte and changes nothing else in any voice |
| Dsp.MaskWriteThenRead | src/dsp.rs:136-252 | writing KON, KOFF, PMON, NON or EON fans the bits out to the voices and reads back the byte |
| Dsp.MaskReadBits | src/dsp.rs:136-192 | bit ch of a mask read is voice ch's flag |
| Dsp.FlagSoftReset | src/dsp.rs:219-230 | a FLG write with bit 7 sets key-off and zeroes the envelope of every voice, takes the noise rate from bits 0-4, and reads back with bit 7 cleared |
| Dsp.FlagWriteThenRead | src/dsp.rs:219-230 | a FLG write without bit 7 reads back, sets the noise rate from bits 0-4 and leaves the voices alone |
| Dsp.EndClear | src/dsp.rs:231-235 | any write to ENDX clears every voice-end flag, so ENDX then reads 0 |
| Dsp.VoiceRegisterWriteThenRead | src/dsp.rs:256-259 | a per-voice register write reads back and changes no other voice and no global register |
| Dsp.Dsp.State | src/dsp.rs:13-29 | the abstract DSP state has eight voices |
| Dsp.Dsp.constructor | src/dsp.rs:107-127 | power-on: zero RAM, default voices and registers, default noise |
| Dsp.Dsp.ReadMask | src/dsp.rs:136-192 | the gathering loop returns the mask of the flag over the eight voices |
| Dsp.Dsp.Read | src/dsp.rs:130-201 | `read` returns what `ReadSpec` gives for the address |
| Dsp.Dsp.UpdateVoices | src/dsp.rs:209-252 | the per-voice loop leaves the voices `FanOut` describes |
| Dsp.Dsp.Write | src/dsp.rs:203-261 | `write` leaves the state `WriteSpec` describes and keeps the noise value and counter |
| Dsp.ReadSpec | src/dsp.rs:130-201 | `read` ignores bit 7 of the address; a per-voice address reads that voice's register without panicking, and FLG reads the stored flag byte |
| Dsp.FlagWrite | src/dsp.rs:219-230 | a FLG write stores the byte with bit 7 cleared, sets the noise rate from bits 0-4, leaves the other global registers alone, and without bit 7 leaves the voices alone |
| MainCpu.Cpu.SetRegister | src/cpu.rs:1264-1327 | loading A, X or Y at its width leaves the registers `Put` describes: an 8-bit A keeps its high byte, N and Z follow the value |
| MainCpu.Cpu.DirectPointerOf | src/cpu.rs:468-485 | the direct-page pointer: page-wrapped under `is_wrap8`, otherwise D plus the offset with one penalty cycle when D's low byte is not zero |
| MainCpu.Cpu.DirectPenaltyCycle | src/cpu.rs:476-478 | one extra cycle exactly when D's low byte is not zero, nothing else changes |
| Joypad.Pad0Stream | src/controller.rs:32-52 | n successive reads give n bits |

## Left out

- `Dsp::tick` and `Voice::tick` (src/dsp.rs:32-77, 275-321): the per-sample mixing, pitch stepping and echo. They are signal arithmetic whose only stated promise is clamping. `set_brr_address`, `load_next_brr` and `decode_brr`, which `Voice::tick` calls, are modelled.
- `apply_gaussian_interpolation` (src/dsp.rs:425-444) and its 512-entry table are signal math, so they are not modelled.
- `clear_audio_buffer` and `get_audio_buffer` (src/dsp.rs:79-85), and the `Spc` forwarders `audio_buffer` and `clear_audio_buffer` (src/spc.rs:51-57), are not modelled. They hand the mixed samples to the audio sink, and the mixing itself is out of the model.
- `Spc::tick` (src/spc.rs:33-49) is the catch-up driver. It converts master-clock cycles into SPC700 cycles for an external scheduler, so the model stops at the single instruction step (`execute_instruction`) and `tick_timer`. `increment_counter` is part of every handler's cycle accounting.
- The `Spc` fields `prev_counter`, `dsp_counter` and `instruction_counter` exist only for that driver or for debugging, so they are not fields of `AudioCpu.Spc`. Likewise, `instruction_count` in `Cpu` is not a field of `MainCpu.Cpu`.
- The `sleep` and `stop` flags of `Spc`: the source panics right after setting them. The model ends such a step in failure (`ok == false`) and does not keep the flags.
- The source's `u64` cycle counters are unbounded naturals here. A counter that would need 2^64 cycles to wrap never wraps in the model.
- The main CPU's context is the abstract `CpuContext.Context`. It holds a byte map, a cycle counter and NMI and IRQ flags. src/context.rs is not part of this model, and the PPU, DMA and the scheduler behind the real context are not modelled.
- `MainCpu.Cpu` keeps its registers (A, X, Y, S, D, DB, PB, PC, P, E, halt) in one field `regs` of record type `CpuTypes.Regs`, not in eleven fields. Each handler reassigns that record, so update in place is captured per instruction and not per register.
- src/ppu.rs is a stub, so `SystemBus.Bus.Read` returns 0 for the PPU register window and writes there are dropped.
- Logging (`log::debug!`, `warn!`, `println!`) has no effect on state, so it is not modelled. A write that the source only logs is modelled as dropped.
- The `main` functions of src/bin/check_sum.rs and src/bin/show_gametitle.rs read files and print, so they are not modelled. Their header bounds check is modelled in `RomHeader.ReadHeader` and `RomHeader.TitleAt`.
- `RomHeader.GetTitle`: `from_utf8` and `trim` are library calls. They are passed in as function parameters (`fromUtf8`, `trim`) and stay uninterpreted.
- The addressing modes that `get_warp_address` in src/cpu.rs leaves unimplemented (src/cpu.rs:698) panic there. No opcode passes them, and `CpuCore.EffectiveAddress` is defined only for the implemented modes.
- CpuInstr.Decode: the 256-entry opcode table is modelled entry by entry, and `Decode` itself carries no postcondition. Its properties are stated by lemmas: the branches and the accumulator group (`CpuInstr.DecodeBranches` and `CpuInstr.DecodeAccumulatorGroup`), and the 28 handlers that own exactly one opcode (`CpuInstr.SoleOpcodeDecodes` and `CpuInstr.DecodeSoleOpcode`). The opcodes of the other multi-opcode families are covered only through the per-instruction semantics and the property lemmas of `CpuProperties`.
- CpuCore.EffectiveAddress: its Absolute mode puts the data bank DB in the bank byte. This is the corrected half of the Findings row for src/cpu.rs:454-460, where the source puts the program bank PB there. So every data opcode in the Absolute mode (the ALU group, CMP/CPX/CPY, BIT, LDA/LDX/LDY, STA/STX/STY/STZ, the read-modify-write group, TSB/TRB) reads or writes DB:operand in the model and PB:operand in the source. Jumps do not go through this mode and are unaffected.
- MainCpu.Cpu.AbsoluteAddress: uses DB for the Absolute mode, like `CpuCore.EffectiveAddress`, where src/cpu.rs:454-460 uses PB.
- MainCpu.Cpu.GetWarpAddress: forwards the Absolute mode to `MainCpu.Cpu.AbsoluteAddress`, so it computes DB:operand where the source computes PB:operand. `MainCpu.Cpu.ReadOperandOf`, `AluOp`, `CompareIndex`, `BitTestOp`, `LoadReg`, `StoreReg` and `ReadModifyWrite` inherit the difference, and so do `MainCpu.Cpu.Run`, `CpuSemantics.Execute` and `CpuSemantics.Step`.
- SpcIo.ControlWrite: bit 5 of the control byte clears input ports 2 and 3. This is the corrected half of the Findings row for src/spc.rs:1691-1696, where the source clears ports 1 and 2. `SpcIo.PortClearAsWritten` models the source's loop.
- SpcIo.IoWriteSpec: a write to 0xF1 uses `SpcIo.ControlWrite`, so it clears ports 2-3 on bit 5 where the source clears ports 1-2.
- SpcIo.ControlRegisterWrite: states the corrected port clear of `SpcIo.ControlWrite` (ports 2-3 on bit 5), not the source's ports 1-2.
- SpcIo.IoRegisters.PortClearLoop: runs the corrected clear `SpcIo.PortClear`, not `SpcIo.PortClearAsWritten`.
- SpcIo.IoRegisters.Write: a write to 0xF1 calls `SpcIo.IoRegisters.PortClearLoop`, so it clears ports 2-3 on bit 5 where the source clears ports 1-2. `AudioCpu.Spc` inherits this through its I/O writes.
- DspVoice.UpdateEnvelope: in the Decay state it runs the corrected `DspVoice.ProcessDecay`, which skips the step at envelope 0. This is the corrected half of the Findings row for src/dsp.rs:654-666. The source's step, `DspVoice.ProcessDecayAsWritten`, wraps to 0xFF00 there, as `DspVoice.DecayUnderflowAsWritten` shows. `DspVoice.ProcessDecayAsWritten` agrees with `DspVoice.ProcessDecay` whenever the envelope is above 0.
- DspVoice.TableEntry: the source computes the table address in `u16` (src/dsp.rs:324-325), which overflows when the table page is 0xFF and the source number is 0x40 or more. The model takes the wrap-around of a release build. A debug build panics instead.
- DspVoice.GainStep: the `u16` additions of src/dsp.rs:611-628 are modelled with the release-build wrap-around (`% 0x10000`). A debug build would panic on overflow. The wrap happens only for envelopes that are already out of the 11-bit range.
- DspVoice.ProcessDecayAsWritten: models the `u16` subtraction of src/dsp.rs:654-666 with the release-build wrap-around. A debug build panics at envelope 0 instead of wrapping.
- DspVoice.Tick: the `u16` counter increment is modelled with the release-build wrap-around. A debug build panics where the counter would pass 0xFFFF.
- CpuSemantics.ReadOperand: its own contract states only that an 8-bit operand is below 0x100. The operand itself is specified by `MainCpu.Cpu.ReadOperandOf`, which is proved against the function.
- The per-instruction effect functions of `CpuSemantics` and `SpcSemantics` (`...Sem`, `Execute...`) carry mostly well-formedness postconditions. Beyond that, `CpuSemantics.Execute` and its five family functions state that only XCE changes E, and `SpcDispatch.ExecuteSem` states which instructions halt. What each instruction computes is stated by the methods proved against these functions and by the property lemmas in `CpuProperties`, `SpcSemantics` and `SpcDispatch`.
- `CpuDecimal`: `dcd_add_8` and `dcd_add_16` compute V from the carry out of the decimal adjustment. The model does the same, as written.
- `CartridgeRom.Read` for banks 40-FF subtracts a base of 0x400000 or more from a 16-bit offset. The source's `usize` subtraction panics there, so every such read is `None`, as written.

## Findings

| source | as written | input that shows it | evidently intended | confidence | as-written member | corrected member |
|---|---|---|---|---|---|---|
| src/spc.rs:1691-1696 | bit 5 of the control byte clears `cpu_in[1]` and `cpu_in[2]` | control byte 0x20 with input ports [1, 1, 1, 1] leaves [1, 0, 0, 1] | bit 4 clears ports 0-1 and bit 5 clears ports 2-3, giving [1, 1, 0, 0] | not executed | SpcIo.PortClearAsWrittenMissesPort3 | SpcIo.PortClearStep |
| src/dsp.rs:654-666 | the decay step subtracts `((envelope - 1) >> 8) + 1` in `u16` arithmetic, even when the envelope is 0, so it wraps (a debug build panics instead) | an ADSR voice in Decay with envelope 0 (after a write of 0 to ENVX), adsr1 0xF0 and counter 1 ends with envelope 0xFF00 | the envelope stays in 0..0x7FF: the step is skipped at 0, as in sustain | not executed | DspVoice.DecayUnderflowAsWritten | DspVoice.UpdateEnvelopeBounded |
| src/cpu.rs:454-460 | the Absolute addressing mode puts PB in the bank byte of the data address | PB 0x00, DB 0x7E, `LDA $1234` reads 0x001234 | data accesses use DB, reading 0x7E1234, as AbsoluteX does at src/cpu.rs:605-611 | not executed | CpuCore.AbsoluteAsWrittenMissesDataBank | CpuCore.AbsoluteIsUnindexed |
