/**
 * The S-DSP register file (src/dsp.rs, `Dsp::read` and `Dsp::write`): the
 * global registers, the six bitmask registers that fan one bit out to each of
 * the eight voices, the FLG register with its soft reset, and the per-voice
 * registers behind them.
 *
 * Register addresses are seven bits wide: bit 7 of the address is ignored, so
 * `a` and `a | 0x80` name the same register.
 */
module Dsp {
  import opened Wrappers
  import opened Arith
  import opened Bits
  import opened DspVoice
  import opened DspNoise

  // ---------------------------------------------------------------- bit masks

  /** Or-ing in a bit above every set bit of `a` adds it. */
  lemma {:induction false} OrNewBit(a: nat, k: nat, w: nat)
    requires a < Pow2(k) && k < w
    ensures Bitwise(OrOp, a, Pow2(k), w) == a + Pow2(k)
  {
    if k == 0 {
      assert a == 0;
      OrZero(w - 1);
    } else {
      assert Pow2(k) / 2 == Pow2(k - 1) && Pow2(k) % 2 == 0;
      OrNewBit(a / 2, k - 1, w - 1);
    }
  }

  /** Zero or zero is zero. */
  lemma {:induction false} OrZero(w: nat)
    ensures Bitwise(OrOp, 0, 0, w) == 0
  {
    if w > 0 {
      OrZero(w - 1);
    }
  }

  /** `data & (1 << ch) != 0` tests bit ch of the data. */
  lemma AndMaskIsBit(data: nat, ch: nat, w: nat)
    requires ch < w
    ensures (Bitwise(AndOp, data, Pow2(ch), w) != 0) == BitAt(data, ch)
  {
    BitwiseZero(AndOp, data, Pow2(ch), w);
    Pow2Bit(ch, ch);
    if BitAt(data, ch) {
      BitwiseBit(AndOp, data, Pow2(ch), w, ch);
      ZeroHasNoBit(ch);
    } else {
      forall k: nat | k < w
        ensures !Apply(AndOp, BitAt(data, k), BitAt(Pow2(ch), k))
      {
        Pow2Bit(ch, k);
      }
    }
  }

  /** `x % 2^(k+1)` is `x % 2^k` plus bit k of x. */
  lemma {:induction false} ModPow2Step(x: nat, k: nat)
    ensures x % Pow2(k + 1) == x % Pow2(k) + (if BitAt(x, k) then Pow2(k) else 0)
  {
    if k > 0 {
      ModDouble(x, Pow2(k));
      ModDouble(x, Pow2(k - 1));
      ModPow2Step(x / 2, k - 1);
    }
  }

  /** `x % 2m` is twice `(x / 2) % m` plus the low bit of x. */
  lemma ModDouble(x: nat, m: nat)
    requires m >= 1
    ensures x % (2 * m) == 2 * ((x / 2) % m) + x % 2
  {
    var q := (x / 2) / m;
    var s := (x / 2) % m;
    assert x == q * (2 * m) + (2 * s + x % 2);
    DivMod(x, 2 * m, q, 2 * s + x % 2);
  }

  /** Adding a multiple of 2^k leaves the bits below k alone. */
  lemma {:induction false} HighAddKeepsLow(x: nat, c: nat, k: nat, j: nat)
    requires j < k
    ensures BitAt(x + c * Pow2(k), j) == BitAt(x, j)
  {
    assert c * Pow2(k) == 2 * (c * Pow2(k - 1));
    if j > 0 {
      assert (x + c * Pow2(k)) / 2 == x / 2 + c * Pow2(k - 1);
      HighAddKeepsLow(x / 2, c, k - 1, j - 1);
    }
  }

  // ---------------------------------------------------------------- voice flags

  /** The six `VoiceStatus` flags a bitmask register reaches. */
  datatype VoiceFlag = KeyOnFlag | KeyOffFlag | EndFlag | PitchModFlag | NoiseFlag | EchoFlag

  function FlagOf(s: VoiceStatus, f: VoiceFlag): bool
  {
    match f
    case KeyOnFlag => s.keyOn
    case KeyOffFlag => s.keyOff
    case EndFlag => s.voiceEnd
    case PitchModFlag => s.pitchModulation
    case NoiseFlag => s.noise
    case EchoFlag => s.echo
  }

  /** Setting one flag changes that flag and no other. */
  function SetFlag(s: VoiceStatus, f: VoiceFlag, b: bool): (t: VoiceStatus)
    ensures FlagOf(t, f) == b
    ensures forall g: VoiceFlag :: g != f ==> FlagOf(t, g) == FlagOf(s, g)
  {
    match f
    case KeyOnFlag => s.(keyOn := b)
    case KeyOffFlag => s.(keyOff := b)
    case EndFlag => s.(voiceEnd := b)
    case PitchModFlag => s.(pitchModulation := b)
    case NoiseFlag => s.(noise := b)
    case EchoFlag => s.(echo := b)
  }

  /** The register (seven-bit address) that reads and writes each flag across the voices. */
  function MaskRegister(f: VoiceFlag): u8
  {
    match f
    case KeyOnFlag => 0x4C
    case KeyOffFlag => 0x5C
    case EndFlag => 0x7C
    case PitchModFlag => 0x2D
    case NoiseFlag => 0x3D
    case EchoFlag => 0x4D
  }

  /** The mask that reading a bitmask register assembles: bit ch is the flag of voice ch, for the first n voices. */
  function Mask(vs: seq<Voice>, f: VoiceFlag, n: nat): (m: nat)
    requires n <= |vs|
    ensures m < Pow2(n)
  {
    if n == 0 then 0 else Mask(vs, f, n - 1) + (if FlagOf(vs[n - 1].status, f) then Pow2(n - 1) else 0)
  }

  /** Bit ch of the mask is the flag of voice ch. */
  lemma {:induction false} MaskBit(vs: seq<Voice>, f: VoiceFlag, n: nat, ch: nat)
    requires ch < n <= |vs|
    ensures BitAt(Mask(vs, f, n), ch) == FlagOf(vs[ch].status, f)
  {
    var m := Mask(vs, f, n - 1);
    var b := if FlagOf(vs[n - 1].status, f) then 1 else 0;
    assert Mask(vs, f, n) == m + b * Pow2(n - 1);
    if ch == n - 1 {
      TopBit(Mask(vs, f, n), ch);
    } else {
      HighAddKeepsLow(m, b, n - 1, ch);
      MaskBit(vs, f, n - 1, ch);
    }
  }

  /** When the first n flags are the bits of a byte, the mask is the byte's low n bits. */
  lemma {:induction false} MaskOfBits(vs: seq<Voice>, f: VoiceFlag, data: nat, n: nat)
    requires n <= |vs|
    requires forall k :: 0 <= k < n ==> FlagOf(vs[k].status, f) == BitAt(data, k)
    ensures Mask(vs, f, n) == data % Pow2(n)
  {
    if n > 0 {
      MaskOfBits(vs, f, data, n - 1);
      ModPow2Step(data, n - 1);
    }
  }

  // ---------------------------------------------------------------- fan-out over the voices

  /** What a loop over the eight voices does to voice ch. */
  datatype VoiceUpdate =
    | SetFlagTo(f: VoiceFlag, data: u8)  // a bitmask register: `flag = data & (1 << ch) != 0`
    | ClearEnd                           // ENDX: `voice_end = false`
    | SoftReset                          // FLG with the reset bit: `key_off = true`, `envelope = 0`

  function UpdateVoice(u: VoiceUpdate, ch: nat, v: Voice): Voice
  {
    match u
    case SetFlagTo(f, data) => v.(status := SetFlag(v.status, f, Bitwise(AndOp, data, Pow2(ch), 8) != 0))
    case ClearEnd => v.(status := v.status.(voiceEnd := false))
    case SoftReset => v.(status := v.status.(keyOff := true), env := v.env.(envelope := 0))
  }

  /** The voices after the loop has visited the first n of them. */
  function FanOut(vs: seq<Voice>, u: VoiceUpdate, n: nat): (ws: seq<Voice>)
    ensures |ws| == |vs|
  {
    seq(|vs|, k requires 0 <= k < |vs| => if k < n then UpdateVoice(u, k, vs[k]) else vs[k])
  }

  // ---------------------------------------------------------------- the register file

  /** The global registers: MVOL L/R, EVOL L/R, FLG, EFB, the unused 0x1D, DIR, ESA and EDL. */
  datatype DspRegs = DspRegs(masterL: i8, masterR: i8, echoL: i8, echoR: i8, flag: u8, echoFeedback: i8,
                             na: u8, sampleTable: u8, echoBufferAddress: u8, echoBufferSize: u8)

  /** `Flags::default()`: noise rate 0 with echo writes disabled, mute and reset set. */
  const DefaultFlag: u8 := 0xE0

  const DefaultRegs := DspRegs(0, 0, 0, 0, DefaultFlag, 0, 0, 0, 0, 0)

  /** The global registers that hold a byte and nothing more. */
  datatype Scalar = MasterL | MasterR | EchoL | EchoR | EchoFeedback | Na | SampleTable | EchoBufferAddress | EchoBufferSize

  /** What a register address selects. */
  datatype Register =
    | Global(g: Scalar)
    | Bitmask(f: VoiceFlag)      // 0x4C, 0x5C, 0x7C, 0x2D, 0x3D, 0x4D
    | Flg                        // 0x6C
    | PerVoice(ch: nat, index: u8)

  /** The voice a per-voice register belongs to, `(addr >> 4) & 7`, and its index `addr & 0xF`. */
  function Channel(addr: u8): nat { (addr / 0x10) % 8 }
  function Index(addr: u8): u8 { addr % 0x10 }

  /** The `match addr & 0x7F` shared by `read` and `write`. */
  function RegisterOf(addr: u8): (r: Register)
    ensures r.PerVoice? <==> Index(addr) != 0xC && Index(addr) != 0xD
    ensures r.PerVoice? ==> r.ch == Channel(addr) < 8 && r.index == Index(addr) && IsVoiceRegister(r.index)
  {
    match addr % 0x80
    case 0x0C => Global(MasterL)
    case 0x1C => Global(MasterR)
    case 0x2C => Global(EchoL)
    case 0x3C => Global(EchoR)
    case 0x4C => Bitmask(KeyOnFlag)
    case 0x5C => Bitmask(KeyOffFlag)
    case 0x6C => Flg
    case 0x7C => Bitmask(EndFlag)
    case 0x0D => Global(EchoFeedback)
    case 0x1D => Global(Na)
    case 0x2D => Bitmask(PitchModFlag)
    case 0x3D => Bitmask(NoiseFlag)
    case 0x4D => Bitmask(EchoFlag)
    case 0x5D => Global(SampleTable)
    case 0x6D => Global(EchoBufferAddress)
    case 0x7D => Global(EchoBufferSize)
    case _ => PerVoice(Channel(addr), Index(addr))
  }

  /** The seven-bit address of each scalar register. */
  function ScalarAddress(g: Scalar): u8
  {
    match g
    case MasterL => 0x0C
    case MasterR => 0x1C
    case EchoL => 0x2C
    case EchoR => 0x3C
    case EchoFeedback => 0x0D
    case Na => 0x1D
    case SampleTable => 0x5D
    case EchoBufferAddress => 0x6D
    case EchoBufferSize => 0x7D
  }

  /** Each scalar register is reached at its address and at the address with bit 7 set. */
  lemma ScalarRegisterAt(g: Scalar)
    ensures RegisterOf(ScalarAddress(g)) == RegisterOf(ScalarAddress(g) + 0x80) == Global(g)
  {
  }

  /** Each bitmask register, and FLG, is reached at its address and at the address with bit 7 set. */
  lemma MaskRegisterAt(f: VoiceFlag)
    ensures RegisterOf(MaskRegister(f)) == RegisterOf(MaskRegister(f) + 0x80) == Bitmask(f)
    ensures RegisterOf(0x6C) == RegisterOf(0xEC) == Flg
  {
  }

  /** A global register is reached at no address but those two. */
  lemma RegisterAddress(addr: u8)
    ensures RegisterOf(addr).Global? ==> addr % 0x80 == ScalarAddress(RegisterOf(addr).g)
    ensures RegisterOf(addr).Bitmask? ==> addr % 0x80 == MaskRegister(RegisterOf(addr).f)
    ensures RegisterOf(addr) == Flg ==> addr % 0x80 == 0x6C
  {
  }

  /** Bit 7 of the address is ignored: `a` and `a | 0x80` name the same register. */
  lemma Mirror(addr: u8)
    requires addr < 0x80
    ensures RegisterOf(addr + 0x80) == RegisterOf(addr)
  {
    assert Channel(addr + 0x80) == Channel(addr) && Index(addr + 0x80) == Index(addr);
  }

  /** The byte a scalar register reads as (`as u8` for the signed ones). */
  function ScalarRead(r: DspRegs, g: Scalar): u8
  {
    match g
    case MasterL => AsU8(r.masterL)
    case MasterR => AsU8(r.masterR)
    case EchoL => AsU8(r.echoL)
    case EchoR => AsU8(r.echoR)
    case EchoFeedback => AsU8(r.echoFeedback)
    case Na => r.na
    case SampleTable => r.sampleTable
    case EchoBufferAddress => r.echoBufferAddress
    case EchoBufferSize => r.echoBufferSize
  }

  /** Storing a byte in a scalar register (`as i8` for the signed ones). */
  function ScalarWrite(r: DspRegs, g: Scalar, data: u8): DspRegs
  {
    match g
    case MasterL => r.(masterL := AsI8(data))
    case MasterR => r.(masterR := AsI8(data))
    case EchoL => r.(echoL := AsI8(data))
    case EchoR => r.(echoR := AsI8(data))
    case EchoFeedback => r.(echoFeedback := AsI8(data))
    case Na => r.(na := data)
    case SampleTable => r.(sampleTable := data)
    case EchoBufferAddress => r.(echoBufferAddress := data)
    case EchoBufferSize => r.(echoBufferSize := data)
  }

  /** A scalar register reads back the byte written to it, and writing it leaves FLG and every other scalar register alone. */
  lemma ScalarWriteThenRead(r: DspRegs, g: Scalar, h: Scalar, data: u8)
    ensures ScalarRead(ScalarWrite(r, g, data), g) == data
    ensures h != g ==> ScalarRead(ScalarWrite(r, g, data), h) == ScalarRead(r, h)
    ensures ScalarWrite(r, g, data).flag == r.flag
  {
    AsI8RoundTrip(data);
  }

  /** Everything the register interface reaches: the global registers, the eight voices and the noise rate. */
  datatype DspState = DspState(regs: DspRegs, voices: seq<Voice>, noiseFrequency: u8)

  predicate WellFormed(s: DspState) { |s.voices| == 8 }

  /** `Dsp::read`. */
  function ReadSpec(s: DspState, addr: u8): (r: u8)
    requires WellFormed(s)
    ensures RegisterOf(addr).PerVoice? ==> VoiceRead(s.voices[Channel(addr)], Index(addr)) == Some(r)
    ensures RegisterOf(addr).Flg? ==> r == s.regs.flag
    ensures addr >= 0x80 ==> r == ReadSpec(s, addr - 0x80)
  {
    if addr >= 0x80 then Mirror(addr - 0x80); ReadSpecAt(s, addr)
    else ReadSpecAt(s, addr)
  }

  /** The register `RegisterOf` decodes, read. */
  function ReadSpecAt(s: DspState, addr: u8): u8
    requires WellFormed(s)
  {
    match RegisterOf(addr)
    case Global(g) => ScalarRead(s.regs, g)
    case Bitmask(f) => Mask(s.voices, f, 8)
    case Flg => s.regs.flag
    case PerVoice(ch, i) => VoiceRead(s.voices[ch], i).value
  }

  /** The FLG write: store the byte, pass the noise rate on and, with the reset bit, silence every voice and clear the bit. */
  function FlagWrite(s: DspState, data: u8): (t: DspState)
    requires WellFormed(s)
    ensures WellFormed(t) && t.regs == s.regs.(flag := t.regs.flag)
    ensures t.regs.flag == data % 0x80 && t.noiseFrequency == data % 0x20
    ensures data < 0x80 ==> t.voices == s.voices
  {
    if data >= 0x80 then DspState(s.regs.(flag := data % 0x80), FanOut(s.voices, SoftReset, 8), data % 0x20)
    else DspState(s.regs.(flag := data), s.voices, data % 0x20)
  }

  /** `Dsp::write`; writing ENDX (0x7C) clears every `voice_end` whatever the byte. */
  function WriteSpec(s: DspState, addr: u8, data: u8): (t: DspState)
    requires WellFormed(s)
    ensures WellFormed(t)
  {
    match RegisterOf(addr)
    case Global(g) => s.(regs := ScalarWrite(s.regs, g, data))
    case Bitmask(f) => s.(voices := FanOut(s.voices, if f == EndFlag then ClearEnd else SetFlagTo(f, data), 8))
    case Flg => FlagWrite(s, data)
    case PerVoice(ch, i) => s.(voices := s.voices[ch := VoiceWrite(s.voices[ch], i, data).value])
  }

  // ---------------------------------------------------------------- properties of the register file

  /** Writing a scalar global register and reading it back gives the byte written; no voice and no other register changes. */
  lemma GlobalWriteThenRead(s: DspState, addr: u8, data: u8)
    requires WellFormed(s) && RegisterOf(addr).Global?
    ensures ReadSpec(WriteSpec(s, addr, data), addr) == data
    ensures forall other: u8 :: RegisterOf(other) != RegisterOf(addr) ==>
              ReadSpec(WriteSpec(s, addr, data), other) == ReadSpec(s, other)
    ensures WriteSpec(s, addr, data).voices == s.voices
    ensures WriteSpec(s, addr, data).noiseFrequency == s.noiseFrequency
  {
    var g := RegisterOf(addr).g;
    forall other: u8 | RegisterOf(other) != RegisterOf(addr)
      ensures ReadSpec(WriteSpec(s, addr, data), other) == ReadSpec(s, other)
    {
      if RegisterOf(other).Global? {
        ScalarWriteThenRead(s.regs, g, RegisterOf(other).g, data);
      }
    }
    ScalarWriteThenRead(s.regs, g, g, data);
  }

  /** The voices after a bitmask write: voice ch's flag is bit ch of the byte, and nothing else changes. */
  lemma FanOutSetsBits(vs: seq<Voice>, f: VoiceFlag, data: u8)
    requires |vs| == 8
    ensures forall ch :: 0 <= ch < 8 ==> FlagOf(FanOut(vs, SetFlagTo(f, data), 8)[ch].status, f) == BitAt(data, ch)
    ensures forall ch, g :: 0 <= ch < 8 && g != f ==>
              FlagOf(FanOut(vs, SetFlagTo(f, data), 8)[ch].status, g) == FlagOf(vs[ch].status, g)
    ensures forall ch :: 0 <= ch < 8 ==>
              FanOut(vs, SetFlagTo(f, data), 8)[ch] == vs[ch].(status := FanOut(vs, SetFlagTo(f, data), 8)[ch].status)
  {
    forall ch | 0 <= ch < 8
      ensures FlagOf(FanOut(vs, SetFlagTo(f, data), 8)[ch].status, f) == BitAt(data, ch)
    {
      AndMaskIsBit(data, ch, 8);
    }
  }

  /**
   * Writing a bitmask register other than ENDX sets each voice's flag to its
   * bit of the byte, and reading the register back gives the byte.
   */
  lemma MaskWriteThenRead(s: DspState, addr: u8, data: u8)
    requires WellFormed(s) && RegisterOf(addr).Bitmask? && RegisterOf(addr).f != EndFlag
    ensures WriteSpec(s, addr, data) == s.(voices := FanOut(s.voices, SetFlagTo(RegisterOf(addr).f, data), 8))
    ensures ReadSpec(WriteSpec(s, addr, data), addr) == data
  {
    var f := RegisterOf(addr).f;
    var vs := FanOut(s.voices, SetFlagTo(f, data), 8);
    FanOutSetsBits(s.voices, f, data);
    MaskOfBits(vs, f, data, 8);
    Pow2Widths();
  }

  /** Reading a bitmask register gives, in bit ch, the flag of voice ch. */
  lemma MaskReadBits(s: DspState, addr: u8, ch: nat)
    requires WellFormed(s) && RegisterOf(addr).Bitmask? && ch < 8
    ensures BitAt(ReadSpec(s, addr), ch) == FlagOf(s.voices[ch].status, RegisterOf(addr).f)
  {
    MaskBit(s.voices, RegisterOf(addr).f, 8, ch);
  }

  /**
   * Writing FLG with the reset bit marks every voice key-off and zeroes every
   * envelope, keeps the rest of each voice, stores the byte with the reset
   * bit cleared, and hands bits 0-4 to the noise generator as its rate.
   */
  lemma FlagSoftReset(s: DspState, addr: u8, data: u8)
    requires WellFormed(s) && RegisterOf(addr) == Flg && data >= 0x80
    ensures forall ch :: 0 <= ch < 8 ==>
              WriteSpec(s, addr, data).voices[ch] ==
                s.voices[ch].(status := s.voices[ch].status.(keyOff := true),
                              env := s.voices[ch].env.(envelope := 0))
    ensures ReadSpec(WriteSpec(s, addr, data), addr) == data - 0x80
    ensures WriteSpec(s, addr, data).noiseFrequency == data % 0x20
  {
  }

  /** Without the reset bit, an FLG write stores the byte and the noise rate and changes no voice. */
  lemma FlagWriteThenRead(s: DspState, addr: u8, data: u8)
    requires WellFormed(s) && RegisterOf(addr) == Flg && data < 0x80
    ensures ReadSpec(WriteSpec(s, addr, data), addr) == data
    ensures WriteSpec(s, addr, data).voices == s.voices
    ensures WriteSpec(s, addr, data).noiseFrequency == data % 0x20
  {
  }

  /** Writing ENDX, whatever the byte, clears `voice_end` on all eight voices and nothing else, so ENDX then reads 0. */
  lemma EndClear(s: DspState, addr: u8, data: u8)
    requires WellFormed(s) && RegisterOf(addr) == Bitmask(EndFlag)
    ensures forall ch :: 0 <= ch < 8 ==>
              WriteSpec(s, addr, data).voices[ch] == s.voices[ch].(status := s.voices[ch].status.(voiceEnd := false))
    ensures ReadSpec(WriteSpec(s, addr, data), addr) == 0
  {
    var vs := FanOut(s.voices, ClearEnd, 8);
    forall k | 0 <= k < 8
      ensures FlagOf(vs[k].status, EndFlag) == BitAt(0, k)
    {
      ZeroHasNoBit(k);
    }
    MaskOfBits(vs, EndFlag, 0, 8);
  }

  /**
   * A per-voice register reads back the byte written to it, and the write
   * changes only that voice.
   */
  lemma VoiceRegisterWriteThenRead(s: DspState, addr: u8, data: u8)
    requires WellFormed(s) && RegisterOf(addr).PerVoice?
    ensures ReadSpec(WriteSpec(s, addr, data), addr) == data
    ensures forall ch :: 0 <= ch < 8 && ch != Channel(addr) ==> WriteSpec(s, addr, data).voices[ch] == s.voices[ch]
    ensures WriteSpec(s, addr, data).regs == s.regs
  {
    VoiceWriteThenRead(s.voices[Channel(addr)], Index(addr), data);
  }
  // ---------------------------------------------------------------- the DSP

  /** `Dsp`: the 64 KiB audio RAM, the eight voices, the global registers and the noise generator. */
  class Dsp {
    const ram: array<u8>
    const voices: array<Voice>
    var regs: DspRegs
    const noise: Noise

    ghost predicate Valid()
      reads this, noise
    {
      ram.Length == 0x1_0000 && voices.Length == 8 && noise.Valid()
    }

    ghost function State(): (s: DspState)
      requires Valid()
      reads this, voices, noise
      ensures WellFormed(s)
    {
      DspState(regs, voices[..], noise.frequency)
    }

    /** `Dsp::default()`. */
    constructor ()
      ensures Valid() && fresh(ram) && fresh(voices) && fresh(noise)
      ensures State() == DspState(DefaultRegs, seq(8, _ => DefaultVoice), 0)
      ensures forall i :: 0 <= i < ram.Length ==> ram[i] == 0
      ensures noise.State() == DefaultNoise
    {
      ram := new u8[0x1_0000](_ => 0);
      voices := new Voice[8](_ => DefaultVoice);
      regs := DefaultRegs;
      noise := new Noise();
    }

    /** One of the read loops: `ret |= 1 << ch` for each voice whose flag is set. */
    method ReadMask(f: VoiceFlag) returns (ret: u8)
      requires Valid()
      ensures ret == Mask(voices[..], f, 8)
    {
      Pow2Widths();
      var m: nat := 0;
      for ch := 0 to 8
        invariant m == Mask(voices[..], f, ch)
      {
        if FlagOf(voices[ch].status, f) {
          OrNewBit(m, ch, 8);
          m := Bitwise(OrOp, m, Pow2(ch), 8);
        }
      }
      ret := m;
    }

    /** `Dsp::read`. */
    method Read(addr: u8) returns (r: u8)
      requires Valid()
      ensures r == ReadSpec(State(), addr)
    {
      match addr % 0x80
      case 0x0C => r := AsU8(regs.masterL);
      case 0x1C => r := AsU8(regs.masterR);
      case 0x2C => r := AsU8(regs.echoL);
      case 0x3C => r := AsU8(regs.echoR);
      case 0x4C => r := ReadMask(KeyOnFlag);
      case 0x5C => r := ReadMask(KeyOffFlag);
      case 0x6C => r := regs.flag;
      case 0x7C => r := ReadMask(EndFlag);
      case 0x0D => r := AsU8(regs.echoFeedback);
      case 0x1D => r := regs.na;
      case 0x2D => r := ReadMask(PitchModFlag);
      case 0x3D => r := ReadMask(NoiseFlag);
      case 0x4D => r := ReadMask(EchoFlag);
      case 0x5D => r := regs.sampleTable;
      case 0x6D => r := regs.echoBufferAddress;
      case 0x7D => r := regs.echoBufferSize;
      case _ =>
        assert RegisterOf(addr) == PerVoice(Channel(addr), Index(addr));
        r := VoiceRead(voices[Channel(addr)], Index(addr)).value;
    }

    /** One of the write loops over the eight voices. */
    method UpdateVoices(u: VoiceUpdate)
      requires Valid()
      modifies voices
      ensures voices[..] == FanOut(old(voices[..]), u, 8)
    {
      ghost var vs := voices[..];
      for ch := 0 to 8
        invariant voices[..] == FanOut(vs, u, ch)
      {
        voices[ch] := UpdateVoice(u, ch, voices[ch]);
      }
    }

    /** `Dsp::write`. */
    method Write(addr: u8, data: u8)
      requires Valid()
      modifies this, voices, noise
      ensures Valid() && State() == WriteSpec(old(State()), addr, data)
      ensures noise.noise == old(noise.noise) && noise.counter == old(noise.counter)
    {
      match addr % 0x80
      case 0x0C => regs := regs.(masterL := AsI8(data));
      case 0x1C => regs := regs.(masterR := AsI8(data));
      case 0x2C => regs := regs.(echoL := AsI8(data));
      case 0x3C => regs := regs.(echoR := AsI8(data));
      case 0x4C => UpdateVoices(SetFlagTo(KeyOnFlag, data));
      case 0x5C => UpdateVoices(SetFlagTo(KeyOffFlag, data));
      case 0x6C =>
        regs := regs.(flag := data);
        noise.SetFrequency(regs.flag % 0x20);
        if regs.flag >= 0x80 {
          UpdateVoices(SoftReset);
          regs := regs.(flag := regs.flag % 0x80);
        }
      case 0x7C => UpdateVoices(ClearEnd);
      case 0x0D => regs := regs.(echoFeedback := AsI8(data));
      case 0x1D => regs := regs.(na := data);
      case 0x2D => UpdateVoices(SetFlagTo(PitchModFlag, data));
      case 0x3D => UpdateVoices(SetFlagTo(NoiseFlag, data));
      case 0x4D => UpdateVoices(SetFlagTo(EchoFlag, data));
      case 0x5D => regs := regs.(sampleTable := data);
      case 0x6D => regs := regs.(echoBufferAddress := data);
      case 0x7D => regs := regs.(echoBufferSize := data);
      case _ =>
        var ch := Channel(addr);
        assert RegisterOf(addr) == PerVoice(Channel(addr), Index(addr));
        voices[ch] := VoiceWrite(voices[ch], Index(addr), data).value;
    }
  }
}
