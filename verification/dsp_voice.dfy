/**
 * One voice of the S-DSP (src/dsp.rs): its parameters, status flags, BRR
 * decoder state and envelope generator, and the sixteen per-voice registers.
 *
 * The voice and its parts are copyable records in the source, kept in an
 * array of eight inside the DSP; here they are datatypes, and every `&mut
 * self` method on them is a function from the old record to the new one.
 * The BRR decoder, which works by a loop, is a method on these values.
 * Arithmetic that can overflow is written out with the wrap-around a release
 * build performs.
 */
module DspVoice {
  import opened Wrappers
  import opened Arith
  import opened Bits
  import opened CpuTypes

  /** Rust's `i8` and `i16`. */
  type i8 = x: int | -0x80 <= x < 0x80
  type i16 = x: int | -0x8000 <= x < 0x8000

  /** `data as i8`. */
  function AsI8(b: u8): i8 { if b >= 0x80 then b - 0x100 else b }

  /** `x as u8` for a signed value: its low eight bits. */
  function AsU8(x: int): u8 { x % 0x100 }

  /** A byte read back through `as i8` and `as u8` is the byte itself. */
  lemma AsI8RoundTrip(b: u8)
    ensures AsU8(AsI8(b)) == b
  {
    if b >= 0x80 {
      DivMod(b - 0x100, 0x100, -1, b);
    }
  }

  /** `RATE_TABLE`: the number of sample periods between two steps, for each of the 32 rates; 0 never steps. */
  const RateTable: seq<u16> := [
       0, 2048, 1536, 1280, 1024, 768, 640, 512,
     384,  320,  256,  192,  160, 128,  96,  80,
      64,   48,   40,   32,   24,  20,  16,  12,
      10,    8,    6,    5,    4,   3,   2,   1
  ]

  /** Every rate but 0 steps after between 1 and 2048 periods. */
  lemma RatePeriods(rate: nat)
    requires 1 <= rate < 32
    ensures 1 <= RateTable[rate] <= 0x800
  {
  }

  /** `counter += 1` on a `u16`, with the wrap-around of a release build. */
  function Tick(c: u16): u16 { (c + 1) % 0x1_0000 }

  // ---------------------------------------------------------------- parameters and status

  /**
   * `VoiceParams`: the volumes, pitch, current output sample, FIR coefficient,
   * the four most recent decoded samples (`gaussian_sample_points`, newest
   * first) and the two previous outputs of the BRR filter.
   */
  datatype VoiceParams = VoiceParams(volumeL: i8, volumeR: i8, sampleRate: u16, sample: i16, fir: i8,
                                     g0: i16, g1: i16, g2: i16, g3: i16, oldSample: i16, olderSample: i16)

  /** The four interpolation points, newest first. */
  function Points(p: VoiceParams): seq<i16> { [p.g0, p.g1, p.g2, p.g3] }

  /** `push_sample`: the new sample enters at the front and the oldest point drops out. */
  function PushSample(p: VoiceParams, s: i16): (q: VoiceParams)
    ensures Points(q) == [s] + Points(p)[..3]
    ensures q == p.(g0 := q.g0, g1 := q.g1, g2 := q.g2, g3 := q.g3)
  {
    p.(g3 := p.g2, g2 := p.g1, g1 := p.g0, g0 := s)
  }

  /** After four pushes the points are exactly the four samples pushed, newest first. */
  lemma FourPushes(p: VoiceParams, a: i16, b: i16, c: i16, d: i16)
    ensures Points(PushSample(PushSample(PushSample(PushSample(p, a), b), c), d)) == [d, c, b, a]
  {
    var p1 := PushSample(p, a);
    var p2 := PushSample(p1, b);
    var p3 := PushSample(p2, c);
    assert Points(p3)[..3] == [c, b, a];
  }

  /** `VoiceStatus`: the flags the bitmask registers fan out to. */
  datatype VoiceStatus = VoiceStatus(keyOn: bool, keyOff: bool, voiceEnd: bool,
                                     pitchModulation: bool, noise: bool, echo: bool)

  /** `VoiceStatus::default()`: only `voice_end` set. */
  const DefaultStatus := VoiceStatus(false, false, true, false, false, false)

  /** `is_key_on`: the flag, which the call clears. */
  function IsKeyOn(s: VoiceStatus): (bool, VoiceStatus) { (s.keyOn, s.(keyOn := false)) }

  /** `is_key_off`: the flag, which the call clears. */
  function IsKeyOff(s: VoiceStatus): (bool, VoiceStatus) { (s.keyOff, s.(keyOff := false)) }

  /**
   * Key-on and key-off are read-and-clear: a call returns the current flag
   * and leaves it false, so a second call returns false; nothing else changes.
   */
  lemma KeyFlagsReadAndClear(s: VoiceStatus)
    ensures IsKeyOn(s).0 == s.keyOn && !IsKeyOn(s).1.keyOn && !IsKeyOn(IsKeyOn(s).1).0
    ensures IsKeyOn(s).1 == s.(keyOn := false)
    ensures IsKeyOff(s).0 == s.keyOff && !IsKeyOff(s).1.keyOff && !IsKeyOff(IsKeyOff(s).1).0
    ensures IsKeyOff(s).1 == s.(keyOff := false)
  {
  }

  // ---------------------------------------------------------------- BRR blocks

  /** `BrrParams`: the sample number, the pitch counter and the address of the next BRR byte. */
  datatype BrrParams = BrrParams(sourceNumber: u8, pitchCounter: u16, address: u16)

  /** `BrrBlock`: the header byte of the last decoded block and its sixteen samples. */
  datatype BrrBlock = BrrBlock(header: u8, data: seq<i16>)

  /** `BrrBlockHeader`: bit 0 ends the sample, bit 1 repeats it, bits 2-3 pick the filter, bits 4-7 the shift. */
  predicate End(h: u8) { h % 2 == 1 }
  predicate Repeat(h: u8) { (h / 2) % 2 == 1 }
  function Filter(h: u8): nat { (h / 4) % 4 }
  function Shift(h: u8): nat { h / 0x10 }

  // ---------------------------------------------------------------- envelopes

  /** `EnvelopeState`. */
  datatype EnvelopeState = Attack | Decay | Sustain | Release

  /**
   * `Envelopes`: the two ADSR bytes, the GAIN byte, the 11-bit envelope (held
   * in a `u16`), the rate counter and the ADSR state.
   */
  datatype Envelopes = Envelopes(adsr1: u8, adsr2: u8, gain: u8, envelope: u16, counter: u16, state: EnvelopeState)

  /** `AdsrSettings`: attack rate (bits 0-3), decay rate (4-6), ADSR enable (7), sustain rate (8-12), sustain level (13-15). */
  function AttackRate(e: Envelopes): nat { e.adsr1 % 0x10 }
  function DecayRate(e: Envelopes): nat { (e.adsr1 / 0x10) % 8 }
  predicate UseAdsr(e: Envelopes) { e.adsr1 >= 0x80 }
  function SustainRate(e: Envelopes): nat { e.adsr2 % 0x20 }
  function SustainLevel(e: Envelopes): nat { e.adsr2 / 0x20 }

  /** The envelope below which decay turns into sustain: `(sustain_level + 1) * 0x100`. */
  function SustainBoundary(e: Envelopes): nat { (SustainLevel(e) + 1) * 0x100 }

  /** The exponential step `((envelope - 1) >> 8) + 1` of a positive envelope. */
  function ExpStep(env: u16): nat
    requires env > 0
  {
    (env - 1) / 0x100 + 1
  }

  /** `reset_envelope_on_key_on`. */
  function ResetOnKeyOn(e: Envelopes): Envelopes { e.(envelope := 0, counter := 0, state := Attack) }

  /** `update_envelope`: keep 11 bits, then GAIN unless ADSR is enabled or the voice is releasing. */
  function UpdateEnvelope(e: Envelopes): (r: Envelopes)
    ensures r.adsr1 == e.adsr1 && r.adsr2 == e.adsr2 && r.gain == e.gain
    ensures r.envelope <= 0x7FF
    ensures (r.state == Release) == (e.state == Release)
    ensures e.state == Sustain ==> r.state == Sustain
    ensures e.state != Release && !UseAdsr(e) ==> r.state == e.state
  {
    var e1 := e.(envelope := e.envelope % 0x800);
    if e1.state != Release && !UseAdsr(e1) then UpdateGainEnvelope(e1) else UpdateAdsrEnvelope(e1)
  }

  /**
   * `update_gain_envelope`: with bit 7 clear the envelope is set directly to
   * 16 times the low seven bits; otherwise bits 0-4 pick a rate and bits 5-6
   * the mode (linear down, exponential down, linear up, bent line up).
   */
  function UpdateGainEnvelope(e: Envelopes): (r: Envelopes)
    ensures r.adsr1 == e.adsr1 && r.adsr2 == e.adsr2 && r.gain == e.gain && r.state == e.state
    ensures e.gain < 0x80 ==> r.envelope / 16 == e.gain && r.envelope % 16 == 0
    ensures e.gain >= 0x80 && (e.gain / 0x20) % 4 < 2 ==> r.envelope <= e.envelope
    ensures e.gain >= 0x80 && (e.gain / 0x20) % 4 >= 2 && e.envelope <= 0x7FF ==> e.envelope <= r.envelope <= 0x7FF
  {
    if e.gain < 0x80 then e.(envelope := (e.gain % 0x80) * 16)
    else
      var rate := e.gain % 0x20;
      var mode := (e.gain / 0x20) % 4;
      var c := Tick(e.counter);
      if rate == 0 then e.(counter := 0)
      else if c >= RateTable[rate] then e.(counter := 0, envelope := GainStep(e.envelope, mode))
      else e.(counter := c)
  }

  /** One step of a GAIN mode; `+` is written with the `u16` wrap-around of a release build. */
  function GainStep(env: u16, mode: nat): (r: u16)
    ensures mode < 2 ==> r <= env
    ensures mode == 1 && env > 0 ==> r < env
    ensures mode >= 2 && env <= 0x7FF ==> env <= r <= 0x7FF
  {
    if mode == 0 then (if env >= 32 then env - 32 else 0)
    else if mode == 1 then (if env > 0 then env - ExpStep(env) else env)
    else if mode == 2 then Min((env + 32) % 0x1_0000, 0x7FF)
    else if env < 0x600 then env + 32
    else Min((env + 8) % 0x1_0000, 0x7FF)
  }

  function Min(a: int, b: int): int { if a <= b then a else b }

  /** `update_adsr_envelope`. */
  function UpdateAdsrEnvelope(e: Envelopes): (r: Envelopes)
    ensures r.adsr1 == e.adsr1 && r.adsr2 == e.adsr2 && r.gain == e.gain
    ensures e.state == Attack ==> r.state == Attack || r.state == Decay
    ensures e.state == Decay ==> r.state == Decay || r.state == Sustain
    ensures e.state == Sustain ==> r.state == Sustain
    ensures e.state == Release ==> r.state == Release
    ensures e.state != Attack ==> r.envelope <= e.envelope
  {
    match e.state
    case Attack => ProcessAttack(e)
    case Decay => ProcessDecay(e)
    case Sustain => ProcessSustain(e)
    case Release => ProcessRelease(e)
  }

  /** `process_attack`: up by 32 (1024 at the fastest rate) up to 0x7FF; Decay from 0x7E0 on. */
  function ProcessAttack(e: Envelopes): (r: Envelopes)
    ensures r.adsr1 == e.adsr1 && r.adsr2 == e.adsr2 && r.gain == e.gain
    ensures r.state == e.state || (r.state == Decay && r.envelope >= 0x7E0)
    ensures e.envelope <= 0x7FF ==> e.envelope <= r.envelope <= 0x7FF
  {
    var rate := AttackRate(e) * 2 + 1;
    var c := Tick(e.counter);
    if c >= RateTable[rate] then
      var env := Min((e.envelope + if rate != 31 then 32 else 1024) % 0x1_0000, 0x7FF);
      e.(counter := 0, envelope := env, state := if env >= 0x7E0 then Decay else e.state)
    else e.(counter := c)
  }

  /**
   * `process_decay` as written: the exponential step is taken without
   * checking that the envelope is positive, so an envelope of 0 wraps.
   */
  function ProcessDecayAsWritten(e: Envelopes): (r: Envelopes)
    ensures e.envelope > 0 ==> r == ProcessDecay(e)
  {
    DecayStepAsWritten(e.envelope);
    var rate := DecayRate(e) * 2 + 16;
    var c := Tick(e.counter);
    var e1 := if c >= RateTable[rate] then
        var step := ((e.envelope - 1) % 0x1_0000) / 0x100 + 1;
        e.(counter := 0, envelope := (e.envelope - step) % 0x1_0000)
      else e.(counter := c);
    if e1.envelope <= SustainBoundary(e1) then e1.(state := Sustain) else e1
  }

  /** On a positive envelope the unguarded `u16` decay step is the exponential step, and it does not wrap. */
  lemma DecayStepAsWritten(env: u16)
    ensures env > 0 ==> ((env - 1) % 0x1_0000) / 0x100 + 1 == ExpStep(env) <= env
    ensures env > 0 ==> (env - ExpStep(env)) % 0x1_0000 == env - ExpStep(env)
  {
    if env > 0 {
      assert (env - 1) % 0x1_0000 == env - 1;
      assert ExpStep(env) <= env;
    }
  }

  /**
   * `process_decay` with the exponential step guarded by `envelope > 0`, as
   * `process_sustain` guards it; Sustain once the envelope is at most the
   * sustain boundary.
   */
  function ProcessDecay(e: Envelopes): (r: Envelopes)
    ensures r.adsr1 == e.adsr1 && r.adsr2 == e.adsr2 && r.gain == e.gain
    ensures r.envelope <= e.envelope
    ensures r.state == (if r.envelope <= SustainBoundary(e) then Sustain else e.state)
  {
    var rate := DecayRate(e) * 2 + 16;
    var c := Tick(e.counter);
    var e1 := if c >= RateTable[rate] then
        e.(counter := 0, envelope := if e.envelope > 0 then e.envelope - ExpStep(e.envelope) else e.envelope)
      else e.(counter := c);
    if e1.envelope <= SustainBoundary(e1) then e1.(state := Sustain) else e1
  }

  /** `process_sustain`: exponential decrease at the sustain rate; rate 0 holds. */
  function ProcessSustain(e: Envelopes): (r: Envelopes)
    ensures r.adsr1 == e.adsr1 && r.adsr2 == e.adsr2 && r.gain == e.gain && r.state == e.state
    ensures r.envelope <= e.envelope
    ensures SustainRate(e) == 0 ==> r.envelope == e.envelope && r.counter == 0
  {
    var rate := SustainRate(e);
    if rate == 0 then e.(counter := 0)
    else
      var c := Tick(e.counter);
      if c >= RateTable[rate] then
        e.(counter := 0, envelope := if e.envelope > 0 then e.envelope - ExpStep(e.envelope) else e.envelope)
      else e.(counter := c)
  }

  /** `process_release`: down by 8 every period, stopping at 0. */
  function ProcessRelease(e: Envelopes): (r: Envelopes)
    ensures r.adsr1 == e.adsr1 && r.adsr2 == e.adsr2 && r.gain == e.gain && r.state == e.state
    ensures r.envelope <= e.envelope && e.envelope - r.envelope <= 8
    ensures r.envelope < e.envelope ==> r.counter == 0
  {
    var c := Tick(e.counter);
    if c >= RateTable[31] then e.(counter := 0, envelope := if e.envelope >= 8 then e.envelope - 8 else 0)
    else e.(counter := c)
  }

  /**
   * After `update_envelope` the envelope fits in 11 bits, and a rate counter
   * below 0x800 stays below 0x800, so its `+= 1` never wraps.
   */
  lemma UpdateEnvelopeBounded(e: Envelopes)
    ensures UpdateEnvelope(e).envelope <= 0x7FF
    ensures e.counter < 0x800 ==> UpdateEnvelope(e).counter < 0x800
  {
    var e1 := e.(envelope := e.envelope % 0x800);
    if e1.state != Release && !UseAdsr(e1) {
      if e1.gain >= 0x80 && e1.gain % 0x20 != 0 {
        RatePeriods(e1.gain % 0x20);
      }
    } else if e1.state == Attack {
      RatePeriods(AttackRate(e1) * 2 + 1);
    } else if e1.state == Decay {
      RatePeriods(DecayRate(e1) * 2 + 16);
    } else if e1.state == Sustain {
      if SustainRate(e1) != 0 {
        RatePeriods(SustainRate(e1));
      }
    }
  }

  /**
   * In Attack with ADSR on, the state becomes Decay exactly when a step is
   * taken and the envelope reaches 0x7E0, and it never leaves for any other
   * state; the envelope never decreases below its 11-bit value.
   */
  lemma AttackThenDecay(e: Envelopes)
    requires e.state == Attack && UseAdsr(e)
    ensures var r := UpdateEnvelope(e);
      && (r.state == Decay <==> Tick(e.counter) >= RateTable[AttackRate(e) * 2 + 1] && r.envelope >= 0x7E0)
      && (r.state == Attack || r.state == Decay)
      && r.envelope >= e.envelope % 0x800
  {
  }

  /**
   * In Decay with ADSR on, the state becomes Sustain exactly when the new
   * envelope is at most `(sustain_level + 1) * 0x100`, and otherwise stays
   * Decay; the envelope never increases.
   */
  lemma DecayThenSustain(e: Envelopes)
    requires e.state == Decay && UseAdsr(e)
    ensures var r := UpdateEnvelope(e);
      && (r.state == Sustain <==> r.envelope <= SustainBoundary(e))
      && (r.state == Decay || r.state == Sustain)
      && r.envelope <= e.envelope % 0x800
  {
  }

  /** Sustain and Release never raise the envelope, and never change the state. */
  lemma SustainAndReleaseDecrease(e: Envelopes)
    requires e.state == Release || (e.state == Sustain && UseAdsr(e))
    ensures UpdateEnvelope(e).envelope <= e.envelope % 0x800
    ensures UpdateEnvelope(e).state == e.state
  {
  }

  /**
   * The decay step as written wraps: an ADSR voice in Decay whose envelope
   * is 0 (after a write of 0 to its ENVX register, voice register 0x8) and
   * whose counter is about to reach the period ends with envelope 0xFF00,
   * far above the 11-bit range, and does not move to Sustain. (This is the
   * `u16` wrap of a release build; a debug build panics on the subtraction.)
   */
  lemma DecayUnderflowAsWritten()
    ensures var e := Envelopes(0xF0, 0, 0, 0, 1, Decay);
      && UseAdsr(e) && e.envelope == e.envelope % 0x800
      && ProcessDecayAsWritten(e).envelope == 0xFF00
      && ProcessDecayAsWritten(e).state == Decay
  {
    var e := Envelopes(0xF0, 0, 0, 0, 1, Decay);
    assert DecayRate(e) * 2 + 16 == 30 && RateTable[30] == 2;
    assert ((0 - 1) % 0x1_0000) / 0x100 + 1 == 0x100;
    assert (0 - 0x100) % 0x1_0000 == 0xFF00;
  }

  // ---------------------------------------------------------------- the voice and its registers

  /** `Voice`: parameters, status, BRR state, last block, envelopes and the three unused registers 0xA, 0xB, 0xE. */
  datatype Voice = Voice(params: VoiceParams, status: VoiceStatus, brr: BrrParams, block: BrrBlock,
                         env: Envelopes, na0: u8, na1: u8, na2: u8)

  /** `Voice::default()`. */
  const DefaultVoice := Voice(VoiceParams(0, 0, 0, 0, 0, 0, 0, 0, 0, 0, 0), DefaultStatus,
                              BrrParams(0, 0, 0), BrrBlock(0, seq(16, _ => 0)),
                              Envelopes(0, 0, 0, 0, 0, Attack), 0, 0, 0)

  /** A per-voice register index: the low nibble of the address, except 0xC and 0xD, which are global registers. */
  predicate IsVoiceRegister(addr: u8) { addr < 0x10 && addr != 0xC && addr != 0xD }

  /** `Voice::read`; the indices the source marks unreachable give `None`. */
  function VoiceRead(v: Voice, addr: u8): (r: Option<u8>)
    ensures r.Some? <==> IsVoiceRegister(addr)
  {
    if addr == 0x0 then Some(AsU8(v.params.volumeL))
    else if addr == 0x1 then Some(AsU8(v.params.volumeR))
    else if addr == 0x2 then Some(Lo(v.params.sampleRate))
    else if addr == 0x3 then Some(Hi(v.params.sampleRate))
    else if addr == 0x4 then Some(v.brr.sourceNumber)
    else if addr == 0x5 then Some(v.env.adsr1)
    else if addr == 0x6 then Some(v.env.adsr2)
    else if addr == 0x7 then Some(v.env.gain)
    else if addr == 0x8 then Some(AsU8(v.env.envelope / 0x10))
    else if addr == 0x9 then Some(AsU8(v.params.sample / 0x80))
    else if addr == 0xA then Some(v.na0)
    else if addr == 0xB then Some(v.na1)
    else if addr == 0xE then Some(v.na2)
    else if addr == 0xF then Some(AsU8(v.params.fir))
    else None
  }

  /**
   * `Voice::write`; the indices the source marks unreachable give `None`.
   * ENVX takes `data << 4` and OUTX takes `(data << 7) as i16`.
   */
  function VoiceWrite(v: Voice, addr: u8, data: u8): (r: Option<Voice>)
    ensures r.Some? <==> IsVoiceRegister(addr)
  {
    if addr == 0x0 then Some(v.(params := v.params.(volumeL := AsI8(data))))
    else if addr == 0x1 then Some(v.(params := v.params.(volumeR := AsI8(data))))
    else if addr == 0x2 then Some(v.(params := v.params.(sampleRate := Word(data, Hi(v.params.sampleRate)))))
    else if addr == 0x3 then Some(v.(params := v.params.(sampleRate := Word(Lo(v.params.sampleRate), data))))
    else if addr == 0x4 then Some(v.(brr := v.brr.(sourceNumber := data)))
    else if addr == 0x5 then Some(v.(env := v.env.(adsr1 := data)))
    else if addr == 0x6 then Some(v.(env := v.env.(adsr2 := data)))
    else if addr == 0x7 then Some(v.(env := v.env.(gain := data)))
    else if addr == 0x8 then Some(v.(env := v.env.(envelope := data * 0x10)))
    else if addr == 0x9 then Some(v.(params := v.params.(sample := data * 0x80)))
    else if addr == 0xA then Some(v.(na0 := data))
    else if addr == 0xB then Some(v.(na1 := data))
    else if addr == 0xE then Some(v.(na2 := data))
    else if addr == 0xF then Some(v.(params := v.params.(fir := AsI8(data))))
    else None
  }

  /** Reading a per-voice register after writing it gives back the byte written. */
  lemma VoiceWriteThenRead(v: Voice, addr: u8, data: u8)
    requires IsVoiceRegister(addr)
    ensures VoiceRead(VoiceWrite(v, addr, data).value, addr) == Some(data)
  {
    var sr := v.params.sampleRate;
    if addr == 0x0 || addr == 0x1 || addr == 0xF {
      AsI8RoundTrip(data);
    } else if addr == 0x2 {
      WordRoundTrip(Word(data, Hi(sr)), data, Hi(sr));
    } else if addr == 0x3 {
      WordRoundTrip(Word(Lo(sr), data), Lo(sr), data);
    } else if addr == 0x8 {
      DivMod(data * 0x10, 0x10, data, 0);
    } else if addr == 0x9 {
      DivMod(data * 0x80, 0x80, data, 0);
    }
  }

  /** Writing one per-voice register leaves what every other register reads unchanged. */
  lemma VoiceWriteKeepsOthers(v: Voice, addr: u8, other: u8, data: u8)
    requires IsVoiceRegister(addr) && other != addr
    ensures VoiceRead(VoiceWrite(v, addr, data).value, other) == VoiceRead(v, other)
  {
    var sr := v.params.sampleRate;
    if addr == 0x2 {
      WordRoundTrip(Word(data, Hi(sr)), data, Hi(sr));
    } else if addr == 0x3 {
      WordRoundTrip(Word(Lo(sr), data), Lo(sr), data);
    }
  }

  // ---------------------------------------------------------------- BRR decoding

  /** The sample table entry `sample_table_address * 0x100 + source_number * 4`, in 16-bit arithmetic. */
  function TableEntry(sampleTable: u8, source: u8): (t: u16)
    ensures t % 4 == 0 && t + 4 <= 0x1_0000
  {
    var t := (sampleTable * 0x100 + source * 4) % 0x1_0000;
    DivMod(sampleTable * 0x100 + source * 4, 0x1_0000, (sampleTable * 0x100 + source * 4) / 0x1_0000, t);
    assert (sampleTable * 0x100 + source * 4) % 4 == 0;
    t
  }

  /**
   * `set_brr_address`: the start address (or, when repeating, the loop
   * address) stored little-endian in the voice's sample table entry.
   */
  function SetBrrAddress(v: Voice, ram: seq<u8>, sampleTable: u8, repeat: bool): (w: Voice)
    requires |ram| == 0x1_0000
    ensures var t := TableEntry(sampleTable, v.brr.sourceNumber); var k := if repeat then t + 2 else t;
      w == v.(brr := v.brr.(address := Word(ram[k], ram[k + 1])))
  {
    var t := TableEntry(sampleTable, v.brr.sourceNumber);
    var k := if repeat then t + 2 else t;
    v.(brr := v.brr.(address := Word(ram[k], ram[k + 1])))
  }

  /** The low four bits of a value as a signed nibble: `((n as i16) << 12) >> 12`. */
  function SignExtend4(n: nat): (r: int)
    ensures -8 <= r < 8 && (r - n) % 0x10 == 0
  {
    var m := n % 0x10;
    if m >= 8 then m - 0x10 else m
  }

  /** Sample i of a block reads the high nibble of its byte for even i and the low nibble for odd i. */
  function BrrNibble(byte: u8, i: nat): int { SignExtend4(if i % 2 == 0 then byte / 0x10 else byte) }

  /** `x << k` on a value that does not overflow: x doubled k times. */
  function ShiftLeft(x: int, k: nat): int { if k == 0 then x else 2 * ShiftLeft(x, k - 1) }

  /** The shift range: `(nibble << shift) >> 1` up to 12, and `((nibble >> 3) << 12) >> 1` (0 or -2048) above. */
  function BrrScale(shift: nat, nibble: int): int
    requires -8 <= nibble < 8
  {
    if shift <= 12 then ShiftLeft(nibble, shift) / 2 else ShiftLeft(nibble / 8, 12) / 2
  }

  /** The four prediction filters, with `>>` as floor division. */
  function BrrFilter(filter: nat, s: int, prev: int, prev2: int): int
  {
    if filter == 0 then s
    else if filter == 1 then s + prev + (-prev) / 0x10
    else if filter == 2 then s + prev * 2 + (-prev * 3) / 0x20 - prev2 + prev2 / 0x10
    else s + prev * 2 + (-prev * 13) / 0x40 - prev2 + (prev2 * 3) / 0x10
  }

  /** `clamp(-0x8000, 0x7FFF)`. */
  function Clamp16(x: int): (r: i16)
    ensures -0x8000 <= x < 0x8000 ==> r == x
    ensures x < -0x8000 ==> r == -0x8000
    ensures x >= 0x8000 ==> r == 0x7FFF
  {
    if x < -0x8000 then -0x8000 else if x > 0x7FFF then 0x7FFF else x
  }

  /** `wrapping_add(1)` on a 16-bit address. */
  function NextAddr(a: u16): (b: u16)
    ensures b == (a + 1) % 0x1_0000
  {
    if a == 0xFFFF then 0 else a + 1
  }

  /** The address k bytes after `a`, wrapping at the end of memory. */
  function Ahead(a: u16, k: nat): u16 { (a + k) % 0x1_0000 }

  /** One byte and then n more is n + 1 bytes on; no bytes on is the address itself. */
  lemma AheadNext(a: u16, n: nat)
    ensures Ahead(NextAddr(a), n) == Ahead(a, n + 1)
    ensures Ahead(a, 0) == a
  {
    DivMod(a, 0x1_0000, 0, a);
    if a + 1 < 0x1_0000 {
      DivMod(a + 1, 0x1_0000, 0, a + 1);
    } else {
      DivMod(a + 1, 0x1_0000, 1, 0);
      var q := (a + 1 + n) / 0x1_0000;
      var r := (a + 1 + n) % 0x1_0000;
      DivMod(n, 0x1_0000, q - 1, r);
    }
  }

  /** `Ahead` moves on by one byte exactly like `wrapping_add(1)`. */
  lemma AheadStep(a: u16, k: nat)
    ensures NextAddr(Ahead(a, k)) == Ahead(a, k + 1)
  {
    var q := (a + k) / 0x1_0000;
    var r := Ahead(a, k);
    if r < 0xFFFF {
      DivMod(a + k + 1, 0x1_0000, q, r + 1);
    } else {
      DivMod(a + k + 1, 0x1_0000, q + 1, 0);
    }
  }

  /** Sample i reads data byte i / 2; the byte index moves on after every odd sample. */
  lemma HalfStep(i: nat)
    ensures i % 2 == 1 ==> (i + 1) / 2 == i / 2 + 1
    ensures i % 2 == 0 ==> (i + 1) / 2 == i / 2
  {
  }

  /** One decoded sample from its byte, its position, the header and the two previous outputs. */
  function BrrSample(header: u8, byte: u8, i: nat, prev: i16, prev2: i16): (r: i16)
    ensures Filter(header) == 0 ==> r == BrrScale(Shift(header), BrrNibble(byte, i))
  {
    ScaleFits(Shift(header), BrrNibble(byte, i));
    Clamp16(BrrFilter(Filter(header), BrrScale(Shift(header), BrrNibble(byte, i)), prev, prev2))
  }

  /**
   * Where `decode_brr` is within a block: the samples so far, the address of
   * the current data byte, and the filter history (`old` and `older`).
   */
  datatype BrrCursor = BrrCursor(data: seq<i16>, address: u16, prev: i16, prev2: i16)

  /**
   * Sample i of a block: read the byte at the cursor, append the decoded
   * sample, move to the next byte (`wrapping_add(1)`) after an odd sample,
   * and shift the filter history.
   */
  function BrrStep(ram: seq<u8>, header: u8, c: BrrCursor, i: nat): (d: BrrCursor)
    requires |ram| == 0x1_0000
    ensures |d.data| == |c.data| + 1
  {
    var s := BrrSample(header, ram[c.address], i, c.prev, c.prev2);
    BrrCursor(c.data + [s], if i % 2 == 1 then NextAddr(c.address) else c.address, s, c.prev)
  }

  /** The cursor after the first i samples of a block. */
  function BrrSteps(ram: seq<u8>, header: u8, c0: BrrCursor, i: nat): (c: BrrCursor)
    requires |ram| == 0x1_0000
    ensures |c.data| == |c0.data| + i
  {
    if i == 0 then c0 else BrrStep(ram, header, BrrSteps(ram, header, c0, i - 1), i - 1)
  }

  /** The cursor at the first data byte of the block at `a`, with the voice's filter history. */
  function BrrStart(v: Voice, a: u16): BrrCursor
  {
    BrrCursor([], NextAddr(a), v.params.oldSample, v.params.olderSample)
  }

  /**
   * The voice after `decode_brr`: header from the byte at the BRR address,
   * sixteen samples from the bytes after it, the address where the samples
   * stopped, `voice_end` set by the header's end bit, the filter history
   * left by the last two samples and the first sample pushed.
   */
  function Decoded(v: Voice, ram: seq<u8>): (w: Voice)
    requires |ram| == 0x1_0000
    ensures w.env == v.env && w.na0 == v.na0 && w.na1 == v.na1 && w.na2 == v.na2
    ensures w.block == BrrBlock(ram[v.brr.address], w.block.data) && |w.block.data| == 16
    ensures w.brr == v.brr.(address := w.brr.address)
  {
    var a := v.brr.address;
    var header := ram[a];
    var c := BrrSteps(ram, header, BrrStart(v, a), 16);
    v.(params := PushSample(v.params.(oldSample := c.prev, olderSample := c.prev2), c.data[0]),
       status := v.status.(voiceEnd := v.status.voiceEnd || End(header)),
       brr := v.brr.(address := c.address),
       block := BrrBlock(header, c.data))
  }

  /** The body of `decode_brr`'s loop for sample i: the nibble, scaled, filtered and clamped. */
  method DecodeSample(header: u8, byte: u8, i: nat, prev: i16, prev2: i16) returns (decoded: i16)
    ensures decoded == BrrSample(header, byte, i, prev, prev2)
  {
    var nibble := SignExtend4(if i % 2 == 0 then byte / 0x10 else byte);
    var sample := BrrScale(Shift(header), nibble);
    decoded := Clamp16(BrrFilter(Filter(header), sample, prev, prev2));
  }

  /**
   * `decode_brr`: read the header, then sixteen nibbles high first, each
   * scaled by the shift, filtered with the two previous outputs and clamped.
   */
  method DecodeBrr(v: Voice, ram: seq<u8>) returns (w: Voice)
    requires |ram| == 0x1_0000
    ensures w == Decoded(v, ram)
  {
    var header := ram[v.brr.address];
    var address := NextAddr(v.brr.address);
    var voiceEnd := v.status.voiceEnd;
    if End(header) {
      voiceEnd := true;
    }
    var prev := v.params.oldSample;
    var prev2 := v.params.olderSample;
    var data: seq<i16> := [];
    for i := 0 to 16
      invariant BrrCursor(data, address, prev, prev2) == BrrSteps(ram, header, BrrStart(v, v.brr.address), i)
    {
      var decoded := DecodeSample(header, ram[address], i, prev, prev2);
      if i % 2 == 1 {
        address := NextAddr(address);
      }
      prev2 := prev;
      prev := decoded;
      data := data + [decoded];
    }
    w := v.(params := PushSample(v.params.(oldSample := prev, olderSample := prev2), data[0]),
            status := v.status.(voiceEnd := voiceEnd),
            brr := v.brr.(address := address),
            block := BrrBlock(header, data));
  }

  /**
   * After i samples the cursor is at data byte i / 2, every sample so far
   * stays as it was, and the filter history is the last two samples (or
   * the history the block started with).
   */
  lemma {:induction false} BrrStepsShape(ram: seq<u8>, header: u8, c0: BrrCursor, i: nat)
    requires |ram| == 0x1_0000 && c0.data == []
    ensures var c := BrrSteps(ram, header, c0, i);
      && c.address == Ahead(c0.address, i / 2)
      && (i >= 1 ==> c.prev == c.data[i - 1])
      && (i >= 2 ==> c.prev2 == c.data[i - 2])
      && (i == 1 ==> c.prev2 == c0.prev)
      && (i == 0 ==> c == c0)
  {
    if i == 0 {
      AheadNext(c0.address, 0);
    } else {
      BrrStepsShape(ram, header, c0, i - 1);
      HalfStep(i - 1);
      AheadStep(c0.address, (i - 1) / 2);
    }
  }

  /** Later samples never change earlier ones: the first i samples stay the same after j >= i samples. */
  lemma {:induction false} BrrStepsPrefix(ram: seq<u8>, header: u8, c0: BrrCursor, i: nat, j: nat)
    requires |ram| == 0x1_0000 && i <= j
    ensures BrrSteps(ram, header, c0, j).data[..|c0.data| + i] == BrrSteps(ram, header, c0, i).data
    decreases j
  {
    var d := BrrSteps(ram, header, c0, j).data;
    if j > i {
      BrrStepsPrefix(ram, header, c0, i, j - 1);
      var d' := BrrSteps(ram, header, c0, j - 1).data;
      assert d == d' + [d[|d| - 1]];
      assert d[..|c0.data| + i] == d'[..|c0.data| + i];
    } else {
      assert d[..|d|] == d;
    }
  }

  /**
   * Sample j of a block is decoded from data byte j / 2 with the two samples
   * before it as history (for the first two samples, the history the voice
   * brought from the previous block).
   */
  lemma BrrSampleAt(ram: seq<u8>, header: u8, c0: BrrCursor, j: nat)
    requires |ram| == 0x1_0000 && c0.data == [] && j < 16
    ensures var d := BrrSteps(ram, header, c0, 16).data;
      d[j] == BrrSample(header, ram[Ahead(c0.address, j / 2)], j,
                        if j >= 1 then d[j - 1] else c0.prev,
                        if j >= 2 then d[j - 2] else if j == 1 then c0.prev else c0.prev2)
  {
    var c := BrrSteps(ram, header, c0, j);
    BrrStepsShape(ram, header, c0, j);
    BrrStepsPrefix(ram, header, c0, j + 1, 16);
    BrrStepsPrefix(ram, header, c0, j, 16);
    var d := BrrSteps(ram, header, c0, 16).data;
    var e := BrrSteps(ram, header, c0, j + 1).data;
    assert e == c.data + [BrrSample(header, ram[c.address], j, c.prev, c.prev2)];
    assert d[j] == d[..j + 1][j] == e[j];
    if j >= 1 {
      assert d[j - 1] == d[..j][j - 1] == c.data[j - 1];
    }
    if j >= 2 {
      assert d[j - 2] == d[..j][j - 2] == c.data[j - 2];
    }
  }

  /**
   * Decoding advances the BRR address by exactly nine bytes modulo 2^16
   * (the header and eight data bytes), yields sixteen samples under the
   * header it read, leaves the last two samples as the filter history and
   * pushes the first, and sets `voice_end` exactly when the header's end bit
   * is set (or it was already set); the envelope, the source number and
   * the other status flags stay as they were.
   */
  lemma DecodedBlock(v: Voice, ram: seq<u8>)
    requires |ram| == 0x1_0000
    ensures var w := Decoded(v, ram);
      && w.brr.address == Ahead(v.brr.address, 9)
      && |w.block.data| == 16 && w.block.header == ram[v.brr.address]
      && w.params.g0 == w.block.data[0] && w.params.oldSample == w.block.data[15] && w.params.olderSample == w.block.data[14]
      && (w.status.voiceEnd <==> v.status.voiceEnd || End(ram[v.brr.address]))
      && w.status == v.status.(voiceEnd := w.status.voiceEnd)
      && w.env == v.env && w.brr.sourceNumber == v.brr.sourceNumber
  {
    var a := v.brr.address;
    BrrStepsShape(ram, ram[a], BrrStart(v, a), 16);
    AheadNext(a, 8);
  }

  /**
   * With filter 0 a sample depends only on its own nibble: every sample is
   * the scaled nibble of its byte, which always fits in an `i16`, so neither
   * the history nor clamping changes it.
   */
  lemma FilterZeroIsScaledNibble(ram: seq<u8>, header: u8, c0: BrrCursor, j: nat)
    requires |ram| == 0x1_0000 && c0.data == [] && j < 16 && Filter(header) == 0
    ensures BrrSteps(ram, header, c0, 16).data[j] == BrrScale(Shift(header), BrrNibble(ram[Ahead(c0.address, j / 2)], j))
  {
    BrrSampleAt(ram, header, c0, j);
    ScaleFits(Shift(header), BrrNibble(ram[Ahead(c0.address, j / 2)], j));
  }

  /** A scaled nibble fits in an `i16`. */
  lemma ScaleFits(shift: nat, nibble: int)
    requires -8 <= nibble < 8
    ensures -0x8000 <= BrrScale(shift, nibble) < 0x8000
  {
    if shift <= 12 {
      ShiftBound(nibble, shift, 12);
    } else {
      ShiftBound(nibble / 8, 12, 12);
    }
  }

  /** A nibble shifted left by at most m stays within 2^m nibbles. */
  lemma {:induction false} ShiftBound(x: int, k: nat, m: nat)
    requires -8 <= x < 8 && k <= m
    ensures -8 * Pow2(m) <= ShiftLeft(x, k) < 8 * Pow2(m)
    ensures m == 12 ==> 8 * Pow2(m) == 0x8000
  {
    if m == 12 {
      assert Pow2(12) == 0x1000 by { Pow2Widths(); }
    }
    if m > 0 {
      if k == m {
        ShiftBound(x, k - 1, m - 1);
      } else {
        ShiftBound(x, k, m - 1);
      }
    }
  }

  /**
   * Decoding reads only the eight data bytes of the block: two memories that
   * agree on them give the same cursor after every sample.
   */
  lemma {:induction false} BrrReadsOnlyItsBytes(ram: seq<u8>, ram': seq<u8>, header: u8, c0: BrrCursor, i: nat)
    requires |ram| == 0x1_0000 && |ram'| == 0x1_0000 && c0.data == [] && i <= 16
    requires forall k :: 0 <= k < 8 ==> ram[Ahead(c0.address, k)] == ram'[Ahead(c0.address, k)]
    ensures BrrSteps(ram, header, c0, i) == BrrSteps(ram', header, c0, i)
  {
    if i > 0 {
      BrrReadsOnlyItsBytes(ram, ram', header, c0, i - 1);
      BrrStepsShape(ram, header, c0, i - 1);
      assert ram[Ahead(c0.address, (i - 1) / 2)] == ram'[Ahead(c0.address, (i - 1) / 2)];
    }
  }

  /**
   * `load_next_brr`'s choice of where to continue: after a block without the
   * end bit, at the next block; after an end block, at the sample's loop
   * address, and when the end block does not repeat the voice is also sent
   * to Release with envelope 0.
   */
  function NextBrrSource(v: Voice, ram: seq<u8>, sampleTable: u8): Voice
    requires |ram| == 0x1_0000
  {
    if !End(v.block.header) then v
    else if Repeat(v.block.header) then SetBrrAddress(v, ram, sampleTable, true)
    else SetBrrAddress(v.(env := v.env.(state := Release, envelope := 0)), ram, sampleTable, true)
  }

  /** `load_next_brr`: pick where to continue, then decode the block there. */
  method LoadNextBrr(v: Voice, ram: seq<u8>, sampleTable: u8) returns (w: Voice)
    requires |ram| == 0x1_0000
    ensures w == Decoded(NextBrrSource(v, ram, sampleTable), ram)
  {
    if !End(v.block.header) {
      w := DecodeBrr(v, ram);
    } else if Repeat(v.block.header) {
      var v1 := SetBrrAddress(v, ram, sampleTable, true);
      w := DecodeBrr(v1, ram);
    } else {
      var v1 := v.(env := v.env.(state := Release, envelope := 0));
      v1 := SetBrrAddress(v1, ram, sampleTable, true);
      w := DecodeBrr(v1, ram);
    }
  }

  /**
   * After an end block, decoding continues from the loop address stored at
   * entry + 2 of the sample table; a non-repeating end also releases the
   * voice with envelope 0. Without the end bit it continues where the last
   * block stopped.
   */
  lemma NextBrrSourceSpec(v: Voice, ram: seq<u8>, sampleTable: u8)
    requires |ram| == 0x1_0000
    ensures var n := NextBrrSource(v, ram, sampleTable); var t := TableEntry(sampleTable, v.brr.sourceNumber);
      && (!End(v.block.header) ==> n == v)
      && (End(v.block.header) ==> n.brr.address == Word(ram[t + 2], ram[t + 3]))
      && (End(v.block.header) && Repeat(v.block.header) ==> n.env == v.env)
      && (End(v.block.header) && !Repeat(v.block.header) ==> n.env.state == Release && n.env.envelope == 0)
  {
  }
}
