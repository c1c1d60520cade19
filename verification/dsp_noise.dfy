/**
 * The S-DSP's noise generator (src/dsp.rs, `Noise`): a 15-bit linear
 * feedback shift register clocked once every `RATE_TABLE[frequency]` calls.
 */
module DspNoise {
  import opened Wrappers
  import opened DspVoice

  /**
   * One step of the shift register: bit 0 xor bit 1 enters at bit 14 and the
   * other bits move down one place (`(b0 ^ b1) << 14 | ((noise >> 1) & 0x3FFF)`;
   * the two parts have no bit in common, so the `|` is a sum).
   */
  function Lfsr(n: nat): (r: nat)
    ensures r < 0x8000
    ensures r % 0x4000 == (n / 2) % 0x4000
  {
    (if n % 2 != (n / 2) % 2 then 0x4000 else 0) + (n / 2) % 0x4000
  }

  /** A register that is not all zeros stays so: zero is the only fixed point of the feedback. */
  lemma LfsrNonZero(n: nat)
    requires 0 < n < 0x8000
    ensures Lfsr(n) != 0
  {
    if n / 2 == 0 {
      assert n == 1;
    }
  }

  /** `Noise`: the register, the selected rate and the periods counted since the last step. */
  datatype NoiseState = NoiseState(noise: i16, frequency: u8, counter: u16)

  /** `Noise::default()`. */
  const DefaultNoise := NoiseState(1, 0, 0)

  /**
   * What every reachable state satisfies: the register is never negative (it
   * starts at 1 and only the shift register writes it) and the counter stays
   * below the longest period, 2048, so `counter += 1` never wraps.
   */
  predicate NoiseValid(s: NoiseState) { 0 <= s.noise && s.counter < 0x800 }

  /**
   * `generate_noise` on values: rate 0 resets the counter and keeps the
   * register; otherwise the counter advances and the register steps once the
   * counter reaches the rate's period. A rate of 32 or more indexes past
   * `RATE_TABLE` and panics (`None`).
   */
  function NextNoise(s: NoiseState): (r: Option<NoiseState>)
    requires NoiseValid(s)
    ensures r.None? <==> s.frequency >= 32
    ensures r.Some? ==> NoiseValid(r.value) && r.value.frequency == s.frequency
  {
    if s.frequency == 0 then Some(s.(counter := 0))
    else if s.frequency >= 32 then None
    else if s.counter + 1 >= RateTable[s.frequency] then Some(NoiseState(Lfsr(s.noise), s.frequency, 0))
    else Some(s.(counter := s.counter + 1))
  }

  /**
   * With rate 0 the register never moves; with another rate it moves only when
   * the counter reaches the period, and then by one shift-register step; a
   * register that is not zero never becomes zero.
   */
  lemma NextNoiseSteps(s: NoiseState)
    requires NoiseValid(s) && s.frequency < 32
    ensures s.frequency == 0 ==> NextNoise(s).value == s.(counter := 0)
    ensures NextNoise(s).value.noise != s.noise ==>
              s.frequency != 0 && s.counter + 1 >= RateTable[s.frequency] &&
              NextNoise(s).value.noise == Lfsr(s.noise) && NextNoise(s).value.counter == 0
    ensures s.noise != 0 ==> NextNoise(s).value.noise != 0
  {
    if s.noise != 0 {
      LfsrNonZero(s.noise);
    }
  }

  /** The state after k calls at a fixed rate between 1 and 31. */
  function NoiseAfter(s: NoiseState, k: nat): (r: NoiseState)
    requires NoiseValid(s) && 1 <= s.frequency < 32
    ensures NoiseValid(r) && r.frequency == s.frequency
  {
    if k == 0 then s else NextNoise(NoiseAfter(s, k - 1)).value
  }

  /**
   * Starting from a cleared counter, the first `RATE_TABLE[rate] - 1` calls only
   * count, and the call after them steps the register once and clears the counter.
   */
  lemma {:induction false} NoisePeriod(s: NoiseState, k: nat)
    requires NoiseValid(s) && 1 <= s.frequency < 32 && s.counter == 0
    requires k <= RateTable[s.frequency]
    ensures k < RateTable[s.frequency] ==> NoiseAfter(s, k) == s.(counter := k)
    ensures k == RateTable[s.frequency] ==> NoiseAfter(s, k) == s.(noise := Lfsr(s.noise), counter := 0)
  {
    RatePeriods(s.frequency);
    if k > 0 {
      NoisePeriod(s, k - 1);
    }
  }

  /** The noise generator, whose fields `generate_noise` and `set_frequency` update in place. */
  class Noise {
    var noise: i16
    var frequency: u8
    var counter: u16

    ghost function State(): NoiseState
      reads this
    {
      NoiseState(noise, frequency, counter)
    }

    ghost predicate Valid()
      reads this
    {
      NoiseValid(State())
    }

    /** `Noise::default()`. */
    constructor ()
      ensures Valid() && State() == DefaultNoise
    {
      noise := 1;
      frequency := 0;
      counter := 0;
    }

    /** `generate_noise`: the next state, and the register as the output sample. */
    method GenerateNoise() returns (r: Option<i16>)
      requires Valid()
      modifies this
      ensures r.Some? <==> old(frequency) < 32
      ensures r.Some? ==> Valid() && State() == NextNoise(old(State())).value && r.value == noise
      ensures r.None? ==> State() == old(State())
    {
      if frequency == 0 {
        counter := 0;
        return Some(noise);
      }
      if frequency >= 32 {
        return None;
      }
      counter := counter + 1;
      if counter >= RateTable[frequency] {
        counter := 0;
        noise := Lfsr(noise);
      }
      r := Some(noise);
    }

    /** `set_frequency`. */
    method SetFrequency(f: u8)
      requires Valid()
      modifies this
      ensures Valid() && State() == old(State()).(frequency := f)
    {
      frequency := f;
    }
  }
}
