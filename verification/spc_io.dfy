/**
 * The audio CPU's I/O registers at 0xF0-0xFF (src/spc.rs, `IORegisters` and
 * `Timer`): the control register with its wait states, timer enables, port
 * resets and boot-ROM switch, the DSP address and data registers, the four
 * CPU ports in each direction, the two external ports and the three timers
 * with their shared tick divider.
 */
module SpcIo {
  import opened Wrappers
  import opened Arith
  import opened Bits
  import opened DspVoice
  import opened Dsp

  // ---------------------------------------------------------------- timers

  /** `Timer`: a counter that counts up to the divider and then bumps a 4-bit output. */
  datatype Timer = Timer(enabled: bool, counter: u8, divider: u8, output: u8)

  /** `Timer::default()`. */
  const DefaultTimer := Timer(false, 0xFF, 0, 0)

  /**
   * `Timer::tick`: when enabled, the counter advances modulo 256; on reaching
   * the divider it restarts at 0 and the output advances modulo 16.
   */
  function TimerTick(t: Timer): (r: Timer)
    ensures r.enabled == t.enabled && r.divider == t.divider
    ensures !t.enabled ==> r == t
    ensures t.output < 0x10 ==> r.output < 0x10
    ensures r.output != t.output ==> r.counter == 0 && r.output == (t.output + 1) % 0x10
  {
    if !t.enabled then t
    else
      var c := (t.counter + 1) % 0x100;
      if c == t.divider then t.(counter := 0, output := (t.output + 1) % 0x10) else t.(counter := c)
  }

  /** `Timer::output`: the output, which the read resets to 0. */
  function TimerOutput(t: Timer): (u8, Timer) { (t.output, t.(output := 0)) }

  /**
   * A disabled timer does not move; a tick changes only the counter and the
   * output, and leaves an output below 16; the output read returns the output
   * and leaves 0, so a second read returns 0.
   */
  lemma TimerTickSpec(t: Timer)
    ensures !t.enabled ==> TimerTick(t) == t
    ensures TimerTick(t) == t.(counter := TimerTick(t).counter, output := TimerTick(t).output)
    ensures t.output < 0x10 ==> TimerTick(t).output < 0x10
    ensures TimerOutput(t).0 == t.output && TimerOutput(t).1.output == 0 && TimerOutput(TimerOutput(t).1).0 == 0
  {
  }

  /** n ticks. */
  function TimerTicks(t: Timer, n: nat): Timer
  {
    if n == 0 then t else TimerTick(TimerTicks(t, n - 1))
  }

  /** The number of ticks between two output steps: the divider, where 0 stands for 256. */
  function TimerPeriod(t: Timer): nat { if t.divider == 0 then 0x100 else t.divider }

  /**
   * An enabled timer whose counter is 0 counts for `TimerPeriod - 1` ticks
   * and then, on the next tick, advances its output by one and restarts.
   */
  lemma {:induction false} TimerCountsToDivider(t: Timer, k: nat)
    requires t.enabled && t.counter == 0 && k <= TimerPeriod(t)
    ensures 0 < k < TimerPeriod(t) ==> TimerTicks(t, k) == t.(counter := k)
    ensures k == TimerPeriod(t) ==> TimerTicks(t, k) == t.(output := (t.output + 1) % 0x10)
  {
    if k > 1 {
      TimerCountsToDivider(t, k - 1);
    }
  }

  // ---------------------------------------------------------------- the register block

  /** `CYCLE`: the wait states that bits 4-5 and 6-7 of the control register select. */
  const Cycle: seq<nat> := [1, 2, 5, 10]

  /** `IORegisters`, with the DSP's register file as a value. */
  datatype IoState = IoState(waitRam: nat, waitIo: nat, cpuIn: seq<u8>, cpuOut: seq<u8>,
                             romReadEnabled: bool, ramWriteEnabled: bool, dspAddr: u8, dsp: DspState,
                             externalPorts: seq<u8>, timers: seq<Timer>, counter01: nat, counter2: nat)

  predicate IoOk(s: IoState)
  {
    |s.cpuIn| == 4 && |s.cpuOut| == 4 && |s.externalPorts| == 2 && |s.timers| == 3 && WellFormed(s.dsp)
  }

  /** The value `IORegisters::read` returns; indices 0, 1 and 0xA-0xC are unreachable in the source (`None`). */
  function IoReadValue(s: IoState, index: u8): (r: Option<u8>)
    requires IoOk(s)
    ensures r.None? <==> index < 2 || 0xA <= index <= 0xC || index > 0xF
    ensures index == 3 ==> r == Some(ReadSpec(s.dsp, s.dspAddr))
    ensures 0xD <= index <= 0xF ==> r == Some(s.timers[index - 0xD].output)
  {
    if index == 2 then Some(s.dspAddr)
    else if index == 3 then Some(ReadSpec(s.dsp, s.dspAddr))
    else if 4 <= index <= 7 then Some(s.cpuIn[index - 4])
    else if index == 8 || index == 9 then Some(s.externalPorts[index - 8])
    else if 0xD <= index <= 0xF then Some(TimerOutput(s.timers[index - 0xD]).0)
    else None
  }

  /** The registers after `IORegisters::read`: reading a timer output clears it, and nothing else changes. */
  function IoAfterRead(s: IoState, index: u8): (t: IoState)
    requires IoOk(s)
    ensures IoOk(t)
  {
    if 0xD <= index <= 0xF then s.(timers := s.timers[index - 0xD := TimerOutput(s.timers[index - 0xD]).1])
    else s
  }

  /** The timers after the first n turns of the enable loop: timer i is enabled iff bit i of the byte is set. */
  function EnableTimers(ts: seq<Timer>, data: u8, n: nat): (us: seq<Timer>)
    ensures |us| == |ts|
  {
    seq(|ts|, i requires 0 <= i < |ts| => if i < n then ts[i].(enabled := BitAt(data, i)) else ts[i])
  }

  /**
   * The input ports after the first n turns of the port-reset loop as the
   * source writes it: bit 4 + i clears ports i and i + 1.
   */
  function PortClearAsWritten(ports: seq<u8>, data: u8, n: nat): (qs: seq<u8>)
    ensures |qs| == |ports|
  {
    seq(|ports|, k requires 0 <= k < |ports| =>
      if (k < n && BitAt(data, 4 + k)) || (1 <= k <= n && BitAt(data, 3 + k)) then 0 else ports[k])
  }

  /**
   * The input ports after the first n turns of the port-reset loop as the
   * control register defines it: bit 4 + i clears ports 2i and 2i + 1.
   */
  function PortClear(ports: seq<u8>, data: u8, n: nat): (qs: seq<u8>)
    ensures |qs| == |ports|
  {
    seq(|ports|, k requires 0 <= k < |ports| => if k / 2 < n && BitAt(data, 4 + k / 2) then 0 else ports[k])
  }

  /** One pass of the reset loop clears the pair of ports that its bit selects. */
  lemma PortClearStep(ports: seq<u8>, data: u8, i: nat)
    requires |ports| == 4 && i < 2
    ensures var a := PortClear(ports, data, i);
      PortClear(ports, data, i + 1) == if BitAt(data, 4 + i) then a[2 * i := 0][2 * i + 1 := 0] else a
  {
    var a := PortClear(ports, data, i);
    var b := PortClear(ports, data, i + 1);
    var c := if BitAt(data, 4 + i) then a[2 * i := 0][2 * i + 1 := 0] else a;
    forall k | 0 <= k < 4
      ensures b[k] == c[k]
    {
      if k < 2 {
        assert k / 2 == 0;
      } else {
        assert k / 2 == 1;
      }
    }
  }

  /** With bit 5 alone, the loop as written clears ports 1 and 2 and keeps port 3; the intended reset clears ports 2 and 3. */
  lemma PortClearAsWrittenMissesPort3()
    ensures PortClearAsWritten([1, 1, 1, 1], 0x20, 2) == [1, 0, 0, 1]
    ensures PortClear([1, 1, 1, 1], 0x20, 2) == [1, 1, 0, 0]
  {
    assert BitAt(0x20, 5) && !BitAt(0x20, 4) && !BitAt(0x20, 6) && !BitAt(0x20, 3);
  }

  /** The control register write (index 1): timer enables from bits 0-2, port resets from bits 4-5, ROM switch from bit 7. */
  function ControlWrite(s: IoState, data: u8): (t: IoState)
    requires IoOk(s)
    ensures IoOk(t)
  {
    s.(timers := EnableTimers(s.timers, data, 3), cpuIn := PortClear(s.cpuIn, data, 2), romReadEnabled := data >= 0x80)
  }

  /** `IORegisters::write`; an index above 0xF is unreachable in the source (`None`). */
  function IoWriteSpec(s: IoState, index: u8, data: u8): (t: Option<IoState>)
    requires IoOk(s)
    ensures t.Some? <==> index < 0x10
    ensures t.Some? ==> IoOk(t.value)
  {
    if index == 0 then Some(s.(ramWriteEnabled := BitAt(data, 1), waitRam := Cycle[(data / 0x10) % 4], waitIo := Cycle[data / 0x40]))
    else if index == 1 then Some(ControlWrite(s, data))
    else if index == 2 then Some(s.(dspAddr := data))
    else if index == 3 then Some(s.(dsp := WriteSpec(s.dsp, s.dspAddr, data)))
    else if 4 <= index <= 7 then Some(s.(cpuOut := s.cpuOut[index - 4 := data]))
    else if index == 8 || index == 9 then Some(s.(externalPorts := s.externalPorts[index - 8 := data]))
    else if 0xA <= index <= 0xC then Some(s.(timers := s.timers[index - 0xA := s.timers[index - 0xA].(divider := data)]))
    else if 0xD <= index <= 0xF then Some(s)
    else None
  }

  /**
   * The first control register (index 0) sets RAM writes from bit 1 and the two
   * wait states from the table, by bits 4-5 and 6-7; nothing else changes.
   */
  lemma WaitStateWrite(s: IoState, data: u8)
    requires IoOk(s)
    ensures IoWriteSpec(s, 0, data).value.waitRam == Cycle[(data / 0x10) % 4] && Cycle[(data / 0x10) % 4] in {1, 2, 5, 10}
    ensures IoWriteSpec(s, 0, data).value.waitIo == Cycle[data / 0x40] && Cycle[data / 0x40] in {1, 2, 5, 10}
    ensures IoWriteSpec(s, 0, data).value.ramWriteEnabled == BitAt(data, 1)
    ensures IoWriteSpec(s, 0, data).value ==
              s.(ramWriteEnabled := BitAt(data, 1), waitRam := IoWriteSpec(s, 0, data).value.waitRam,
                 waitIo := IoWriteSpec(s, 0, data).value.waitIo)
  {
  }

  /**
   * The control register (index 1) enables timer i iff bit i is set and keeps
   * the rest of each timer, clears ports 0-1 iff bit 4 and ports 2-3 iff
   * bit 5, keeps the other ports, and enables the boot ROM iff bit 7.
   */
  lemma ControlRegisterWrite(s: IoState, data: u8)
    requires IoOk(s)
    ensures forall i :: 0 <= i < 3 ==> IoWriteSpec(s, 1, data).value.timers[i] == s.timers[i].(enabled := BitAt(data, i))
    ensures forall k :: 0 <= k < 4 ==>
              IoWriteSpec(s, 1, data).value.cpuIn[k] == if BitAt(data, 4 + k / 2) then 0 else s.cpuIn[k]
    ensures IoWriteSpec(s, 1, data).value.romReadEnabled <==> BitAt(data, 7)
    ensures IoWriteSpec(s, 1, data).value.cpuOut == s.cpuOut && IoWriteSpec(s, 1, data).value.dsp == s.dsp
  {
    TopBit(data, 7);
    Pow2Widths();
  }

  /** A timer output is at most 15 as long as every timer's is: reads clear it and ticks keep it below 16. */
  predicate OutputsBounded(s: IoState)
    requires IoOk(s)
  {
    forall i :: 0 <= i < 3 ==> s.timers[i].output < 0x10
  }

  /** Reads and writes keep the timer outputs below 16, and a timer-output read returns one. */
  lemma OutputsStayBounded(s: IoState, index: u8, data: u8)
    requires IoOk(s) && OutputsBounded(s)
    ensures OutputsBounded(IoAfterRead(s, index))
    ensures 0xD <= index <= 0xF ==> IoReadValue(s, index).value < 0x10
    ensures index < 0x10 ==> OutputsBounded(IoWriteSpec(s, index, data).value)
  {
  }

  /**
   * The CPU ports go one way each: the audio CPU writes `cpu_out` and reads
   * `cpu_in`, so a write to 0xF4-0xF7 leaves what the same register reads alone.
   */
  lemma PortsAreOneWay(s: IoState, index: u8, data: u8)
    requires IoOk(s) && 4 <= index <= 7
    ensures IoReadValue(IoWriteSpec(s, index, data).value, index) == IoReadValue(s, index)
    ensures IoWriteSpec(s, index, data).value.cpuOut[index - 4] == data
  {
  }

  /** The DSP address register reads back what was written, and the data register writes and reads the DSP register it selects. */
  lemma DspWindow(s: IoState, data: u8)
    requires IoOk(s)
    ensures IoReadValue(IoWriteSpec(s, 2, data).value, 2) == Some(data)
    ensures IoWriteSpec(s, 3, data).value.dsp == WriteSpec(s.dsp, s.dspAddr, data)
    ensures IoReadValue(s, 3) == Some(ReadSpec(s.dsp, s.dspAddr))
  {
  }

  /** `Spc::write_port`: the main CPU writes one of the four ports the audio CPU reads; an index past 3 panics. */
  function PortWrite(s: IoState, port: u16, data: u8): (t: Option<IoState>)
    requires IoOk(s)
    ensures t.Some? <==> port < 4
    ensures t.Some? ==> IoOk(t.value)
  {
    if port < 4 then Some(s.(cpuIn := s.cpuIn[port := data])) else None
  }

  /** `Spc::read_port`: the main CPU reads one of the four ports the audio CPU writes; an index past 3 panics. */
  function PortRead(s: IoState, port: u16): (r: Option<u8>)
    requires IoOk(s)
    ensures r.Some? <==> port < 4
  {
    if port < 4 then Some(s.cpuOut[port]) else None
  }

  /**
   * The ports carry bytes across in both directions: a byte the main CPU
   * writes to port p is what the audio CPU reads at 0xF4 + p, a byte the
   * audio CPU writes at 0xF4 + p is what the main CPU reads from port p, and
   * neither side's write changes what that side itself reads back.
   */
  lemma PortsCarryBytes(s: IoState, port: u16, data: u8)
    requires IoOk(s) && port < 4
    ensures IoReadValue(PortWrite(s, port, data).value, 4 + port) == Some(data)
    ensures PortRead(PortWrite(s, port, data).value, port) == PortRead(s, port)
    ensures PortRead(IoWriteSpec(s, 4 + port, data).value, port) == Some(data)
    ensures IoReadValue(IoWriteSpec(s, 4 + port, data).value, 4 + port) == IoReadValue(s, 4 + port)
  {
  }

  /** `tick_timer` on values: timers 0 and 1 tick once per 128 accumulated units, timer 2 once per 16. */
  function TickTimerSpec(s: IoState, elapsed: nat): (t: IoState)
    requires IoOk(s)
    ensures IoOk(t)
  {
    var c01 := s.counter01 + elapsed;
    var c2 := s.counter2 + elapsed;
    s.(timers := [TimerTicks(s.timers[0], c01 / 0x80), TimerTicks(s.timers[1], c01 / 0x80), TimerTicks(s.timers[2], c2 / 0x10)],
       counter01 := c01 % 0x80, counter2 := c2 % 0x10)
  }

  /** Ticks compose: m ticks and then n more are m + n ticks. */
  lemma {:induction false} TimerTicksAdd(t: Timer, m: nat, n: nat)
    ensures TimerTicks(TimerTicks(t, m), n) == TimerTicks(t, m + n)
  {
    if n > 0 {
      TimerTicksAdd(t, m, n - 1);
    }
  }

  /**
   * A timer fed a units through an accumulator of period d holding c, and
   * then b more, has ticked as often as if fed a + b at once, and the
   * accumulator ends where it would.
   */
  lemma AccumulatedTicks(t: Timer, c: nat, a: nat, b: nat, d: nat)
    requires d > 0
    ensures TimerTicks(TimerTicks(t, (c + a) / d), ((c + a) % d + b) / d) == TimerTicks(t, (c + a + b) / d)
    ensures ((c + a) % d + b) % d == (c + a + b) % d
  {
    AccumulatedUnits(c + a, b, d);
    TimerTicksAdd(t, (c + a) / d, ((c + a) % d + b) / d);
  }

  /** An accumulator holding x mod d that receives b more: whole periods and leftover add up as for x + b. */
  lemma AccumulatedUnits(x: nat, b: nat, d: nat)
    requires d > 0
    ensures x / d + (x % d + b) / d == (x + b) / d
    ensures (x % d + b) % d == (x + b) % d
  {
    DivMod(x + b, d, x / d + (x % d + b) / d, (x % d + b) % d);
  }

  /** The timers after `tick_timer` by a and then b are the timers after `tick_timer` by a + b. */
  lemma TimersSplit(s: IoState, a: nat, b: nat)
    requires IoOk(s)
    ensures TickTimerSpec(TickTimerSpec(s, a), b).timers == TickTimerSpec(s, a + b).timers
  {
    AccumulatedTicks(s.timers[0], s.counter01, a, b, 0x80);
    AccumulatedTicks(s.timers[1], s.counter01, a, b, 0x80);
    AccumulatedTicks(s.timers[2], s.counter2, a, b, 0x10);
  }

  /** The accumulators after `tick_timer` by a and then b are those after `tick_timer` by a + b. */
  lemma CountersSplit(s: IoState, a: nat, b: nat)
    requires IoOk(s)
    ensures TickTimerSpec(TickTimerSpec(s, a), b).counter01 == TickTimerSpec(s, a + b).counter01
    ensures TickTimerSpec(TickTimerSpec(s, a), b).counter2 == TickTimerSpec(s, a + b).counter2
  {
    AccumulatedUnits(s.counter01 + a, b, 0x80);
    AccumulatedUnits(s.counter2 + a, b, 0x10);
  }

  /**
   * No elapsed unit is lost in the accumulators: `tick_timer` by a and then
   * by b leaves the same registers as one `tick_timer` by a + b, and both
   * accumulators stay below their thresholds.
   */
  lemma TickTimerSplit(s: IoState, a: nat, b: nat)
    requires IoOk(s)
    ensures TickTimerSpec(TickTimerSpec(s, a), b) == TickTimerSpec(s, a + b)
    ensures TickTimerSpec(s, a).counter01 < 0x80 && TickTimerSpec(s, a).counter2 < 0x10
  {
    TimersSplit(s, a, b);
    CountersSplit(s, a, b);
  }

  // ---------------------------------------------------------------- the register block as an object

  /** `IORegisters`: the fields the source updates in place, the fixed-size port and timer arrays, and the DSP. */
  class IoRegisters {
    var waitRam: nat
    var waitIo: nat
    const cpuIn: array<u8>
    const cpuOut: array<u8>
    var romReadEnabled: bool
    var ramWriteEnabled: bool
    var dspAddr: u8
    const dsp: Dsp
    const externalPorts: array<u8>
    const timers: array<Timer>
    var counter01: nat
    var counter2: nat

    ghost predicate Valid()
      reads this, dsp, dsp.noise
    {
      cpuIn.Length == 4 && cpuOut.Length == 4 && externalPorts.Length == 2 && timers.Length == 3 &&
      cpuIn != cpuOut && cpuIn != externalPorts && cpuOut != externalPorts &&
      dsp.ram != cpuIn && dsp.ram != cpuOut && dsp.ram != externalPorts && dsp.Valid()
    }

    ghost function State(): (s: IoState)
      requires Valid()
      reads this, cpuIn, cpuOut, externalPorts, timers, dsp, dsp.voices, dsp.noise
      ensures IoOk(s)
    {
      IoState(waitRam, waitIo, cpuIn[..], cpuOut[..], romReadEnabled, ramWriteEnabled, dspAddr, dsp.State(),
              externalPorts[..], timers[..], counter01, counter2)
    }

    /** `IORegisters::default()`. */
    constructor ()
      ensures Valid() && fresh(cpuIn) && fresh(cpuOut) && fresh(externalPorts) && fresh(timers)
      ensures fresh(dsp) && fresh(dsp.ram) && fresh(dsp.voices) && fresh(dsp.noise)
      ensures forall i :: 0 <= i < dsp.ram.Length ==> dsp.ram[i] == 0
      ensures State() == IoState(1, 1, [0, 0, 0, 0], [0, 0, 0, 0], true, true, 0,
                                 DspState(DefaultRegs, seq(8, _ => DefaultVoice), 0),
                                 [0, 0], [DefaultTimer, DefaultTimer, DefaultTimer], 0, 0)
    {
      waitRam := 1;
      waitIo := 1;
      cpuIn := new u8[4](_ => 0);
      cpuOut := new u8[4](_ => 0);
      romReadEnabled := true;
      ramWriteEnabled := true;
      dspAddr := 0;
      dsp := new Dsp();
      externalPorts := new u8[2](_ => 0);
      timers := new Timer[3](_ => DefaultTimer);
      counter01 := 0;
      counter2 := 0;
      new;
      assert cpuIn[..] == [0, 0, 0, 0] && cpuOut[..] == [0, 0, 0, 0] && externalPorts[..] == [0, 0];
      assert timers[..] == [DefaultTimer, DefaultTimer, DefaultTimer];
    }

    /** `IORegisters::read`. */
    method Read(index: u8) returns (r: Option<u8>)
      requires Valid()
      modifies timers
      ensures r == IoReadValue(old(State()), index)
      ensures State() == IoAfterRead(old(State()), index)
    {
      if index == 2 {
        r := Some(dspAddr);
      } else if index == 3 {
        var v := dsp.Read(dspAddr);
        r := Some(v);
      } else if 4 <= index <= 7 {
        r := Some(cpuIn[index - 4]);
      } else if index == 8 || index == 9 {
        r := Some(externalPorts[index - 8]);
      } else if 0xD <= index <= 0xF {
        var ret := timers[index - 0xD].output;
        timers[index - 0xD] := timers[index - 0xD].(output := 0);
        r := Some(ret);
      } else {
        r := None;
      }
    }

    /** The timer-enable loop of the control register write. */
    method EnableTimerLoop(data: u8)
      requires Valid()
      modifies timers
      ensures timers[..] == EnableTimers(old(timers[..]), data, 3)
    {
      ghost var ts := timers[..];
      for i := 0 to 3
        invariant timers[..] == EnableTimers(ts, data, i)
      {
        AndMaskIsBit(data, i, 8);
        timers[i] := timers[i].(enabled := Bitwise(AndOp, data, Pow2(i), 8) != 0);
      }
    }

    /** The port-reset loop of the control register write (as the control register defines it). */
    method PortClearLoop(data: u8)
      requires Valid()
      modifies cpuIn
      ensures cpuIn[..] == PortClear(old(cpuIn[..]), data, 2)
    {
      ghost var ports := cpuIn[..];
      for i := 0 to 2
        invariant cpuIn[..] == PortClear(ports, data, i)
      {
        AndMaskIsBit(data, i + 4, 8);
        PortClearStep(ports, data, i);
        if Bitwise(AndOp, data, Pow2(i + 4), 8) != 0 {
          ghost var before := cpuIn[..];
          cpuIn[2 * i] := 0;
          cpuIn[2 * i + 1] := 0;
          assert cpuIn[..] == before[2 * i := 0][2 * i + 1 := 0];
        }
      }
    }

    /** `IORegisters::write`; `ok` is false where the source panics. */
    method Write(index: u8, data: u8) returns (ok: bool)
      requires Valid()
      modifies this, cpuIn, cpuOut, externalPorts, timers, dsp, dsp.voices, dsp.noise
      ensures ok <==> IoWriteSpec(old(State()), index, data).Some?
      ensures Valid() && (ok ==> State() == IoWriteSpec(old(State()), index, data).value)
    {
      ok := true;
      if index == 0 {
        assert BitAt(data, 1) == ((data / 2) % 2 == 1);
        ramWriteEnabled := (data / 2) % 2 == 1;
        waitRam := Cycle[(data / 0x10) % 4];
        waitIo := Cycle[data / 0x40];
      } else if index == 1 {
        EnableTimerLoop(data);
        PortClearLoop(data);
        romReadEnabled := data >= 0x80;
      } else if index == 2 {
        dspAddr := data;
      } else if index == 3 {
        dsp.Write(dspAddr, data);
      } else if 4 <= index <= 7 {
        cpuOut[index - 4] := data;
      } else if index == 8 || index == 9 {
        externalPorts[index - 8] := data;
      } else if 0xA <= index <= 0xC {
        timers[index - 0xA] := timers[index - 0xA].(divider := data);
      } else if 0xD <= index <= 0xF {
      } else {
        ok := false;
      }
    }

    /** One pass of the `for` loop over timers 0 and 1 in `tick_timer`. */
    method TickFastTimers()
      requires timers.Length == 3
      modifies timers
      ensures timers[..] == [TimerTick(old(timers[0])), TimerTick(old(timers[1])), old(timers[2])]
    {
      for i := 0 to 2
        invariant timers[..] == [if i > 0 then TimerTick(old(timers[0])) else old(timers[0]),
                                 if i > 1 then TimerTick(old(timers[1])) else old(timers[1]), old(timers[2])]
      {
        timers[i] := TimerTick(timers[i]);
      }
    }

    /** The first `while` loop of `tick_timer`: timers 0 and 1 tick once per 128 units of `counter01`. */
    method SpendFastUnits()
      requires timers.Length == 3
      modifies this`counter01, timers
      ensures counter01 == old(counter01) % 0x80
      ensures timers[..] == [TimerTicks(old(timers[0]), old(counter01) / 0x80),
                             TimerTicks(old(timers[1]), old(counter01) / 0x80), old(timers[2])]
    {
      ghost var n := 0;
      while counter01 >= 0x80
        invariant counter01 + 0x80 * n == old(counter01)
        invariant timers[..] == [TimerTicks(old(timers[0]), n), TimerTicks(old(timers[1]), n), old(timers[2])]
        modifies this`counter01, timers
        decreases counter01
      {
        counter01 := counter01 - 0x80;
        TickFastTimers();
        n := n + 1;
      }
      DivMod(old(counter01), 0x80, n, counter01);
    }

    /** The second `while` loop of `tick_timer`: timer 2 ticks once per 16 units of `counter2`. */
    method SpendSlowUnits()
      requires timers.Length == 3
      modifies this`counter2, timers
      ensures counter2 == old(counter2) % 0x10
      ensures timers[..] == [old(timers[0]), old(timers[1]), TimerTicks(old(timers[2]), old(counter2) / 0x10)]
    {
      ghost var k := 0;
      while counter2 >= 0x10
        invariant counter2 + 0x10 * k == old(counter2)
        invariant timers[..] == [old(timers[0]), old(timers[1]), TimerTicks(old(timers[2]), k)]
        modifies this`counter2, timers
        decreases counter2
      {
        counter2 := counter2 - 0x10;
        ghost var before := timers[..];
        timers[2] := TimerTick(timers[2]);
        assert timers[..] == before[2 := TimerTick(before[2])];
        k := k + 1;
      }
      DivMod(old(counter2), 0x10, k, counter2);
    }

    /** `tick_timer`: add the elapsed units to both counters, then spend them in the two loops. */
    method TickTimer(elapsed: nat)
      requires Valid()
      modifies this, timers
      ensures Valid() && State() == TickTimerSpec(old(State()), elapsed)
    {
      ghost var s := State();
      counter01 := counter01 + elapsed;
      counter2 := counter2 + elapsed;
      SpendFastUnits();
      SpendSlowUnits();
      assert State() == s.(timers := timers[..], counter01 := counter01, counter2 := counter2);
    }
  }
}
