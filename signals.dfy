/** The phases of one conversion, which both drivers run in the same order: the
    dead-time wait, selection with the start pulse, the eight data pulses, and the stop
    pulse with deselection. Each is proved to issue the events its Protocol counterpart
    lists. */
module Signals {
  import opened Hal
  import Timing
  import Bits
  import Protocol

  /** `digitalWrite(clk, HIGH); delayMicroseconds(ADC_TWACH); digitalWrite(clk, LOW);` */
  method ClockPulse(env: Env, clk: Byte)
    modifies env`levels, env`log, env`clock
    ensures env.log == old(env.log) + Protocol.ClockPulse(clk)
    ensures env.levels == old(env.levels)[clk := Low]
    ensures env.clock == old(env.clock) + Timing.TWACH
  {
    env.DigitalWrite(clk, High);
    env.DelayMicroseconds(Timing.TWACH);
    env.DigitalWrite(clk, Low);
    Overwrite(old(env.levels), clk, High, Low);
  }

  /** `digitalWrite(cs, LOW); delayMicroseconds(ADC_CSHCS);` and the start pulse:
      `digitalWrite(clk, HIGH); delayMicroseconds(ADC_TWACH); digitalWrite(clk, LOW);
      delayMicroseconds(ADC_TWACL);` */
  method Select(env: Env, cs: Byte, clk: Byte)
    modifies env`levels, env`log, env`clock
    ensures env.log == old(env.log) + Protocol.Select(cs, clk)
    ensures env.levels == old(env.levels)[cs := Low][clk := Low]
    ensures env.clock == old(env.clock) + Timing.CSHCS + Timing.TWACH + Timing.TWACL
  {
    env.DigitalWrite(cs, Low);
    env.DelayMicroseconds(Timing.CSHCS);
    ClockPulse(env, clk);
    env.DelayMicroseconds(Timing.TWACL);
  }

  /** The stop pulse `digitalWrite(clk, HIGH); delayMicroseconds(ADC_TWACH);
      digitalWrite(clk, LOW);` and `digitalWrite(cs, HIGH);` */
  method Deselect(env: Env, cs: Byte, clk: Byte)
    modifies env`levels, env`log, env`clock
    ensures env.log == old(env.log) + Protocol.Deselect(cs, clk)
    ensures env.levels == old(env.levels)[clk := Low][cs := High]
    ensures env.clock == old(env.clock) + Timing.TWACH
  {
    ClockPulse(env, clk);
    env.DigitalWrite(cs, High);
  }

  /** `while (micros() - last_on < ADC_CSWCS) ;` with `last_on` holding `lastOn`: calls
      micros() until the unsigned difference reaches the CS high pulse width. */
  method WaitDeadTime(env: Env, lastOn: u32)
    modifies env`clock, env`log
    ensures var rs := Protocol.WaitReadings(old(env.clock), lastOn, env.tick);
            env.log == old(env.log) + Protocol.MicrosReads(rs) && env.clock == rs[|rs| - 1] + env.tick
  {
    ghost var c: nat := env.clock;     // the clock at the latest micros() call
    ghost var done: seq<nat> := [];    // the clock at the earlier calls
    var now := env.Micros();
    while Elapsed(now, lastOn) as int < Timing.CSWCS
      invariant now == Micros32(c) && env.clock == c + env.tick
      invariant Protocol.WaitReadings(old(env.clock), lastOn, env.tick)
                == done + Protocol.WaitReadings(c, lastOn, env.tick)
      invariant env.log == old(env.log) + Protocol.MicrosReads(done + [c])
      decreases Timing.CSWCS - Elapsed(Micros32(c), lastOn) as int
    {
      Protocol.WaitAdvance(old(env.clock), done, c, lastOn, env.tick);
      done := done + [c];
      c := c + env.tick;
      now := env.Micros();
      Protocol.MicrosReadsSnoc(done, c);
    }
    Protocol.WaitDone(c, lastOn, env.tick);
  }

  /** The eight data-bit pulses: `for (i = 0; i < 8; i++) { pulse; val <<= 1; val |=
      digitalRead(data) ? 1 : 0; delayMicroseconds(ADC_TWACL); }` starting from `val = 0`.
      The value read is the first eight samples of the data line packed MSB-first. */
  method ReadBits(env: Env, clk: Byte, data: Byte) returns (val: Byte)
    modifies env`levels, env`log, env`clock, env`dataLine
    ensures var vs := Protocol.Samples(old(env.dataLine));
            val == Bits.PackByte(vs) && env.log == old(env.log) + Protocol.DataPulses(clk, data, vs)
    ensures env.dataLine == Protocol.Drop(old(env.dataLine), 8)
    ensures env.clock == old(env.clock) + 8 * (Timing.TWACH + Timing.TWACL)
    ensures env.levels == old(env.levels)[clk := Low]
  {
    ghost var line, levels0, log0, clock0 := env.dataLine, env.levels, env.log, env.clock;
    ghost var vs := Protocol.Samples(line);
    val := 0;
    for i := 0 to 8
      invariant env.log == log0 + Protocol.DataPulses(clk, data, vs[..i])
      invariant env.dataLine == Protocol.Drop(line, i)
      invariant val == Bits.PackByte(vs[..i])
      invariant env.clock == clock0 + i * (Timing.TWACH + Timing.TWACL)
      invariant env.levels == if i == 0 then levels0 else levels0[clk := Low]
    {
      ghost var before := env.log;
      Protocol.DropStep(line, i);
      Protocol.DataPulsesStep(log0, before, clk, data, vs, i);
      ClockPulse(env, clk);
      Overwrite(levels0, clk, Low, Low);
      var r := env.DigitalRead(data);
      Bits.PackByteStep(vs, i);
      val := val << 1;
      val := val | (if r != 0 then 1 else 0);
      env.DelayMicroseconds(Timing.TWACL);
    }
    assert vs[..8] == vs;
  }

  /** One conversion as both readADC bodies run it, timed against the static `last_on`
      holding `lastOn`: the dead-time wait, select and start bit, the eight data bits,
      stop bit and deselect, then `micros()` for the new `last_on`, returned as `t` for
      the caller to store in its own static. */
  method Convert(env: Env, cs: Byte, clk: Byte, data: Byte, lastOn: u32) returns (val: Byte, t: u32)
    modifies env`levels, env`log, env`clock, env`dataLine
    ensures var o := Protocol.Conversion(cs, clk, data, old(env.clock), lastOn, env.tick,
                                         old(env.dataLine));
            val == o.value && env.log == old(env.log) + o.events
            && env.clock == o.clock && t == o.lastOn && env.dataLine == o.dataLine
    ensures env.levels == old(env.levels)[clk := Low][cs := High]
  {
    ghost var levels0 := env.levels;
    Protocol.ConversionEvents(cs, clk, data, env.clock, lastOn, env.tick, env.dataLine, env.log);

    // wait for the dead-time since the last deselection, if necessary
    WaitDeadTime(env, lastOn);
    // select, start bit (ignored)
    Select(env, cs, clk);
    // eight data bits, MSB first
    val := ReadBits(env, clk, data);
    // stop bit (ignored), unselect
    Deselect(env, cs, clk);
    t := env.Micros();

    Overwrite(levels0[cs := Low], clk, Low, Low);
    OverwriteAcross(levels0, cs, clk, Low, Low, High);
  }
}
