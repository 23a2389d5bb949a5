/** The class library: Arduino_MB4052_1ch reads the converter on a hardwired channel,
    Arduino_MB4052 drives the two channel-select lines first and then runs the same
    routine. The C++ private inheritance is modelled by composition: an Arduino_MB4052
    holds the single-channel object whose routine it delegates to, and exposes no
    channel-less read of its own. Every method is `const` in C++: the pins are `const`
    fields here, and all the state a call changes lives in the environment, including
    the one static `last_on` that both classes share. */
module ClassDriver {
  import opened Hal
  import Timing
  import opened Bits
  import opened Protocol
  import Signals

  class Mb4052OneCh {
    const cs: Byte
    const clk: Byte
    const data: Byte

    constructor (csPin: Byte, clkPin: Byte, dataPin: Byte)
      ensures cs == csPin && clk == clkPin && data == dataPin
    {
      cs, clk, data := csPin, clkPin, dataPin;
    }

    /** Arduino_MB4052_1ch::begin */
    method Begin(env: Env)
      modifies env`modes, env`levels, env`log
      ensures env.log == old(env.log) + BeginEvents(cs, clk, data)
      ensures env.modes == old(env.modes)[data := InputPullup][cs := Output][clk := Output]
      ensures env.levels == old(env.levels)[cs := High][clk := Low]
    {
      env.PinMode(data, InputPullup);
      env.PinMode(cs, Output);
      env.PinMode(clk, Output);
      env.DigitalWrite(cs, High);
      env.DigitalWrite(clk, Low);
    }

    /** Arduino_MB4052_1ch::readADC: wait out the dead-time, select, clock out a start
        bit, eight data bits sampled MSB-first and a stop bit, deselect and remember
        when. The result, the log and the new state are those of Protocol.Conversion;
        the pin map ends with CLK low and CS high. */
    method ReadAdc(env: Env) returns (val: Byte)
      modifies env`levels, env`log, env`clock, env`dataLine, env`lastOn
      ensures var o := Conversion(cs, clk, data, old(env.clock), old(env.lastOn), env.tick,
                                  old(env.dataLine));
              val == o.value && env.log == old(env.log) + o.events
              && env.clock == o.clock && env.lastOn == o.lastOn && env.dataLine == o.dataLine
      ensures env.levels == old(env.levels)[clk := Low][cs := High]
    {
      var t;
      val, t := Signals.Convert(env, cs, clk, data, env.lastOn);
      // the one static shared by every object of both classes
      env.lastOn := t;
    }
  }

  class Mb4052 {
    /** The single-channel object whose protocol this one reuses. */
    const base: Mb4052OneCh
    const c0: Byte
    const c1: Byte

    constructor (csPin: Byte, clkPin: Byte, dataPin: Byte, c0Pin: Byte, c1Pin: Byte)
      ensures base.cs == csPin && base.clk == clkPin && base.data == dataPin
      ensures c0 == c0Pin && c1 == c1Pin
    {
      base := new Mb4052OneCh(csPin, clkPin, dataPin);
      c0, c1 := c0Pin, c1Pin;
    }

    /** Arduino_MB4052::begin: the single-channel set-up, then C0 and C1 become outputs
        whose levels are not written. */
    method Begin(env: Env)
      modifies env`modes, env`levels, env`log
      ensures env.log == old(env.log) + BeginEvents(base.cs, base.clk, base.data)
                                      + ChannelBeginEvents(c0, c1)
      ensures env.modes == old(env.modes)[base.data := InputPullup][base.cs := Output]
                                         [base.clk := Output][c0 := Output][c1 := Output]
      ensures env.levels == old(env.levels)[base.cs := High][base.clk := Low]
    {
      base.Begin(env);
      env.PinMode(c0, Output);
      env.PinMode(c1, Output);
    }

    /** Arduino_MB4052::readADC(ch): C0 := ch & 1, C1 := (ch >> 1) & 1, then the
        single-channel conversion with the same shared `last_on`. */
    method ReadAdc(env: Env, ch: Byte) returns (val: Byte)
      modifies env`levels, env`log, env`clock, env`dataLine, env`lastOn
      ensures var o := ChannelConversion(base.cs, base.clk, base.data, c0, c1, ch,
                                         old(env.clock), old(env.lastOn), env.tick,
                                         old(env.dataLine));
              val == o.value && env.log == old(env.log) + o.events
              && env.clock == o.clock && env.lastOn == o.lastOn && env.dataLine == o.dataLine
      ensures env.levels == old(env.levels)[c0 := LevelOf(ch & 1)][c1 := LevelOf((ch >> 1) & 1)]
                                           [base.clk := Low][base.cs := High]
    {
      ChannelConversionEvents(base.cs, base.clk, base.data, c0, c1, ch, env.clock, env.lastOn, env.tick,
                              env.dataLine, env.log);
      env.DigitalWrite(c0, LevelOf(ch & 1));
      env.DigitalWrite(c1, LevelOf((ch >> 1) & 1));
      val := base.ReadAdc(env);
    }
  }
}
