/** The template library MB4052<CS_PIN, CLK_PIN, DATA_OUT_PIN, C0_PIN, C1_PIN>: the same
    protocol as the class pair, with the pins as template arguments and every member
    static. An instantiation is modelled by the value of its five template arguments;
    its function-local static `last_on` is the environment's entry for that value. */
module TemplateDriver {
  import opened Hal
  import Timing
  import opened Protocol
  import Signals

  /** The class-scope enumeration ADC_T_uS of the template. */
  datatype AdcTUs = AdcTwach | AdcTwacl | AdcCswcs | AdcCsscs | AdcCshcs | AdcChhch | AdcPropd
  {
    /** The enumerator's value in microseconds. */
    function Us(): nat
    {
      match this
      case AdcTwach => 5
      case AdcTwacl => 6
      case AdcCswcs => 2
      case AdcCsscs => 2
      case AdcCshcs => 2
      case AdcChhch => 2
      case AdcPropd => 2
    }
  }

  /** The template's enumerators carry the same delays as the class library's macros, so
      the two implementations time the protocol alike. */
  lemma EnumMatchesMacros()
    ensures AdcTwach.Us() == Timing.TWACH && AdcTwacl.Us() == Timing.TWACL
    ensures AdcCswcs.Us() == Timing.CSWCS && AdcCsscs.Us() == Timing.CSSCS
    ensures AdcCshcs.Us() == Timing.CSHCS && AdcChhch.Us() == Timing.CHHCH
    ensures AdcPropd.Us() == Timing.PROPD
  {
  }

  /** MB4052<...>::begin: the data line an input with pull-up, CS and CLK outputs, CS
      high, CLK low, then C0 and C1 outputs. */
  method Begin(inst: Instantiation, env: Env)
    modifies env`modes, env`levels, env`log
    ensures env.log == old(env.log) + BeginEvents(inst.cs, inst.clk, inst.dataOut)
                                    + ChannelBeginEvents(inst.c0, inst.c1)
    ensures env.modes == old(env.modes)[inst.dataOut := InputPullup][inst.cs := Output]
                                       [inst.clk := Output][inst.c0 := Output][inst.c1 := Output]
    ensures env.levels == old(env.levels)[inst.cs := High][inst.clk := Low]
  {
    env.PinMode(inst.dataOut, InputPullup);
    env.PinMode(inst.cs, Output);
    env.PinMode(inst.clk, Output);
    env.DigitalWrite(inst.cs, High);
    env.DigitalWrite(inst.clk, Low);
    env.PinMode(inst.c0, Output);
    env.PinMode(inst.c1, Output);
  }

  /** MB4052<...>::readADC(ch): select the channel, then one conversion timed against
      this instantiation's own `last_on`, which it then overwrites. The shared static of
      the class library and the statics of other instantiations are untouched. */
  method ReadAdc(inst: Instantiation, env: Env, ch: Byte) returns (val: Byte)
    modifies env`levels, env`log, env`clock, env`dataLine, env`templateLastOn
    ensures var o := ChannelConversion(inst.cs, inst.clk, inst.dataOut, inst.c0, inst.c1, ch,
                                       old(env.clock), old(env.TemplateLastOn(inst)), env.tick,
                                       old(env.dataLine));
            val == o.value && env.log == old(env.log) + o.events
            && env.clock == o.clock && env.dataLine == o.dataLine
            && env.templateLastOn == old(env.templateLastOn)[inst := o.lastOn]
    ensures env.levels == old(env.levels)[inst.c0 := LevelOf(ch & 1)][inst.c1 := LevelOf((ch >> 1) & 1)]
                                         [inst.clk := Low][inst.cs := High]
  {
    ChannelConversionEvents(inst.cs, inst.clk, inst.dataOut, inst.c0, inst.c1, ch, env.clock,
                            env.TemplateLastOn(inst), env.tick, env.dataLine, env.log);
    // select channel
    env.DigitalWrite(inst.c0, LevelOf(ch & 1));
    env.DigitalWrite(inst.c1, LevelOf((ch >> 1) & 1));
    // wait, select, clock out start bit, eight data bits and stop bit, unselect
    var t;
    val, t := Signals.Convert(env, inst.cs, inst.clk, inst.dataOut, env.TemplateLastOn(inst));
    // this instantiation's own static
    env.templateLastOn := env.templateLastOn[inst := t];
  }
}
