/** Whole sessions from power-on, each on a fresh environment: the template and the class
    pair driving the same pins, two objects sharing the class library's static, and two
    template instantiations each with its own. */
module Sessions {
  import opened Hal
  import opened Timing
  import opened Protocol
  import ClassDriver
  import TemplateDriver
  import DeadTime
  import ConversionFacts

  /** begin() and two channel reads from power-on, on the pins of `pins`: the values
      returned and every platform call, in order. */
  function TwoReads(pins: Instantiation, tick: Tick, clock: nat, line: seq<int>, ch1: Byte, ch2: Byte)
    : (r: (seq<Byte>, seq<Event>))
    ensures |r.0| == 2
  {
    var o1 := ChannelConversion(pins.cs, pins.clk, pins.dataOut, pins.c0, pins.c1, ch1,
                                clock, 0, tick, line);
    var o2 := ChannelConversion(pins.cs, pins.clk, pins.dataOut, pins.c0, pins.c1, ch2,
                                o1.clock, o1.lastOn, tick, o1.dataLine);
    ([o1.value, o2.value],
     BeginEvents(pins.cs, pins.clk, pins.dataOut) + ChannelBeginEvents(pins.c0, pins.c1)
     + o1.events + o2.events)
  }

  /** The session through an Arduino_MB4052 object. */
  method ClassSession(pins: Instantiation, tick: Tick, clock: nat, line: seq<int>, ch1: Byte, ch2: Byte)
    returns (vals: seq<Byte>, log: seq<Event>)
    ensures (vals, log) == TwoReads(pins, tick, clock, line, ch1, ch2)
  {
    var env := new Env(tick, clock, line);
    var dev := new ClassDriver.Mb4052(pins.cs, pins.clk, pins.dataOut, pins.c0, pins.c1);
    dev.Begin(env);
    ghost var o1 := ChannelConversion(pins.cs, pins.clk, pins.dataOut, pins.c0, pins.c1, ch1,
                                      clock, 0, tick, line);
    ghost var log0 := env.log;
    assert log0 == [] + (BeginEvents(pins.cs, pins.clk, pins.dataOut) + ChannelBeginEvents(pins.c0, pins.c1));
    assert log0 == BeginEvents(pins.cs, pins.clk, pins.dataOut) + ChannelBeginEvents(pins.c0, pins.c1);
    var v1 := dev.ReadAdc(env, ch1);
    assert v1 == o1.value && env.log == log0 + o1.events;
    assert env.clock == o1.clock && env.lastOn == o1.lastOn && env.dataLine == o1.dataLine;
    ghost var o2 := ChannelConversion(pins.cs, pins.clk, pins.dataOut, pins.c0, pins.c1, ch2,
                                      o1.clock, o1.lastOn, tick, o1.dataLine);
    var v2 := dev.ReadAdc(env, ch2);
    vals, log := [v1, v2], env.log;
    assert vals == [o1.value, o2.value] && log == log0 + o1.events + o2.events;
  }

  /** The same session through MB4052<...> instantiated on the same pins. */
  method TemplateSession(pins: Instantiation, tick: Tick, clock: nat, line: seq<int>, ch1: Byte, ch2: Byte)
    returns (vals: seq<Byte>, log: seq<Event>)
    ensures (vals, log) == TwoReads(pins, tick, clock, line, ch1, ch2)
  {
    var env := new Env(tick, clock, line);
    TemplateDriver.Begin(pins, env);
    ghost var o1 := ChannelConversion(pins.cs, pins.clk, pins.dataOut, pins.c0, pins.c1, ch1,
                                      clock, 0, tick, line);
    ghost var log0 := env.log;
    assert log0 == [] + (BeginEvents(pins.cs, pins.clk, pins.dataOut) + ChannelBeginEvents(pins.c0, pins.c1));
    assert log0 == BeginEvents(pins.cs, pins.clk, pins.dataOut) + ChannelBeginEvents(pins.c0, pins.c1);
    var v1 := TemplateDriver.ReadAdc(pins, env, ch1);
    assert v1 == o1.value && env.log == log0 + o1.events;
    assert env.clock == o1.clock && env.TemplateLastOn(pins) == o1.lastOn && env.dataLine == o1.dataLine;
    ghost var o2 := ChannelConversion(pins.cs, pins.clk, pins.dataOut, pins.c0, pins.c1, ch2,
                                      o1.clock, o1.lastOn, tick, o1.dataLine);
    var v2 := TemplateDriver.ReadAdc(pins, env, ch2);
    vals, log := [v1, v2], env.log;
    assert vals == [o1.value, o2.value] && log == log0 + o1.events + o2.events;
  }

  /** The template is the class pair in faster form: on the same pins and the same data
      line, begin() and two channel reads issue the same platform calls and return the
      same values through either library. */
  method ClassAndTemplateAgree(pins: Instantiation, tick: Tick, clock: nat, line: seq<int>,
                               ch1: Byte, ch2: Byte)
    returns (classVals: seq<Byte>, templateVals: seq<Byte>,
             classLog: seq<Event>, templateLog: seq<Event>)
    ensures |classVals| == 2 && classVals == templateVals && classLog == templateLog
  {
    classVals, classLog := ClassSession(pins, tick, clock, line, ch1, ch2);
    templateVals, templateLog := TemplateSession(pins, tick, clock, line, ch1, ch2);
  }

  /** A conversion right after another, on any pins, through the same `last_on`: its
      calls up to CS low are micros() calls only, the last of them shows at least CSWCS
      since the first conversion's deselection, and there are two of them exactly when
      one micros() call takes less than CSWCS. */
  lemma NextSelectWaits(csA: Byte, clkA: Byte, dataA: Byte, csB: Byte, clkB: Byte, dataB: Byte,
                        clock: nat, lastOn: u32, tick: Tick, line: seq<int>)
    ensures var o1 := Conversion(csA, clkA, dataA, clock, lastOn, tick, line);
            var es := Conversion(csB, clkB, dataB, o1.clock, o1.lastOn, tick, o1.dataLine).events;
            var n := if tick < CSWCS then 2 else 1;
            |es| > n && es[n] == Write(csB, Low)
            && (forall k :: 0 <= k < n ==> es[k].MicrosRead?)
            && Elapsed(es[n - 1].t, o1.lastOn) as int >= CSWCS
  {
    var o1 := Conversion(csA, clkA, dataA, clock, lastOn, tick, line);
    var es := Conversion(csB, clkB, dataB, o1.clock, o1.lastOn, tick, o1.dataLine).events;
    DeadTime.BackToBack(csA, clkA, dataA, csB, clkB, dataB, clock, lastOn, tick, line);
    ConversionFacts.ConversionBoundaries(csB, clkB, dataB, o1.clock, o1.lastOn, tick, o1.dataLine);
    var rs := WaitReadings(o1.clock, o1.lastOn, tick);
    forall k | 0 <= k < |rs|
      ensures es[k].MicrosRead?
    {
      assert es[k] == es[..|rs|][k] == MicrosReads(rs)[k];
    }
  }

  /** Two single-channel objects on any pins share `last_on`: the second's read right
      after the first's waits for the dead-time since the first object's deselection. */
  method SharedLastOn(csA: Byte, clkA: Byte, dataA: Byte, csB: Byte, clkB: Byte, dataB: Byte,
                      tick: Tick, clock: nat, line: seq<int>)
    returns (firstLastOn: u32, second: seq<Event>)
    ensures var n := if tick < CSWCS then 2 else 1;
            |second| > n && second[n] == Write(csB, Low)
            && (forall k :: 0 <= k < n ==> second[k].MicrosRead?)
            && Elapsed(second[n - 1].t, firstLastOn) as int >= CSWCS
  {
    var env := new Env(tick, clock, line);
    var a := new ClassDriver.Mb4052OneCh(csA, clkA, dataA);
    var b := new ClassDriver.Mb4052OneCh(csB, clkB, dataB);
    var v1 := a.ReadAdc(env);
    firstLastOn := env.lastOn;
    var log1 := env.log;
    var v2 := b.ReadAdc(env);
    second := env.log[|log1|..];
    NextSelectWaits(csA, clkA, dataA, csB, clkB, dataB, clock, 0, tick, line);
  }

  /** Two different template instantiations do not share `last_on`: a read through the
      second right after one through the first is timed against the second's own static,
      still 0, and leaves the first's static and the class library's static as they were. */
  method SeparateStatics(i1: Instantiation, i2: Instantiation, tick: Tick, clock: nat,
                         line: seq<int>, ch1: Byte, ch2: Byte)
    returns (between: nat, lineBetween: seq<int>, second: seq<Event>,
             firstLastOn: u32, firstLastOnAfter: u32, classLastOn: u32)
    requires i1 != i2
    ensures second == ChannelConversion(i2.cs, i2.clk, i2.dataOut, i2.c0, i2.c1, ch2,
                                        between, 0, tick, lineBetween).events
    ensures firstLastOnAfter == firstLastOn && classLastOn == 0
  {
    var env := new Env(tick, clock, line);
    var v1 := TemplateDriver.ReadAdc(i1, env, ch1);
    firstLastOn := env.TemplateLastOn(i1);
    var log1 := env.log;
    between, lineBetween := env.clock, env.dataLine;
    var v2 := TemplateDriver.ReadAdc(i2, env, ch2);
    second := env.log[|log1|..];
    firstLastOnAfter := env.TemplateLastOn(i1);
    classLastOn := env.lastOn;
  }
}
