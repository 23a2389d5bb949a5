/** The MB4052 serial protocol as a specification: the events one conversion puts on the
    platform log, the value it returns and the state it leaves, as functions of the
    state it starts from. Both driver implementations are proved against these. */
module Protocol {
  import opened Hal
  import Timing
  import opened Bits

  /** One more micros() call inside the dead-time window moves the unsigned difference
      `micros() - last_on` forward by exactly the call's duration, without wrapping. */
  lemma ElapsedStep(clock: nat, lastOn: u32, tick: Tick)
    requires Elapsed(Micros32(clock), lastOn) as int < Timing.CSWCS
    ensures Elapsed(Micros32(clock + tick), lastOn) as int == Elapsed(Micros32(clock), lastOn) as int + tick
  {
    var t := Micros32(clock) as int;
    var t' := Micros32(clock + tick) as int;
    assert clock == (clock / TWO32) * TWO32 + t;
    assert clock + tick == ((clock + tick) / TWO32) * TWO32 + t';
    if t + tick < TWO32 {
      assert (clock + tick) / TWO32 == clock / TWO32;
      assert t' == t + tick;
    } else {
      assert (clock + tick) / TWO32 == clock / TWO32 + 1;
      assert t' == t + tick - TWO32;
    }
  }

  /** The values of `clock` at which `while (micros() - last_on < ADC_CSWCS);` calls
      micros(): one reading per test, consecutive readings one call apart, every test but
      the last finding the dead-time not yet over, the last finding it over. */
  function WaitReadings(clock: nat, lastOn: u32, tick: Tick): (rs: seq<nat>)
    ensures |rs| >= 1 && rs[0] == clock
    decreases Timing.CSWCS - Elapsed(Micros32(clock), lastOn) as int
  {
    if Elapsed(Micros32(clock), lastOn) as int >= Timing.CSWCS then [clock]
    else
      ElapsedStep(clock, lastOn, tick);
      [clock] + WaitReadings(clock + tick, lastOn, tick)
  }

  /** One test of the wait that finds the dead-time not yet over. */
  lemma WaitStep(clock: nat, lastOn: u32, tick: Tick)
    requires Elapsed(Micros32(clock), lastOn) as int < Timing.CSWCS
    ensures WaitReadings(clock, lastOn, tick) == [clock] + WaitReadings(clock + tick, lastOn, tick)
  {
  }

  /** The wait's loop step: with the readings so far being `done` and the current one
      at `clock` finding the dead-time not yet over, the next reading comes one call
      later, and the difference it sees has grown by that call's duration. */
  lemma WaitAdvance(start: nat, done: seq<nat>, clock: nat, lastOn: u32, tick: Tick)
    requires WaitReadings(start, lastOn, tick) == done + WaitReadings(clock, lastOn, tick)
    requires Elapsed(Micros32(clock), lastOn) as int < Timing.CSWCS
    ensures WaitReadings(start, lastOn, tick) == (done + [clock]) + WaitReadings(clock + tick, lastOn, tick)
    ensures Elapsed(Micros32(clock + tick), lastOn) as int == Elapsed(Micros32(clock), lastOn) as int + tick
  {
    ElapsedStep(clock, lastOn, tick);
    WaitStep(clock, lastOn, tick);
    assert done + ([clock] + WaitReadings(clock + tick, lastOn, tick))
        == (done + [clock]) + WaitReadings(clock + tick, lastOn, tick);
  }

  /** The test that finds the dead-time over ends the wait. */
  lemma WaitDone(clock: nat, lastOn: u32, tick: Tick)
    requires Elapsed(Micros32(clock), lastOn) as int >= Timing.CSWCS
    ensures WaitReadings(clock, lastOn, tick) == [clock]
  {
  }

  /** The log entries of the micros() calls made at the given clock values. */
  function MicrosReads(rs: seq<nat>): (es: seq<Event>)
  {
    seq(|rs|, i requires 0 <= i < |rs| => MicrosRead(Micros32(rs[i])))
  }

  /** One more reading appends one more log entry. */
  lemma MicrosReadsSnoc(rs: seq<nat>, r: nat)
    ensures MicrosReads(rs + [r]) == MicrosReads(rs) + [MicrosRead(Micros32(r))]
  {
  }

  /** The data line as seen from the n-th digitalRead on. */
  function Drop(line: seq<int>, n: nat): seq<int>
  {
    if n <= |line| then line[n..] else []
  }

  /** The eight values the data-bit pulses read off the data line. */
  function Samples(line: seq<int>): seq<int>
  {
    seq(8, i requires 0 <= i < 8 => Head(Drop(line, i)))
  }

  /** The i-th digitalRead of a conversion reads sample i and consumes it. */
  lemma DropStep(line: seq<int>, i: nat)
    requires i < 8
    ensures Head(Drop(line, i)) == Samples(line)[i]
    ensures Tail(Drop(line, i)) == Drop(line, i + 1)
  {
  }

  /** One clock pulse as the source writes it every time: CLK high, hold TWACH, CLK low. */
  function ClockPulse(clk: Byte): seq<Event>
  {
    [Write(clk, High), Delay(Timing.TWACH), Write(clk, Low)]
  }

  /** One data pulse: the data line is read right after the falling edge, then the low
      hold of TWACL. */
  function DataPulse(clk: Byte, data: Byte, v: int): seq<Event>
  {
    ClockPulse(clk) + [Read(data, v), Delay(Timing.TWACL)]
  }

  function DataPulses(clk: Byte, data: Byte, vs: seq<int>): seq<Event>
    decreases |vs|
  {
    if vs == [] then []
    else DataPulses(clk, data, vs[..|vs| - 1]) + DataPulse(clk, data, vs[|vs| - 1])
  }

  /** Appending the next data pulse to a log that ends with the first i data pulses. */
  lemma DataPulsesStep(prefix: seq<Event>, log: seq<Event>, clk: Byte, data: Byte, vs: seq<int>, i: nat)
    requires i < |vs| && log == prefix + DataPulses(clk, data, vs[..i])
    ensures log + ClockPulse(clk) + [Read(data, vs[i])] + [Delay(Timing.TWACL)]
            == prefix + DataPulses(clk, data, vs[..i + 1])
  {
    assert vs[..i + 1][..i] == vs[..i];
  }

  /** CS low and the hold, then the start pulse with its low hold; the data line is
      not read. */
  function Select(cs: Byte, clk: Byte): seq<Event>
  {
    [Write(cs, Low), Delay(Timing.CSHCS)] + ClockPulse(clk) + [Delay(Timing.TWACL)]
  }

  /** The stop pulse (no low hold, no read), then CS high. */
  function Deselect(cs: Byte, clk: Byte): seq<Event>
  {
    ClockPulse(clk) + [Write(cs, High)]
  }

  /** Everything from selecting the converter to deselecting it. */
  function Frame(cs: Byte, clk: Byte, data: Byte, vs: seq<int>): seq<Event>
  {
    Select(cs, clk) + DataPulses(clk, data, vs) + Deselect(cs, clk)
  }

  /** Microseconds from CS going low to CS going high: the hold, the ten high phases
      and the nine low phases (the stop pulse has none). */
  const FrameMicros: nat :=
    Timing.CSHCS + 10 * Timing.TWACH + 9 * Timing.TWACL

  /** What a conversion returns and leaves behind. */
  datatype Outcome = Outcome(
    value: Byte,          // the result byte
    events: seq<Event>,   // the platform calls it made, in order
    clock: nat,           // the time when it returns
    lastOn: u32,          // the new value of the static `last_on`
    dataLine: seq<int>)   // what is left of the data line

  /** One conversion on a hardwired channel (Arduino_MB4052_1ch::readADC), started at
      time `clock` with the static `last_on` holding `lastOn`. */
  function Conversion(cs: Byte, clk: Byte, data: Byte, clock: nat, lastOn: u32, tick: Tick,
                      line: seq<int>): Outcome
  {
    var rs := WaitReadings(clock, lastOn, tick);
    var selectedAt := rs[|rs| - 1] + tick;
    var deselectedAt := selectedAt + FrameMicros;
    var vs := Samples(line);
    Outcome(PackByte(vs),
            MicrosReads(rs) + Frame(cs, clk, data, vs) + [MicrosRead(Micros32(deselectedAt))],
            deselectedAt + tick, Micros32(deselectedAt), Drop(line, 8))
  }

  lemma AppendAssoc(a: seq<Event>, b: seq<Event>, c: seq<Event>)
    ensures a + (b + c) == a + b + c
  {
  }

  /** The events of a conversion in the order the routine issues them, phase by phase,
      appended to whatever the log held before. */
  lemma ConversionEvents(cs: Byte, clk: Byte, data: Byte, clock: nat, lastOn: u32, tick: Tick,
                         line: seq<int>, log: seq<Event>)
    ensures var o := Conversion(cs, clk, data, clock, lastOn, tick, line);
            log + o.events
            == log + MicrosReads(WaitReadings(clock, lastOn, tick)) + Select(cs, clk)
               + DataPulses(clk, data, Samples(line)) + Deselect(cs, clk) + [MicrosRead(o.lastOn)]
  {
    var o := Conversion(cs, clk, data, clock, lastOn, tick, line);
    var m, last := MicrosReads(WaitReadings(clock, lastOn, tick)), [MicrosRead(o.lastOn)];
    var p1, p2, p3 := Select(cs, clk), DataPulses(clk, data, Samples(line)), Deselect(cs, clk);
    AppendAssoc(log, m + (p1 + p2 + p3), last);
    AppendAssoc(log, m, p1 + p2 + p3);
    AppendAssoc(log + m, p1 + p2, p3);
    AppendAssoc(log + m, p1, p2);
  }

  /** `digitalWrite(C0, ch & 1); digitalWrite(C1, (ch >> 1) & 1);` */
  function ChannelSelect(c0: Byte, c1: Byte, ch: Byte): seq<Event>
  {
    [Write(c0, LevelOf(ch & 1)), Write(c1, LevelOf((ch >> 1) & 1))]
  }

  /** One conversion on a selected channel: channel lines first, then the conversion. */
  function ChannelConversion(cs: Byte, clk: Byte, data: Byte, c0: Byte, c1: Byte, ch: Byte,
                             clock: nat, lastOn: u32, tick: Tick, line: seq<int>): Outcome
  {
    var o := Conversion(cs, clk, data, clock, lastOn, tick, line);
    o.(events := ChannelSelect(c0, c1, ch) + o.events)
  }

  /** A conversion on a selected channel appends the two channel-line writes, one call at
      a time, and then exactly what the conversion itself would; it returns and leaves
      behind what the conversion does. */
  lemma ChannelConversionEvents(cs: Byte, clk: Byte, data: Byte, c0: Byte, c1: Byte, ch: Byte,
                                clock: nat, lastOn: u32, tick: Tick, line: seq<int>, log: seq<Event>)
    ensures var o := Conversion(cs, clk, data, clock, lastOn, tick, line);
            var co := ChannelConversion(cs, clk, data, c0, c1, ch, clock, lastOn, tick, line);
            log + co.events
            == log + [Write(c0, LevelOf(ch & 1))] + [Write(c1, LevelOf((ch >> 1) & 1))] + o.events
            && co.value == o.value && co.clock == o.clock && co.lastOn == o.lastOn
            && co.dataLine == o.dataLine
  {
    var o := Conversion(cs, clk, data, clock, lastOn, tick, line);
    var w0, w1 := [Write(c0, LevelOf(ch & 1))], [Write(c1, LevelOf((ch >> 1) & 1))];
    AppendAssoc(log, w0 + w1, o.events);
    AppendAssoc(log, w0, w1);
  }

  /** begin(): data line an input with pull-up, CS and CLK outputs, CS high, CLK low. */
  function BeginEvents(cs: Byte, clk: Byte, data: Byte): seq<Event>
  {
    [Mode(data, InputPullup), Mode(cs, Output), Mode(clk, Output), Write(cs, High), Write(clk, Low)]
  }

  /** The channel lines' part of begin(): outputs, level left as it was. */
  function ChannelBeginEvents(c0: Byte, c1: Byte): seq<Event>
  {
    [Mode(c0, Output), Mode(c1, Output)]
  }
}
