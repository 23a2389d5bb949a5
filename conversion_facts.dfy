/** What one conversion does, read off its event log: the pulses, the reads, the time it
    takes, the pin levels it leaves, where CS changes, and the value it returns. */
module ConversionFacts {
  import opened Hal
  import opened Timing
  import opened Bits
  import opened Protocol
  import opened Waveform
  import DeadTime

  /** Ten rising edges of CLK (start, eight data, stop); the delays add up to the frame
      time; micros() is called once per wait reading and once for `last_on`. */
  lemma ConversionPulses(cs: Byte, clk: Byte, data: Byte, clock: nat, lastOn: u32, tick: Tick,
                         line: seq<int>)
    requires cs != clk
    ensures var o := Conversion(cs, clk, data, clock, lastOn, tick, line);
            Count(o.events, Write(clk, High)) == 10
            && DelayTotal(o.events) == FrameMicros
            && MicrosCalls(o.events) == |WaitReadings(clock, lastOn, tick)| + 1
  {
    var rs := WaitReadings(clock, lastOn, tick);
    var o := Conversion(cs, clk, data, clock, lastOn, tick, line);
    var m, f := MicrosReads(rs), Frame(cs, clk, data, Samples(line));
    var last := [MicrosRead(o.lastOn)];
    FramePulses(cs, clk, data, Samples(line));
    Waveform.WaitView(rs, clk, map[]);
    ConsCounts(MicrosRead(o.lastOn), [], clk);
    CountAppend(m, f, Write(clk, High));
    CountAppend(m + f, last, Write(clk, High));
    DelayTotalAppend(m, f);
    DelayTotalAppend(m + f, last);
    MicrosCallsAppend(m, f);
    MicrosCallsAppend(m + f, last);
    assert o.events == m + f + last;
  }

  /** The frame: ten rising edges of CLK, its delays, no micros() call. */
  lemma FramePulses(cs: Byte, clk: Byte, data: Byte, vs: seq<int>)
    requires cs != clk && |vs| == 8
    ensures var f := Frame(cs, clk, data, vs);
            Count(f, Write(clk, High)) == 10 && DelayTotal(f) == FrameMicros && MicrosCalls(f) == 0
  {
    var s, d, u := Select(cs, clk), DataPulses(clk, data, vs), Deselect(cs, clk);
    SelectPulses(cs, clk);
    DataPulsesPulses(clk, data, vs);
    DeselectPulses(cs, clk);
    CountAppend(s, d, Write(clk, High));
    CountAppend(s + d, u, Write(clk, High));
    DelayTotalAppend(s, d);
    DelayTotalAppend(s + d, u);
    MicrosCallsAppend(s, d);
    MicrosCallsAppend(s + d, u);
  }

  /** Time passes only in the delays and in the micros() calls: a conversion takes one
      call per micros() call plus the frame's delays. */
  lemma ConversionDuration(cs: Byte, clk: Byte, data: Byte, clock: nat, lastOn: u32, tick: Tick,
                           line: seq<int>)
    ensures var o := Conversion(cs, clk, data, clock, lastOn, tick, line);
            o.clock == clock + (|WaitReadings(clock, lastOn, tick)| + 1) * tick + FrameMicros
  {
    var rs := WaitReadings(clock, lastOn, tick);
    DeadTime.WaitReadingsShape(clock, lastOn, tick);
    var n := |rs|;
    assert rs[n - 1] == clock + (n - 1) * tick;
    assert (n + 1) * tick == (n - 1) * tick + 2 * tick;
  }

  /** Within the frame, CLK falls after the start pulse, after each data pulse and after
      the stop pulse, and only the data pulses are followed by a read; the frame ends with
      CS high. */
  lemma FrameEdges(cs: Byte, clk: Byte, data: Byte, vs: seq<int>)
    requires cs != clk
    ensures var f := Frame(cs, clk, data, vs);
            EdgeReads(f, clk) == [false] + seq(|vs|, i => true) + [false]
            && f[|f| - 1] == Write(cs, High)
  {
    var s, d, u := Select(cs, clk), DataPulses(clk, data, vs), Deselect(cs, clk);
    SelectEdges(cs, clk);
    DataPulsesEdges(clk, data, vs);
    DeselectEdges(cs, clk);
    assert s + d == [] || (s + d)[|s + d| - 1] == Delay(TWACL);
    EdgeReadsAppend(s, d, clk);
    EdgeReadsAppend(s + d, u, clk);
  }

  /** Ten falling edges of CLK; only the eight of the data pulses are followed by a read,
      the start and the stop pulse are not. */
  lemma ConversionEdges(cs: Byte, clk: Byte, data: Byte, clock: nat, lastOn: u32, tick: Tick,
                        line: seq<int>)
    requires cs != clk
    ensures var o := Conversion(cs, clk, data, clock, lastOn, tick, line);
            EdgeReads(o.events, clk) == [false] + seq(8, i => true) + [false]
  {
    var rs := WaitReadings(clock, lastOn, tick);
    var o := Conversion(cs, clk, data, clock, lastOn, tick, line);
    var m, f := MicrosReads(rs), Frame(cs, clk, data, Samples(line));
    var last := [MicrosRead(o.lastOn)];
    Waveform.WaitView(rs, clk, map[]);
    FrameEdges(cs, clk, data, Samples(line));
    ConsEdges(MicrosRead(o.lastOn), [], clk);
    assert (m + f)[|m + f| - 1] == Write(cs, High);
    EdgeReadsAppend(m, f, clk);
    EdgeReadsAppend(m + f, last, clk);
    assert o.events == m + f + last;
  }

  /** A conversion reads the data line eight times and nothing else; the reads return
      the samples in order. */
  lemma ConversionReads(cs: Byte, clk: Byte, data: Byte, clock: nat, lastOn: u32, tick: Tick,
                        line: seq<int>)
    requires cs != clk
    ensures var o := Conversion(cs, clk, data, clock, lastOn, tick, line);
            Reads(o.events) == seq(8, i requires 0 <= i < 8 => Read(data, Samples(line)[i]))
  {
    var rs := WaitReadings(clock, lastOn, tick);
    var vs := Samples(line);
    var o := Conversion(cs, clk, data, clock, lastOn, tick, line);
    var m, s, d, u := MicrosReads(rs), Select(cs, clk), DataPulses(clk, data, vs), Deselect(cs, clk);
    var last := [MicrosRead(o.lastOn)];
    Waveform.WaitView(rs, clk, map[]);
    SelectEdges(cs, clk);
    DataPulsesEdges(clk, data, vs);
    DeselectEdges(cs, clk);
    ConsEdges(MicrosRead(o.lastOn), [], clk);
    ReadsAppend(s, d);
    ReadsAppend(s + d, u);
    ReadsAppend(m, s + d + u);
    ReadsAppend(m + (s + d + u), last);
    assert o.events == m + (s + d + u) + last;
  }

  /** Replaying the log's writes leaves CLK low and CS high and every other pin as it
      was; this is the pin map both readADC methods promise. */
  lemma ConversionLevels(cs: Byte, clk: Byte, data: Byte, clock: nat, lastOn: u32, tick: Tick,
                         line: seq<int>, lv: map<Byte, Level>)
    ensures var o := Conversion(cs, clk, data, clock, lastOn, tick, line);
            LevelsAfter(lv, o.events) == lv[clk := Low][cs := High]
  {
    var rs := WaitReadings(clock, lastOn, tick);
    var vs := Samples(line);
    var o := Conversion(cs, clk, data, clock, lastOn, tick, line);
    var m, s, d, u := MicrosReads(rs), Select(cs, clk), DataPulses(clk, data, vs), Deselect(cs, clk);
    var last := [MicrosRead(o.lastOn)];
    var l1 := lv[cs := Low][clk := Low];
    Waveform.WaitView(rs, clk, lv);
    SelectLevels(cs, clk, lv);
    DataPulsesLevels(clk, data, vs, l1);
    assert LevelsAfter(l1, d) == l1 by {
      assert l1[clk := Low] == l1;
    }
    DeselectLevels(cs, clk, l1);
    ConsLevels(MicrosRead(o.lastOn), [], l1[clk := Low][cs := High]);
    LevelsAfterAppend(lv, m, s + d + u);
    LevelsAfterAppend(lv, s + d, u);
    LevelsAfterAppend(lv, s, d);
    LevelsAfterAppend(lv, m + (s + d + u), last);
    assert o.events == m + (s + d + u) + last;
    assert l1[clk := Low][cs := High] == lv[clk := Low][cs := High];
  }

  /** The frame's writes in time: CS falls; ten clock pulses follow, the first CSHCS
      later, each high for TWACH and low for TWACL before the next; CS rises as the last
      one falls. */
  lemma FrameTimeline(cs: Byte, clk: Byte, data: Byte, vs: seq<int>, t: nat)
    requires |vs| == 8
    ensures Timeline(Frame(cs, clk, data, vs), t)
            == [(Write(cs, Low), t)] + PulseTrain(clk, 10, t + CSHCS) + [(Write(cs, High), t + FrameMicros)]
  {
    var s, d, u := Select(cs, clk), DataPulses(clk, data, vs), Deselect(cs, clk);
    var p := TWACH + TWACL;
    SelectTimeline(cs, clk, t);
    DataPulsesPulses(clk, data, vs);
    DataPulsesTimeline(clk, data, vs, t + CSHCS + p);
    DeselectTimeline(cs, clk, t + CSHCS + 9 * p);
    TimelineAppend(s, d, t);
    DelayTotalAppend(s, d);
    TimelineAppend(s + d, u, t);
    PulseTrainCons(clk, 8, t + CSHCS);
    var first := [(Write(clk, High), t + CSHCS), (Write(clk, Low), t + CSHCS + TWACH)];
    var stop := [(Write(clk, High), t + CSHCS + 9 * p), (Write(clk, Low), t + CSHCS + 9 * p + TWACH)];
    assert PulseTrain(clk, 10, t + CSHCS) == first + PulseTrain(clk, 8, t + CSHCS + p) + stop;
  }

  /** A conversion's writes in time, counted from its first call: the wait writes
      nothing and takes no delay, so CS falls at 0, and the frame follows; the micros()
      call for `last_on` writes nothing either. */
  lemma ConversionTimeline(cs: Byte, clk: Byte, data: Byte, clock: nat, lastOn: u32, tick: Tick,
                           line: seq<int>)
    ensures Timeline(Conversion(cs, clk, data, clock, lastOn, tick, line).events, 0)
            == [(Write(cs, Low), 0)] + PulseTrain(clk, 10, CSHCS) + [(Write(cs, High), FrameMicros)]
  {
    var rs := WaitReadings(clock, lastOn, tick);
    var o := Conversion(cs, clk, data, clock, lastOn, tick, line);
    var f := Frame(cs, clk, data, Samples(line));
    assert o.events == MicrosReads(rs) + f + [MicrosRead(o.lastOn)];
    FrameTimeline(cs, clk, data, Samples(line), 0);
    EnclosedTimeline(rs, f, MicrosRead(o.lastOn));
  }

  /** Calls that write nothing and take no delay around a log leave its timeline as it is. */
  lemma EnclosedTimeline(rs: seq<nat>, f: seq<Event>, x: Event)
    requires !x.Write? && !x.Delay?
    ensures Timeline(MicrosReads(rs) + f + [x], 0) == Timeline(f, 0)
  {
    var m := MicrosReads(rs);
    WaitTimeline(rs, 0);
    ConsTimeline(x, [], DelayTotal(m + f));
    assert [x] == [x] + [];
    TimelineAppend(m, f, 0);
    TimelineAppend(m + f, [x], 0);
  }

  /** The clock waveform pulse by pulse: after CS falls, CLK rises CSHCS later; each of
      the ten pulses is high for TWACH; the start pulse and the eight data pulses are
      each followed by TWACL low before the next rising edge; the stop pulse's falling
      edge and CS high come at the same moment. */
  lemma ConversionPulseWidths(cs: Byte, clk: Byte, data: Byte, clock: nat, lastOn: u32, tick: Tick,
                              line: seq<int>)
    ensures var tl := Timeline(Conversion(cs, clk, data, clock, lastOn, tick, line).events, 0);
            |tl| == 22 && tl[0].0 == Write(cs, Low) && tl[21].0 == Write(cs, High)
            && (forall i :: 1 <= i < 21 ==> tl[i].0 == Write(clk, if i % 2 == 1 then High else Low))
            && forall i :: 0 <= i < 21 ==>
                 Gap(tl, i) == if i == 0 then CSHCS else if i == 20 then 0
                               else if i % 2 == 1 then TWACH else TWACL
  {
    var tl := Timeline(Conversion(cs, clk, data, clock, lastOn, tick, line).events, 0);
    var pt := PulseTrain(clk, 10, CSHCS);
    ConversionTimeline(cs, clk, data, clock, lastOn, tick, line);
    forall i | 1 <= i < 21
      ensures tl[i] == pt[i - 1]
      ensures tl[i].0 == Write(clk, if i % 2 == 1 then High else Low)
    {
      PulseTrainAt(clk, 10, CSHCS, i - 1);
    }
    forall i | 0 <= i < 21
      ensures Gap(tl, i) == if i == 0 then CSHCS else if i == 20 then 0
                            else if i % 2 == 1 then TWACH else TWACL
    {
      if 1 <= i {
        PulseTrainAt(clk, 10, CSHCS, i - 1);
      }
      if i < 20 {
        PulseTrainAt(clk, 10, CSHCS, i);
      }
    }
  }

  /** Where CS changes: before CS goes low there are only the micros() calls of the wait,
      the last of which saw the dead-time over; the hold follows at once, and right after
      it CLK rises for the start pulse. The last two calls are CS high and the micros()
      call whose value becomes `last_on`, taken at the moment CS went high. */
  lemma ConversionBoundaries(cs: Byte, clk: Byte, data: Byte, clock: nat, lastOn: u32, tick: Tick,
                             line: seq<int>)
    ensures var o := Conversion(cs, clk, data, clock, lastOn, tick, line);
            var rs := WaitReadings(clock, lastOn, tick);
            var n := |o.events|;
            o.events[..|rs|] == MicrosReads(rs)
            && Elapsed(Micros32(rs[|rs| - 1]), lastOn) as int >= CSWCS
            && o.events[|rs|] == Write(cs, Low) && o.events[|rs| + 1] == Delay(CSHCS)
            && o.events[|rs| + 2] == Write(clk, High)
            && o.events[n - 2] == Write(cs, High) && o.events[n - 1] == MicrosRead(o.lastOn)
            && o.clock >= tick && o.lastOn == Micros32(o.clock - tick)
  {
    var rs := WaitReadings(clock, lastOn, tick);
    var o := Conversion(cs, clk, data, clock, lastOn, tick, line);
    var f := Frame(cs, clk, data, Samples(line));
    DeadTime.WaitReadingsShape(clock, lastOn, tick);
    assert o.events == MicrosReads(rs) + f + [MicrosRead(o.lastOn)];
    assert f[0] == Write(cs, Low) && f[1] == Delay(CSHCS) && f[2] == Write(clk, High);
    assert f[|f| - 1] == Write(cs, High);
  }

  /** The returned byte holds the eight samples MSB first, sample i in bit 7 - i, a bit
      set exactly when the line read nonzero; as a number it is the samples read as
      binary digits, and its eight digits give the samples back. */
  lemma ConversionValue(cs: Byte, clk: Byte, data: Byte, clock: nat, lastOn: u32, tick: Tick,
                        line: seq<int>)
    ensures var o := Conversion(cs, clk, data, clock, lastOn, tick, line);
            var vs := Samples(line);
            (forall i :: 0 <= i < 8 ==> (o.value >> (7 - i)) & 1 == (if vs[i] != 0 then 1 else 0))
            && o.value as int == Pack(vs)
            && Unpack(o.value as int, 8) == Normalize(vs)
  {
    var vs := Samples(line);
    forall i | 0 <= i < 8
      ensures (PackByte(vs) >> (7 - i)) & 1 == (if vs[i] != 0 then 1 else 0)
    {
      PackByteBits(vs, i);
    }
    PackByteValue(vs);
    UnpackPack(vs);
  }

  /** Every byte is a possible result: the line that carries its own eight binary digits,
      most significant first, reads back as that byte. */
  lemma EveryValueReadable(cs: Byte, clk: Byte, data: Byte, clock: nat, lastOn: u32, tick: Tick,
                           v: Byte)
    ensures Conversion(cs, clk, data, clock, lastOn, tick, Unpack(v as int, 8)).value == v
  {
    var line := Unpack(v as int, 8);
    SamplesOfEight(line);
    PackByteUnpack(v);
  }

  /** A line of exactly eight values is read in full, in order. */
  lemma SamplesOfEight(line: seq<int>)
    requires |line| == 8
    ensures Samples(line) == line
  {
    assert forall i :: 0 <= i < 8 ==> Drop(line, i)[0] == line[i];
  }

  /** Packing the eight digits of a byte gives the byte back. */
  lemma PackByteUnpack(v: Byte)
    ensures PackByte(Unpack(v as int, 8)) == v
  {
    assert Pow2(8) == 256 by {
      assert Pow2(1) == 2 && Pow2(2) == 4 && Pow2(3) == 8 && Pow2(4) == 16;
      assert Pow2(5) == 32 && Pow2(6) == 64 && Pow2(7) == 128;
    }
    PackUnpack(v as int, 8);
    PackByteValue(Unpack(v as int, 8));
  }

  /** The line pattern 1,0,1,1,0,0,1,0 reads as 0xB2. */
  lemma ExampleValue(cs: Byte, clk: Byte, data: Byte, clock: nat, lastOn: u32, tick: Tick)
    ensures Conversion(cs, clk, data, clock, lastOn, tick, [1, 0, 1, 1, 0, 0, 1, 0]).value == 0xB2
  {
    var line := [1, 0, 1, 1, 0, 0, 1, 0];
    assert Samples(line) == line;
    PackedPattern(line);
  }

  /** A converter that never drives the line leaves it at the pull-up level: 0xFF. */
  lemma IdleLineReadsAllOnes(cs: Byte, clk: Byte, data: Byte, clock: nat, lastOn: u32, tick: Tick)
    ensures Conversion(cs, clk, data, clock, lastOn, tick, []).value == 0xFF
  {
    assert Samples([]) == [1, 1, 1, 1, 1, 1, 1, 1];
    PackedPattern([1, 1, 1, 1, 1, 1, 1, 1]);
  }

  /** The two patterns above, packed. */
  lemma PackedPattern(vs: seq<int>)
    requires vs == [1, 0, 1, 1, 0, 0, 1, 0] || vs == [1, 1, 1, 1, 1, 1, 1, 1]
    ensures PackByte(vs) == if vs[1] == 0 then 0xB2 else 0xFF
  {
    assert vs[..0] == [];
    PackByteStep(vs, 0); PackByteStep(vs, 1); PackByteStep(vs, 2); PackByteStep(vs, 3);
    PackByteStep(vs, 4); PackByteStep(vs, 5); PackByteStep(vs, 6); PackByteStep(vs, 7);
    assert vs[..8] == vs;
  }
}
