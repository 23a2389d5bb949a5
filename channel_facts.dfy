/** The channel-selecting conversion and begin() of the four-channel drivers, read off
    their event logs. */
module ChannelFacts {
  import opened Hal
  import opened Timing
  import opened Protocol
  import opened Waveform
  import ConversionFacts

  lemma LowBitIsParity(v: Byte)
    ensures (v & 1) as int == v as int % 2
  {
  }

  lemma ShiftHalves(v: Byte)
    ensures (v >> 1) as int == v as int / 2
  {
  }

  /** C0 carries bit 0 of the channel number and C1 bit 1. */
  lemma ChannelLines(ch: Byte)
    ensures LevelOf(ch & 1) == (if ch as int % 2 == 1 then High else Low)
    ensures LevelOf((ch >> 1) & 1) == (if ch as int / 2 % 2 == 1 then High else Low)
  {
    LowBitIsParity(ch);
    ShiftHalves(ch);
    LowBitIsParity(ch >> 1);
  }

  /** Only the two low bits of the channel number matter: channel 4 reads channel 0,
      channel 7 reads channel 3, and so on, since nothing bounds `ch`. */
  lemma ChannelLowBits(cs: Byte, clk: Byte, data: Byte, c0: Byte, c1: Byte, ch1: Byte, ch2: Byte,
                       clock: nat, lastOn: u32, tick: Tick, line: seq<int>)
    requires ch1 & 3 == ch2 & 3
    ensures ChannelConversion(cs, clk, data, c0, c1, ch1, clock, lastOn, tick, line)
            == ChannelConversion(cs, clk, data, c0, c1, ch2, clock, lastOn, tick, line)
  {
    assert ch1 & 1 == ch2 & 1 && (ch1 >> 1) & 1 == (ch2 >> 1) & 1;
    assert ChannelSelect(c0, c1, ch1) == ChannelSelect(c0, c1, ch2);
  }

  /** The two channel writes come first; the conversion that follows is exactly the
      single-channel one. No delay separates the channel writes from CS going low: in
      between there are only the micros() calls of the dead-time wait. */
  lemma ChannelConversionShape(cs: Byte, clk: Byte, data: Byte, c0: Byte, c1: Byte, ch: Byte,
                               clock: nat, lastOn: u32, tick: Tick, line: seq<int>)
    ensures var o := Conversion(cs, clk, data, clock, lastOn, tick, line);
            var co := ChannelConversion(cs, clk, data, c0, c1, ch, clock, lastOn, tick, line);
            var n := |WaitReadings(clock, lastOn, tick)|;
            co.events[0] == Write(c0, LevelOf(ch & 1)) && co.events[1] == Write(c1, LevelOf((ch >> 1) & 1))
            && co.events[2..] == o.events
            && (forall k :: 2 <= k < 2 + n ==> co.events[k].MicrosRead?)
            && co.events[2 + n] == Write(cs, Low)
            && co.value == o.value && co.clock == o.clock && co.lastOn == o.lastOn
  {
    var o := Conversion(cs, clk, data, clock, lastOn, tick, line);
    var co := ChannelConversion(cs, clk, data, c0, c1, ch, clock, lastOn, tick, line);
    var rs := WaitReadings(clock, lastOn, tick);
    ConversionFacts.ConversionBoundaries(cs, clk, data, clock, lastOn, tick, line);
    assert co.events == ChannelSelect(c0, c1, ch) + o.events;
    forall k | 2 <= k < 2 + |rs|
      ensures co.events[k].MicrosRead?
    {
      assert co.events[k] == o.events[..|rs|][k - 2] == MicrosReads(rs)[k - 2];
    }
  }

  /** The pins a channel conversion leaves: the channel lines at the channel's bits, CLK
      low, CS high, everything else as before. */
  lemma ChannelConversionLevels(cs: Byte, clk: Byte, data: Byte, c0: Byte, c1: Byte, ch: Byte,
                                clock: nat, lastOn: u32, tick: Tick, line: seq<int>,
                                lv: map<Byte, Level>)
    ensures var co := ChannelConversion(cs, clk, data, c0, c1, ch, clock, lastOn, tick, line);
            LevelsAfter(lv, co.events)
            == lv[c0 := LevelOf(ch & 1)][c1 := LevelOf((ch >> 1) & 1)][clk := Low][cs := High]
  {
    var o := Conversion(cs, clk, data, clock, lastOn, tick, line);
    var sel := ChannelSelect(c0, c1, ch);
    var lv1 := lv[c0 := LevelOf(ch & 1)][c1 := LevelOf((ch >> 1) & 1)];
    ConsLevels(sel[1], [], lv[c0 := LevelOf(ch & 1)]);
    ConsLevels(sel[0], [sel[1]], lv);
    assert sel == [sel[0]] + [sel[1]];
    LevelsAfterAppend(lv, sel, o.events);
    ConversionFacts.ConversionLevels(cs, clk, data, clock, lastOn, tick, line, lv1);
  }

  /** begin() leaves CS high and CLK low; the channel lines' part writes no level. */
  lemma BeginLevels(cs: Byte, clk: Byte, data: Byte, c0: Byte, c1: Byte, lv: map<Byte, Level>)
    ensures LevelsAfter(lv, BeginEvents(cs, clk, data)) == lv[cs := High][clk := Low]
    ensures LevelsAfter(lv, ChannelBeginEvents(c0, c1)) == lv
  {
    var b := BeginEvents(cs, clk, data);
    ConsLevels(b[4], [], lv[cs := High]);
    ConsLevels(b[3], [b[4]], lv);
    ConsLevels(b[2], b[3..], lv);
    ConsLevels(b[1], b[2..], lv);
    ConsLevels(b[0], b[1..], lv);
    assert b == [b[0]] + ([b[1]] + ([b[2]] + ([b[3]] + [b[4]])));
    var c := ChannelBeginEvents(c0, c1);
    ConsLevels(c[1], [], lv);
    ConsLevels(c[0], [c[1]], lv);
    assert c == [c[0]] + [c[1]];
  }

  /** begin() makes the data line an input with pull-up and CS and CLK outputs (in that
      order, so a pin named twice ends as an output), and the channel lines outputs. */
  lemma BeginModes(cs: Byte, clk: Byte, data: Byte, c0: Byte, c1: Byte, md: map<Byte, PinMode>)
    ensures ModesAfter(md, BeginEvents(cs, clk, data) + ChannelBeginEvents(c0, c1))
            == md[data := InputPullup][cs := Output][clk := Output][c0 := Output][c1 := Output]
  {
    var es := BeginEvents(cs, clk, data) + ChannelBeginEvents(c0, c1);
    var m1 := md[data := InputPullup];
    var m2 := m1[cs := Output];
    var m3 := m2[clk := Output];
    var m4 := m3[c0 := Output];
    ConsModes(es[6], [], m4);
    ConsModes(es[5], es[6..], m3);
    ConsModes(es[4], es[5..], m3);
    ConsModes(es[3], es[4..], m3);
    ConsModes(es[2], es[3..], m2);
    ConsModes(es[1], es[2..], m1);
    ConsModes(es[0], es[1..], md);
    assert es[5..] == [es[5]] + es[6..] && es[4..] == [es[4]] + es[5..];
    assert es[3..] == [es[3]] + es[4..] && es[2..] == [es[2]] + es[3..];
    assert es[1..] == [es[1]] + es[2..] && es == [es[0]] + es[1..] && es[6..] == [es[6]];
  }
}
