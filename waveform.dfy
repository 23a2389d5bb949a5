/** Views of an event log: what the pins and the clock see of it. Each view is defined
    event by event from the front and distributes over concatenation, so the view of a
    whole conversion is assembled from the views of its phases. */
module Waveform {
  import opened Hal
  import opened Timing
  import opened Protocol

  /** How many times `e` occurs in the log. */
  function Count(es: seq<Event>, e: Event): nat
    decreases |es|
  {
    if es == [] then 0 else (if es[0] == e then 1 else 0) + Count(es[1..], e)
  }

  /** For each falling edge of `clk` (a write of LOW to it), in order: whether the very
      next platform call reads the data line. */
  function EdgeReads(es: seq<Event>, clk: Byte): seq<bool>
    decreases |es|
  {
    if es == [] then []
    else if es[0] == Write(clk, Low) then [|es| > 1 && es[1].Read?] + EdgeReads(es[1..], clk)
    else EdgeReads(es[1..], clk)
  }

  /** The digitalRead calls, in order. */
  function Reads(es: seq<Event>): seq<Event>
    decreases |es|
  {
    if es == [] then [] else (if es[0].Read? then [es[0]] else []) + Reads(es[1..])
  }

  /** Microseconds spent in delayMicroseconds. */
  function DelayTotal(es: seq<Event>): nat
    decreases |es|
  {
    if es == [] then 0 else (if es[0].Delay? then es[0].us else 0) + DelayTotal(es[1..])
  }

  /** The number of micros() calls. */
  function MicrosCalls(es: seq<Event>): nat
    decreases |es|
  {
    if es == [] then 0 else (if es[0].MicrosRead? then 1 else 0) + MicrosCalls(es[1..])
  }

  /** The output levels after replaying the log's digitalWrite calls on `m`. */
  function LevelsAfter(m: map<Byte, Level>, es: seq<Event>): map<Byte, Level>
    decreases |es|
  {
    if es == [] then m
    else LevelsAfter(if es[0].Write? then m[es[0].pin := es[0].level] else m, es[1..])
  }

  /** The pin directions after replaying the log's pinMode calls on `m`. */
  function ModesAfter(m: map<Byte, PinMode>, es: seq<Event>): map<Byte, PinMode>
    decreases |es|
  {
    if es == [] then m
    else ModesAfter(if es[0].Mode? then m[es[0].pin := es[0].mode] else m, es[1..])
  }

  lemma {:induction false} CountAppend(a: seq<Event>, b: seq<Event>, e: Event)
    ensures Count(a + b, e) == Count(a, e) + Count(b, e)
    decreases |a|
  {
    if a == [] {
      assert a + b == b;
    } else {
      assert (a + b)[0] == a[0] && (a + b)[1..] == a[1..] + b;
      CountAppend(a[1..], b, e);
    }
  }

  /** The edge view of a concatenation is the concatenation of the views, provided the
      first part does not end on a falling edge (whose next call lies in the second). */
  lemma {:induction false} EdgeReadsAppend(a: seq<Event>, b: seq<Event>, clk: Byte)
    requires a == [] || a[|a| - 1] != Write(clk, Low)
    ensures EdgeReads(a + b, clk) == EdgeReads(a, clk) + EdgeReads(b, clk)
    decreases |a|
  {
    if a == [] {
      assert a + b == b;
    } else {
      assert (a + b)[0] == a[0] && (a + b)[1..] == a[1..] + b;
      assert a[1..] == [] || a[1..][|a[1..]| - 1] == a[|a| - 1];
      EdgeReadsAppend(a[1..], b, clk);
    }
  }

  lemma {:induction false} ReadsAppend(a: seq<Event>, b: seq<Event>)
    ensures Reads(a + b) == Reads(a) + Reads(b)
    decreases |a|
  {
    if a == [] {
      assert a + b == b;
    } else {
      assert (a + b)[0] == a[0] && (a + b)[1..] == a[1..] + b;
      ReadsAppend(a[1..], b);
    }
  }

  lemma {:induction false} DelayTotalAppend(a: seq<Event>, b: seq<Event>)
    ensures DelayTotal(a + b) == DelayTotal(a) + DelayTotal(b)
    decreases |a|
  {
    if a == [] {
      assert a + b == b;
    } else {
      assert (a + b)[0] == a[0] && (a + b)[1..] == a[1..] + b;
      DelayTotalAppend(a[1..], b);
    }
  }

  lemma {:induction false} MicrosCallsAppend(a: seq<Event>, b: seq<Event>)
    ensures MicrosCalls(a + b) == MicrosCalls(a) + MicrosCalls(b)
    decreases |a|
  {
    if a == [] {
      assert a + b == b;
    } else {
      assert (a + b)[0] == a[0] && (a + b)[1..] == a[1..] + b;
      MicrosCallsAppend(a[1..], b);
    }
  }

  lemma {:induction false} LevelsAfterAppend(m: map<Byte, Level>, a: seq<Event>, b: seq<Event>)
    ensures LevelsAfter(m, a + b) == LevelsAfter(LevelsAfter(m, a), b)
    decreases |a|
  {
    if a == [] {
      assert a + b == b;
    } else {
      assert (a + b)[0] == a[0] && (a + b)[1..] == a[1..] + b;
      LevelsAfterAppend(if a[0].Write? then m[a[0].pin := a[0].level] else m, a[1..], b);
    }
  }

  lemma {:induction false} ModesAfterAppend(m: map<Byte, PinMode>, a: seq<Event>, b: seq<Event>)
    ensures ModesAfter(m, a + b) == ModesAfter(ModesAfter(m, a), b)
    decreases |a|
  {
    if a == [] {
      assert a + b == b;
    } else {
      assert (a + b)[0] == a[0] && (a + b)[1..] == a[1..] + b;
      ModesAfterAppend(if a[0].Mode? then m[a[0].pin := a[0].mode] else m, a[1..], b);
    }
  }

  /** The micros() calls of the dead-time wait touch no pin and take no delay. */
  lemma {:induction false} WaitView(rs: seq<nat>, clk: Byte, m: map<Byte, Level>)
    ensures var es := MicrosReads(rs);
            EdgeReads(es, clk) == [] && Reads(es) == [] && DelayTotal(es) == 0
            && MicrosCalls(es) == |rs| && LevelsAfter(m, es) == m
            && forall e: Event :: !e.MicrosRead? ==> Count(es, e) == 0
    decreases |rs|
  {
    var es := MicrosReads(rs);
    if rs != [] {
      WaitView(rs[1..], clk, m);
      assert es == [MicrosRead(Micros32(rs[0]))] + MicrosReads(rs[1..]);
      assert es[1..] == MicrosReads(rs[1..]);
    }
  }

  /** The counting views of a log that starts with `x`, in terms of those of the rest. */
  lemma ConsCounts(x: Event, rest: seq<Event>, clk: Byte)
    ensures var es := [x] + rest;
            Count(es, Write(clk, High)) == (if x == Write(clk, High) then 1 else 0) + Count(rest, Write(clk, High))
            && DelayTotal(es) == (if x.Delay? then x.us else 0) + DelayTotal(rest)
            && MicrosCalls(es) == (if x.MicrosRead? then 1 else 0) + MicrosCalls(rest)
  {
    var es := [x] + rest;
    assert es[0] == x && es[1..] == rest;
  }

  /** The edge and read views of a log that starts with `x`. */
  lemma ConsEdges(x: Event, rest: seq<Event>, clk: Byte)
    ensures var es := [x] + rest;
            EdgeReads(es, clk)
            == (if x == Write(clk, Low) then [rest != [] && rest[0].Read?] else []) + EdgeReads(rest, clk)
            && Reads(es) == (if x.Read? then [x] else []) + Reads(rest)
  {
    var es := [x] + rest;
    assert es[0] == x && es[1..] == rest;
  }

  /** The level replay of a log that starts with `x`. */
  lemma ConsLevels(x: Event, rest: seq<Event>, m: map<Byte, Level>)
    ensures LevelsAfter(m, [x] + rest) == LevelsAfter(if x.Write? then m[x.pin := x.level] else m, rest)
  {
    var es := [x] + rest;
    assert es[0] == x && es[1..] == rest;
  }

  /** The mode replay of a log that starts with `x`. */
  lemma ConsModes(x: Event, rest: seq<Event>, m: map<Byte, PinMode>)
    ensures ModesAfter(m, [x] + rest) == ModesAfter(if x.Mode? then m[x.pin := x.mode] else m, rest)
  {
    var es := [x] + rest;
    assert es[0] == x && es[1..] == rest;
  }

  /** Selection: CS low and its hold, then the start pulse with its low hold. */
  lemma SelectPulses(cs: Byte, clk: Byte)
    requires cs != clk
    ensures var es := Select(cs, clk);
            Count(es, Write(clk, High)) == 1 && DelayTotal(es) == CSHCS + TWACH + TWACL
            && MicrosCalls(es) == 0
  {
    var e6: seq<Event> := [Delay(TWACL)];
    var e5 := [Write(clk, Low)] + e6;
    var e4 := [Delay(TWACH)] + e5;
    var e3 := [Write(clk, High)] + e4;
    var e2 := [Delay(CSHCS)] + e3;
    assert Select(cs, clk) == [Write(cs, Low)] + e2;
    ConsCounts(Delay(TWACL), [], clk);
    ConsCounts(Write(clk, Low), e6, clk);
    ConsCounts(Delay(TWACH), e5, clk);
    ConsCounts(Write(clk, High), e4, clk);
    ConsCounts(Delay(CSHCS), e3, clk);
    ConsCounts(Write(cs, Low), e2, clk);
  }

  /** The start pulse's falling edge is not followed by a read; selection ends on the
      low hold. */
  lemma SelectEdges(cs: Byte, clk: Byte)
    requires cs != clk
    ensures var es := Select(cs, clk);
            EdgeReads(es, clk) == [false] && Reads(es) == [] && es[|es| - 1] == Delay(TWACL)
  {
    var e6: seq<Event> := [Delay(TWACL)];
    var e5 := [Write(clk, Low)] + e6;
    var e4 := [Delay(TWACH)] + e5;
    var e3 := [Write(clk, High)] + e4;
    var e2 := [Delay(CSHCS)] + e3;
    assert Select(cs, clk) == [Write(cs, Low)] + e2;
    ConsEdges(Delay(TWACL), [], clk);
    ConsEdges(Write(clk, Low), e6, clk);
    ConsEdges(Delay(TWACH), e5, clk);
    ConsEdges(Write(clk, High), e4, clk);
    ConsEdges(Delay(CSHCS), e3, clk);
    ConsEdges(Write(cs, Low), e2, clk);
  }

  lemma SelectLevels(cs: Byte, clk: Byte, m: map<Byte, Level>)
    ensures LevelsAfter(m, Select(cs, clk)) == m[cs := Low][clk := Low]
  {
    var e6: seq<Event> := [Delay(TWACL)];
    var e5 := [Write(clk, Low)] + e6;
    var e4 := [Delay(TWACH)] + e5;
    var e3 := [Write(clk, High)] + e4;
    var e2 := [Delay(CSHCS)] + e3;
    assert Select(cs, clk) == [Write(cs, Low)] + e2;
    var m1 := m[cs := Low];
    ConsLevels(Delay(TWACL), [], m1[clk := Low]);
    ConsLevels(Write(clk, Low), e6, m1[clk := High]);
    ConsLevels(Delay(TWACH), e5, m1[clk := High]);
    ConsLevels(Write(clk, High), e4, m1);
    ConsLevels(Delay(CSHCS), e3, m1);
    ConsLevels(Write(cs, Low), e2, m);
    assert m1[clk := High][clk := Low] == m1[clk := Low];
  }

  /** One data pulse: one rising edge, the high and the low hold. */
  lemma DataPulsePulses(clk: Byte, data: Byte, v: int)
    ensures var es := DataPulse(clk, data, v);
            Count(es, Write(clk, High)) == 1 && DelayTotal(es) == TWACH + TWACL && MicrosCalls(es) == 0
  {
    var e5: seq<Event> := [Delay(TWACL)];
    var e4 := [Read(data, v)] + e5;
    var e3 := [Write(clk, Low)] + e4;
    var e2 := [Delay(TWACH)] + e3;
    assert DataPulse(clk, data, v) == [Write(clk, High)] + e2;
    ConsCounts(Delay(TWACL), [], clk);
    ConsCounts(Read(data, v), e5, clk);
    ConsCounts(Write(clk, Low), e4, clk);
    ConsCounts(Delay(TWACH), e3, clk);
    ConsCounts(Write(clk, High), e2, clk);
  }

  /** A data pulse's falling edge is followed by its one read of `data`. */
  lemma DataPulseEdges(clk: Byte, data: Byte, v: int)
    ensures var es := DataPulse(clk, data, v);
            EdgeReads(es, clk) == [true] && Reads(es) == [Read(data, v)]
            && es[|es| - 1] == Delay(TWACL)
  {
    var e5: seq<Event> := [Delay(TWACL)];
    var e4 := [Read(data, v)] + e5;
    var e3 := [Write(clk, Low)] + e4;
    var e2 := [Delay(TWACH)] + e3;
    assert DataPulse(clk, data, v) == [Write(clk, High)] + e2;
    ConsEdges(Delay(TWACL), [], clk);
    ConsEdges(Read(data, v), e5, clk);
    ConsEdges(Write(clk, Low), e4, clk);
    ConsEdges(Delay(TWACH), e3, clk);
    ConsEdges(Write(clk, High), e2, clk);
  }

  lemma DataPulseLevels(clk: Byte, data: Byte, v: int, m: map<Byte, Level>)
    ensures LevelsAfter(m, DataPulse(clk, data, v)) == m[clk := Low]
  {
    var e5: seq<Event> := [Delay(TWACL)];
    var e4 := [Read(data, v)] + e5;
    var e3 := [Write(clk, Low)] + e4;
    var e2 := [Delay(TWACH)] + e3;
    assert DataPulse(clk, data, v) == [Write(clk, High)] + e2;
    ConsLevels(Delay(TWACL), [], m[clk := Low]);
    ConsLevels(Read(data, v), e5, m[clk := Low]);
    ConsLevels(Write(clk, Low), e4, m[clk := High]);
    ConsLevels(Delay(TWACH), e3, m[clk := High]);
    ConsLevels(Write(clk, High), e2, m);
    assert m[clk := High][clk := Low] == m[clk := Low];
  }

  /** The data pulses: one rising edge and both holds per sample. */
  lemma {:induction false} DataPulsesPulses(clk: Byte, data: Byte, vs: seq<int>)
    ensures var es := DataPulses(clk, data, vs);
            Count(es, Write(clk, High)) == |vs| && DelayTotal(es) == |vs| * (TWACH + TWACL)
            && MicrosCalls(es) == 0
    decreases |vs|
  {
    if vs != [] {
      var n := |vs|;
      var a, b := DataPulses(clk, data, vs[..n - 1]), DataPulse(clk, data, vs[n - 1]);
      DataPulsesPulses(clk, data, vs[..n - 1]);
      DataPulsePulses(clk, data, vs[n - 1]);
      CountAppend(a, b, Write(clk, High));
      DelayTotalAppend(a, b);
      MicrosCallsAppend(a, b);
    }
  }

  /** Each data pulse's falling edge is followed by a read of `data`, and the reads take
      in the samples in order. */
  lemma {:induction false} DataPulsesEdges(clk: Byte, data: Byte, vs: seq<int>)
    ensures var es := DataPulses(clk, data, vs);
            EdgeReads(es, clk) == seq(|vs|, i => true)
            && Reads(es) == seq(|vs|, i requires 0 <= i < |vs| => Read(data, vs[i]))
            && (es == [] || es[|es| - 1] == Delay(TWACL))
    decreases |vs|
  {
    if vs != [] {
      var n := |vs|;
      var a, b := DataPulses(clk, data, vs[..n - 1]), DataPulse(clk, data, vs[n - 1]);
      DataPulsesEdges(clk, data, vs[..n - 1]);
      DataPulseEdges(clk, data, vs[n - 1]);
      EdgeReadsAppend(a, b, clk);
      ReadsAppend(a, b);
      assert Reads(a + b) == seq(n, i requires 0 <= i < n => Read(data, vs[i]));
      assert EdgeReads(a + b, clk) == seq(n, i => true);
    }
  }

  lemma {:induction false} DataPulsesLevels(clk: Byte, data: Byte, vs: seq<int>, m: map<Byte, Level>)
    ensures LevelsAfter(m, DataPulses(clk, data, vs)) == if vs == [] then m else m[clk := Low]
    decreases |vs|
  {
    if vs != [] {
      var n := |vs|;
      var a, b := DataPulses(clk, data, vs[..n - 1]), DataPulse(clk, data, vs[n - 1]);
      DataPulsesLevels(clk, data, vs[..n - 1], m);
      DataPulseLevels(clk, data, vs[n - 1], LevelsAfter(m, a));
      LevelsAfterAppend(m, a, b);
    }
  }

  /** Deselection: the stop pulse without a low hold, then CS high. */
  lemma DeselectPulses(cs: Byte, clk: Byte)
    requires cs != clk
    ensures var es := Deselect(cs, clk);
            Count(es, Write(clk, High)) == 1 && DelayTotal(es) == TWACH && MicrosCalls(es) == 0
  {
    var e4: seq<Event> := [Write(cs, High)];
    var e3 := [Write(clk, Low)] + e4;
    var e2 := [Delay(TWACH)] + e3;
    assert Deselect(cs, clk) == [Write(clk, High)] + e2;
    ConsCounts(Write(cs, High), [], clk);
    ConsCounts(Write(clk, Low), e4, clk);
    ConsCounts(Delay(TWACH), e3, clk);
    ConsCounts(Write(clk, High), e2, clk);
  }

  /** The stop pulse's falling edge is followed by CS high rather than by a read. */
  lemma DeselectEdges(cs: Byte, clk: Byte)
    requires cs != clk
    ensures var es := Deselect(cs, clk);
            EdgeReads(es, clk) == [false] && Reads(es) == [] && es[|es| - 1] == Write(cs, High)
  {
    var e4: seq<Event> := [Write(cs, High)];
    var e3 := [Write(clk, Low)] + e4;
    var e2 := [Delay(TWACH)] + e3;
    assert Deselect(cs, clk) == [Write(clk, High)] + e2;
    ConsEdges(Write(cs, High), [], clk);
    ConsEdges(Write(clk, Low), e4, clk);
    ConsEdges(Delay(TWACH), e3, clk);
    ConsEdges(Write(clk, High), e2, clk);
  }

  lemma DeselectLevels(cs: Byte, clk: Byte, m: map<Byte, Level>)
    ensures LevelsAfter(m, Deselect(cs, clk)) == m[clk := Low][cs := High]
  {
    var e4: seq<Event> := [Write(cs, High)];
    var e3 := [Write(clk, Low)] + e4;
    var e2 := [Delay(TWACH)] + e3;
    assert Deselect(cs, clk) == [Write(clk, High)] + e2;
    ConsLevels(Write(cs, High), [], m[clk := Low]);
    ConsLevels(Write(clk, Low), e4, m[clk := High]);
    ConsLevels(Delay(TWACH), e3, m[clk := High]);
    ConsLevels(Write(clk, High), e2, m);
    assert m[clk := High][clk := Low] == m[clk := Low];
  }

  /** Every digitalWrite of the log, in order, stamped with the delay time spent before
      it, counting from `t`. Between CS low and CS high no micros() call is made, so
      there these stamps are the pins' real timing. */
  function Timeline(es: seq<Event>, t: nat): seq<(Event, nat)>
    decreases |es|
  {
    if es == [] then []
    else (if es[0].Write? then [(es[0], t)] else [])
         + Timeline(es[1..], t + if es[0].Delay? then es[0].us else 0)
  }

  /** The delay time between the i-th and the next write of a timeline. */
  function Gap(tl: seq<(Event, nat)>, i: nat): int
    requires i + 1 < |tl|
  {
    tl[i + 1].1 as int - tl[i].1
  }

  /** The reference clock waveform: `n` pulses, each high for TWACH and then low for
      TWACL before the next one rises, the first rising at `t`. */
  function PulseTrain(clk: Byte, n: nat, t: nat): (r: seq<(Event, nat)>)
    ensures |r| == 2 * n
  {
    if n == 0 then []
    else PulseTrain(clk, n - 1, t)
         + [(Write(clk, High), t + (n - 1) * (TWACH + TWACL)),
            (Write(clk, Low), t + (n - 1) * (TWACH + TWACL) + TWACH)]
  }

  /** Write j of a pulse train: even writes are the rising edges, one period apart; each
      falling edge comes TWACH after its rising edge. */
  lemma {:induction false} PulseTrainAt(clk: Byte, n: nat, t: nat, j: nat)
    requires j < 2 * n
    ensures PulseTrain(clk, n, t)[j]
            == (Write(clk, if j % 2 == 0 then High else Low),
                t + (j / 2) * (TWACH + TWACL) + if j % 2 == 0 then 0 else TWACH)
    decreases n
  {
    if j < 2 * (n - 1) {
      PulseTrainAt(clk, n - 1, t, j);
    }
  }

  /** A train of n + 1 pulses is its first pulse followed by a train of n pulses one
      period later. */
  lemma {:induction false} PulseTrainCons(clk: Byte, n: nat, t: nat)
    ensures PulseTrain(clk, n + 1, t)
            == [(Write(clk, High), t), (Write(clk, Low), t + TWACH)]
               + PulseTrain(clk, n, t + TWACH + TWACL)
    decreases n
  {
    if n > 0 {
      PulseTrainCons(clk, n - 1, t);
    }
  }

  lemma {:induction false} TimelineAppend(a: seq<Event>, b: seq<Event>, t: nat)
    ensures Timeline(a + b, t) == Timeline(a, t) + Timeline(b, t + DelayTotal(a))
    decreases |a|
  {
    if a == [] {
      assert a + b == b;
    } else {
      assert (a + b)[0] == a[0] && (a + b)[1..] == a[1..] + b;
      TimelineAppend(a[1..], b, t + if a[0].Delay? then a[0].us else 0);
    }
  }

  /** The timeline of a log that starts with `x`. */
  lemma ConsTimeline(x: Event, rest: seq<Event>, t: nat)
    ensures Timeline([x] + rest, t)
            == (if x.Write? then [(x, t)] else []) + Timeline(rest, t + if x.Delay? then x.us else 0)
  {
    var es := [x] + rest;
    assert es[0] == x && es[1..] == rest;
  }

  /** The dead-time wait writes nothing and takes no delay. */
  lemma {:induction false} WaitTimeline(rs: seq<nat>, t: nat)
    ensures Timeline(MicrosReads(rs), t) == [] && DelayTotal(MicrosReads(rs)) == 0
    decreases |rs|
  {
    if rs != [] {
      var es := MicrosReads(rs);
      WaitTimeline(rs[1..], t);
      assert es == [MicrosRead(Micros32(rs[0]))] + MicrosReads(rs[1..]);
      ConsTimeline(MicrosRead(Micros32(rs[0])), MicrosReads(rs[1..]), t);
      ConsCounts(MicrosRead(Micros32(rs[0])), MicrosReads(rs[1..]), 0);
    }
  }

  /** Selection: CS falls, CLK rises CSHCS later and falls TWACH after that; the low hold
      of TWACL follows. */
  lemma SelectTimeline(cs: Byte, clk: Byte, t: nat)
    ensures var es := Select(cs, clk);
            Timeline(es, t)
            == [(Write(cs, Low), t), (Write(clk, High), t + CSHCS), (Write(clk, Low), t + CSHCS + TWACH)]
            && DelayTotal(es) == CSHCS + TWACH + TWACL
  {
    var e6: seq<Event> := [Delay(TWACL)];
    var e5 := [Write(clk, Low)] + e6;
    var e4 := [Delay(TWACH)] + e5;
    var e3 := [Write(clk, High)] + e4;
    var e2 := [Delay(CSHCS)] + e3;
    assert Select(cs, clk) == [Write(cs, Low)] + e2;
    ConsTimeline(Delay(TWACL), [], t + CSHCS + TWACH);
    ConsTimeline(Write(clk, Low), e6, t + CSHCS + TWACH);
    ConsTimeline(Delay(TWACH), e5, t + CSHCS);
    ConsTimeline(Write(clk, High), e4, t + CSHCS);
    ConsTimeline(Delay(CSHCS), e3, t);
    ConsTimeline(Write(cs, Low), e2, t);
    ConsCounts(Delay(TWACL), [], clk);
    ConsCounts(Write(clk, Low), e6, clk);
    ConsCounts(Delay(TWACH), e5, clk);
    ConsCounts(Write(clk, High), e4, clk);
    ConsCounts(Delay(CSHCS), e3, clk);
    ConsCounts(Write(cs, Low), e2, clk);
  }

  /** One data pulse: CLK rises, falls TWACH later; the read and the low hold follow. */
  lemma DataPulseTimeline(clk: Byte, data: Byte, v: int, t: nat)
    ensures Timeline(DataPulse(clk, data, v), t) == [(Write(clk, High), t), (Write(clk, Low), t + TWACH)]
  {
    var e5: seq<Event> := [Delay(TWACL)];
    var e4 := [Read(data, v)] + e5;
    var e3 := [Write(clk, Low)] + e4;
    var e2 := [Delay(TWACH)] + e3;
    assert DataPulse(clk, data, v) == [Write(clk, High)] + e2;
    ConsTimeline(Delay(TWACL), [], t + TWACH);
    ConsTimeline(Read(data, v), e5, t + TWACH);
    ConsTimeline(Write(clk, Low), e4, t + TWACH);
    ConsTimeline(Delay(TWACH), e3, t);
    ConsTimeline(Write(clk, High), e2, t);
  }

  /** The data pulses are a pulse train: one pulse per sample, one period apart. */
  lemma {:induction false} DataPulsesTimeline(clk: Byte, data: Byte, vs: seq<int>, t: nat)
    ensures Timeline(DataPulses(clk, data, vs), t) == PulseTrain(clk, |vs|, t)
    decreases |vs|
  {
    if vs != [] {
      var n := |vs|;
      var a, b := DataPulses(clk, data, vs[..n - 1]), DataPulse(clk, data, vs[n - 1]);
      DataPulsesTimeline(clk, data, vs[..n - 1], t);
      DataPulsesPulses(clk, data, vs[..n - 1]);
      DataPulseTimeline(clk, data, vs[n - 1], t + (n - 1) * (TWACH + TWACL));
      TimelineAppend(a, b, t);
    }
  }

  /** Deselection: the stop pulse, and CS rises at the moment CLK falls. */
  lemma DeselectTimeline(cs: Byte, clk: Byte, t: nat)
    ensures Timeline(Deselect(cs, clk), t)
            == [(Write(clk, High), t), (Write(clk, Low), t + TWACH), (Write(cs, High), t + TWACH)]
  {
    var e4: seq<Event> := [Write(cs, High)];
    var e3 := [Write(clk, Low)] + e4;
    var e2 := [Delay(TWACH)] + e3;
    assert Deselect(cs, clk) == [Write(clk, High)] + e2;
    ConsTimeline(Write(cs, High), [], t + TWACH);
    ConsTimeline(Write(clk, Low), e4, t + TWACH);
    ConsTimeline(Delay(TWACH), e3, t);
    ConsTimeline(Write(clk, High), e2, t);
  }
}
