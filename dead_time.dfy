/** Properties of the busy-wait `while (micros() - last_on < ADC_CSWCS);` that both
    readADC routines run before driving CS low: what each reading sees, how many there
    are, when there is no wait at all, and how a conversion times the next one through
    the static `last_on`. */
module DeadTime {
  import opened Hal
  import opened Timing
  import opened Protocol

  /** The micros() readings of the wait are one call apart; every test but the last finds
      the unsigned difference below CSWCS, the last finds it at least CSWCS. So the loop
      ends exactly at the first reading that shows the dead-time over. */
  lemma {:induction false} WaitReadingsShape(clock: nat, lastOn: u32, tick: Tick)
    ensures var rs := WaitReadings(clock, lastOn, tick);
            (forall i :: 0 <= i < |rs| ==> rs[i] == clock + i * tick)
            && (forall i :: 0 <= i < |rs| - 1 ==> Elapsed(Micros32(rs[i]), lastOn) as int < CSWCS)
            && Elapsed(Micros32(rs[|rs| - 1]), lastOn) as int >= CSWCS
    decreases CSWCS - Elapsed(Micros32(clock), lastOn) as int
  {
    var rs := WaitReadings(clock, lastOn, tick);
    if Elapsed(Micros32(clock), lastOn) as int < CSWCS {
      ElapsedStep(clock, lastOn, tick);
      WaitStep(clock, lastOn, tick);
      WaitReadingsShape(clock + tick, lastOn, tick);
      var rest := WaitReadings(clock + tick, lastOn, tick);
      assert rs == [clock] + rest;
      forall i | 1 <= i < |rs|
        ensures rs[i] == clock + i * tick
      {
        assert rs[i] == rest[i - 1] == clock + tick + (i - 1) * tick;
      }
      forall i | 1 <= i < |rs| - 1
        ensures Elapsed(Micros32(rs[i]), lastOn) as int < CSWCS
      {
        assert rs[i] == rest[i - 1];
      }
    } else {
      WaitDone(clock, lastOn, tick);
    }
  }

  /** Every reading the wait takes sees the difference of the first one grown by the
      calls made since: inside the window the difference never wraps. */
  lemma {:induction false} WaitReadingsElapsed(clock: nat, lastOn: u32, tick: Tick)
    ensures var rs := WaitReadings(clock, lastOn, tick);
            forall i :: 0 <= i < |rs| ==>
              Elapsed(Micros32(rs[i]), lastOn) as int == Elapsed(Micros32(clock), lastOn) as int + i * tick
    decreases CSWCS - Elapsed(Micros32(clock), lastOn) as int
  {
    var rs := WaitReadings(clock, lastOn, tick);
    if Elapsed(Micros32(clock), lastOn) as int < CSWCS {
      ElapsedStep(clock, lastOn, tick);
      WaitStep(clock, lastOn, tick);
      WaitReadingsElapsed(clock + tick, lastOn, tick);
      var rest := WaitReadings(clock + tick, lastOn, tick);
      forall i | 1 <= i < |rs|
        ensures Elapsed(Micros32(rs[i]), lastOn) as int
                == Elapsed(Micros32(clock), lastOn) as int + i * tick
      {
        assert rs[i] == rest[i - 1];
      }
    } else {
      WaitDone(clock, lastOn, tick);
    }
  }

  /** The wait calls micros() at most CSWCS + 1 times: each call moves the difference
      forward by at least one microsecond, starting from at least zero. */
  lemma {:induction false} WaitBounded(clock: nat, lastOn: u32, tick: Tick)
    ensures var e := Elapsed(Micros32(clock), lastOn) as int;
            |WaitReadings(clock, lastOn, tick)| <= if e < CSWCS then 1 + CSWCS - e else 1
    ensures |WaitReadings(clock, lastOn, tick)| <= CSWCS + 1
    decreases CSWCS - Elapsed(Micros32(clock), lastOn) as int
  {
    if Elapsed(Micros32(clock), lastOn) as int < CSWCS {
      ElapsedStep(clock, lastOn, tick);
      WaitStep(clock, lastOn, tick);
      WaitBounded(clock + tick, lastOn, tick);
    } else {
      WaitDone(clock, lastOn, tick);
    }
  }

  /** The loop body never runs exactly when the first reading already shows the
      dead-time over. */
  lemma NoWaitIff(clock: nat, lastOn: u32, tick: Tick)
    ensures |WaitReadings(clock, lastOn, tick)| == 1
            <==> Elapsed(Micros32(clock), lastOn) as int >= CSWCS
  {
    if Elapsed(Micros32(clock), lastOn) as int < CSWCS {
      WaitStep(clock, lastOn, tick);
    } else {
      WaitDone(clock, lastOn, tick);
    }
  }

  /** With the static `last_on` still at its initial 0, the first conversion does not
      wait exactly when micros() already reads at least CSWCS. */
  lemma FirstCallNoWait(clock: nat, tick: Tick)
    ensures |WaitReadings(clock, 0, tick)| == 1 <==> Micros32(clock) as int >= CSWCS
  {
    NoWaitIff(clock, 0, tick);
  }

  /** `x` microseconds after the moment micros() read `Micros32(d)`, the unsigned
      difference is `x` again, across a wrap of the 32-bit counter as well. */
  lemma ElapsedAfter(d: nat, x: nat)
    requires x < TWO32
    ensures Elapsed(Micros32(d + x), Micros32(d)) as int == x
  {
    var t := Micros32(d) as int;
    var t' := Micros32(d + x) as int;
    assert d == (d / TWO32) * TWO32 + t;
    assert d + x == ((d + x) / TWO32) * TWO32 + t';
    if t + x < TWO32 {
      assert (d + x) / TWO32 == d / TWO32;
    } else {
      assert (d + x) / TWO32 == d / TWO32 + 1;
    }
  }

  /** A conversion leaves `last_on` holding what micros() read one call before the
      conversion's own clock ends: the next reading sees exactly that one call. */
  lemma LastOnOneCallAgo(cs: Byte, clk: Byte, data: Byte, clock: nat, lastOn: u32, tick: Tick,
                         line: seq<int>)
    ensures var o1 := Conversion(cs, clk, data, clock, lastOn, tick, line);
            Elapsed(Micros32(o1.clock), o1.lastOn) as int == tick
  {
    var o1 := Conversion(cs, clk, data, clock, lastOn, tick, line);
    var rs0 := WaitReadings(clock, lastOn, tick);
    var d := rs0[|rs0| - 1] + tick + FrameMicros;
    assert o1.clock == d + tick && o1.lastOn == Micros32(d);
    ElapsedAfter(d, tick);
  }

  /** A wait whose first reading sees one call's duration: it takes a second reading
      exactly when one call is shorter than CSWCS, and ends on a reading that shows the
      dead-time over. */
  lemma WaitAfterOneCall(c: nat, since: u32, tick: Tick)
    requires Elapsed(Micros32(c), since) as int == tick
    ensures var rs := WaitReadings(c, since, tick);
            |rs| == (if tick < CSWCS then 2 else 1)
            && Elapsed(Micros32(rs[|rs| - 1]), since) as int >= CSWCS
  {
    if tick < CSWCS {
      ElapsedStep(c, since, tick);
      WaitStep(c, since, tick);
      WaitDone(c + tick, since, tick);
    } else {
      WaitDone(c, since, tick);
    }
    WaitReadingsShape(c, since, tick);
  }

  /** Two conversions back to back through the shared static, on any pins: the second
      one's first reading sees exactly the duration of the micros() call that stored
      `last_on`; it drives CS low only after a reading that shows the dead-time over, so
      it waits (one more call) exactly when that call took less than CSWCS. */
  lemma BackToBack(cs: Byte, clk: Byte, data: Byte, cs2: Byte, clk2: Byte, data2: Byte,
                   clock: nat, lastOn: u32, tick: Tick, line: seq<int>)
    ensures var o1 := Conversion(cs, clk, data, clock, lastOn, tick, line);
            var rs := WaitReadings(o1.clock, o1.lastOn, tick);
            var o2 := Conversion(cs2, clk2, data2, o1.clock, o1.lastOn, tick, o1.dataLine);
            Elapsed(Micros32(o1.clock), o1.lastOn) as int == tick
            && |rs| == (if tick < CSWCS then 2 else 1)
            && o2.events[|rs| - 1] == MicrosRead(Micros32(rs[|rs| - 1]))
            && Elapsed(Micros32(rs[|rs| - 1]), o1.lastOn) as int >= CSWCS
            && o2.events[|rs|] == Write(cs2, Low)
  {
    var o1 := Conversion(cs, clk, data, clock, lastOn, tick, line);
    LastOnOneCallAgo(cs, clk, data, clock, lastOn, tick, line);
    WaitAfterOneCall(o1.clock, o1.lastOn, tick);
    var rs := WaitReadings(o1.clock, o1.lastOn, tick);
    var o2 := Conversion(cs2, clk2, data2, o1.clock, o1.lastOn, tick, o1.dataLine);
    var m, rest := MicrosReads(rs), Frame(cs2, clk2, data2, Samples(o1.dataLine)) + [MicrosRead(o2.lastOn)];
    assert o2.events == m + rest;
    assert |m| == |rs| && m[|rs| - 1] == MicrosRead(Micros32(rs[|rs| - 1]));
    assert rest[0] == Write(cs2, Low);
    assert o2.events[|rs| - 1] == m[|rs| - 1] && o2.events[|rs|] == rest[0];
  }
}
