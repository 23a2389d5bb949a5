/** The Arduino platform services the MB4052 driver calls into (pinMode, digitalWrite,
    digitalRead, micros, delayMicroseconds), modelled as an environment that records
    every call in an event log, together with the library's static storage. */
module Hal {

  /** uint8_t: pin numbers, channel numbers and conversion results. */
  type Byte = bv8

  /** The period of micros(): `unsigned long` is 32 bits wide on AVR. */
  const TWO32: int := 0x1_0000_0000

  /** unsigned long */
  newtype u32 = x: int | 0 <= x < 0x1_0000_0000

  /** The time one call of micros() takes, in microseconds. At least 1, so that the
      busy-wait on micros() makes progress, and well below the timer's period. */
  type Tick = t: nat | 1 <= t < 0x8000_0000 witness 1

  /** The value micros() returns when `clock` microseconds have passed since reset:
      the running time truncated to 32 bits. */
  function Micros32(clock: nat): (t: u32)
  {
    (clock % TWO32) as u32
  }

  /** `t - since` computed on unsigned long, i.e. modulo 2^32. */
  function Elapsed(t: u32, since: u32): (d: u32)
    ensures since <= t ==> d as int == t as int - since as int
    ensures t < since ==> d as int == TWO32 + t as int - since as int
  {
    ((t as int - since as int) % TWO32) as u32
  }

  datatype PinMode = Input | Output | InputPullup

  datatype Level = Low | High

  /** digitalWrite treats 0 (LOW) as low and every other value as high. */
  function LevelOf(v: Byte): (l: Level)
    ensures l == Low <==> v == 0
  {
    if v == 0 then Low else High
  }

  /** One call of a platform service, as the log records it. */
  datatype Event =
    | Mode(pin: Byte, mode: PinMode)      // pinMode(pin, mode)
    | Write(pin: Byte, level: Level)      // digitalWrite(pin, level)
    | Read(pin: Byte, value: int)         // digitalRead(pin) returned value
    | Delay(us: nat)                      // delayMicroseconds(us)
    | MicrosRead(t: u32)                  // micros() returned t

  /** The template arguments of one MB4052<CS, CLK, DATA, C0, C1> instantiation;
      each instantiation has its own static `last_on`. */
  datatype Instantiation = Instantiation(cs: Byte, clk: Byte, dataOut: Byte, c0: Byte, c1: Byte)

  /** The next value digitalRead returns: the head of the scripted data line, or 1 (the
      level the pull-up gives an undriven line) once the script is exhausted. */
  function Head(line: seq<int>): int
  {
    if |line| > 0 then line[0] else 1
  }

  function Tail(line: seq<int>): seq<int>
  {
    if |line| > 0 then line[1..] else []
  }

  /** A later digitalWrite to the same pin overrides an earlier one. */
  lemma Overwrite(m: map<Byte, Level>, p: Byte, a: Level, b: Level)
    ensures m[p := a][p := b] == m[p := b]
  {
  }

  /** ... also when a write to another pin lies between them. */
  lemma OverwriteAcross(m: map<Byte, Level>, p: Byte, q: Byte, a: Level, b: Level, c: Level)
    ensures m[p := a][q := b][p := c] == m[q := b][p := c]
  {
  }

  class Env {
    /** Pin directions and driven output levels as set so far (absent = never set). */
    var modes: map<Byte, PinMode>
    var levels: map<Byte, Level>
    /** Every platform call made so far, in order. */
    var log: seq<Event>
    /** Microseconds since reset, unbounded; micros() sees it modulo 2^32. */
    var clock: nat
    const tick: Tick
    /** What the converter will put on the data line at each successive digitalRead. */
    var dataLine: seq<int>
    /** The function-local static `last_on` of Arduino_MB4052_1ch::readADC: one
        variable shared by every Arduino_MB4052_1ch and Arduino_MB4052 object. */
    var lastOn: u32
    /** The static `last_on` of MB4052<...>::readADC, one per instantiation. */
    var templateLastOn: map<Instantiation, u32>

    /** Power-on: nothing configured, every static `last_on` still 0. */
    constructor (tick: Tick, clock: nat, dataLine: seq<int>)
      ensures this.tick == tick && this.clock == clock && this.dataLine == dataLine
      ensures modes == map[] && levels == map[] && log == []
      ensures lastOn == 0 && templateLastOn == map[]
    {
      this.tick := tick;
      this.clock := clock;
      this.dataLine := dataLine;
      modes, levels, log := map[], map[], [];
      lastOn, templateLastOn := 0, map[];
    }

    /** The static `last_on` of one template instantiation (0 until first written). */
    function TemplateLastOn(inst: Instantiation): (t: u32)
      reads this
      ensures inst !in templateLastOn ==> t == 0
    {
      if inst in templateLastOn then templateLastOn[inst] else 0
    }

    method PinMode(pin: Byte, mode: PinMode)
      modifies this`modes, this`log
      ensures modes == old(modes)[pin := mode]
      ensures log == old(log) + [Mode(pin, mode)]
    {
      modes := modes[pin := mode];
      log := log + [Mode(pin, mode)];
    }

    method DigitalWrite(pin: Byte, level: Level)
      modifies this`levels, this`log
      ensures levels == old(levels)[pin := level]
      ensures log == old(log) + [Write(pin, level)]
    {
      levels := levels[pin := level];
      log := log + [Write(pin, level)];
    }

    method DigitalRead(pin: Byte) returns (v: int)
      modifies this`dataLine, this`log
      ensures v == Head(old(dataLine)) && dataLine == Tail(old(dataLine))
      ensures log == old(log) + [Read(pin, v)]
    {
      v := Head(dataLine);
      dataLine := Tail(dataLine);
      log := log + [Read(pin, v)];
    }

    /** micros(): the current time modulo 2^32; the call itself takes `tick`. */
    method Micros() returns (t: u32)
      modifies this`clock, this`log
      ensures t == Micros32(old(clock)) && clock == old(clock) + tick
      ensures log == old(log) + [MicrosRead(t)]
    {
      t := Micros32(clock);
      clock := clock + tick;
      log := log + [MicrosRead(t)];
    }

    method DelayMicroseconds(us: nat)
      modifies this`clock, this`log
      ensures clock == old(clock) + us
      ensures log == old(log) + [Delay(us)]
    {
      clock := clock + us;
      log := log + [Delay(us)];
    }
  }
}
