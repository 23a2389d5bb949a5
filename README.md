# MB4052 serial A/D protocol engine in Dafny

This project models the driver for the Fujitsu MB4052, a 4-channel 8-bit A/D converter that is read by bit-banging three lines:
- chip select CS, active low;
- the converter clock CLK;
- the converter's data output, DATA.

Two more lines, C0 and C1, pick the channel. The library comes in two forms:
- **The class pair.** `Arduino_MB4052_1ch` reads a hard-wired channel. `Arduino_MB4052` drives C0/C1 first and then runs the single-channel routine. Both share one function-local `static last_on`.
- **The template.** `MB4052<CS, CLK, DATA, C0, C1>` is the same routine with every member static. Each instantiation has its own `last_on`.

A conversion runs in this order:
1. Write the channel lines.
2. Busy-wait until `micros() - last_on >= ADC_CSWCS`. The subtraction is unsigned and 32 bits wide.
3. Drive CS low and hold for `ADC_CSHCS`.
4. Send a start pulse. No read is taken.
5. Send eight data pulses. DATA is read after each falling edge and shifted into a `uint8_t`, most significant bit first.
6. Send a stop pulse. No read is taken.
7. Drive CS high and store `micros()` in `last_on`.

## How the model is built

- `Hal` is the Arduino platform as a class `Env`.
  - **Calls.** `pinMode`, `digitalWrite`, `digitalRead`, `micros` and `delayMicroseconds` are its methods. Each call is appended to an event log.
  - **Pins.** Pin directions and output levels are maps.
  - **Time.** Time is an unbounded `clock`. `micros()` returns it modulo 2^32, so `unsigned long` wrap-around is explicit. A `micros()` call takes `tick` microseconds. `pinMode`, `digitalWrite` and `digitalRead` take no time; `delayMicroseconds` takes exactly its argument.
  - **Data line.** `digitalRead` consumes a scripted `dataLine`. Once the script is exhausted it reads 1, the level of the pull-up.
  - **Statics.** The statics live in the environment. `lastOn` is the one `last_on` shared by every object of both classes. `templateLastOn` holds one `last_on` per template instantiation, and a missing entry means the initial 0.
- `Timing` holds the seven delay constants of the class library.
- `Protocol` is the specification. Its functions give a conversion's log, result, end time, new `last_on` and remaining data line as functions of the starting state:
  - `WaitReadings` is the clock values at which the busy-wait calls `micros()`.
  - `Select`, `DataPulses` and `Deselect` are the signal phases.
  - `Conversion` and `ChannelConversion` are whole conversions.
- `Bits` defines packing MSB-first, both on the byte itself (`PackByte`, the source's `val <<= 1; val |= bit`) and as a number (`Pack`), plus its inverse `Unpack`.
- The code itself:
  - `Signals` holds the phases both drivers run, as imperative methods.
  - `ClassDriver` holds the two classes. C++ private inheritance is modelled as composition: `Mb4052` holds a `const base: Mb4052OneCh`.
  - `TemplateDriver` holds the template, with an instantiation given by the value of its five template arguments.
  - Every method is proved to produce exactly the log, result and new state that `Protocol` gives. The pins are `const` fields, as the C++ methods are `const`.
- The properties:
  - `Waveform` defines views of a log: CLK pulses counted, reads after falling edges, total delay, `micros()` calls, pin levels and pin modes replayed, and a timeline of every write stamped with the delay time before it.
  - `DeadTime`, `ConversionFacts` and `ChannelFacts` prove what the source promises about those views.
  - `Sessions` runs whole sessions from power-on through both libraries and compares them.

Three facts of the code shape the model:
- `last_on` is a function-local static (src/Arduino_MB4052.cpp:39, src/MB4052.h:73). In the class pair it is therefore shared by all objects of both classes, not kept per object.
- `Arduino_MB4052` privately inherits `Arduino_MB4052_1ch` (src/Arduino_MB4052.h:56), so the multi-channel class wraps the single-channel routine.
- `last_on` starts at 0, so the first conversion after reset waits exactly when `micros()` still reads below 2 (`DeadTime.FirstCallNoWait`).

## Model

| member | source | states |
|---|---|---|
| Hal.Elapsed | src/Arduino_MB4052.cpp:43 | `micros() - last_on` on unsigned long: the plain difference when `last_on` is not ahead, otherwise the difference plus 2^32 |
| Hal.LevelOf | src/Arduino_MB4052.cpp:101-102 | a value written to a pin is LOW exactly when it is 0 |
| Protocol.ElapsedStep | src/Arduino_MB4052.cpp:43-44 | inside the dead-time window, one more `micros()` call moves the unsigned difference forward by exactly the call's duration, without wrapping |
| Protocol.WaitReadings | src/Arduino_MB4052.cpp:43-44 | the busy-wait calls `micros()` at least once, first at the starting time |
| Bits.Pack | src/Arduino_MB4052.cpp:59-60 | n samples packed MSB-first give a number below 2^n |
| Bits.BitOf | src/Arduino_MB4052.cpp:60 | `digitalRead(..) ? 1 : 0`: the bit is 1 exactly for a nonzero reading |
| Bits.UnpackPack | src/Arduino_MB4052.cpp:54-62 | reading the packed number back digit by digit, most significant first, yields the samples' bits in sampling order |
| Bits.PackUnpack | src/Arduino_MB4052.cpp:54-62 | every number below 2^n is what packing its own n digits produces |
| Bits.PackLeavesTopBitClear | src/Arduino_MB4052.cpp:59 | before the eighth shift the accumulator's top bit is clear, so `val <<= 1` loses nothing |
| Bits.ShiftIn | src/Arduino_MB4052.cpp:59-60 | on a `uint8_t` with the top bit clear, `val <<= 1; val \|= b` doubles the value and adds the bit |
| Bits.PackByteValue | src/Arduino_MB4052.cpp:40-62 | for up to eight samples the byte accumulator equals the number whose binary digits are the samples |
| Bits.ShiftUp | src/Arduino_MB4052.cpp:59-60 | one shift-and-or moves every bit of the byte one place up |
| Bits.PackByteBits | src/Arduino_MB4052.cpp:54-62 | sample i of n ends up in bit n-1-i, and that bit is set exactly when the sample is nonzero |
| Signals.ClockPulse | src/Arduino_MB4052.cpp:48-50 | logs CLK high, the TWACH hold and CLK low; leaves CLK low; takes TWACH |
| Signals.Select | src/Arduino_MB4052.cpp:45-51 | logs CS low, the CSHCS hold and the start pulse with its TWACL hold; leaves CS and CLK low |
| Signals.Deselect | src/Arduino_MB4052.cpp:64-71 | logs the stop pulse without a low hold, then CS high; leaves CLK low and CS high |
| Signals.WaitDeadTime | src/Arduino_MB4052.cpp:42-44 | the loop calls `micros()` exactly at the times `WaitReadings` gives and returns one call after the last of them |
| Signals.ReadBits | src/Arduino_MB4052.cpp:54-62 | the eight-iteration loop returns `PackByte` of the first eight data-line values, logs eight data pulses, consumes eight values and takes 8·(TWACH+TWACL) |
| Signals.Convert | src/Arduino_MB4052.cpp:37-75 | one conversion against a given `last_on`: result, log, end time, new `last_on` and data line are those of `Protocol.Conversion`; CLK ends low and CS high |
| ClassDriver.Mb4052OneCh.constructor | src/Arduino_MB4052.cpp:22-23 | stores the three pins |
| ClassDriver.Mb4052OneCh.Begin | src/Arduino_MB4052.cpp:26-33 | DATA becomes INPUT_PULLUP and CS and CLK OUTPUT; CS is written high and CLK low; the log holds these calls in source order |
| ClassDriver.Mb4052OneCh.ReadAdc | src/Arduino_MB4052.cpp:37-75 | performs `Protocol.Conversion` against the shared static and stores the new `last_on` in it; CLK ends low and CS high |
| ClassDriver.Mb4052.constructor | src/Arduino_MB4052.cpp:85-86 | stores the three pins of the wrapped single-channel object and C0, C1 |
| ClassDriver.Mb4052.Begin | src/Arduino_MB4052.cpp:89-94 | single-channel set-up, then C0 and C1 become OUTPUT with no level written |
| ClassDriver.Mb4052.ReadAdc | src/Arduino_MB4052.cpp:99-104 | performs `Protocol.ChannelConversion` with the shared static: C0 := ch&1, C1 := (ch>>1)&1, then the single-channel conversion |
| TemplateDriver.EnumMatchesMacros | src/MB4052.h:41-50 | the template's `ADC_T_uS` enumerators equal the class library's macros |
| TemplateDriver.Begin | src/MB4052.h:57-66 | DATA INPUT_PULLUP, CS and CLK OUTPUT, CS high, CLK low, C0 and C1 OUTPUT, in source order |
| TemplateDriver.ReadAdc | src/MB4052.h:71-114 | performs `Protocol.ChannelConversion` against this instantiation's own static; updates only that entry |
| DeadTime.WaitReadingsShape | src/Arduino_MB4052.cpp:43-44 | readings are one call apart; every test but the last finds the difference below CSWCS, the last finds it at least CSWCS |
| DeadTime.WaitReadingsElapsed | src/Arduino_MB4052.cpp:43 | each reading's unsigned difference is the first one's plus the calls made since; it never wraps inside the window |
| DeadTime.WaitBounded | src/Arduino_MB4052.cpp:43-44 | the wait calls `micros()` at most 1 + CSWCS − (first difference) times, and never more than CSWCS + 1 |
| DeadTime.NoWaitIff | src/MB4052.h:80-82 | the loop body never runs exactly when the first reading already shows the dead-time over |
| DeadTime.FirstCallNoWait | src/MB4052.h:73-82 | with `last_on` still 0, the first conversion does not wait exactly when `micros()` reads at least CSWCS |
| DeadTime.ElapsedAfter | src/Arduino_MB4052.cpp:43 | x µs after a `micros()` reading, the unsigned difference to it is x, across a 32-bit wrap as well |
| DeadTime.LastOnOneCallAgo | src/Arduino_MB4052.cpp:71-72 | a conversion returns one `micros()` call after the reading it stored in `last_on` |
| DeadTime.WaitAfterOneCall | src/Arduino_MB4052.cpp:43-44 | a wait whose first difference is one call's duration takes two readings exactly when a call is shorter than CSWCS, and ends on one showing the dead-time over |
| DeadTime.BackToBack | src/Arduino_MB4052.cpp:39-72 | back-to-back conversions on any pins: the second sees exactly one call since `last_on`, waits exactly when that is below CSWCS, and drives CS low only after a reading that shows the dead-time over |
| ConversionFacts.ConversionPulses | src/Arduino_MB4052.cpp:48-68 | exactly ten CLK rising edges; the delays add up to CSHCS + 10·TWACH + 9·TWACL; `micros()` is called once per wait reading plus once for `last_on` |
| ConversionFacts.FrameTimeline | src/Arduino_MB4052.cpp:45-71 | the frame's writes in time: CS falls; ten CLK pulses follow, the first CSHCS later, each high for TWACH and then low for TWACL until the next; CS rises as the last one falls |
| ConversionFacts.ConversionTimeline | src/Arduino_MB4052.cpp:42-72 | the wait and the final `micros()` write nothing and take no delay, so a conversion's writes in time are exactly the frame's, with CS falling at 0 |
| ConversionFacts.ConversionPulseWidths | src/Arduino_MB4052.cpp:45-71 | pulse by pulse: CSHCS from CS low to the first rising edge; each of the ten pulses high for TWACH; TWACL low after the start pulse and after each data pulse; no time between the stop pulse's falling edge and CS high |
| ConversionFacts.FramePulses | src/Arduino_MB4052.cpp:45-71 | from CS low to CS high: ten CLK rising edges, the frame's delays, no `micros()` call |
| ConversionFacts.ConversionDuration | src/Arduino_MB4052.cpp:42-72 | time passes only in the delays and the `micros()` calls |
| ConversionFacts.FrameEdges | src/Arduino_MB4052.cpp:48-71 | within the frame, CLK falls once per pulse; only data pulses are followed by a read; the frame ends with CS high |
| ConversionFacts.ConversionEdges | src/Arduino_MB4052.cpp:48-68 | of the ten CLK falling edges, the start and stop pulses' are not followed by a read, and the eight data pulses' are |
| ConversionFacts.ConversionReads | src/Arduino_MB4052.cpp:54-62 | a conversion reads the data line exactly eight times and returns the data-line values in order |
| ConversionFacts.ConversionLevels | src/Arduino_MB4052.cpp:45-71 | replaying the log leaves CLK low, CS high and every other pin as it was |
| ConversionFacts.ConversionBoundaries | src/Arduino_MB4052.cpp:42-72 | before CS low only `micros()` calls, the last showing the dead-time over; then the CSHCS hold, right after which CLK rises; the log ends with CS high and the `micros()` whose value becomes `last_on` |
| ConversionFacts.ConversionValue | src/Arduino_MB4052.cpp:54-62 | sample i sets bit 7−i exactly when nonzero; the result is the samples read as binary digits, and its eight digits give the samples back |
| ConversionFacts.EveryValueReadable | src/Arduino_MB4052.h:50 | every value 0..255 is the result of some data line: the one carrying its own digits |
| ConversionFacts.PackByteUnpack | src/Arduino_MB4052.cpp:59-60 | packing a byte's eight digits gives the byte back |
| ConversionFacts.ExampleValue | src/Arduino_MB4052.cpp:54-62 | the samples 1,0,1,1,0,0,1,0 read as 0xB2 |
| ConversionFacts.IdleLineReadsAllOnes | src/Arduino_MB4052.cpp:28 | a line that is never driven reads at the pull-up level, giving 0xFF |
| ChannelFacts.ChannelLines | src/Arduino_MB4052.cpp:101-102 | C0 carries `ch mod 2` and C1 carries `(ch div 2) mod 2` |
| ChannelFacts.ChannelLowBits | src/MB4052.h:76-78 | channel numbers that agree in their low two bits give identical logs, results and end states |
| ChannelFacts.ChannelConversionShape | src/MB4052.h:76-86 | C0 then C1 are written first; between them and CS low there are only `micros()` calls, with no delay; the rest is the single-channel conversion |
| ChannelFacts.ChannelConversionLevels | src/Arduino_MB4052.cpp:99-104 | a channel conversion leaves C0 and C1 at the channel's bits, CLK low, CS high |
| ChannelFacts.BeginLevels | src/Arduino_MB4052.cpp:26-33 | begin leaves CS high and CLK low; the channel part of begin writes no level |
| ChannelFacts.BeginModes | src/MB4052.h:57-66 | begin makes DATA INPUT_PULLUP and CS, CLK, C0 and C1 OUTPUT |
| Sessions.ClassSession | src/Arduino_MB4052.cpp:89-104 | from power-on, begin and two reads through an `Arduino_MB4052` produce the values and log of `TwoReads` |
| Sessions.TemplateSession | src/MB4052.h:57-114 | the same session through `MB4052<...>` produces the same values and log |
| Sessions.ClassAndTemplateAgree | src/MB4052.h:7-9 | the two libraries issue the same platform calls and return the same values on the same pins and data line |
| Sessions.NextSelectWaits | src/Arduino_MB4052.cpp:39-46 | a conversion right after another through the same `last_on` drives CS low only after a reading that shows CSWCS elapsed since the first one's deselection |
| Sessions.SharedLastOn | src/Arduino_MB4052.cpp:39 | two single-channel objects on any pins share `last_on`: the second object's read waits for the first's dead-time |
| Sessions.SeparateStatics | src/MB4052.h:73 | two template instantiations have separate statics: the second is timed against its own `last_on` of 0; the first's static and the class static are left unchanged |

## Left out

- The Arduino primitives. `pinMode`, `digitalWrite`, `digitalRead`, `micros` and `delayMicroseconds` are environment methods that log the call and advance the clock. Their electrical effect and real-time accuracy are not modelled.
- Electrical behaviour: the pull-up itself, the analog level the converter digitizes, and whether the 100 kHz clock limit is met in wall-clock time. The values the converter puts on DATA are a script given in advance.
- Call durations. Only `micros()` takes time (`tick`, between 1 and 2^31 − 1 µs) and `delayMicroseconds` takes exactly its argument. `pinMode`, `digitalWrite` and `digitalRead` take none.
- The constructor `Arduino_MB4052() {}` declared inside the template `MB4052` (src/MB4052.h:54) has no behaviour to model. The template is used only through its static functions.
- Concurrency and interleaved calls. The source provides no locking.
- Include guards, the version macros and the `WProgram.h`/`Arduino.h` choice.
- Access control. The C++ private inheritance is modelled by composition: `Mb4052` holds the single-channel object and exposes no channel-less read. `protected`/`public` are not modelled.
- Shared helpers. Both drivers run their conversion through the shared `Signals` methods instead of inlining the statements as `MB4052.h` does. Their logs are proved equal statement by statement.
- The template's enumerators. These are proved equal to the class library's macros, and the shared helpers use the macro values.
- `ADC_CSSCS`, `ADC_CHHCH` and `ADC_PROPD` are declared but used by no routine. Their absence from the log is stated by `ChannelFacts.ChannelConversionShape` (no delay between the channel writes and CS low) and `ConversionFacts.ConversionPulses` (the delays add up to the frame time, which uses only TWACH, TWACL and CSHCS).
