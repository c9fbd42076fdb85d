# Temperature display sketch — verified model

A Dafny model of the control logic of an Arduino sketch (`src/main.cpp`) that polls
a DHT11 temperature sensor every 2000 ms, drives an RGB LED from blue (at or below
22 °C) to red (at or above 27 °C), and writes the time of a DS1307 real-time clock
to a 16x2 LCD on every pass of `loop()`.

The sketch's global variables are the fields of the class `Sketch.Station`;
`Tick` is one pass of `loop()`, calling `ReadTemp`, `AdjustLed` and `UpdateLcd` as
the sketch calls `readTemp()`, `adjustLED()` and `updateLCD()`. The same state as a
value (`Globals`) and the same pass as a function (`Step`) carry the lemmas that
span several passes. `Tick` is proved to equal `Step`.

Files:

- `machine_types.dfy`: `uint8_t`, `uint16_t` and 32-bit `unsigned long`, the
  wrap-around of an assignment to `uint16_t`, and `Option`.
- `led_colour.dfy`: the piecewise colour formula of `adjustLED()` on exact reals,
  with truncation to `uint16_t`.
- `poll_gate.dfy`: the unsigned 32-bit `currentMillis - lastReadTime >= 2000` gate.
- `time_line.dfy`: `"%02d:%02d:%02d"`, together with a parser that is its inverse.
- `char_buffer.dfy`: NUL-terminated text in a fixed `char` buffer. This is what
  `sprintf` writes and what `lcd.print` reads.
- `sketch.dfy`: the globals, one pass of `loop()`, the invariant every pass keeps,
  and the class.

Inputs from hardware are parameters of `Tick`, bundled in `Sketch.Input`:

- the three `millis()` readings of a pass (top of `loop()`, inside `readTemp()`
  after a failure, and after `adjustLED()`);
- the sensor's result, with `None` for NaN;
- the clock's hour, minute and second;
- `nanCast`, explained below.

## Behaviour of the code worth knowing

- **A failed read stores NaN.** `readTemp()` writes the sensor's result into
  `currentTemp` before testing it (`src/main.cpp:111`). After a failure the
  temperature is NaN, not the previous value. `Sketch.FailedReadThrottles` states this.
- **The colour is truncated, not rounded.** The float is assigned to a `uint16_t`
  (`src/main.cpp:149`), which truncates. At 24.5 °C red is 127 and blue 128
  (`LedColour.HalfWay`).
- **`millis()` rollover is handled.** The subtraction at `src/main.cpp:162` is on
  unsigned 32-bit values. It measures elapsed time correctly across the rollover
  (`PollGate.ElapsedAfter`, `PollGate.ReadDueAcrossRollover`).
- **`adjustLED()` also runs after a failed read.** Every comparison with NaN is
  false, so its middle branch runs. Converting NaN to `uint16_t` is undefined
  behaviour in C++. The pure formula `LedColour.Colour` is defined only for numbers.
  The model of the sketch's method takes the outcome of that conversion as the
  input `nanCast`, and its lemmas hold for every value it might have. Blue is then
  `255 - nanCast` wrapped to 16 bits, and green is unchanged.

## Model

| member | source | states |
|---|---|---|
| MachineTypes.Wrap16 | src/main.cpp:150 | storing an int into a `uint16_t` keeps it modulo 2^16, and leaves values in 0..65535 alone |
| LedColour.Colour | src/main.cpp:137-152 | below minTemp the colour is (0,0,255); above maxTemp it is (255,0,0); in between green keeps its previous value, red is in 0..255, red + blue = 255, and red is the truncation (largest integer not above) of (t − min)/(max − min)·255 |
| LedColour.Scaled | src/main.cpp:149 | the position of the temperature between the thresholds, scaled: 0 at minTemp, 255 at maxTemp, and within [0, 255] in between, so its truncation fits a duty value |
| LedColour.AllBlueAtMin | src/main.cpp:46-48 | at exactly minTemp the LED is all blue (red 0, blue 255) |
| LedColour.AllRedAtMax | src/main.cpp:46-48 | at exactly maxTemp the LED is all red (red 255, blue 0) |
| LedColour.Monotone | src/main.cpp:137-150 | over all temperatures, red never decreases and blue never increases as the temperature rises |
| LedColour.HalfWay | src/main.cpp:149-150 | with thresholds 22/27, 24.5 °C gives red 127, green 0, blue 128 (truncation, not rounding) |
| LedColour.Idempotent | src/main.cpp:137-152 | recomputing the colour from its own output gives the same colour; there is no hidden state |
| PollGate.Elapsed | src/main.cpp:160-162 | the unsigned difference is the unique d in 0..2^32−1 with last + d ≡ now (mod 2^32); it is the plain difference when no rollover happened |
| PollGate.ReadDue | src/main.cpp:162 | without rollover a read is due when now − last ≥ 2000; after a rollover (now < last) when now + 2^32 − last ≥ 2000 |
| PollGate.ElapsedAfter | src/main.cpp:162 | d ms after `last`, with the clock wrapped modulo 2^32, the elapsed time computed is exactly d |
| PollGate.DueExactlyAfterInterval | src/main.cpp:159-168 | d ms after the last read, a read is due if and only if d ≥ 2000 |
| PollGate.ReadDueAcrossRollover | src/main.cpp:160-162 | a read 1000 ms before the 2^32 rollover is followed by the next one 1000 ms after it, and not 1 ms earlier |
| TimeLine.Decimal | src/main.cpp:101 | `%d` of a non-negative int gives only digits with no leading zero: 1 digit below 10, 2 below 100, 3 below 1000 |
| TimeLine.DecimalRoundTrip | src/main.cpp:101 | reading the digits of `%d` back gives the number |
| TimeLine.ZeroPad2 | src/main.cpp:101 | `%02d` gives only digits, at least two: exactly two below 100 and three for 100..999 |
| TimeLine.ZeroPad2RoundTrip | src/main.cpp:101 | the zero padding does not change the value the digits denote |
| TimeLine.ZeroPad2OfDigits | src/main.cpp:101 | every two-digit string is what `%02d` prints for the number it denotes |
| TimeLine.Format | src/main.cpp:101 | for any `uint8_t` hour, minute and second, the line and its terminator fit `line1[17]` and contain no NUL; a wall-clock time gives 8 characters with ':' at positions 2 and 5 |
| TimeLine.ParseTimeLine | src/main.cpp:101 | whatever parses as HH:MM:SS has each field below 100 |
| TimeLine.FormatRoundTrip | src/main.cpp:101 | for fields below 100 the line parses back to the same hour, minute and second |
| TimeLine.ParsedLineIsFormat | src/main.cpp:101 | conversely, every line that parses is the line formatted for the parsed time |
| TimeLine.WallClockLine | src/main.cpp:101 | for hour 0..23 and minute/second 0..59 the line is exactly "HH:MM:SS", each field two digits denoting its value |
| CharBuffer.CText | src/main.cpp:106 | the text read from a buffer is its prefix up to the first NUL: it contains no NUL, and the character after it, if any, is NUL |
| CharBuffer.Sprintf | src/main.cpp:101 | writing text with its terminator keeps the buffer's size |
| CharBuffer.ReadBack | src/main.cpp:101-106 | what sprintf wrote into `line1` is exactly what lcd.print reads from it |
| Sketch.Stored | src/main.cpp:111 | currentTemp becomes NaN exactly when the read failed; otherwise it holds the value read |
| Sketch.Below | src/main.cpp:138 | `currentTemp < minTemp` is false for NaN and is the ordinary comparison for a number |
| Sketch.Above | src/main.cpp:143 | `currentTemp > maxTemp` is false for NaN and is the ordinary comparison for a number |
| Sketch.MiddleRed | src/main.cpp:148-150 | for a number in the middle branch, red is at most 255 and is the truncation of the scaled temperature: red ≤ scaled < red + 1 |
| Sketch.AdjustedLed | src/main.cpp:137-152 | for a number, adjustLED gives `Colour` with thresholds 22/27; for NaN, red is the undefined conversion's outcome and green is kept; green is only ever set to 0 or kept; red + blue ≡ 255 (mod 2^16) |
| Sketch.PowerOn | src/main.cpp:42-62 | the zero-initialised globals satisfy the invariant and line1 holds empty text |
| Sketch.Step | src/main.cpp:159-171 | every pass, read or not, leaves line1 holding exactly the formatted clock time |
| Sketch.Run | src/main.cpp:159-171 | any number of passes from power-on keeps the 17-character buffer |
| Sketch.StepKeepsConsistent | src/main.cpp:137-171 | every pass preserves the invariant: green is 0; if the LED is off (0,0,0) the temperature is 0.0; otherwise the LED is `Colour` of the stored number, or has red + blue ≡ 255 (mod 2^16) when NaN is stored |
| Sketch.RunConsistent | src/main.cpp:137-171 | from power-on, whatever the inputs, green is always 0; while the LED is off (0,0,0), as at power-on, currentTemp is 0.0; otherwise the LED is `Colour` of the stored number, or has red + blue ≡ 255 (mod 2^16) when a failed read stored NaN |
| Sketch.ReadSetsColour | src/main.cpp:162-167 | a pass that reads successfully stores the temperature, sets the LED to its colour with green 0, and sets lastReadTime to the later millis value |
| Sketch.FailedReadThrottles | src/main.cpp:109-168 | a failed read stores NaN and still advances lastReadTime; until 2000 ms after it, a later pass changes neither lastReadTime, the temperature nor the LED |
| Sketch.IdlePassOnlyRefreshesDisplay | src/main.cpp:159-171 | a pass with no read due changes nothing but line1 |
| Sketch.Station.constructor | src/main.cpp:42-62 | the globals start zeroed with line1 all NUL, and satisfy the invariant |
| Sketch.Station.ReadTemp | src/main.cpp:109-123 | the reading, or NaN, is stored; lastReadTime is set to the current millis only after a failure; the LED is untouched |
| Sketch.Station.AdjustLed | src/main.cpp:137-157 | the duty values become `AdjustedLed` of currentTemp and the previous values; nothing else changes |
| Sketch.Station.UpdateLcd | src/main.cpp:95-107 | line1 receives the formatted time and its NUL (later bytes untouched), and reads back as that time |
| Sketch.Station.Tick | src/main.cpp:159-171 | when (now − lastReadTime) mod 2^32 ≥ 2000: reads, recolours and sets lastReadTime to the later millis value; otherwise lastReadTime, the temperature and the LED are unchanged; the display line is refreshed on every pass; the invariant holds and the new state is `Step` of the old |

## Left out

- Hardware and library calls have no code here to model: `Serial.*`, `lcd.begin`,
  `lcd.setCursor`, `lcd.print`, `analogWrite`, `pinMode`, `dht.begin`,
  `dht.readTemperature` and `rtc.*`. Their results enter `Tick` as parameters.
  `analogWrite` amounts to the three duty fields, and `lcd.print` to what `CText`
  reads from `line1`.
- `setup()` is device provisioning, not control logic. It covers the `while (1);`
  halt when the clock is missing and seeding the clock from the build time. The
  constructor models only the static initialisation of the globals.
- Line 0 of the display (`dtostrf(currentTemp, 5, 2, …)` and the degree glyph) is
  float-to-decimal conversion inside a library. The `line0` buffer is not modelled.
- `tempSim()` is dead code: its call is commented out.
- Floating point is idealised as exact real arithmetic. The model has no `float`
  rounding, no infinities, and no NaN other than a failed read.
- Sketch.AdjustedLed: the NaN case models the undefined float-to-`uint16_t`
  conversion as yielding some value (`nanCast`). C++ gives no such guarantee.
- The thresholds and the interval are mutable globals in the sketch, but nothing
  assigns them, so they are constants here.
