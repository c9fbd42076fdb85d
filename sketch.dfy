/**
 * The sketch's global state and one pass of loop().  The globals are the fields of
 * class Station; Globals/Step give the same state and pass as values, so that
 * properties spanning several passes can be stated as lemmas.
 */
module Sketch {
  import opened MachineTypes
  import opened LedColour
  import opened TimeLine
  import opened CharBuffer
  import opened PollGate

  /** The value held in `currentTemp`: a number, or NaN after a failed sensor read. */
  datatype Temperature = Celsius(value: real) | NaN

  /** What readTemp() stores: the sensor's value, or NaN when the read failed (`None`). */
  function Stored(reading: Option<real>): (t: Temperature)
    ensures t.NaN? <==> reading.None?
    ensures reading.Some? ==> t.value == reading.value
  {
    match reading
    case Some(t) => Celsius(t)
    case None => NaN
  }

  /** `currentTemp < x` as a float comparison: false whenever currentTemp is NaN. */
  predicate Below(temp: Temperature, x: u16): (b: bool)
    ensures temp.NaN? ==> !b
    ensures temp.Celsius? ==> (b <==> temp.value < x as real)
  {
    temp.Celsius? && temp.value < x as real
  }

  /** `currentTemp > x` as a float comparison: false whenever currentTemp is NaN. */
  predicate Above(temp: Temperature, x: u16): (b: bool)
    ensures temp.NaN? ==> !b
    ensures temp.Celsius? ==> (b <==> temp.value > x as real)
  {
    temp.Celsius? && temp.value > x as real
  }

  /**
   * The value assigned to redBrightness in the middle branch of adjustLED(): the
   * scaled temperature truncated to `uint16_t`.  For NaN the conversion is undefined
   * in C++; the model takes its outcome, `nanCast`, as given.
   */
  function MiddleRed(temp: Temperature, nanCast: u16): (red: u16)
    requires !Below(temp, MIN_TEMP) && !Above(temp, MAX_TEMP)
    ensures temp.Celsius? ==>
              red <= FULL && red as real <= Scaled(temp.value, MIN_TEMP, MAX_TEMP) < red as real + 1.0
  {
    match temp
    case Celsius(t) => Scaled(t, MIN_TEMP, MAX_TEMP).Floor
    case NaN => nanCast
  }

  /**
   * The duty values after adjustLED(), given the previous ones in `led`.  For a
   * number it is Colour with the sketch's thresholds; for NaN both comparisons are
   * false and the middle branch runs.
   */
  function AdjustedLed(temp: Temperature, nanCast: u16, led: Rgb): (c: Rgb)
    ensures temp.Celsius? ==> c == Colour(temp.value, MIN_TEMP, MAX_TEMP, led.green)
    ensures temp.NaN? ==> c.red == nanCast && c.green == led.green
    ensures c.green == 0 || c.green == led.green
    ensures (c.red + c.blue) % TWO_POW_16 == FULL
  {
    if Below(temp, MIN_TEMP) then Rgb(0, 0, FULL)
    else if Above(temp, MAX_TEMP) then Rgb(FULL, 0, 0)
    else
      var red := MiddleRed(temp, nanCast);
      Rgb(red, led.green, Wrap16(FULL - red))
  }

  /** Everything the outside world supplies to one pass of loop(). */
  datatype Input = Input(
    now: u32,               // millis() at the top of loop()
    reading: Option<real>,  // dht.readTemperature(); None when it returns NaN
    failMillis: u32,        // millis() inside readTemp() after a failed read
    nanCast: u16,           // outcome of the undefined float-to-uint16_t conversion of NaN
    doneMillis: u32,        // millis() after adjustLED()
    clock: ClockTime)       // rtc.now()

  /** The sketch's globals as a value (line0 is not part of this model). */
  datatype Globals = Globals(lastReadTime: u32, currentTemp: Temperature, led: Rgb, line1: seq<char>)

  /** Static initialisation: everything zero, the display buffer all NUL. */
  function PowerOn(): (g: Globals)
    ensures Consistent(g)
    ensures CText(g.line1) == []
  {
    Globals(0, Celsius(0.0), Rgb(0, 0, 0), seq(LINE_BUFFER, _ => NUL))
  }

  /**
   * The LED duty values fit the stored temperature: for a number they are its colour;
   * after a failed read only red + blue = 255 (mod 2^16) is known.
   */
  predicate LedMatches(temp: Temperature, led: Rgb) {
    match temp
    case Celsius(t) => led == Colour(t, MIN_TEMP, MAX_TEMP, 0)
    case NaN => (led.red + led.blue) % TWO_POW_16 == FULL
  }

  /**
   * What holds of the globals at every pass: the buffer keeps its size, green is 0,
   * an LED that is off goes with the power-on temperature 0.0, and any other LED
   * value fits the stored temperature (LedMatches).
   */
  predicate Consistent(g: Globals) {
    && |g.line1| == LINE_BUFFER
    && g.led.green == 0
    && (g.led == Rgb(0, 0, 0) ==> g.currentTemp == Celsius(0.0))
    && (g.led != Rgb(0, 0, 0) ==> LedMatches(g.currentTemp, g.led))
  }

  /** One pass of loop() on the globals. */
  function Step(g: Globals, i: Input): (g': Globals)
    requires |g.line1| == LINE_BUFFER
    ensures |g'.line1| == LINE_BUFFER
    ensures CText(g'.line1) == Format(i.clock)
  {
    var polled :=
      if ReadDue(i.now, g.lastReadTime) then
        var temp := Stored(i.reading);
        g.(currentTemp := temp, led := AdjustedLed(temp, i.nanCast, g.led), lastReadTime := i.doneMillis)
      else g;
    ReadBack(g.line1, Format(i.clock));
    polled.(line1 := Sprintf(g.line1, Format(i.clock)))
  }

  /** The passes of loop() from power-on over the given inputs. */
  function Run(inputs: seq<Input>): (g: Globals)
    ensures |g.line1| == LINE_BUFFER
  {
    if inputs == [] then PowerOn() else Step(Run(inputs[..|inputs| - 1]), inputs[|inputs| - 1])
  }

  /** Every pass keeps the globals consistent. */
  lemma StepKeepsConsistent(g: Globals, i: Input)
    requires Consistent(g)
    ensures Consistent(Step(g, i))
  {
  }

  /**
   * From power-on, whatever the inputs: green stays 0; while the LED is off the
   * temperature is 0.0; otherwise the LED is the colour of a stored number, or has
   * red + blue = 255 (mod 2^16) after a failed read.
   */
  lemma {:induction false} RunConsistent(inputs: seq<Input>)
    ensures Consistent(Run(inputs))
    ensures Run(inputs).led.green == 0
  {
    if inputs != [] {
      RunConsistent(inputs[..|inputs| - 1]);
      StepKeepsConsistent(Run(inputs[..|inputs| - 1]), inputs[|inputs| - 1]);
    }
  }

  /** A successful read sets the LED to the colour of the new temperature. */
  lemma ReadSetsColour(g: Globals, i: Input)
    requires Consistent(g) && ReadDue(i.now, g.lastReadTime) && i.reading.Some?
    ensures Step(g, i).currentTemp == Celsius(i.reading.value)
    ensures Step(g, i).led == Colour(i.reading.value, MIN_TEMP, MAX_TEMP, 0)
    ensures Step(g, i).lastReadTime == i.doneMillis
  {
  }

  /**
   * A failed read stores NaN (the previous temperature is lost), still moves the
   * read time forward, and nothing is read again until the interval has passed
   * since that time.
   */
  lemma FailedReadThrottles(g: Globals, i1: Input, i2: Input)
    requires |g.line1| == LINE_BUFFER
    requires ReadDue(i1.now, g.lastReadTime) && i1.reading.None?
    requires Elapsed(i2.now, i1.doneMillis) < READ_INTERVAL
    ensures Step(g, i1).currentTemp == NaN
    ensures Step(g, i1).lastReadTime == i1.doneMillis
    ensures var g1 := Step(g, i1); var g2 := Step(g1, i2);
      g2.lastReadTime == g1.lastReadTime && g2.currentTemp == NaN && g2.led == g1.led
  {
  }

  /** A pass without a read changes nothing but the display line. */
  lemma IdlePassOnlyRefreshesDisplay(g: Globals, i: Input)
    requires |g.line1| == LINE_BUFFER && !ReadDue(i.now, g.lastReadTime)
    ensures Step(g, i) == g.(line1 := Sprintf(g.line1, Format(i.clock)))
  {
  }

  /** The sketch's global variables and the routines that assign them. */
  class Station {
    var lastReadTime: u32
    var currentTemp: Temperature
    var redBrightness: u16
    var greenBrightness: u16
    var blueBrightness: u16
    /** `char line1[17]`: the buffer is fixed, its characters change. */
    const line1: array<char>

    function Led(): Rgb
      reads this
    {
      Rgb(redBrightness, greenBrightness, blueBrightness)
    }

    function State(): Globals
      reads this, line1
    {
      Globals(lastReadTime, currentTemp, Led(), line1[..])
    }

    ghost predicate Valid()
      reads this, line1
    {
      Consistent(State())
    }

    /** The globals as static initialisation leaves them, before setup() runs. */
    constructor ()
      ensures Valid() && State() == PowerOn() && fresh(line1)
    {
      lastReadTime := 0;
      currentTemp := Celsius(0.0);
      redBrightness, greenBrightness, blueBrightness := 0, 0, 0;
      line1 := new char[LINE_BUFFER](_ => NUL);
      new;
      assert line1[..] == seq(LINE_BUFFER, _ => NUL);
    }

    /** readTemp(): store the reading; after a failure also record the time of the attempt. */
    method ReadTemp(reading: Option<real>, failMillis: u32)
      modifies this
      ensures currentTemp == Stored(reading)
      ensures lastReadTime == if reading.None? then failMillis else old(lastReadTime)
      ensures Led() == old(Led())
    {
      currentTemp := Stored(reading);
      if currentTemp.NaN? {
        lastReadTime := failMillis;
        return;
      }
    }

    /** adjustLED(): assign the three duty values from currentTemp. */
    method AdjustLed(nanCast: u16)
      modifies this
      ensures Led() == AdjustedLed(currentTemp, nanCast, old(Led()))
      ensures lastReadTime == old(lastReadTime) && currentTemp == old(currentTemp)
    {
      if Below(currentTemp, MIN_TEMP) {
        redBrightness := 0;
        greenBrightness := 0;
        blueBrightness := FULL;
      } else if Above(currentTemp, MAX_TEMP) {
        redBrightness := FULL;
        greenBrightness := 0;
        blueBrightness := 0;
      } else {
        redBrightness := MiddleRed(currentTemp, nanCast);
        blueBrightness := Wrap16(FULL - redBrightness);
      }
    }

    /** The time half of updateLCD(): format the clock reading into line1. */
    method UpdateLcd(clock: ClockTime)
      requires line1.Length == LINE_BUFFER
      modifies line1
      ensures line1[..] == Sprintf(old(line1[..]), Format(clock))
      ensures CText(line1[..]) == Format(clock)
    {
      var text := Format(clock);
      forall k | 0 <= k < |text| {
        line1[k] := text[k];
      }
      line1[|text|] := NUL;
      assert line1[..] == Sprintf(old(line1[..]), text);
      ReadBack(old(line1[..]), text);
    }

    /**
     * One pass of loop(): read and recolour when the interval has passed since the
     * last read, then refresh the display line in every case.
     */
    method Tick(i: Input)
      requires Valid()
      modifies this, line1
      ensures Valid()
      ensures State() == Step(old(State()), i)
      ensures ReadDue(i.now, old(lastReadTime)) ==>
                && lastReadTime == i.doneMillis
                && currentTemp == Stored(i.reading)
                && Led() == AdjustedLed(Stored(i.reading), i.nanCast, old(Led()))
      ensures !ReadDue(i.now, old(lastReadTime)) ==>
                && lastReadTime == old(lastReadTime)
                && currentTemp == old(currentTemp)
                && Led() == old(Led())
      ensures CText(line1[..]) == Format(i.clock)
    {
      if ReadDue(i.now, lastReadTime) {
        ReadTemp(i.reading, i.failMillis);
        AdjustLed(i.nanCast);
        lastReadTime := i.doneMillis;
      }
      UpdateLcd(i.clock);
      StepKeepsConsistent(old(State()), i);
    }
  }
}
