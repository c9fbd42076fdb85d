/**
 * The temperature-to-colour mapping of adjustLED(): below the lower threshold the
 * LED is pure blue, above the upper one pure red, and in between red rises linearly
 * with temperature while blue falls.  The float arithmetic is idealised as exact
 * real arithmetic; the assignment of the float to a `uint16_t` truncates.
 */
module LedColour {
  import opened MachineTypes

  /** Lower reference temperature: below it the LED is all blue; at it red is 0 and blue 255. */
  const MIN_TEMP: u16 := 22
  /** Upper reference temperature: at it the LED is all red. */
  const MAX_TEMP: u16 := 27
  /** Full duty of one LED channel. */
  const FULL: u16 := 255

  /** The three duty values redBrightness, greenBrightness, blueBrightness. */
  datatype Rgb = Rgb(red: u16, green: u16, blue: u16)

  /** Position of `t` between the thresholds, scaled to 0..255, before truncation. */
  function Scaled(t: real, lo: u16, hi: u16): (x: real)
    requires lo < hi
    ensures t == lo as real ==> x == 0.0
    ensures t == hi as real ==> x == FULL as real
    ensures lo as real <= t <= hi as real ==> 0.0 <= x <= FULL as real
  {
    (t - lo as real) / (hi - lo) as real * FULL as real
  }

  /**
   * The colour adjustLED() assigns for temperature `t`.  The two outer branches set
   * all three channels; the middle branch does not assign green, so `green`, the
   * previous value, is kept.
   */
  function Colour(t: real, lo: u16, hi: u16, green: u16): (c: Rgb)
    requires lo < hi
    ensures t < lo as real ==> c == Rgb(0, 0, FULL)
    ensures t > hi as real ==> c == Rgb(FULL, 0, 0)
    ensures lo as real <= t <= hi as real ==>
              && c.green == green
              && 0 <= c.red <= FULL && c.red + c.blue == FULL
              && c.red as real <= Scaled(t, lo, hi) < c.red as real + 1.0
  {
    if t < lo as real then Rgb(0, 0, FULL)
    else if t > hi as real then Rgb(FULL, 0, 0)
    else
      var red := Scaled(t, lo, hi).Floor;
      Rgb(red, green, FULL - red)
  }

  /** At the lower threshold the LED is all blue. */
  lemma AllBlueAtMin(lo: u16, hi: u16, green: u16)
    requires lo < hi
    ensures Colour(lo as real, lo, hi, green) == Rgb(0, green, FULL)
  {
  }

  /** At the upper threshold the LED is all red. */
  lemma AllRedAtMax(lo: u16, hi: u16, green: u16)
    requires lo < hi
    ensures Colour(hi as real, lo, hi, green) == Rgb(FULL, green, 0)
  {
    assert Scaled(hi as real, lo, hi) == FULL as real;
  }

  /** Over the whole range red never falls and blue never rises as the temperature rises. */
  lemma {:induction false} Monotone(t1: real, t2: real, lo: u16, hi: u16, green: u16)
    requires lo < hi && t1 <= t2
    ensures Colour(t1, lo, hi, green).red <= Colour(t2, lo, hi, green).red
    ensures Colour(t1, lo, hi, green).blue >= Colour(t2, lo, hi, green).blue
  {
    if lo as real <= t1 && t2 <= hi as real {
      var span := (hi - lo) as real;
      var x1, x2 := t1 - lo as real, t2 - lo as real;
      assert x2 / span - x1 / span == (x2 - x1) / span;
      assert (x2 - x1) / span >= 0.0;
      assert Scaled(t1, lo, hi) <= Scaled(t2, lo, hi);
    }
  }

  /** With the sketch's thresholds, 24.5 degrees is half way: truncation gives red 127, blue 128. */
  lemma HalfWay()
    ensures Colour(24.5, MIN_TEMP, MAX_TEMP, 0) == Rgb(127, 0, 128)
  {
  }

  /** The mapping has no hidden state: repeating it with its own green gives the same colour. */
  lemma Idempotent(t: real, lo: u16, hi: u16, green: u16)
    requires lo < hi
    ensures var c := Colour(t, lo, hi, green); Colour(t, lo, hi, c.green) == c
  {
  }
}
