/** NUL-terminated text in a fixed-size `char` buffer, as sprintf writes it and lcd.print reads it. */
module CharBuffer {

  const NUL: char := '\0'

  /** The text a C string function sees in `buf`: everything before the first NUL. */
  function CText(buf: seq<char>): (s: string)
    ensures |s| <= |buf|
    ensures NUL !in s
    ensures s == buf[..|s|]
    ensures |s| < |buf| ==> buf[|s|] == NUL
  {
    if |buf| == 0 || buf[0] == NUL then [] else [buf[0]] + CText(buf[1..])
  }

  /**
   * sprintf of `text` into `buf`: the characters of `text`, then the terminating NUL;
   * the bytes after the terminator are not touched.
   */
  function Sprintf(buf: seq<char>, text: string): (r: seq<char>)
    requires |text| < |buf|
    ensures |r| == |buf|
  {
    text + [NUL] + buf[|text| + 1..]
  }

  /** What sprintf wrote is exactly what a later reader of the buffer sees. */
  lemma {:induction false} ReadBack(buf: seq<char>, text: string)
    requires |text| < |buf| && NUL !in text
    ensures CText(Sprintf(buf, text)) == text
  {
    if text != [] {
      var r := Sprintf(buf, text);
      assert r[1..] == Sprintf(buf[1..], text[1..]);
      ReadBack(buf[1..], text[1..]);
    }
  }
}
