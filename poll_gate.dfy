/**
 * The gate in loop(): `currentMillis - lastReadTime >= readDHTInterval`, computed on
 * 32-bit unsigned values, so the difference is taken modulo 2^32 and stays correct
 * when millis() rolls over.
 */
module PollGate {
  import opened MachineTypes

  /** readDHTInterval: 2000 ms between sensor reads. */
  const READ_INTERVAL: u16 := 2000

  /** `now - last` on `unsigned long`: the time that has passed since `last`, modulo 2^32. */
  function Elapsed(now: u32, last: u32): (d: u32)
    ensures (last + d) % TWO_POW_32 == now
    ensures last <= now ==> d == now - last
  {
    (now - last) % TWO_POW_32
  }

  /** The condition under which loop() reads the sensor and recomputes the colour. */
  predicate ReadDue(now: u32, last: u32): (due: bool)
    ensures last <= now ==> (due <==> now - last >= READ_INTERVAL)
    ensures now < last ==> (due <==> now + TWO_POW_32 - last >= READ_INTERVAL)
  {
    Elapsed(now, last) >= READ_INTERVAL
  }

  /**
   * Elapsed measures exactly the time that passed, also across the rollover of
   * millis(): `d` milliseconds after `last` the clock reads `(last + d) mod 2^32`.
   */
  lemma ElapsedAfter(last: u32, d: u32)
    ensures Elapsed((last + d) % TWO_POW_32, last) == d
  {
  }

  /** `d` milliseconds after `last`, a read is due exactly when `d` reaches the interval. */
  lemma DueExactlyAfterInterval(last: u32, d: u32)
    ensures ReadDue((last + d) % TWO_POW_32, last) <==> d >= READ_INTERVAL
  {
  }

  /** A read 1000 ms before the rollover is followed by the next one 1000 ms after it. */
  lemma ReadDueAcrossRollover()
    ensures ReadDue(1000, TWO_POW_32 - 1000)
    ensures !ReadDue(999, TWO_POW_32 - 1000)
  {
  }
}
