/**
 * Whole-second time arithmetic of the music commands: the hours, minutes
 * and seconds shown by `playing`, and the minutes/seconds `divmod` shown by
 * `VoiceEntry.__str__`. For a positive divisor Dafny's `/` and `%` agree with
 * Python's floor division `//` and `%`, negative operands included.
 */
module Timing {
  import opened Wrappers

  /** A `[hh:mm:ss]` reading. */
  datatype Clock = Clock(hours: int, minutes: int, seconds: int)

  /** Minutes and seconds are each below sixty. */
  predicate Normal(c: Clock)
  {
    0 <= c.minutes < 60 && 0 <= c.seconds < 60
  }

  /** The number of seconds a reading stands for. */
  function TotalSeconds(c: Clock): int
  {
    c.hours * 3600 + c.minutes * 60 + c.seconds
  }

  /**
   * The display split of `playing`: whole hours, then the minutes and the
   * seconds of the remainder; a normal reading of exactly `elapsed` seconds.
   */
  function Breakdown(elapsed: int): (c: Clock)
    ensures Normal(c) && TotalSeconds(c) == elapsed
  {
    Clock(elapsed / 3600, (elapsed % 3600) / 60, elapsed % 60)
  }

  /** A normal reading is the only one `Breakdown` can give for its total. */
  lemma BreakdownOfTotal(c: Clock)
    requires Normal(c)
    ensures Breakdown(TotalSeconds(c)) == c
  {
  }

  /**
   * The `[length: Xm Ys]` part of an entry: absent when the duration is None
   * or 0 (both falsy in Python), otherwise minutes and seconds by `divmod` with 60.
   */
  function LengthParts(duration: Option<int>): (r: Option<(int, int)>)
    ensures r.Some? <==> duration.Some? && duration.value != 0
    ensures r.Some? ==> r.value.0 * 60 + r.value.1 == duration.value
    ensures r.Some? ==> 0 <= r.value.1 < 60
  {
    match duration
    case None => None
    case Some(d) => if d == 0 then None else Some((d / 60, d % 60))
  }
}
