/**
 * Go's 64-bit integers and the part of the `time` package that Publish uses
 * to turn a `time.Duration` (a count of nanoseconds) into whole milliseconds:
 * `d.Round(time.Millisecond).Nanoseconds() / time.Millisecond.Nanoseconds()`.
 */
module Durations {

  const MIN_INT64: int := -0x8000_0000_0000_0000
  const MAX_INT64: int := 0x7FFF_FFFF_FFFF_FFFF

  /** Go's int64 (and, on 64-bit platforms, int and time.Duration). */
  newtype int64 = x: int | -0x8000_0000_0000_0000 <= x < 0x8000_0000_0000_0000

  /** time.Millisecond, in nanoseconds. */
  const MILLISECOND: int64 := 1_000_000

  /**
   * Go's `%` by one millisecond: truncated division, so the remainder has
   * the sign of the dividend.
   */
  function RemMillisecond(a: int): (r: int)
    ensures -1_000_000 < r < 1_000_000
    ensures a >= 0 ==> 0 <= r <= a
    ensures a < 0 ==> a <= r <= 0
    ensures (a - r) % 1_000_000 == 0
  {
    if a >= 0 then a % 1_000_000 else -((-a) % 1_000_000)
  }

  /** Go's `/` by one millisecond: truncates toward zero. */
  function QuoMillisecond(a: int): (q: int)
    ensures a >= 0 ==> 0 <= q <= a
    ensures a < 0 ==> a <= q <= 0
    ensures q * 1_000_000 + RemMillisecond(a) == a
  {
    if a >= 0 then a / 1_000_000 else -((-a) / 1_000_000)
  }

  /**
   * d.Round(time.Millisecond): the multiple of a millisecond nearest to d,
   * halfway values rounded away from zero; a result that would leave the
   * int64 range saturates at the largest (smallest) Duration. (Round's
   * branch for a non-positive unit is not reachable from Publish.)
   */
  function RoundToMillisecond(d: int64): int64
  {
    var m := MILLISECOND as int;
    var r0 := RemMillisecond(d as int);
    if d < 0 then
      var r := -r0;
      if r + r < m then (d as int + r) as int64
      else if d as int - m + r >= MIN_INT64 then (d as int - m + r) as int64
      else MIN_INT64 as int64
    else
      var r := r0;
      if r + r < m then (d as int - r) as int64
      else if d as int + m - r <= MAX_INT64 then (d as int + m - r) as int64
      else MAX_INT64 as int64
  }

  /** The integer Publish stores for a duration attribute. */
  function DurationMillis(d: int64): int64
  {
    QuoMillisecond(RoundToMillisecond(d) as int) as int64
  }

  /**
   * q milliseconds is the whole number of milliseconds nearest to d
   * nanoseconds, a value exactly halfway between two being rounded away
   * from zero.
   */
  ghost predicate NearestMillis(d: int, q: int)
  {
    var e := d - q * 1_000_000;
    && -1_000_000 <= 2 * e <= 1_000_000
    && (2 * e == 1_000_000 ==> d < 0)
    && (2 * e == -1_000_000 ==> d > 0)
  }

  /** At most one count of milliseconds is nearest to a duration. */
  lemma NearestMillisUnique(d: int, q1: int, q2: int)
    requires NearestMillis(d, q1) && NearestMillis(d, q2)
    ensures q1 == q2
  {
  }

  /**
   * Below the saturation bound, the stored milliseconds are the nearest
   * whole number of milliseconds.
   */
  lemma DurationMillisIsNearest(d: int64)
    requires -9_223_372_036_854_500_000 < d as int < 9_223_372_036_854_500_000
    ensures NearestMillis(d as int, DurationMillis(d) as int)
  {
    var a := d as int;
    if a >= 0 {
      var r := a % 1_000_000;
      var k := a / 1_000_000;
      assert a == k * 1_000_000 + r;
      assert RemMillisecond(a) == r;
      if r + r < 1_000_000 {
        assert RoundToMillisecond(d) as int == k * 1_000_000;
        assert DurationMillis(d) as int == k;
      } else {
        assert k <= 9_223_372_036_853;
        assert RoundToMillisecond(d) as int == (k + 1) * 1_000_000;
        assert DurationMillis(d) as int == k + 1;
      }
    } else {
      var r := (-a) % 1_000_000;
      var k := (-a) / 1_000_000;
      assert -a == k * 1_000_000 + r;
      assert RemMillisecond(a) == -r;
      if r + r < 1_000_000 {
        assert RoundToMillisecond(d) as int == -(k * 1_000_000);
        assert DurationMillis(d) as int == -k;
      } else {
        assert k <= 9_223_372_036_853;
        assert RoundToMillisecond(d) as int == -((k + 1) * 1_000_000);
        assert DurationMillis(d) as int == -(k + 1);
      }
    }
  }

  /**
   * From 9223372036854.5 ms upward the nearest multiple of a millisecond is
   * not an int64: Round saturates at the largest Duration, and the division
   * then truncates, so Publish stores one millisecond less than the nearest.
   */
  lemma DurationMillisSaturatesAbove(d: int64)
    requires d as int >= 9_223_372_036_854_500_000
    ensures NearestMillis(d as int, 9_223_372_036_855)
    ensures DurationMillis(d) == 9_223_372_036_854
  {
    assert RemMillisecond(d as int) == d as int - 9_223_372_036_854_000_000;
  }

  /** The mirror image of DurationMillisSaturatesAbove for negative durations. */
  lemma DurationMillisSaturatesBelow(d: int64)
    requires d as int <= -9_223_372_036_854_500_000
    ensures NearestMillis(d as int, -9_223_372_036_855)
    ensures DurationMillis(d) == -9_223_372_036_854
  {
    assert RemMillisecond(d as int) == d as int + 9_223_372_036_854_000_000;
  }

  /** time.Duration(3123456) is stored as 3; halfway values go away from zero. */
  lemma DurationMillisExamples()
    ensures DurationMillis(3_123_456) == 3
    ensures DurationMillis(2_500_000) == 3
    ensures DurationMillis(-2_500_000) == -3
    ensures DurationMillis(-2_499_999) == -2
  {
    DurationMillisIsNearest(3_123_456);
    NearestMillisUnique(3_123_456, DurationMillis(3_123_456) as int, 3);
    DurationMillisIsNearest(2_500_000);
    NearestMillisUnique(2_500_000, DurationMillis(2_500_000) as int, 3);
    DurationMillisIsNearest(-2_500_000);
    NearestMillisUnique(-2_500_000, DurationMillis(-2_500_000) as int, -3);
    DurationMillisIsNearest(-2_499_999);
    NearestMillisUnique(-2_499_999, DurationMillis(-2_499_999) as int, -2);
  }
}
